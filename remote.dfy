/** The repository content API the remote backend talks to, as an abstract
    map from path to (document, revision token). Which requests fail in
    transit is not under the program's control: a script of faults, one per
    request, stands for the network and the server's other refusals. */
module Remote {
  import opened Documents

  /** The opaque revision token (`sha`) of one stored revision. */
  type Sha = nat

  datatype RemoteFile = RemoteFile(content: Value, sha: Sha)

  /** What becomes of one HTTP request: it reaches the repository, it is
      answered with some other non-OK status (authentication, rate limit,
      server error) and the given text, or it never gets an answer. */
  datatype Fault = Deliver | Refuse(reason: string) | Unreachable

  /** The remote state: stored files, the last revision number handed out,
      and the fates of the requests still to come (none left: all delivered). */
  datatype Server = Server(files: map<string, RemoteFile>, revision: nat, faults: seq<Fault>)

  function NextFault(s: Server): Fault
  {
    if s.faults == [] then Deliver else s.faults[0]
  }

  function Consume(s: Server): Server
  {
    s.(faults := if s.faults == [] then [] else s.faults[1..])
  }

  /** An ASSUMPTION about the hosting service, not code of this program: an
      overwrite is accepted only with the stored file's current token, a
      creation only without one. */
  predicate Accepts(files: map<string, RemoteFile>, path: string, sha: Option<Sha>)
  {
    if path in files then sha == Some(files[path].sha) else sha == None
  }

  /** The service's refusal text for a missing or stale token. */
  const ConflictMessage := "sha does not match the current revision"

  /** GET on a path: 404 when absent. */
  function HandleGet(s: Server, path: string): (r: (Result<RemoteFile>, Server))
    ensures r.1 == Consume(s)
    ensures r.0.Ok? <==> NextFault(s) == Deliver && path in s.files
    ensures r.0.Ok? ==> r.0.value == s.files[path]
    ensures r.0 == Err(NotFound(path)) <==> NextFault(s) == Deliver && path !in s.files
  {
    match NextFault(s)
    case Unreachable => (Err(NetworkError), Consume(s))
    case Refuse(t) => (Err(ReadFailed(path, t)), Consume(s))
    case Deliver =>
      if path in s.files then (Ok(s.files[path]), Consume(s))
      else (Err(NotFound(path)), Consume(s))
  }

  /** PUT of a whole document: a new revision, or a refusal that leaves every
      stored file as it was. */
  function HandlePut(s: Server, path: string, content: Value, sha: Option<Sha>): (r: (Result<()>, Server))
    ensures r.1.faults == Consume(s).faults
    ensures r.0.Ok? <==> NextFault(s) == Deliver && Accepts(s.files, path, sha)
    ensures r.0.Ok? ==> r.1.files == s.files[path := RemoteFile(content, s.revision + 1)]
    ensures r.0.Err? ==> r.1.files == s.files
  {
    match NextFault(s)
    case Unreachable => (Err(NetworkError), Consume(s))
    case Refuse(t) => (Err(WriteFailed(path, t)), Consume(s))
    case Deliver =>
      if Accepts(s.files, path, sha) then
        (Ok(()), Consume(s).(files := s.files[path := RemoteFile(content, s.revision + 1)],
                             revision := s.revision + 1))
      else (Err(WriteFailed(path, ConflictMessage)), Consume(s))
  }

  /** The remote repository as the one object every request changes. */
  class Repository {
    var files: map<string, RemoteFile>
    var revision: nat
    var faults: seq<Fault>

    function State(): Server
      reads this
    {
      Server(files, revision, faults)
    }

    constructor (files: map<string, RemoteFile>, faults: seq<Fault>)
      ensures State() == Server(files, 0, faults)
    {
      this.files := files;
      this.revision := 0;
      this.faults := faults;
    }

    method Get(path: string) returns (r: Result<RemoteFile>)
      modifies this
      ensures (r, State()) == HandleGet(old(State()), path)
    {
      var fault := NextFault(State());
      faults := Consume(State()).faults;
      match fault
      case Unreachable => r := Err(NetworkError);
      case Refuse(t) => r := Err(ReadFailed(path, t));
      case Deliver =>
        if path in files {
          r := Ok(files[path]);
        } else {
          r := Err(NotFound(path));
        }
    }

    method Put(path: string, content: Value, sha: Option<Sha>) returns (r: Result<()>)
      modifies this
      ensures (r, State()) == HandlePut(old(State()), path, content, sha)
    {
      var fault := NextFault(State());
      faults := Consume(State()).faults;
      match fault
      case Unreachable => r := Err(NetworkError);
      case Refuse(t) => r := Err(WriteFailed(path, t));
      case Deliver =>
        if Accepts(files, path, sha) {
          revision := revision + 1;
          files := files[path := RemoteFile(content, revision)];
          r := Ok(());
        } else {
          r := Err(WriteFailed(path, ConflictMessage));
        }
    }
  }
}
