/** What each operation of the remote backend (`GitHubStorage` in
    js/github-api.js) does to the remote repository and what it returns,
    as functions of the backend's readiness and the remote state before the
    call. `GitHubApi.GitHubStorage` implements them step by step; the lemmas
    here are the properties the backend promises. */
module RemoteSpec {
  import opened Documents
  import opened Remote
  import Strings

  const ProgressPath := "data/progress.json"

  /** `data/<dayKey>-day.json`: the on-disk schema of day documents. */
  function DayPath(k: string): string
  {
    "data/" + k + "-day.json"
  }

  lemma DayPathInjective(k1: string, k2: string)
    requires DayPath(k1) == DayPath(k2)
    ensures k1 == k2
  {
    var p := DayPath(k1);
    assert k1 == p[5..|p| - 9];
    assert k2 == DayPath(k2)[5..|p| - 9];
  }

  /** No day key maps onto the progress document. */
  lemma DayPathIsNotProgressPath(k: string)
    ensures DayPath(k) != ProgressPath
  {
    var p := DayPath(k);
    if |p| == |ProgressPath| {
      assert p[|k| + 5] == '-';
      assert ProgressPath[9] == 'r';
    }
  }

  /** `isConfigured = !token.includes('YOUR_')`. */
  predicate TokenUsable(token: string)
  {
    !Strings.Contains(token, "YOUR_")
  }

  /** Only the file at `path` may differ between `f` and `f2`. */
  ghost predicate OnlyChanged(f: map<string, RemoteFile>, f2: map<string, RemoteFile>, path: string)
  {
    forall p :: p != path ==> (p in f <==> p in f2) && (p in f ==> f[p] == f2[p])
  }

  /** No request of the script fails. */
  predicate Reliable(s: Server)
  {
    s.faults == []
  }

  function ReadFile(ready: bool, s: Server, path: string): (Result<RemoteFile>, Server)
  {
    if !ready then (Err(NotConfigured), s) else HandleGet(s, path)
  }

  /** The token `writeFile` sends: the one its own `readFile` returned, and
      none when that read failed, for whatever reason. */
  function ShaToForward(read: Result<RemoteFile>): Option<Sha>
  {
    if read.Ok? then Some(read.value.sha) else None
  }

  function WriteFile(ready: bool, s: Server, path: string, content: Value): (Result<()>, Server)
  {
    if !ready then (Err(NotConfigured), s)
    else
      var (read, s1) := ReadFile(ready, s, path);
      HandlePut(s1, path, content, ShaToForward(read))
  }

  /** `initialize`, as written: any failed read of the progress document,
      not only a 404, leads to writing an empty one. */
  function Initialize(ready: bool, s: Server, now: Timestamp): (bool, Server)
  {
    if !ready then (false, s)
    else
      var (read, s1) := ReadFile(ready, s, ProgressPath);
      if read.Ok? then (true, s1)
      else
        var (w, s2) := WriteFile(ready, s1, ProgressPath, Prog(EmptyProgress(now)));
        (w.Ok?, s2)
  }

  /** `initialize` as its own comment means it ("File doesn't exist, create
      it"): the empty document is written only after a 404; any other read
      failure reports the storage as unusable and writes nothing. */
  function InitializeOnlyWhenAbsent(ready: bool, s: Server, now: Timestamp): (bool, Server)
  {
    if !ready then (false, s)
    else
      var (read, s1) := ReadFile(ready, s, ProgressPath);
      if read.Ok? then (true, s1)
      else if read.error.NotFound? then
        var (w, s2) := WriteFile(ready, s1, ProgressPath, Prog(EmptyProgress(now)));
        (w.Ok?, s2)
      else (false, s1)
  }

  function UpdateProgress(ready: bool, s: Server, k: string, status: string, now: Timestamp): (Result<Progress>, Server)
  {
    var (read, s1) := ReadFile(ready, s, ProgressPath);
    if read.Err? then (Err(read.error), s1)
    else if !read.value.content.Prog? then (Err(ShapeError), s1)
    else
      var p := ApplyStatus(read.value.content.progress, k, status, now);
      var (w, s2) := WriteFile(ready, s1, ProgressPath, Prog(p));
      if w.Err? then (Err(w.error), s2) else (Ok(p), s2)
  }

  function WriteDayData(ready: bool, s: Server, k: string, v: Value): (Result<()>, Server)
  {
    WriteFile(ready, s, DayPath(k), v)
  }

  function ReadDayData(ready: bool, s: Server, k: string, now: Timestamp): (Result<Value>, Server)
  {
    var (read, s1) := ReadFile(ready, s, DayPath(k));
    if read.Ok? then (Ok(read.value.content), s1)
    else if IsNotFound(read.error) then
      var created := Day(NewDayDoc(k, now));
      var (w, s2) := WriteDayData(ready, s1, k, created);
      if w.Err? then (Err(w.error), s2) else (Ok(created), s2)
    else (Err(read.error), s1)
  }

  function AddMessage(ready: bool, s: Server, k: string, text: string, id: int, now: Timestamp): (Result<Message>, Server)
  {
    var (read, s1) := ReadDayData(ready, s, k, now);
    if read.Err? then (Err(read.error), s1)
    else if !read.value.Day? then (Err(ShapeError), s1)
    else
      var m := Message(id, text, now);
      var (w, s2) := WriteDayData(ready, s1, k, Day(AppendMessage(read.value.doc, m, now)));
      if w.Err? then (Err(w.error), s2) else (Ok(m), s2)
  }

  /** Never fails: any error, and a value without messages, give `[]`. */
  function GetMessages(ready: bool, s: Server, k: string, now: Timestamp): (seq<Message>, Server)
  {
    var (read, s1) := ReadDayData(ready, s, k, now);
    if read.Ok? && read.value.Day? then (read.value.doc.messages, s1) else ([], s1)
  }

  function DeleteMessage(ready: bool, s: Server, k: string, id: int, now: Timestamp): (Result<()>, Server)
  {
    var (read, s1) := ReadDayData(ready, s, k, now);
    if read.Err? then (Err(read.error), s1)
    else if !read.value.Day? then (Err(ShapeError), s1)
    else WriteDayData(ready, s1, k, Day(DeleteById(read.value.doc, id, now)))
  }

  function CompleteDay(ready: bool, s: Server, k: string, now: Timestamp): (Result<()>, Server)
  {
    var (read, s1) := ReadDayData(ready, s, k, now);
    if read.Err? then (Err(read.error), s1)
    else if !read.value.Day? then (Err(ShapeError), s1)
    else
      var (w, s2) := WriteDayData(ready, s1, k, Day(MarkComplete(read.value.doc, now)));
      if w.Err? then (Err(w.error), s2)
      else
        var (u, s3) := UpdateProgress(ready, s2, k, Completed, now);
        if u.Err? then (Err(u.error), s3) else (Ok(()), s3)
  }

  /** Never fails: any error gives a fresh empty progress document. */
  function GetProgress(ready: bool, s: Server, now: Timestamp): (Value, Server)
  {
    var (read, s1) := ReadFile(ready, s, ProgressPath);
    if read.Ok? then (read.value.content, s1) else (Prog(EmptyProgress(now)), s1)
  }
}
