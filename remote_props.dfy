/** Properties of the remote backend's operations (`RemoteSpec`): the token
    rules of `writeFile`, create-on-not-found in `readDayData`, the
    read-modify-write helpers, and the display reads that never fail. */
module RemoteProperties {
  import opened Documents
  import opened Remote
  import opened RemoteSpec

  /** Without a usable token every operation stops before any request:
      the repository and the fault script are untouched. */
  lemma NotReadyFailsFast(s: Server, path: string, content: Value, k: string, text: string,
                          id: int, status: string, now: Timestamp)
    ensures ReadFile(false, s, path) == (Err(NotConfigured), s)
    ensures WriteFile(false, s, path, content) == (Err(NotConfigured), s)
    ensures Initialize(false, s, now) == (false, s)
    ensures ReadDayData(false, s, k, now) == (Err(NotConfigured), s)
    ensures AddMessage(false, s, k, text, id, now) == (Err(NotConfigured), s)
    ensures DeleteMessage(false, s, k, id, now) == (Err(NotConfigured), s)
    ensures UpdateProgress(false, s, k, status, now) == (Err(NotConfigured), s)
    ensures CompleteDay(false, s, k, now) == (Err(NotConfigured), s)
    ensures GetMessages(false, s, k, now) == ([], s)
    ensures GetProgress(false, s, now) == (Prog(EmptyProgress(now)), s)
  {
  }

  /** `writeFile` forwards a token exactly when its own read succeeded, and
      then the current one. Any failed read, not only a 404, sends none, so
      (by the service's rule) an existing file is then refused and kept: a
      write succeeds iff the PUT gets through and either the file is absent
      or the read got through. */
  lemma WriteFileOutcome(s: Server, path: string, content: Value)
    ensures var read := ReadFile(true, s, path).0;
            ShaToForward(read) == if NextFault(s) == Deliver && path in s.files then Some(s.files[path].sha) else None
    ensures var (w, s2) := WriteFile(true, s, path, content);
            && (w.Ok? <==> NextFault(Consume(s)) == Deliver && (path !in s.files || NextFault(s) == Deliver))
            && (w.Ok? ==> s2.files == s.files[path := RemoteFile(content, s.revision + 1)])
            && (w.Err? ==> s2.files == s.files)
            && s2.faults == Consume(Consume(s)).faults
  {
  }

  /** A write to an existing file after a failed read is refused with the
      service's conflict message when it reaches the service: no blind overwrite. */
  lemma NoBlindOverwrite(s: Server, path: string, content: Value)
    requires path in s.files && NextFault(s) != Deliver && NextFault(Consume(s)) == Deliver
    ensures WriteFile(true, s, path, content).0 == Err(WriteFailed(path, ConflictMessage))
    ensures WriteFile(true, s, path, content).1.files == s.files
  {
  }

  /** `readDayData` of a stored day returns the stored value and writes nothing. */
  lemma ReadDayDataExisting(s: Server, k: string, now: Timestamp)
    requires NextFault(s) == Deliver && DayPath(k) in s.files
    ensures ReadDayData(true, s, k, now) == (Ok(s.files[DayPath(k)].content), Consume(s))
  {
  }

  /** On "not found" the default document is persisted and returned. */
  lemma ReadDayDataCreates(s: Server, k: string, now: Timestamp)
    requires Reliable(s) && DayPath(k) !in s.files
    ensures var (r, s2) := ReadDayData(true, s, k, now);
            && r == Ok(Day(NewDayDoc(k, now)))
            && s2.files == s.files[DayPath(k) := RemoteFile(Day(NewDayDoc(k, now)), s.revision + 1)]
            && Reliable(s2)
  {
  }

  /** Any other read failure is rethrown and nothing is written; a network
      failure is one of them. */
  lemma ReadDayDataRethrows(s: Server, k: string, now: Timestamp)
    requires ReadFile(true, s, DayPath(k)).0.Err? && !IsNotFound(ReadFile(true, s, DayPath(k)).0.error)
    ensures ReadDayData(true, s, k, now) == (Err(ReadFile(true, s, DayPath(k)).0.error), Consume(s))
  {
  }

  lemma ReadDayDataNetworkFailure(s: Server, k: string, now: Timestamp)
    requires NextFault(s) == Unreachable
    ensures ReadDayData(true, s, k, now) == (Err(NetworkError), Consume(s))
  {
  }

  /** Whatever `readDayData` returns is what the repository then holds at
      the day's path, and no other file changes. */
  lemma ReadDayDataStored(ready: bool, s: Server, k: string, now: Timestamp)
    ensures var (r, s2) := ReadDayData(ready, s, k, now);
            && (r.Ok? ==> DayPath(k) in s2.files && s2.files[DayPath(k)].content == r.value)
            && OnlyChanged(s.files, s2.files, DayPath(k))
  {
  }

  /** An immediate re-read gives the same document. */
  lemma ReadDayDataReread(s: Server, k: string, now: Timestamp, later: Timestamp)
    requires ReadDayData(true, s, k, now).0.Ok? && NextFault(ReadDayData(true, s, k, now).1) == Deliver
    ensures ReadDayData(true, ReadDayData(true, s, k, now).1, k, later).0 == ReadDayData(true, s, k, now).0
  {
    ReadDayDataStored(true, s, k, now);
  }

  /** The messages stored for a day; none when there is no day document. */
  function StoredMessages(s: Server, k: string): seq<Message>
  {
    if DayPath(k) in s.files && s.files[DayPath(k)].content.Day? then s.files[DayPath(k)].content.doc.messages else []
  }

  /** The day's path holds a day document or nothing. */
  predicate DayWellFormed(s: Server, k: string)
  {
    DayPath(k) in s.files ==> s.files[DayPath(k)].content.Day?
  }

  /** `addMessage` writes back the loaded document with exactly one message
      appended at the end, returns that message, and touches no other file. */
  lemma AddMessageAppends(s: Server, k: string, text: string, id: int, now: Timestamp)
    ensures var read := ReadDayData(true, s, k, now).0;
            var (r, s2) := AddMessage(true, s, k, text, id, now);
            && OnlyChanged(s.files, s2.files, DayPath(k))
            && (r.Ok? ==> && read.Ok? && read.value.Day? && r.value == Message(id, text, now)
                          && DayPath(k) in s2.files
                          && s2.files[DayPath(k)].content == Day(AppendMessage(read.value.doc, r.value, now)))
  {
    ReadDayDataStored(true, s, k, now);
  }

  /** Over a reliable link `addMessage` succeeds and appends to what was stored. */
  lemma AddMessageReliable(s: Server, k: string, text: string, id: int, now: Timestamp)
    requires Reliable(s) && DayWellFormed(s, k)
    ensures var (r, s2) := AddMessage(true, s, k, text, id, now);
            && r == Ok(Message(id, text, now))
            && Reliable(s2) && DayWellFormed(s2, k)
            && StoredMessages(s2, k) == StoredMessages(s, k) + [Message(id, text, now)]
            && OnlyChanged(s.files, s2.files, DayPath(k))
  {
    if DayPath(k) !in s.files {
      ReadDayDataCreates(s, k, now);
    }
  }

  /** The messages minted by a series of calls, in call order. */
  function Minted(texts: seq<string>, ids: seq<int>, nows: seq<Timestamp>): (r: seq<Message>)
    requires |ids| == |texts| && |nows| == |texts|
  {
    seq(|texts|, i requires 0 <= i < |texts| => Message(ids[i], texts[i], nows[i]))
  }

  /** `addMessage` called once per text, each call awaited before the next. */
  function AddInOrder(s: Server, k: string, texts: seq<string>, ids: seq<int>, nows: seq<Timestamp>): Server
    requires |ids| == |texts| && |nows| == |texts|
    decreases |texts|
  {
    if texts == [] then s
    else AddInOrder(AddMessage(true, s, k, texts[0], ids[0], nows[0]).1, k, texts[1..], ids[1..], nows[1..])
  }

  /** One awaited call of a series: the state the next call starts from. */
  lemma AddStep(s: Server, k: string, text: string, id: int, now: Timestamp)
    requires Reliable(s) && DayWellFormed(s, k)
    ensures var s1 := AddMessage(true, s, k, text, id, now).1;
            Reliable(s1) && DayWellFormed(s1, k) && StoredMessages(s1, k) == StoredMessages(s, k) + [Message(id, text, now)]
  {
    AddMessageReliable(s, k, text, id, now);
  }

  lemma MintedFirst(texts: seq<string>, ids: seq<int>, nows: seq<Timestamp>)
    requires |ids| == |texts| && |nows| == |texts| && texts != []
    ensures Minted(texts, ids, nows) == [Message(ids[0], texts[0], nows[0])] + Minted(texts[1..], ids[1..], nows[1..])
  {
  }

  /** Sequential calls leave exactly one new message per call, in call order,
      after the messages already stored. */
  lemma {:induction false} SequentialAddsKeepCallOrder(s: Server, k: string, texts: seq<string>,
                                                       ids: seq<int>, nows: seq<Timestamp>)
    requires |ids| == |texts| && |nows| == |texts|
    requires Reliable(s) && DayWellFormed(s, k)
    ensures StoredMessages(AddInOrder(s, k, texts, ids, nows), k) == StoredMessages(s, k) + Minted(texts, ids, nows)
    ensures Reliable(AddInOrder(s, k, texts, ids, nows))
    decreases |texts|
  {
    if texts == [] {
      assert Minted(texts, ids, nows) == [];
    } else {
      AddStep(s, k, texts[0], ids[0], nows[0]);
      var s1 := AddMessage(true, s, k, texts[0], ids[0], nows[0]).1;
      assert AddInOrder(s, k, texts, ids, nows) == AddInOrder(s1, k, texts[1..], ids[1..], nows[1..]);
      SequentialAddsKeepCallOrder(s1, k, texts[1..], ids[1..], nows[1..]);
      MintedFirst(texts, ids, nows);
    }
  }

  /** `deleteMessage` writes back exactly the messages whose id differs. */
  lemma DeleteMessageFilters(s: Server, k: string, id: int, now: Timestamp)
    requires Reliable(s) && DayPath(k) in s.files && s.files[DayPath(k)].content.Day?
    ensures var (r, s2) := DeleteMessage(true, s, k, id, now);
            && r.Ok?
            && s2.files == s.files[DayPath(k) := RemoteFile(Day(DeleteById(s.files[DayPath(k)].content.doc, id, now)), s.revision + 1)]
            && StoredMessages(s2, k) == WithoutId(StoredMessages(s, k), id)
  {
  }

  /** Deleting an id no message carries leaves the messages as they were. */
  lemma DeleteAbsentIdKeepsMessages(s: Server, k: string, id: int, now: Timestamp)
    requires Reliable(s) && DayPath(k) in s.files && s.files[DayPath(k)].content.Day?
    requires forall m :: m in StoredMessages(s, k) ==> m.id != id
    ensures DeleteMessage(true, s, k, id, now).0.Ok?
    ensures StoredMessages(DeleteMessage(true, s, k, id, now).1, k) == StoredMessages(s, k)
  {
    var ms := StoredMessages(s, k);
    forall i | 0 <= i < |ms| ensures ms[i].id != id {
      assert ms[i] in ms;
    }
    WithoutAbsentId(ms, id);
    DeleteMessageFilters(s, k, id, now);
  }

  /** The progress document at its path, if it is one. */
  predicate HasProgress(s: Server)
  {
    ProgressPath in s.files && s.files[ProgressPath].content.Prog?
  }

  function StoredProgress(s: Server): Progress
    requires HasProgress(s)
  {
    s.files[ProgressPath].content.progress
  }

  /** `updateProgress` writes back the set-add of the status and returns it. */
  lemma UpdateProgressReliable(s: Server, k: string, status: string, now: Timestamp)
    requires Reliable(s) && HasProgress(s)
    ensures var (r, s2) := UpdateProgress(true, s, k, status, now);
            && r == Ok(ApplyStatus(StoredProgress(s), k, status, now))
            && s2.files == s.files[ProgressPath := RemoteFile(Prog(r.value), s.revision + 1)]
            && Reliable(s2)
  {
  }

  /** Unlike day documents, a missing progress document is not created. */
  lemma UpdateProgressNeedsDocument(s: Server, k: string, status: string, now: Timestamp)
    requires Reliable(s) && ProgressPath !in s.files
    ensures UpdateProgress(true, s, k, status, now) == (Err(NotFound(ProgressPath)), s)
  {
  }

  /** Two `updateProgress(k, 'completed')` calls in a row list `k` once. */
  lemma CompletedTwiceOnRemote(s: Server, k: string, t1: Timestamp, t2: Timestamp)
    requires Reliable(s) && HasProgress(s) && ProgressValid(StoredProgress(s))
    ensures var s2 := UpdateProgress(true, UpdateProgress(true, s, k, Completed, t1).1, k, Completed, t2).1;
            HasProgress(s2) && Count(StoredProgress(s2).daysCompleted, k) == 1
            && StoredProgress(s2).daysUnlocked == StoredProgress(s).daysUnlocked
  {
    UpdateProgressReliable(s, k, Completed, t1);
    var s1 := UpdateProgress(true, s, k, Completed, t1).1;
    UpdateProgressReliable(s1, k, Completed, t2);
    CompletedTwiceListedOnce(StoredProgress(s), k, t1, t2);
  }

  /** `completeDay` stamps the day document, then adds the day to
      `daysCompleted`; `daysUnlocked`, the messages and every other file
      stay as they were. */
  lemma CompleteDayReliable(s: Server, k: string, now: Timestamp)
    requires Reliable(s) && DayWellFormed(s, k) && HasProgress(s)
    ensures var (r, s2) := CompleteDay(true, s, k, now);
            && r == Ok(())
            && DayPath(k) in s2.files && s2.files[DayPath(k)].content.Day?
            && s2.files[DayPath(k)].content.doc.completedAt == Some(now)
            && StoredMessages(s2, k) == StoredMessages(s, k)
            && HasProgress(s2)
            && StoredProgress(s2) == ApplyStatus(StoredProgress(s), k, Completed, now)
            && StoredProgress(s2).daysUnlocked == StoredProgress(s).daysUnlocked
            && k in StoredProgress(s2).daysCompleted
            && forall p :: p != DayPath(k) && p != ProgressPath ==> (p in s.files <==> p in s2.files) && (p in s.files ==> s.files[p] == s2.files[p])
  {
    DayPathIsNotProgressPath(k);
    if DayPath(k) !in s.files {
      ReadDayDataCreates(s, k, now);
    }
  }

  /** With no progress document, `completeDay` fails with "not found" from
      `updateProgress`, after the day document was already marked complete. */
  lemma CompleteDayWithoutProgress(s: Server, k: string, now: Timestamp)
    requires Reliable(s) && DayWellFormed(s, k) && ProgressPath !in s.files
    ensures var (r, s2) := CompleteDay(true, s, k, now);
            && r == Err(NotFound(ProgressPath))
            && DayPath(k) in s2.files && s2.files[DayPath(k)].content.Day?
            && s2.files[DayPath(k)].content.doc.completedAt == Some(now)
            && ProgressPath !in s2.files
  {
    DayPathIsNotProgressPath(k);
    if DayPath(k) !in s.files {
      ReadDayDataCreates(s, k, now);
    }
  }

  /** Over a reliable link `initialize` succeeds and leaves a progress
      document in place: the stored one, or an empty one when there was none. */
  lemma InitializeReliable(s: Server, now: Timestamp)
    requires Reliable(s)
    ensures var (ok, s2) := Initialize(true, s, now);
            && ok && ProgressPath in s2.files
            && s2.files[ProgressPath].content == (if ProgressPath in s.files then s.files[ProgressPath].content else Prog(EmptyProgress(now)))
  {
  }

  /** As written, one transiently failed read of an existing progress
      document (here a 503) followed by a successful one inside `writeFile`
      replaces it by an empty document: the completed days are lost. */
  lemma InitializeResetsProgress()
    ensures var p := Progress(["rose"], ["rose"], "t0", "t0");
            var s := Server(map[ProgressPath := RemoteFile(Prog(p), 1)], 1, [Refuse("Service Unavailable")]);
            var (ok, s2) := Initialize(true, s, "t1");
            && ok
            && s2.files[ProgressPath].content == Prog(EmptyProgress("t1"))
            && s2.files[ProgressPath].content != s.files[ProgressPath].content
  {
  }

  /** Seeding only after a 404 never touches an existing progress document. */
  lemma InitializeNeverOverwrites(ready: bool, s: Server, now: Timestamp)
    requires ProgressPath in s.files
    ensures var s2 := InitializeOnlyWhenAbsent(ready, s, now).1;
            ProgressPath in s2.files && s2.files[ProgressPath] == s.files[ProgressPath]
  {
  }

  /** Where nothing fails it behaves as the code as written does. */
  lemma InitializeOnlyWhenAbsentAgrees(s: Server, now: Timestamp)
    requires Reliable(s)
    ensures InitializeOnlyWhenAbsent(true, s, now) == Initialize(true, s, now)
  {
  }

  /** A failed read never reaches the caller of `getProgress`: it gets an
      empty progress document and nothing is written. */
  lemma GetProgressFallsBack(s: Server, now: Timestamp)
    requires ReadFile(true, s, ProgressPath).0.Err?
    ensures GetProgress(true, s, now) == (Prog(EmptyProgress(now)), Consume(s))
  {
  }

  /** `getMessages` gives the stored messages, or `[]` when loading failed. */
  lemma GetMessagesResult(s: Server, k: string, now: Timestamp)
    ensures var read := ReadDayData(true, s, k, now).0;
            GetMessages(true, s, k, now).0 == if read.Ok? && read.value.Day? then read.value.doc.messages else []
    ensures Reliable(s) && DayWellFormed(s, k) ==> GetMessages(true, s, k, now).0 == StoredMessages(s, k)
  {
    if Reliable(s) && DayPath(k) !in s.files {
      ReadDayDataCreates(s, k, now);
    }
  }

  /** The rose-day walk-through: on an empty repository, reading the day
      creates it, one message is added, and reading back gives just that message. */
  lemma RoseScenario(t0: Timestamp, id: int, t1: Timestamp, t2: Timestamp)
    ensures var s0 := Server(map[], 0, []);
            var (d, s1) := ReadDayData(true, s0, "rose", t0);
            var (m, s2) := AddMessage(true, s1, "rose", "hi", id, t1);
            && d == Ok(Day(DayDoc("rose", [], t0, None, None)))
            && m == Ok(Message(id, "hi", t1))
            && GetMessages(true, s2, "rose", t2).0 == [Message(id, "hi", t1)]
  {
    var s0 := Server(map[], 0, []);
    ReadDayDataCreates(s0, "rose", t0);
    var s1 := ReadDayData(true, s0, "rose", t0).1;
    AddMessageReliable(s1, "rose", "hi", id, t1);
    var s2 := AddMessage(true, s1, "rose", "hi", id, t1).1;
    GetMessagesResult(s2, "rose", t2);
  }

  /** With the service unreachable, `getProgress` gives the empty document. */
  lemma UnreachableProgress(s: Server, now: Timestamp)
    requires NextFault(s) == Unreachable
    ensures GetProgress(true, s, now).0 == Prog(Progress([], [], now, now))
  {
  }
}
