/** The JSON documents both storage backends keep (js/github-api.js): one day
    document per day key and one shared progress document, the errors the
    backends raise, and the in-place changes the read-modify-write helpers
    make to a loaded document before writing it back. */
module Documents {
  import opened Strings

  datatype Option<+T> = None | Some(value: T)

  /** ISO-8601 text from `new Date().toISOString()`; the clock is a parameter. */
  type Timestamp = string

  /** `{id, text, createdAt}`; `id` is `Date.now()` at creation. */
  datatype Message = Message(id: int, text: string, createdAt: Timestamp)

  /** `{day, messages, createdAt, completedAt, lastUpdated}`. A freshly created
      day document has no `lastUpdated` field, hence the option. */
  datatype DayDoc = DayDoc(day: string, messages: seq<Message>, createdAt: Timestamp,
                           completedAt: Option<Timestamp>, lastUpdated: Option<Timestamp>)

  /** `{daysUnlocked, daysCompleted, startedAt, lastUpdated}`. */
  datatype Progress = Progress(daysUnlocked: seq<string>, daysCompleted: seq<string>,
                               startedAt: Timestamp, lastUpdated: Timestamp)

  /** A parsed JSON value as the storage layer meets it: a day document, a
      progress document, a boolean (the testing flag) or `null`. */
  datatype Value = Day(doc: DayDoc) | Prog(progress: Progress) | Flag(flag: bool) | Null

  /** The exceptions the storage layer throws, each with the text of its message. */
  datatype Error =
    | NotConfigured                                   // readFile/writeFile without a usable token
    | NotFound(path: string)                          // GET answered 404
    | ReadFailed(path: string, statusText: string)    // GET answered another non-OK status
    | WriteFailed(path: string, serverMessage: string) // PUT answered non-OK
    | NetworkError                                    // fetch itself rejected
    | ShapeError                                      // TypeError: a stored value lacks the field a helper uses

  function ErrorText(e: Error): string
  {
    match e
    case NotConfigured => "GitHub not configured"
    case NotFound(p) => "File not found: " + p
    case ReadFailed(p, t) => "Failed to read " + p + ": " + t
    case WriteFailed(p, m) => "Failed to write " + p + ": " + m
    case NetworkError => "Failed to fetch"
    case ShapeError => "Cannot read properties of a value that is not the expected document"
  }

  /** `readDayData` tells "absent" from "broken" by the message text alone:
      the 404 error counts as absent, a rejected `fetch` does not. */
  predicate IsNotFound(e: Error)
    ensures e.NotFound? ==> IsNotFound(e)
    ensures e == NetworkError ==> !IsNotFound(e)
  {
    if e.NotFound? then
      ContainsInside("File ", "not found", ": " + e.path);
      assert "File " + "not found" + (": " + e.path) == ErrorText(e);
      Contains(ErrorText(e), "not found")
    else if e == NetworkError then
      NotContainsWithoutFirst(ErrorText(e), "not found");
      Contains(ErrorText(e), "not found")
    else
      Contains(ErrorText(e), "not found")
  }

  datatype Result<+T> = Ok(value: T) | Err(error: Error)

  /** The document `readDayData` makes for a day that has none. */
  function NewDayDoc(day: string, now: Timestamp): DayDoc
  {
    DayDoc(day, [], now, None, None)
  }

  /** The progress document `initialize` seeds and `getProgress` falls back to. */
  function EmptyProgress(now: Timestamp): Progress
  {
    Progress([], [], now, now)
  }

  /** `dayData.messages.push(m); dayData.lastUpdated = now`. */
  function AppendMessage(d: DayDoc, m: Message, now: Timestamp): (r: DayDoc)
    ensures |r.messages| == |d.messages| + 1
    ensures r.messages[..|d.messages|] == d.messages && r.messages[|d.messages|] == m
    ensures r.day == d.day && r.createdAt == d.createdAt && r.completedAt == d.completedAt
    ensures r.lastUpdated == Some(now)
  {
    d.(messages := d.messages + [m], lastUpdated := Some(now))
  }

  /** `messages.filter(m => m.id !== id)`: every message with that id goes. */
  function WithoutId(ms: seq<Message>, id: int): (r: seq<Message>)
    ensures |r| <= |ms|
    ensures forall m :: m in r ==> m in ms && m.id != id
  {
    if ms == [] then []
    else if ms[0].id == id then WithoutId(ms[1..], id)
    else [ms[0]] + WithoutId(ms[1..], id)
  }

  /** `a` is `b` with some elements left out, the rest in their order. */
  predicate IsSubsequence<T(==)>(a: seq<T>, b: seq<T>)
    decreases |b|
  {
    a == [] || (b != [] && if a[0] == b[0] then IsSubsequence(a[1..], b[1..]) else IsSubsequence(a, b[1..]))
  }

  /** The filter keeps each message whose id differs as often as it occurred
      and drops every one whose id matches. */
  lemma {:induction false} WithoutIdCounts(ms: seq<Message>, id: int, m: Message)
    ensures multiset(WithoutId(ms, id))[m] == if m.id == id then 0 else multiset(ms)[m]
  {
    if ms != [] {
      WithoutIdCounts(ms[1..], id, m);
      assert ms == [ms[0]] + ms[1..];
    }
  }

  /** The kept messages are in their original order. */
  lemma {:induction false} WithoutIdKeepsOrder(ms: seq<Message>, id: int)
    ensures IsSubsequence(WithoutId(ms, id), ms)
  {
    if ms != [] {
      WithoutIdKeepsOrder(ms[1..], id);
      var r := WithoutId(ms, id);
      if ms[0].id != id {
        assert r[0] == ms[0] && r[1..] == WithoutId(ms[1..], id);
      } else {
        SubsequenceOfTail(r, ms);
      }
    }
  }

  lemma {:induction false} SubsequenceOfTail<T>(a: seq<T>, b: seq<T>)
    requires b != [] && IsSubsequence(a, b[1..])
    ensures IsSubsequence(a, b)
  {
    if a != [] && a[0] == b[0] {
      SubsequenceDropFirst(a, b[1..]);
    }
  }

  lemma {:induction false} SubsequenceDropFirst<T>(a: seq<T>, b: seq<T>)
    requires a != [] && IsSubsequence(a, b)
    ensures IsSubsequence(a[1..], b)
  {
    if a[0] == b[0] {
      if a[1..] != [] {
        SubsequenceOfTail(a[1..], b);
      }
    } else {
      SubsequenceDropFirst(a, b[1..]);
      if a[1..] != [] {
        SubsequenceOfTail(a[1..], b);
      }
    }
  }

  /** Deleting an id that no message carries changes nothing. */
  lemma {:induction false} WithoutAbsentId(ms: seq<Message>, id: int)
    requires forall i :: 0 <= i < |ms| ==> ms[i].id != id
    ensures WithoutId(ms, id) == ms
  {
    if ms != [] {
      WithoutAbsentId(ms[1..], id);
    }
  }

  /** Deleting the same id twice is deleting it once. */
  lemma WithoutIdIdempotent(ms: seq<Message>, id: int)
    ensures WithoutId(WithoutId(ms, id), id) == WithoutId(ms, id)
  {
    var r := WithoutId(ms, id);
    forall i | 0 <= i < |r| ensures r[i].id != id {
      assert r[i] in r;
    }
    WithoutAbsentId(r, id);
  }

  /** `dayData.messages = filter(...); dayData.lastUpdated = now`. */
  function DeleteById(d: DayDoc, id: int, now: Timestamp): (r: DayDoc)
    ensures forall m :: m in r.messages ==> m in d.messages && m.id != id
    ensures r.day == d.day && r.createdAt == d.createdAt && r.completedAt == d.completedAt
    ensures r.lastUpdated == Some(now)
  {
    d.(messages := WithoutId(d.messages, id), lastUpdated := Some(now))
  }

  /** `dayData.completedAt = now`; nothing else in the document moves. */
  function MarkComplete(d: DayDoc, now: Timestamp): (r: DayDoc)
    ensures r.completedAt.Some? && r.completedAt.value == now
    ensures r.messages == d.messages && r.day == d.day && r.createdAt == d.createdAt
    ensures r.lastUpdated == d.lastUpdated
  {
    d.(completedAt := Some(now))
  }

  predicate NoDuplicates(xs: seq<string>)
  {
    forall i, j :: 0 <= i < j < |xs| ==> xs[i] != xs[j]
  }

  /** `if (!xs.includes(k)) xs.push(k)`. */
  function AddOnce(xs: seq<string>, k: string): (r: seq<string>)
    ensures k in r
    ensures forall x :: x in r <==> x in xs || x == k
    ensures |xs| <= |r| <= |xs| + 1 && r[..|xs|] == xs
    ensures k in xs ==> r == xs
    ensures NoDuplicates(xs) ==> NoDuplicates(r)
  {
    if k in xs then xs else xs + [k]
  }

  function Count(xs: seq<string>, k: string): nat
  {
    if xs == [] then 0 else (if xs[0] == k then 1 else 0) + Count(xs[1..], k)
  }

  /** In a list without duplicates a present key occurs exactly once. */
  lemma {:induction false} PresentOnce(xs: seq<string>, k: string)
    requires NoDuplicates(xs) && k in xs
    ensures Count(xs, k) == 1
  {
    if xs[0] == k {
      AbsentNone(xs[1..], k);
    } else {
      PresentOnce(xs[1..], k);
    }
  }

  lemma {:induction false} AbsentNone(xs: seq<string>, k: string)
    requires k !in xs
    ensures Count(xs, k) == 0
  {
    if xs != [] {
      AbsentNone(xs[1..], k);
    }
  }

  const Unlocked := "unlocked"
  const Completed := "completed"

  /** The body of `updateProgress` between its read and its write. */
  function ApplyStatus(p: Progress, k: string, status: string, now: Timestamp): (r: Progress)
    ensures status == Unlocked ==> k in r.daysUnlocked && r.daysCompleted == p.daysCompleted
    ensures status == Completed ==> k in r.daysCompleted && r.daysUnlocked == p.daysUnlocked
    ensures status != Unlocked && status != Completed ==> r == p.(lastUpdated := now)
    ensures forall x :: x in r.daysUnlocked <==> x in p.daysUnlocked || (x == k && status == Unlocked)
    ensures forall x :: x in r.daysCompleted <==> x in p.daysCompleted || (x == k && status == Completed)
    ensures r.startedAt == p.startedAt && r.lastUpdated == now
  {
    var unlocked := if status == Unlocked then AddOnce(p.daysUnlocked, k) else p.daysUnlocked;
    var completed := if status == Completed then AddOnce(p.daysCompleted, k) else p.daysCompleted;
    p.(daysUnlocked := unlocked, daysCompleted := completed, lastUpdated := now)
  }

  /** The progress invariant: no day listed twice in either list. */
  predicate ProgressValid(p: Progress)
  {
    NoDuplicates(p.daysUnlocked) && NoDuplicates(p.daysCompleted)
  }

  lemma ApplyStatusKeepsValid(p: Progress, k: string, status: string, now: Timestamp)
    requires ProgressValid(p)
    ensures ProgressValid(ApplyStatus(p, k, status, now))
  {
  }

  /** A repeated status update adds nothing more; only the timestamp moves. */
  lemma ApplyStatusIdempotent(p: Progress, k: string, status: string, t1: Timestamp, t2: Timestamp)
    ensures ApplyStatus(ApplyStatus(p, k, status, t1), k, status, t2) == ApplyStatus(p, k, status, t2)
  {
  }

  /** Marking a day completed twice, from an empty or valid progress
      document, leaves it in `daysCompleted` exactly once. */
  lemma CompletedTwiceListedOnce(p: Progress, k: string, t1: Timestamp, t2: Timestamp)
    requires ProgressValid(p)
    ensures Count(ApplyStatus(ApplyStatus(p, k, Completed, t1), k, Completed, t2).daysCompleted, k) == 1
  {
    var q := ApplyStatus(ApplyStatus(p, k, Completed, t1), k, Completed, t2);
    PresentOnce(q.daysCompleted, k);
  }
}
