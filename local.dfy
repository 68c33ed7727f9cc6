/** `LocalStorage` (js/github-api.js:251-331): the fallback backend that keeps
    the same documents in the browser store, one key per document. The
    functions give each operation's result and the store's new items from
    the items before the call and whether the store refuses writes; the
    class performs them on a `BrowserStorage` and its postconditions tie the
    two together. Reads go through the guarded `getFromLocalStorage` and
    writes through `saveToLocalStorage`, whose refusal the backend ignores. */
module LocalStore {
  import opened Documents
  import opened Browser
  import opened Utils
  import Config

  const ProgressKey := "valentine-progress"

  /** `valentine-<dayKey>`. */
  function DayKey(k: string): string
  {
    "valentine-" + k
  }

  /** A stored value JavaScript treats as false in `if (!progress)`. */
  predicate Falsy(v: Value)
  {
    v == Null || v == Flag(false)
  }

  function InitializeOn(items: map<string, Item>, full: bool, now: Timestamp): (bool, map<string, Item>)
  {
    if Falsy(Lookup(items, ProgressKey, Null)) then (true, AfterSave(items, full, ProgressKey, Prog(EmptyProgress(now))))
    else (true, items)
  }

  /** The stored day document, or a fresh one that is not saved. */
  function ReadDayDataOn(items: map<string, Item>, k: string, now: Timestamp): Value
  {
    Lookup(items, DayKey(k), Day(NewDayDoc(k, now)))
  }

  /** `messages.push` on anything but a day document throws. */
  function AddMessageOn(items: map<string, Item>, full: bool, k: string, text: string, id: int, now: Timestamp): (Result<Message>, map<string, Item>)
  {
    var v := ReadDayDataOn(items, k, now);
    if !v.Day? then (Err(ShapeError), items)
    else
      var m := Message(id, text, now);
      (Ok(m), AfterSave(items, full, DayKey(k), Day(AppendMessage(v.doc, m, now))))
  }

  /** `dayData.messages || []`: only a stored `null` throws. */
  function GetMessagesOn(items: map<string, Item>, k: string, now: Timestamp): Result<seq<Message>>
  {
    var v := ReadDayDataOn(items, k, now);
    if v.Day? then Ok(v.doc.messages)
    else if v == Null then Err(ShapeError)
    else Ok([])
  }

  function DeleteMessageOn(items: map<string, Item>, full: bool, k: string, id: int, now: Timestamp): (Result<()>, map<string, Item>)
  {
    var v := ReadDayDataOn(items, k, now);
    if !v.Day? then (Err(ShapeError), items)
    else (Ok(()), AfterSave(items, full, DayKey(k), Day(DeleteById(v.doc, id, now))))
  }

  /** There is no default here: a missing progress record reads as `null`,
      and changing it throws. */
  function UpdateProgressOn(items: map<string, Item>, full: bool, k: string, status: string, now: Timestamp): (Result<Progress>, map<string, Item>)
  {
    var v := Lookup(items, ProgressKey, Null);
    if !v.Prog? then (Err(ShapeError), items)
    else
      var p := ApplyStatus(v.progress, k, status, now);
      (Ok(p), AfterSave(items, full, ProgressKey, Prog(p)))
  }

  function CompleteDayOn(items: map<string, Item>, full: bool, k: string, now: Timestamp): (Result<()>, map<string, Item>)
  {
    var v := ReadDayDataOn(items, k, now);
    if !v.Day? then (Err(ShapeError), items)
    else
      var items1 := AfterSave(items, full, DayKey(k), Day(MarkComplete(v.doc, now)));
      var (u, items2) := UpdateProgressOn(items1, full, k, Completed, now);
      if u.Err? then (Err(u.error), items2) else (Ok(()), items2)
  }

  /** Seeding happens exactly when no progress record is readable, and it
      never replaces one. */
  lemma InitializeSeedsOnlyWhenMissing(items: map<string, Item>, full: bool, now: Timestamp)
    ensures InitializeOn(items, full, now).0
    ensures Lookup(items, ProgressKey, Null).Prog? ==> InitializeOn(items, full, now).1 == items
    ensures !full && Lookup(items, ProgressKey, Null) == Null ==>
              Lookup(InitializeOn(items, full, now).1, ProgressKey, Null) == Prog(EmptyProgress(now))
  {
  }

  /** A second initialization changes nothing once the first one was saved. */
  lemma InitializeIdempotent(items: map<string, Item>, full: bool, now: Timestamp, later: Timestamp)
    requires !full
    ensures var once := InitializeOn(items, full, now).1;
            InitializeOn(once, full, later).1 == once
  {
  }

  /** Reading a missing day yields a fresh empty document and stores nothing;
      getting its messages yields none. */
  lemma MissingDayReadsEmpty(items: map<string, Item>, k: string, now: Timestamp)
    requires DayKey(k) !in items
    ensures ReadDayDataOn(items, k, now) == Day(NewDayDoc(k, now))
    ensures GetMessagesOn(items, k, now) == Ok([])
  {
  }

  /** Adding to a stored or missing day document that the store accepts
      leaves the day with the old messages followed by the new one. */
  lemma AddMessageAppendsLocally(items: map<string, Item>, k: string, text: string, id: int, now: Timestamp)
    requires ReadDayDataOn(items, k, now).Day?
    ensures var (r, after) := AddMessageOn(items, false, k, text, id, now);
            var before := ReadDayDataOn(items, k, now).doc.messages;
            && r == Ok(Message(id, text, now))
            && GetMessagesOn(after, k, now) == Ok(before + [Message(id, text, now)])
  {
    var (r, after) := AddMessageOn(items, false, k, text, id, now);
    var d := AppendMessage(ReadDayDataOn(items, k, now).doc, Message(id, text, now), now);
    assert Lookup(after, DayKey(k), Day(NewDayDoc(k, now))) == Day(d);
    assert d.messages == ReadDayDataOn(items, k, now).doc.messages + [Message(id, text, now)];
  }

  /** When the store refuses writes, adding a message still reports the new
      message while nothing is stored. */
  lemma AddMessageSilentlyLost(items: map<string, Item>, k: string, text: string, id: int, now: Timestamp)
    requires ReadDayDataOn(items, k, now).Day?
    ensures AddMessageOn(items, true, k, text, id, now) == (Ok(Message(id, text, now)), items)
  {
  }

  /** Deleting leaves exactly the messages without the id, in their old
      order. */
  lemma DeleteMessageFiltersLocally(items: map<string, Item>, k: string, id: int, now: Timestamp)
    requires ReadDayDataOn(items, k, now).Day?
    ensures var (r, after) := DeleteMessageOn(items, false, k, id, now);
            var before := ReadDayDataOn(items, k, now).doc.messages;
            && r == Ok(())
            && GetMessagesOn(after, k, now) == Ok(WithoutId(before, id))
            && IsSubsequence(GetMessagesOn(after, k, now).value, before)
            && forall m :: m in GetMessagesOn(after, k, now).value ==> m.id != id
  {
    var before := ReadDayDataOn(items, k, now).doc.messages;
    WithoutIdKeepsOrder(before, id);
  }

  /** Deleting an id that no stored message carries keeps every message. */
  lemma DeleteAbsentIdKeepsMessagesLocally(items: map<string, Item>, k: string, id: int, now: Timestamp)
    requires ReadDayDataOn(items, k, now).Day?
    requires forall m :: m in ReadDayDataOn(items, k, now).doc.messages ==> m.id != id
    ensures var (r, after) := DeleteMessageOn(items, false, k, id, now);
            r == Ok(()) && GetMessagesOn(after, k, now) == Ok(ReadDayDataOn(items, k, now).doc.messages)
  {
    WithoutAbsentId(ReadDayDataOn(items, k, now).doc.messages, id);
  }

  /** Without a progress record (initialization skipped, or its write
      refused) progress cannot be updated. */
  lemma UpdateProgressNeedsRecord(items: map<string, Item>, full: bool, k: string, status: string, now: Timestamp)
    requires ProgressKey !in items
    ensures UpdateProgressOn(items, full, k, status, now) == (Err(ShapeError), items)
  {
  }

  /** Completing a day twice lists it once among the completed days. */
  lemma {:induction false} CompleteTwiceListedOnce(items: map<string, Item>, k: string, now: Timestamp, later: Timestamp)
    requires Lookup(items, ProgressKey, Null).Prog?
    requires NoDuplicates(Lookup(items, ProgressKey, Null).progress.daysCompleted)
    ensures var (_, once) := UpdateProgressOn(items, false, k, Completed, now);
            var (r, twice) := UpdateProgressOn(once, false, k, Completed, later);
            r.Ok? && Count(r.value.daysCompleted, k) == 1 && NoDuplicates(r.value.daysCompleted)
  {
    var p := Lookup(items, ProgressKey, Null).progress;
    var p1 := ApplyStatus(p, k, Completed, now);
    var p2 := ApplyStatus(p1, k, Completed, later);
    assert Lookup(UpdateProgressOn(items, false, k, Completed, now).1, ProgressKey, Null) == Prog(p1);
    assert k in p2.daysCompleted;
    assert NoDuplicates(p2.daysCompleted);
    PresentOnce(p2.daysCompleted, k);
  }

  /** Completing a stored day of the week, with a progress record and a store
      that accepts writes, stamps the day and lists it as completed. */
  lemma CompleteDayLocally(items: map<string, Item>, k: string, now: Timestamp)
    requires k in Config.DayOrder
    requires ReadDayDataOn(items, k, now).Day?
    requires Lookup(items, ProgressKey, Null).Prog?
    ensures var (r, after) := CompleteDayOn(items, false, k, now);
            && r == Ok(())
            && ReadDayDataOn(after, k, now).Day?
            && ReadDayDataOn(after, k, now).doc.completedAt == Some(now)
            && ReadDayDataOn(after, k, now).doc.messages == ReadDayDataOn(items, k, now).doc.messages
            && Lookup(after, ProgressKey, Null).Prog?
            && k in Lookup(after, ProgressKey, Null).progress.daysCompleted
            && Lookup(after, ProgressKey, Null).progress.daysUnlocked == Lookup(items, ProgressKey, Null).progress.daysUnlocked
  {
    DayKeysAvoidProgress(k);
    var items1 := AfterSave(items, false, DayKey(k), Day(MarkComplete(ReadDayDataOn(items, k, now).doc, now)));
    assert Lookup(items1, ProgressKey, Null) == Lookup(items, ProgressKey, Null);
  }

  /** The eight days' keys never meet the progress key ... */
  lemma DayKeysAvoidProgress(k: string)
    requires k in Config.DayOrder
    ensures DayKey(k) != ProgressKey
  {
  }

  /** ... but the key space is shared: a day named `progress` would be
      stored over the progress record. */
  lemma ProgressDayCollides()
    ensures DayKey("progress") == ProgressKey
  {
  }

  class LocalStorage {
    const store: BrowserStorage

    constructor (store: BrowserStorage)
      ensures this.store == store
    {
      this.store := store;
    }

    /** Always ready. */
    predicate IsReady()
      ensures IsReady()
    {
      true
    }

    method Initialize(now: Timestamp) returns (ok: bool)
      modifies store
      ensures (ok, store.items) == InitializeOn(old(store.items), old(store.full), now)
      ensures store.full == old(store.full)
    {
      var progress := GetFromLocalStorage(store, ProgressKey, Null);
      if Falsy(progress) {
        var _ := SaveToLocalStorage(store, ProgressKey, Prog(EmptyProgress(now)));
      }
      return true;
    }

    function ReadDayData(k: string, now: Timestamp): (v: Value)
      reads store
      ensures v == ReadDayDataOn(store.items, k, now)
    {
      GetFromLocalStorage(store, DayKey(k), Day(NewDayDoc(k, now)))
    }

    /** The save's refusal is ignored. */
    method WriteDayData(k: string, data: Value)
      modifies store
      ensures store.items == AfterSave(old(store.items), old(store.full), DayKey(k), data)
      ensures store.full == old(store.full)
    {
      var _ := SaveToLocalStorage(store, DayKey(k), data);
    }

    method AddMessage(k: string, text: string, id: int, now: Timestamp) returns (r: Result<Message>)
      modifies store
      ensures (r, store.items) == AddMessageOn(old(store.items), old(store.full), k, text, id, now)
      ensures store.full == old(store.full)
    {
      var dayData := ReadDayData(k, now);
      if !dayData.Day? {
        return Err(ShapeError);
      }
      var newMessage := Message(id, text, now);
      var doc := dayData.doc.(messages := dayData.doc.messages + [newMessage]);
      doc := doc.(lastUpdated := Some(now));
      WriteDayData(k, Day(doc));
      return Ok(newMessage);
    }

    function GetMessages(k: string, now: Timestamp): (r: Result<seq<Message>>)
      reads store
      ensures r == GetMessagesOn(store.items, k, now)
    {
      var dayData := ReadDayData(k, now);
      if dayData.Day? then Ok(dayData.doc.messages)
      else if dayData == Null then Err(ShapeError)
      else Ok([])
    }

    method DeleteMessage(k: string, id: int, now: Timestamp) returns (r: Result<()>)
      modifies store
      ensures (r, store.items) == DeleteMessageOn(old(store.items), old(store.full), k, id, now)
      ensures store.full == old(store.full)
    {
      var dayData := ReadDayData(k, now);
      if !dayData.Day? {
        return Err(ShapeError);
      }
      var doc := dayData.doc.(messages := WithoutId(dayData.doc.messages, id));
      doc := doc.(lastUpdated := Some(now));
      WriteDayData(k, Day(doc));
      return Ok(());
    }

    method UpdateProgress(k: string, status: string, now: Timestamp) returns (r: Result<Progress>)
      modifies store
      ensures (r, store.items) == UpdateProgressOn(old(store.items), old(store.full), k, status, now)
      ensures store.full == old(store.full)
    {
      var stored := GetFromLocalStorage(store, ProgressKey, Null);
      if !stored.Prog? {
        return Err(ShapeError);
      }
      var progress := stored.progress;
      if status == Unlocked && k !in progress.daysUnlocked {
        progress := progress.(daysUnlocked := progress.daysUnlocked + [k]);
      }
      if status == Completed && k !in progress.daysCompleted {
        progress := progress.(daysCompleted := progress.daysCompleted + [k]);
      }
      progress := progress.(lastUpdated := now);
      var _ := SaveToLocalStorage(store, ProgressKey, Prog(progress));
      return Ok(progress);
    }

    /** May be `null`: there is no default here. */
    function GetProgress(): (v: Value)
      reads store
      ensures ProgressKey !in store.items ==> v == Null
      ensures ProgressKey in store.items && store.items[ProgressKey].Encoded? ==> v == store.items[ProgressKey].value
    {
      GetFromLocalStorage(store, ProgressKey, Null)
    }

    method CompleteDay(k: string, now: Timestamp) returns (r: Result<()>)
      modifies store
      ensures (r, store.items) == CompleteDayOn(old(store.items), old(store.full), k, now)
      ensures store.full == old(store.full)
    {
      var dayData := ReadDayData(k, now);
      if !dayData.Day? {
        return Err(ShapeError);
      }
      var doc := dayData.doc.(completedAt := Some(now));
      WriteDayData(k, Day(doc));
      var u := UpdateProgress(k, Completed, now);
      if u.Err? {
        return Err(u.error);
      }
      return Ok(());
    }
  }
}
