/** The helpers of `Utils` (js/utils.js) that the storage backends and the
    app rely on: guarded reads and writes of the browser store, the unlock
    test, the day order, names and emoji, and the buckets of `formatTimeAgo`. */
module Utils {
  import opened Documents
  import opened Browser
  import opened Config

  /** The value a guarded read of `key` yields: the parsed item, or `default`
      when the key is missing or its text does not parse. */
  function Lookup(items: map<string, Item>, key: string, default: Value): Value
  {
    if key in items && items[key].Encoded? then items[key].value else default
  }

  /** `getFromLocalStorage`: never throws; the default covers both a missing
      key and unparsable text. */
  function GetFromLocalStorage(store: BrowserStorage, key: string, default: Value): (v: Value)
    reads store
    ensures key in store.items && store.items[key].Encoded? ==> v == store.items[key].value
    ensures key !in store.items || store.items[key].Unparsable? ==> v == default
  {
    Lookup(store.items, key, default)
  }

  /** `saveToLocalStorage`: reports whether the store took the value, and
      changes nothing when it did not. */
  method SaveToLocalStorage(store: BrowserStorage, key: string, v: Value) returns (ok: bool)
    modifies store
    ensures ok == !old(store.full)
    ensures store.items == AfterSave(old(store.items), old(store.full), key, v)
    ensures store.full == old(store.full)
  {
    if store.full {
      return false;
    }
    store.items := store.items[key := Encoded(v)];
    return true;
  }

  /** A saved value reads back as saved, whatever the default, and no other
      key is disturbed; a refused save disturbs nothing. */
  lemma SaveThenGet(items: map<string, Item>, full: bool, key: string, v: Value, other: string, default: Value)
    ensures !full ==> Lookup(AfterSave(items, full, key, v), key, default) == v
    ensures other != key ==> Lookup(AfterSave(items, full, key, v), other, default) == Lookup(items, other, default)
    ensures full ==> AfterSave(items, full, key, v) == items
  {
  }

  /** `isDayUnlocked` as written. `new Date('YYYY-MM-DD')` is midnight UTC,
      and `setHours(0, 0, 0, 0)` then moves it to midnight of the local date
      at that instant, which is the day before wherever the local offset
      from UTC is negative. `today` is the local date as a day number. An
      unknown key gives an invalid date, and comparing with it is false. */
  function IsDayUnlockedAsWritten(k: string, testingMode: bool, today: int, westOfUtc: bool): (r: bool)
    ensures r == IsDayUnlocked(k, testingMode, if westOfUtc then today + 1 else today)
  {
    if testingMode then true
    else if k + "Day" !in Dates then false
    else
      var n := DayNumber(Dates[k + "Day"]);
      today >= (if westOfUtc then n - 1 else n)
  }

  /** The unlock test as intended: testing unlocks everything; otherwise a
      day opens on its configured local date and stays open. */
  function IsDayUnlocked(k: string, testingMode: bool, today: int): (r: bool)
    ensures testingMode ==> r
    ensures !testingMode ==> (r <==> k + "Day" in Dates && today >= DayNumber(Dates[k + "Day"]))
  {
    testingMode || (k + "Day" in Dates && today >= DayNumber(Dates[k + "Day"]))
  }

  /** West of UTC, Rose Day opens on the local 6 February, a day before its
      configured date. */
  lemma RoseOpensEarlyWestOfUtc()
    ensures IsDayUnlockedAsWritten("rose", false, DayNumber(CalendarDate(2026, 2, 6)), true)
    ensures !IsDayUnlocked("rose", false, DayNumber(CalendarDate(2026, 2, 6)))
  {
    assert "rose" + "Day" == "roseDay";
    February2026(6);
    February2026(7);
  }

  /** East of UTC (and at UTC) the test as written is the intended one. */
  lemma AsWrittenAgreesEastOfUtc(k: string, testingMode: bool, today: int)
    ensures IsDayUnlockedAsWritten(k, testingMode, today, false) == IsDayUnlocked(k, testingMode, today)
  {
  }

  /** West of UTC the test as written opens every day exactly one day early. */
  lemma AsWrittenOneDayEarlyWestOfUtc(k: string, testingMode: bool, today: int)
    ensures IsDayUnlockedAsWritten(k, testingMode, today, true) == IsDayUnlocked(k, testingMode, today + 1)
  {
  }

  /** An unlocked day stays unlocked as the date advances. */
  lemma UnlockPersists(k: string, testingMode: bool, today: int, later: int)
    requires today <= later
    ensures IsDayUnlocked(k, testingMode, today) ==> IsDayUnlocked(k, testingMode, later)
  {
  }

  /** The days open in order: when a day is open, so is every day before it. */
  lemma UnlocksInOrder(i: int, j: int, testingMode: bool, today: int)
    requires 0 <= i <= j < |DayOrder|
    requires IsDayUnlocked(DayOrder[j], testingMode, today)
    ensures IsDayUnlocked(DayOrder[i], testingMode, today)
  {
    DatesConsecutive();
  }

  /** Exactly the days before `today`'s place in the order are open: day `i`
      is open if and only if 2026-02-07 plus `i` days has come. */
  lemma UnlockedIffDateReached(i: int, today: int)
    requires 0 <= i < |DayOrder|
    ensures IsDayUnlocked(DayOrder[i], false, today) <==> today >= DayNumber(CalendarDate(2026, 2, 7)) + i
  {
    DatesConsecutive();
  }

  /** `getDaysInOrder`: the configured order of the eight days. */
  function DaysInOrder(): (r: seq<string>)
    ensures |r| == 8
    ensures forall i, j :: 0 <= i < j < |r| ==> r[i] != r[j]
    ensures forall i :: 0 <= i < |r| ==> r[i] + "Day" in Dates
  {
    DayOrderDistinct();
    DatesConsecutive();
    DayOrder
  }

  const DayNames: map<string, string> := map[
    "rose" := "Rose Day",
    "propose" := "Propose Day",
    "chocolate" := "Chocolate Day",
    "teddy" := "Teddy Day",
    "promise" := "Promise Day",
    "hug" := "Hug Day",
    "kiss" := "Kiss Day",
    "valentine" := "Valentine's Day"
  ]

  const DayEmojis: map<string, string> := map[
    "rose" := "\U{1F339}",
    "propose" := "\U{1F48D}",
    "chocolate" := "\U{1F36B}",
    "teddy" := "\U{1F9F8}",
    "promise" := "\U{1F91D}",
    "hug" := "\U{1F917}",
    "kiss" := "\U{1F48B}",
    "valentine" := "\U{1F491}"
  ]

  const FallbackEmoji := "\U{1F495}"

  /** `getDayName`: a display name for each of the eight days; any other key
      is shown as itself. */
  function DayName(k: string): (r: string)
    ensures k in DayOrder ==> r == DayNames[k] && |r| > |k|
    ensures k !in DayOrder ==> r == k
  {
    if k in DayNames then DayNames[k] else k
  }

  /** `getDayEmoji`: each of the eight days has its own emoji, which is never
      the fallback shown for any other key. */
  function DayEmoji(k: string): (r: string)
    ensures k in DayOrder ==> r == DayEmojis[k] && r != FallbackEmoji
    ensures k !in DayOrder ==> r == FallbackEmoji
  {
    if k in DayEmojis then DayEmojis[k] else FallbackEmoji
  }

  /** The buckets of `formatTimeAgo`. */
  datatype Elapsed = JustNow | MinutesAgo(n: nat) | HoursAgo(n: nat) | DaysAgo(n: nat) | LocaleDate

  const Minute := 60
  const Hour := 3600
  const DayLength := 86400
  const Week := 604800

  /** The bucket for an elapsed time in milliseconds; `Math.floor(ms / 1000)`
      is Dafny's division for a positive divisor, negative times included. */
  function TimeAgo(elapsedMs: int): (r: Elapsed)
    ensures var s := elapsedMs / 1000;
            && (r.JustNow? <==> s < Minute)
            && (r.MinutesAgo? ==> 1 <= r.n < 60 && r.n * Minute <= s < (r.n + 1) * Minute)
            && (r.HoursAgo? ==> 1 <= r.n < 24 && r.n * Hour <= s < (r.n + 1) * Hour)
            && (r.DaysAgo? ==> 1 <= r.n < 7 && r.n * DayLength <= s < (r.n + 1) * DayLength)
            && (r.LocaleDate? <==> s >= Week)
  {
    var seconds := elapsedMs / 1000;
    if seconds < Minute then JustNow
    else if seconds < Hour then MinutesAgo(seconds / Minute)
    else if seconds < DayLength then HoursAgo(seconds / Hour)
    else if seconds < Week then DaysAgo(seconds / DayLength)
    else LocaleDate
  }

  /** Each bucket covers the range its unit names: minutes below an hour,
      hours below a day, days below a week. */
  lemma TimeAgoBucketRanges(elapsedMs: int)
    ensures var s := elapsedMs / 1000;
            && (TimeAgo(elapsedMs).MinutesAgo? <==> Minute <= s < Hour)
            && (TimeAgo(elapsedMs).HoursAgo? <==> Hour <= s < DayLength)
            && (TimeAgo(elapsedMs).DaysAgo? <==> DayLength <= s < Week)
  {
  }
}
