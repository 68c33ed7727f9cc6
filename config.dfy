/** `CONFIG` and `loadTestingMode` (js/config.js): the repository settings
    with their placeholder token, the eight days in order with their dates,
    and the testing flag, which is the one part of the configuration the
    program changes. */
module Config {
  import opened Documents
  import opened Browser
  import Strings

  datatype GitHubSettings = GitHubSettings(owner: string, repo: string, token: string, branch: string)

  const GitHub := GitHubSettings("YOUR_GITHUB_USERNAME", "Val", "ghp_YOUR_PERSONAL_ACCESS_TOKEN", "main")

  /** The shipped token is the placeholder, so out of the box the remote
      backend reports itself not ready. */
  lemma ShippedTokenIsPlaceholder()
    ensures Strings.Contains(GitHub.token, "YOUR_")
  {
    var token := GitHub.token;
    assert token[4..9] == "YOUR_" by {
      assert token[4] == 'Y' && token[5] == 'O' && token[6] == 'U' && token[7] == 'R' && token[8] == '_';
    }
    Strings.ContainsAt(token, "YOUR_", 4);
  }

  datatype CalendarDate = CalendarDate(year: int, month: int, day: int)

  /** Days from 1970-01-01 to a proleptic Gregorian date. */
  function DayNumber(d: CalendarDate): int
  {
    var y := if d.month <= 2 then d.year - 1 else d.year;
    var era := y / 400;
    var yearOfEra := y - era * 400;
    var shiftedMonth := if d.month > 2 then d.month - 3 else d.month + 9;
    var dayOfYear := (153 * shiftedMonth + 2) / 5 + d.day - 1;
    var dayOfEra := yearOfEra * 365 + yearOfEra / 4 - yearOfEra / 100 + dayOfYear;
    era * 146097 + dayOfEra - 719468
  }

  const Dates: map<string, CalendarDate> := map[
    "roseDay" := CalendarDate(2026, 2, 7),
    "proposeDay" := CalendarDate(2026, 2, 8),
    "chocolateDay" := CalendarDate(2026, 2, 9),
    "teddyDay" := CalendarDate(2026, 2, 10),
    "promiseDay" := CalendarDate(2026, 2, 11),
    "hugDay" := CalendarDate(2026, 2, 12),
    "kissDay" := CalendarDate(2026, 2, 13),
    "valentineDay" := CalendarDate(2026, 2, 14)
  ]

  const DayOrder: seq<string> := ["rose", "propose", "chocolate", "teddy", "promise", "hug", "kiss", "valentine"]

  /** Eight distinct day keys. */
  lemma DayOrderDistinct()
    ensures |DayOrder| == 8
    ensures forall i, j :: 0 <= i < j < |DayOrder| ==> DayOrder[i] != DayOrder[j]
  {
  }

  /** A February 2026 date is 20484 days plus its day of the month after 1970-01-01. */
  lemma February2026(d: int)
    ensures DayNumber(CalendarDate(2026, 2, d)) == 20484 + d
  {
  }

  /** The configured date of day `i` of the order. */
  lemma DateOfDay(i: int)
    requires 0 <= i < |DayOrder|
    ensures DayOrder[i] + "Day" in Dates && Dates[DayOrder[i] + "Day"] == CalendarDate(2026, 2, 7 + i)
  {
    var key := DayOrder[i] + "Day";
    if i == 0 { assert key == "roseDay"; }
    else if i == 1 { assert key == "proposeDay"; }
    else if i == 2 { assert key == "chocolateDay"; }
    else if i == 3 { assert key == "teddyDay"; }
    else if i == 4 { assert key == "promiseDay"; }
    else if i == 5 { assert key == "hugDay"; }
    else if i == 6 { assert key == "kissDay"; }
    else { assert key == "valentineDay"; }
  }

  /** Day `i` of the order falls on 2026-02-07 plus `i` days: every key has
      a date, and the dates rise by one day along the order. */
  lemma DatesConsecutive()
    ensures forall i :: 0 <= i < |DayOrder| ==>
              DayOrder[i] + "Day" in Dates && DayNumber(Dates[DayOrder[i] + "Day"]) == DayNumber(CalendarDate(2026, 2, 7)) + i
  {
    forall i | 0 <= i < |DayOrder|
      ensures DayOrder[i] + "Day" in Dates && DayNumber(Dates[DayOrder[i] + "Day"]) == DayNumber(CalendarDate(2026, 2, 7)) + i
    {
      DateOfDay(i);
      February2026(7);
      February2026(7 + i);
    }
  }

  /** `CONFIG.testing`. */
  class Settings {
    var testing: bool

    constructor ()
      ensures !testing
    {
      testing := false;
    }

    /** `loadTestingMode`: the query parameter `test` or the stored
        `valentineTest` reading `true` turns testing on; nothing here turns it off. */
    method LoadTestingMode(testParam: Option<string>, store: BrowserStorage)
      modifies this
      ensures testing == (old(testing) || testParam == Some("true") || StoredTrue(store.items, TestKey))
    {
      if testParam == Some("true") || StoredTrue(store.items, TestKey) {
        testing := true;
      }
    }
  }

  const TestKey := "valentineTest"

  /** A key held down: `keysPressed[key]` is truthy. */
  predicate Held(pressed: map<string, bool>, key: string)
  {
    key in pressed && pressed[key]
  }

  /** The shortcut test as written: Control and Shift held and `e.key === 'v'`. */
  predicate ToggleComboAsWritten(pressed: map<string, bool>, key: string)
    ensures ToggleComboAsWritten(pressed, key) ==> Held(pressed, "Shift") && key != "V"
  {
    Held(pressed, "Control") && Held(pressed, "Shift") && key == "v"
  }

  /** The shortcut as its comment names it, Ctrl+Shift+V, whichever case the
      browser reports for the letter. */
  predicate ToggleCombo(pressed: map<string, bool>, key: string)
    ensures ToggleCombo(pressed, key) ==> Held(pressed, "Control") && Held(pressed, "Shift")
    ensures key == "v" || key == "V" ==> (ToggleCombo(pressed, key) <==> Held(pressed, "Control") && Held(pressed, "Shift"))
  {
    Held(pressed, "Control") && Held(pressed, "Shift") && (key == "v" || key == "V")
  }

  /** With Shift held a browser reports the letter key as `V`, which the
      test as written never matches; the corrected test does. */
  lemma ShiftedKeyMissesCombo()
    ensures var pressed := map["Control" := true, "Shift" := true, "V" := true];
            !ToggleComboAsWritten(pressed, "V") && ToggleCombo(pressed, "V")
  {
  }

  /** The corrected test still fires whenever the one as written does. */
  lemma ComboExtendsAsWritten(pressed: map<string, bool>, key: string)
    ensures ToggleComboAsWritten(pressed, key) ==> ToggleCombo(pressed, key)
  {
  }

  /** The keydown and keyup listeners of `loadTestingMode` and their map. */
  class KeyWatcher {
    var keysPressed: map<string, bool>

    constructor ()
      ensures keysPressed == map[]
    {
      keysPressed := map[];
    }

    /** Records the key; on the shortcut negates `testing` and stores the new
        value under `valentineTest` (a full store throws there, after the
        flag has flipped). The reload that follows is left out. */
    method KeyDown(key: string, settings: Settings, store: BrowserStorage) returns (toggled: bool)
      modifies this, settings, store
      ensures keysPressed == old(keysPressed)[key := true]
      ensures toggled == ToggleCombo(keysPressed, key)
      ensures settings.testing == (old(settings.testing) != toggled)
      ensures store.items == if toggled then AfterSave(old(store.items), old(store.full), TestKey, Flag(settings.testing))
                             else old(store.items)
      ensures store.full == old(store.full)
    {
      keysPressed := keysPressed[key := true];
      toggled := ToggleCombo(keysPressed, key);
      if toggled {
        settings.testing := !settings.testing;
        if !store.full {
          store.items := store.items[TestKey := Encoded(Flag(settings.testing))];
        }
      }
    }

    method KeyUp(key: string)
      modifies this
      ensures keysPressed == old(keysPressed)[key := false]
    {
      keysPressed := keysPressed[key := false];
    }
  }
}
