/** `ValentineWeekApp` (js/main.js): picks a storage backend, shows the
    first open day, and gates navigation on the unlock test. The page is
    reduced to which view is shown; the day controllers to whether each one
    has been initialized and how often its `init` has completed. The local
    date and the testing flag are parameters, and so is whether a
    controller's `init` succeeds. */
module App {
  import opened Documents
  import opened Config
  import opened Utils
  import Remote
  import RemoteSpec
  import Browser
  import GitHubApi
  import LocalStore

  datatype Backend = GitHubBackend(gitHub: GitHubApi.GitHubStorage) | LocalBackend(local: LocalStore.LocalStorage)

  /** The day view on display, the locked view naming a day, or none yet. */
  datatype View = NoView | DayView(key: string) | LockedView(key: string)

  const SyncedLabel := "\U{2705} GitHub Synced"
  const LocalLabel := "\U{1F4BE} Local Storage"

  class ValentineWeekApp {
    const storage: Backend
    var currentDay: Option<string>
    var view: View
    /** The `initialized` flag of each day controller. */
    var initialized: map<string, bool>
    /** How many times each controller's `init` has completed. */
    ghost var initRuns: map<string, nat>

    /** Every day has a controller, and a controller's `init` has completed
        once if it is marked initialized and never otherwise. The remote
        backend is in use only when it is ready. */
    ghost predicate Valid()
      reads this
    {
      && (forall k :: k in DayOrder ==> k in initialized)
      && initialized.Keys == initRuns.Keys
      && (forall k :: k in initialized ==> initRuns[k] == if initialized[k] then 1 else 0)
      && (storage.GitHubBackend? ==> storage.gitHub.isConfigured)
    }

    /** The constructor with `initStorage`, and the controllers that
        `createDayInstances` sets up before any day is shown. */
    constructor (token: string, repo: Remote.Repository, browser: Browser.BrowserStorage)
      ensures Valid()
      ensures storage.GitHubBackend? <==> RemoteSpec.TokenUsable(token)
      ensures storage.GitHubBackend? ==> storage.gitHub.token == token && storage.gitHub.repo == repo
      ensures storage.LocalBackend? ==> storage.local.store == browser
      ensures currentDay == None && view == NoView
      ensures initialized == (map k | k in DayOrder :: false)
    {
      var gitHub := new GitHubApi.GitHubStorage(token, repo);
      if gitHub.IsReady() {
        storage := GitHubBackend(gitHub);
      } else {
        var local := new LocalStore.LocalStorage(browser);
        storage := LocalBackend(local);
      }
      currentDay := None;
      view := NoView;
      initialized := map k | k in DayOrder :: false;
      initRuns := map k | k in DayOrder :: 0;
    }

    /** `updateAuthStatus`: the synced label exactly when the remote backend
        is in use and ready. */
    function AuthStatus(): (text: string)
      reads this
      ensures text == SyncedLabel <==> storage.GitHubBackend? && storage.gitHub.IsReady()
      ensures text == SyncedLabel || text == LocalLabel
      ensures Valid() ==> (text == SyncedLabel <==> storage.GitHubBackend?)
    {
      if storage.GitHubBackend? && storage.gitHub.IsReady() then SyncedLabel else LocalLabel
    }

    method ShowLockedDay(k: string)
      modifies this
      ensures view == LockedView(k)
      ensures currentDay == old(currentDay) && initialized == old(initialized) && initRuns == old(initRuns)
    {
      view := LockedView(k);
    }

    /** `showDay`. A locked day shows the locked view and nothing else
        changes. An open day is shown; its controller is initialized the
        first time only, and if that `init` fails the day is not made
        current. */
    method ShowDay(k: string, today: int, testing: bool, initSucceeds: bool) returns (ok: bool)
      requires Valid()
      modifies this
      ensures Valid()
      ensures !IsDayUnlocked(k, testing, today) ==>
                && ok && view == LockedView(k)
                && currentDay == old(currentDay) && initialized == old(initialized) && initRuns == old(initRuns)
      ensures IsDayUnlocked(k, testing, today) ==>
                && view == (if k in initialized then DayView(k) else NoView)
                && (ok <==> !(k in old(initialized) && !old(initialized)[k]) || initSucceeds)
                && (ok ==> currentDay == Some(k) && (k in initialized ==> initialized[k]))
                && (!ok ==> currentDay == old(currentDay) && initialized == old(initialized) && initRuns == old(initRuns))
      ensures initialized.Keys == old(initialized.Keys)
      ensures forall d :: d in initialized && d != k ==> initialized[d] == old(initialized)[d] && initRuns[d] == old(initRuns)[d]
    {
      view := NoView;
      if !IsDayUnlocked(k, testing, today) {
        ShowLockedDay(k);
        return true;
      }
      if k in initialized {
        view := DayView(k);
        if !initialized[k] {
          if !initSucceeds {
            return false;
          }
          initRuns := initRuns[k := initRuns[k] + 1];
          initialized := initialized[k := true];
        }
      }
      currentDay := Some(k);
      return true;
    }

    /** `showFirstUnlockedDay`: shows the earliest open day in the
        configured order, or Rose Day's locked view when none is open. */
    method ShowFirstUnlockedDay(today: int, testing: bool, initSucceeds: bool) returns (ok: bool)
      requires Valid()
      modifies this
      ensures Valid()
      ensures initialized.Keys == old(initialized.Keys)
      ensures forall i :: FirstUnlocked(i, testing, today) ==>
                var k := DayOrder[i];
                && view == DayView(k)
                && (ok <==> old(initialized)[k] || initSucceeds)
                && (ok ==> currentDay == Some(k) && initialized[k])
                && (!ok ==> currentDay == old(currentDay) && initialized == old(initialized) && initRuns == old(initRuns))
                && (forall d :: d in initialized && d != k ==> initialized[d] == old(initialized)[d] && initRuns[d] == old(initRuns)[d])
      ensures (forall i :: 0 <= i < |DayOrder| ==> !IsDayUnlocked(DayOrder[i], testing, today)) ==>
                && ok && view == LockedView(DayOrder[0])
                && currentDay == old(currentDay) && initialized == old(initialized) && initRuns == old(initRuns)
    {
      var days := DaysInOrder();
      var i := 0;
      while i < |days|
        invariant 0 <= i <= |days|
        invariant forall j :: 0 <= j < i ==> !IsDayUnlocked(days[j], testing, today)
      {
        if IsDayUnlocked(days[i], testing, today) {
          assert FirstUnlocked(i, testing, today);
          FirstUnlockedUnique(i, testing, today);
          ok := ShowDay(days[i], today, testing, initSucceeds);
          return;
        }
        i := i + 1;
      }
      ShowLockedDay(days[0]);
      ok := true;
    }

    /** `handleNavClick`: a locked day outside testing mode only raises a
        toast; any other day goes through `showDay`. */
    method HandleNavClick(k: string, today: int, testing: bool, initSucceeds: bool) returns (toast: bool, ok: bool)
      requires Valid()
      modifies this
      ensures Valid()
      ensures toast <==> !IsDayUnlocked(k, testing, today)
      ensures toast ==> ok && view == old(view) && currentDay == old(currentDay)
                        && initialized == old(initialized) && initRuns == old(initRuns)
      ensures !toast ==>
                && view == (if k in initialized then DayView(k) else NoView)
                && (ok <==> !(k in old(initialized) && !old(initialized)[k]) || initSucceeds)
                && (ok ==> currentDay == Some(k) && (k in initialized ==> initialized[k]))
                && (!ok ==> currentDay == old(currentDay) && initialized == old(initialized) && initRuns == old(initRuns))
      ensures initialized.Keys == old(initialized.Keys)
      ensures forall d :: d in initialized && d != k ==> initialized[d] == old(initialized)[d] && initRuns[d] == old(initRuns)[d]
    {
      var isUnlocked := IsDayUnlocked(k, testing, today);
      if !isUnlocked && !testing {
        return true, true;
      }
      toast := false;
      ok := ShowDay(k, today, testing, initSucceeds);
    }
  }

  /** Day `i` is the earliest open day of the order. */
  predicate FirstUnlocked(i: int, testing: bool, today: int)
  {
    && 0 <= i < |DayOrder|
    && IsDayUnlocked(DayOrder[i], testing, today)
    && forall j :: 0 <= j < i ==> !IsDayUnlocked(DayOrder[j], testing, today)
  }

  /** There is at most one earliest open day. */
  lemma FirstUnlockedUnique(i: int, testing: bool, today: int)
    requires FirstUnlocked(i, testing, today)
    ensures forall i2 :: FirstUnlocked(i2, testing, today) ==> i2 == i
  {
  }

  /** Outside testing mode nothing is open before Rose Day, and from Rose
      Day on Rose Day is the first open day. */
  lemma FirstUnlockedByDate(today: int)
    ensures today < DayNumber(CalendarDate(2026, 2, 7)) ==>
              forall i :: 0 <= i < |DayOrder| ==> !IsDayUnlocked(DayOrder[i], false, today)
    ensures today >= DayNumber(CalendarDate(2026, 2, 7)) ==> FirstUnlocked(0, false, today)
  {
    DatesConsecutive();
  }

  /** The app's gate against the test as written: at or east of UTC they
      agree, and west of UTC the test as written on local date `today`
      answers as the app's gate does on the next day. So west of UTC Rose
      Day is the first open day from 2026-02-06 on. */
  lemma FirstUnlockedAsWritten(today: int, westOfUtc: bool)
    ensures var shifted := if westOfUtc then today + 1 else today;
            && (forall i :: 0 <= i < |DayOrder| ==>
                  IsDayUnlockedAsWritten(DayOrder[i], false, today, westOfUtc) == IsDayUnlocked(DayOrder[i], false, shifted))
            && (shifted < DayNumber(CalendarDate(2026, 2, 7)) ==>
                  forall i :: 0 <= i < |DayOrder| ==> !IsDayUnlockedAsWritten(DayOrder[i], false, today, westOfUtc))
            && (shifted >= DayNumber(CalendarDate(2026, 2, 7)) ==>
                  IsDayUnlockedAsWritten(DayOrder[0], false, today, westOfUtc) && FirstUnlocked(0, false, shifted))
  {
    var shifted := if westOfUtc then today + 1 else today;
    FirstUnlockedByDate(shifted);
  }

  /** In testing mode the first open day is always Rose Day. */
  lemma TestingOpensRose(today: int)
    ensures FirstUnlocked(0, true, today)
  {
  }

  /** With the shipped configuration the app stores locally. */
  lemma ShippedConfigStoresLocally()
    ensures !RemoteSpec.TokenUsable(GitHub.token)
  {
    ShippedTokenIsPlaceholder();
  }
}
