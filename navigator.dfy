/** The floating demo navigator: a fixed table of the nine screens, the
    position of the current screen in it, and previous/next stepping. */
module Navigator {
  import opened Base
  import opened Session

  datatype Entry = Entry(screen: Screen, title: string)

  /** The `screens` table, in display order. */
  const Screens: seq<Entry> := [
    Entry(Landing, "Landing"),
    Entry(RoleSelection, "Role Selection"),
    Entry(Login, "Login"),
    Entry(Dashboard, "Dashboard"),
    Entry(Upload, "Upload"),
    Entry(Analysis, "Analysis"),
    Entry(QA, "Q&A Chat"),
    Entry(Settings, "Settings"),
    Entry(Profile, "Profile")
  ]

  /** `entries.firstIndex { $0.0 == screen }` */
  function FirstIndexOf(entries: seq<Entry>, screen: Screen): (r: Option<nat>)
    ensures r.Some? ==> r.value < |entries| && entries[r.value].screen == screen
    ensures r.Some? ==> forall k :: 0 <= k < r.value ==> entries[k].screen != screen
    ensures r.None? <==> forall k :: 0 <= k < |entries| ==> entries[k].screen != screen
    decreases |entries|
  {
    if entries == [] then None
    else if entries[0].screen == screen then Some(0)
    else
      assert forall k :: 1 <= k < |entries| ==> entries[k] == entries[1..][k - 1];
      match FirstIndexOf(entries[1..], screen)
      case None => None
      case Some(k) => Some(k + 1)
  }

  /** `currentScreenIndex`: the first matching entry, 0 when none matches. */
  function CurrentIndex(current: Screen): nat {
    match FirstIndexOf(Screens, current)
    case Some(i) => i
    case None => 0
  }

  /** `currentScreenName`: the label of the first matching entry, "Unknown" when none matches. */
  function CurrentName(current: Screen): string {
    match FirstIndexOf(Screens, current)
    case Some(i) => Screens[i].title
    case None => "Unknown"
  }

  predicate CanGoPrevious(current: Screen) {
    CurrentIndex(current) > 0
  }

  predicate CanGoNext(current: Screen) {
    CurrentIndex(current) < |Screens| - 1
  }

  /** The screen `goToPrevious` navigates to, or the current one when it does nothing. */
  function Previous(current: Screen): Screen {
    if CanGoPrevious(current) then Screens[CurrentIndex(current) - 1].screen else current
  }

  /** The screen `goToNext` navigates to, or the current one when it does nothing. */
  function Next(current: Screen): Screen {
    if CanGoNext(current) && CurrentIndex(current) + 1 < |Screens| then Screens[CurrentIndex(current) + 1].screen else current
  }

  /** Every screen has an entry. */
  lemma Listed(s: Screen) returns (k: nat)
    ensures k < |Screens| && Screens[k].screen == s
  {
    k := match s
      case Landing => 0 case RoleSelection => 1 case Login => 2
      case Dashboard => 3 case Upload => 4 case Analysis => 5
      case QA => 6 case Settings => 7 case Profile => 8;
  }

  /** No entry is titled with the fallback name. */
  lemma TitleKnown(k: nat)
    requires k < |Screens|
    ensures Screens[k].title != "Unknown"
  {
    var t := Screens[k].title;
    assert |t| > 1 && (t[0] != 'U' || t[1] != 'n');
  }

  /** No screen is listed twice. */
  lemma ScreensDistinct()
    ensures forall i, j :: 0 <= i < j < |Screens| ==> Screens[i].screen != Screens[j].screen
  {
  }

  /** In a table without repeats, each entry is found at its own position. */
  lemma FoundAtOwnPosition(entries: seq<Entry>, k: nat)
    requires k < |entries|
    requires forall i, j :: 0 <= i < j < |entries| ==> entries[i].screen != entries[j].screen
    ensures FirstIndexOf(entries, entries[k].screen) == Some(k)
  {
    var r := FirstIndexOf(entries, entries[k].screen);
    assert r.Some?;
  }

  /** The table lists all nine screens, each exactly once, so every screen is found
      at its own position. */
  lemma ScreensTableComplete(s: Screen)
    ensures |Screens| == 9
    ensures CurrentIndex(s) < |Screens| && Screens[CurrentIndex(s)].screen == s
    ensures FirstIndexOf(Screens, s).Some?
    ensures CurrentName(s) == Screens[CurrentIndex(s)].title && CurrentName(s) != "Unknown"
  {
    var k := Listed(s);
    ScreensDistinct();
    FoundAtOwnPosition(Screens, k);
    TitleKnown(k);
  }

  /** Each entry is found at its own position. */
  lemma IndexOfEntry(k: nat)
    requires k < |Screens|
    ensures CurrentIndex(Screens[k].screen) == k
  {
    ScreensDistinct();
    ScreensTableComplete(Screens[k].screen);
  }

  /** Only the first screen has no predecessor and only the last has no successor. */
  lemma StepLimits(s: Screen)
    ensures CanGoPrevious(s) <==> s != Landing
    ensures CanGoNext(s) <==> s != Profile
  {
    ScreensTableComplete(s);
    if s == Landing {
      assert Screens[0].screen == Landing;
    }
    if s == Profile {
      assert Screens[8].screen == Profile;
    }
  }

  /** Stepping moves by exactly one table entry, and the ends are fixed points. */
  lemma StepsAreAdjacent(s: Screen)
    ensures CanGoNext(s) ==> CurrentIndex(Next(s)) == CurrentIndex(s) + 1
    ensures CanGoPrevious(s) ==> CurrentIndex(Previous(s)) + 1 == CurrentIndex(s)
    ensures !CanGoNext(s) ==> Next(s) == s
    ensures !CanGoPrevious(s) ==> Previous(s) == s
  {
    ScreensTableComplete(s);
    if CanGoNext(s) {
      IndexOfEntry(CurrentIndex(s) + 1);
    }
    if CanGoPrevious(s) {
      IndexOfEntry(CurrentIndex(s) - 1);
    }
  }

  /** From any screen but the last, next then previous returns to it; from any but
      the first, previous then next does. */
  lemma NextThenPrevious(s: Screen)
    ensures s != Profile ==> Previous(Next(s)) == s
    ensures s != Landing ==> Next(Previous(s)) == s
  {
    StepLimits(s);
    StepsAreAdjacent(s);
    ScreensTableComplete(s);
    if s != Profile {
      StepLimits(Next(s));
      StepsAreAdjacent(Next(s));
      ScreensTableComplete(Previous(Next(s)));
    }
    if s != Landing {
      StepLimits(Previous(s));
      StepsAreAdjacent(Previous(s));
      ScreensTableComplete(Next(Previous(s)));
    }
  }

  /** The navigator overlay: whether the list is open, and the shared state it drives. */
  class DemoNavigator {
    var isExpanded: bool
    const appState: AppState

    constructor (state: AppState)
      ensures appState == state && !isExpanded
    {
      appState := state;
      isExpanded := false;
    }

    /** `goToPrevious`: a no-op on the first screen. */
    method GoToPrevious()
      modifies appState
      ensures appState.Snapshot() == Navigate(old(appState.Snapshot()), Previous(old(appState.currentScreen)))
    {
      if CurrentIndex(appState.currentScreen) > 0 {
        appState.NavigateTo(Screens[CurrentIndex(appState.currentScreen) - 1].screen);
      }
    }

    /** `goToNext`: a no-op on the last screen. */
    method GoToNext()
      modifies appState
      ensures appState.Snapshot() == Navigate(old(appState.Snapshot()), Next(old(appState.currentScreen)))
    {
      if CurrentIndex(appState.currentScreen) < |Screens| - 1 {
        appState.NavigateTo(Screens[CurrentIndex(appState.currentScreen) + 1].screen);
      }
    }

    /** Tapping entry `index` of the open list: navigate there and close the list. */
    method Pick(index: nat)
      requires index < |Screens|
      modifies this, appState
      ensures appState.Snapshot() == Navigate(old(appState.Snapshot()), Screens[index].screen)
      ensures !isExpanded
    {
      appState.NavigateTo(Screens[index].screen);
      isExpanded := false;
    }

    method Expand()
      modifies this
      ensures isExpanded
    {
      isExpanded := true;
    }

    method Collapse()
      modifies this
      ensures !isExpanded
    {
      isExpanded := false;
    }

    /** "Exit Demo Mode": clears the demo flag and nothing else. */
    method ExitDemoMode()
      modifies appState
      ensures appState.Snapshot() == old(appState.Snapshot()).(demoMode := false)
    {
      appState.demoMode := false;
    }
  }
}
