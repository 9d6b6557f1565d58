/** The clicker of `MainActivity`: a score (`globalCount`), a shop level
    (`shopLevel`) and the screen the bottom navigation bar shows. A click on the
    home screen adds a point; an upgrade in the shop trades ten points for a level. */
module Clicker {
  import opened KotlinInts

  /** The screens of the navigation bar, in declaration order. */
  datatype Screen = Home | Shop | Profile {
    /** Kotlin's `ordinal`: the position of the screen in its declaration. */
    function Ordinal(): (n: nat)
      ensures n < TAB_COUNT
      ensures this == Home <==> n == 0
    {
      match this
      case Home => 0
      case Shop => 1
      case Profile => 2
    }
  }

  /** The navigation bar has one tab per screen. */
  const TAB_COUNT: nat := 3

  /** A shop upgrade always costs this many points. */
  const UPGRADE_COST: int := 10

  /** The screen a tab click selects: the `when (index)` of the navigation bar. */
  function ScreenOf(index: int): (s: Screen)
    ensures 0 <= index < TAB_COUNT ==> s.Ordinal() == index
    ensures !(0 <= index < TAB_COUNT) ==> s == Home
  {
    if index == 0 then Home
    else if index == 1 then Shop
    else if index == 2 then Profile
    else Home
  }

  /** Whether the tab at `index` is drawn selected while `current` is shown. */
  predicate Selected(current: Screen, index: int) {
    current.Ordinal() == index
  }

  /** Everything `onCreate` remembers between recompositions. */
  datatype State = State(screen: Screen, count: Int32, level: Int32)

  /** The state right after `onCreate`. */
  const Initial: State := State(Home, 0, 0)

  /** What the user can do: press "Click here", press "Upgrade (10)", or press a tab. */
  datatype Event = ClickHere | Upgrade | TabClick(index: int)

  /** Each button exists only on its own screen; the tabs are always shown. */
  predicate Enabled(s: State, e: Event) {
    match e
    case ClickHere => s.screen == Home
    case Upgrade => s.screen == Shop
    case TabClick(_) => true
  }

  /** `count + 1` on a Kotlin `Int`: one more point, wrapping at `Int.MAX_VALUE`. */
  function ClickCount(count: Int32): (r: Int32)
    ensures count as int < MAX_INT ==> r as int == count as int + 1
    ensures count as int == MAX_INT ==> r as int == MIN_INT
  {
    Wrap32(count as int + 1)
  }

  /** An upgrade is accepted exactly when the score covers its cost. */
  predicate CanAfford(count: Int32) {
    count as int >= UPGRADE_COST
  }

  /** The upgrade button: spend the cost and gain a level, or do nothing. */
  function Purchase(s: State): (t: State)
    ensures t.screen == s.screen
    ensures CanAfford(s.count) ==> t.count as int == s.count as int - UPGRADE_COST
    ensures CanAfford(s.count) && s.level as int < MAX_INT ==> t.level as int == s.level as int + 1
    ensures CanAfford(s.count) && s.level as int == MAX_INT ==> t.level as int == MIN_INT
    ensures !CanAfford(s.count) ==> t == s
  {
    if CanAfford(s.count) then
      s.(count := (s.count as int - UPGRADE_COST) as Int32, level := Wrap32(s.level as int + 1))
    else
      s
  }

  /** The effect of one event. */
  function Step(s: State, e: Event): (t: State)
    requires Enabled(s, e)
  {
    match e
    case ClickHere => s.(count := ClickCount(s.count))
    case Upgrade => Purchase(s)
    case TabClick(i) => s.(screen := ScreenOf(i))
  }

  /** Every event of the sequence is possible where it happens. */
  predicate Runnable(s: State, es: seq<Event>)
    decreases |es|
  {
    es == [] || (Enabled(s, es[0]) && Runnable(Step(s, es[0]), es[1..]))
  }

  /** The state after a sequence of events. */
  function Run(s: State, es: seq<Event>): State
    requires Runnable(s, es)
    decreases |es|
  {
    if es == [] then s else Run(Step(s, es[0]), es[1..])
  }

  /** The number of clicks in a sequence of events. */
  function Clicks(es: seq<Event>): nat {
    if es == [] then 0 else (if es[0].ClickHere? then 1 else 0) + Clicks(es[1..])
  }

  /** The number of upgrades in a sequence of events that the shop accepted. */
  function Accepted(s: State, es: seq<Event>): nat
    requires Runnable(s, es)
    decreases |es|
  {
    if es == [] then 0
    else (if es[0].Upgrade? && CanAfford(s.count) then 1 else 0) + Accepted(Step(s, es[0]), es[1..])
  }

  /** The points a state holds, counting each level as the ten points it cost. */
  function Worth(s: State): int {
    s.count as int + UPGRADE_COST * s.level as int
  }

  /** While the points held, plus ten per level, plus the clicks of the run stay at or
      below `Int.MAX_VALUE`, the score never goes negative, the level never falls, every point earned is either still held or
      spent on a level, and the level grows by exactly the accepted upgrades. */
  lemma {:induction false} RunKeepsLedger(s: State, es: seq<Event>)
    requires Runnable(s, es)
    requires 0 <= s.count && 0 <= s.level
    requires Worth(s) + Clicks(es) <= MAX_INT
    ensures 0 <= Run(s, es).count
    ensures s.level <= Run(s, es).level
    ensures Worth(Run(s, es)) == Worth(s) + Clicks(es)
    ensures Run(s, es).level as int == s.level as int + Accepted(s, es)
    decreases |es|
  {
    if es != [] {
      var t := Step(s, es[0]);
      match es[0] {
        case ClickHere =>
          assert t.count as int == s.count as int + 1;
        case Upgrade =>
          assert s.level as int < MAX_INT;
        case TabClick(_) =>
      }
      RunKeepsLedger(t, es[1..]);
    }
  }

  /** From launch, the score is never negative and the level is the number of
      accepted upgrades, as long as at most `Int.MAX_VALUE` clicks were made. */
  lemma LedgerFromLaunch(es: seq<Event>)
    requires Runnable(Initial, es)
    requires Clicks(es) <= MAX_INT
    ensures 0 <= Run(Initial, es).count
    ensures Run(Initial, es).level as int == Accepted(Initial, es)
    ensures Worth(Run(Initial, es)) == Clicks(es)
  {
    RunKeepsLedger(Initial, es);
  }

  /** A run of a concatenation is a run of its first part followed by a run of the rest. */
  lemma {:induction false} RunSplit(s: State, es1: seq<Event>, es2: seq<Event>)
    requires Runnable(s, es1 + es2)
    ensures Runnable(s, es1) && Runnable(Run(s, es1), es2)
    ensures Run(s, es1 + es2) == Run(Run(s, es1), es2)
    ensures Clicks(es1 + es2) == Clicks(es1) + Clicks(es2)
    decreases |es1|
  {
    if es1 == [] {
      assert es1 + es2 == es2;
    } else {
      assert (es1 + es2)[1..] == es1[1..] + es2;
      RunSplit(Step(s, es1[0]), es1[1..], es2);
    }
  }

  /** From launch, the level at any point of a run is at most the level at any later point. */
  lemma LevelNeverDecreases(es1: seq<Event>, es2: seq<Event>)
    requires Runnable(Initial, es1 + es2)
    requires Clicks(es1 + es2) <= MAX_INT
    ensures Runnable(Initial, es1)
    ensures Run(Initial, es1).level <= Run(Initial, es1 + es2).level
  {
    RunSplit(Initial, es1, es2);
    RunKeepsLedger(Initial, es1);
    RunKeepsLedger(Run(Initial, es1), es2);
  }

  /** `count + 1` is not guarded: one click at `Int.MAX_VALUE` makes the score negative. */
  lemma ClickWrapsAtMaxInt(level: Int32)
    ensures Step(State(Home, MAX_INT as Int32, level), ClickHere).count as int == MIN_INT
  {
  }

  /** The upgrade's price is the same at every level, and so is whether it is accepted. */
  lemma UpgradeCostIsFlat(count: Int32, level1: Int32, level2: Int32)
    ensures Purchase(State(Shop, count, level1)).count == Purchase(State(Shop, count, level2)).count
    ensures (Purchase(State(Shop, count, level1)).level != level1)
        == (Purchase(State(Shop, count, level2)).level != level2)
  {
  }

  /** Clicking the tab of a screen shows that screen. */
  lemma TabOfScreen(s: Screen)
    ensures ScreenOf(s.Ordinal()) == s
  {
  }

  /** A tab is drawn selected exactly when it is the tab of the current screen,
      so after a click on tab `i` exactly tab `i` is selected. */
  lemma SelectedTab(current: Screen, index: int)
    ensures Selected(current, index) <==> 0 <= index < TAB_COUNT && ScreenOf(index) == current
    ensures 0 <= index < TAB_COUNT ==> forall j :: Selected(ScreenOf(index), j) <==> j == index
  {
  }

  /** Tab clicks, and everything possible on the profile screen, keep the score and the level. */
  lemma NavigationKeepsProgress(s: State, e: Event)
    requires Enabled(s, e)
    requires e.TabClick? || s.screen == Profile
    ensures Step(s, e).count == s.count && Step(s, e).level == s.level
  {
  }

  /** The state `onCreate` holds in `remember`ed variables and its callbacks reassign. */
  class MainActivity {
    var currentScreen: Screen
    var globalCount: Int32
    var shopLevel: Int32

    /** The remembered variables as one value. */
    function Snapshot(): State
      reads this
    {
      State(currentScreen, globalCount, shopLevel)
    }

    /** `onCreate`: the home screen, no points and level zero. */
    constructor ()
      ensures Snapshot() == Initial
    {
      currentScreen := Home;
      globalCount := 0;
      shopLevel := 0;
    }

    /** The `onClick` of the tab at `index`. */
    method OnTabClick(index: int)
      modifies this
      ensures Snapshot() == Step(old(Snapshot()), TabClick(index))
    {
      currentScreen := ScreenOf(index);
    }

    /** The "Click here" button of the home screen. */
    method OnClickHere()
      requires currentScreen == Home
      modifies this
      ensures Snapshot() == Step(old(Snapshot()), ClickHere)
    {
      globalCount := ClickCount(globalCount);
    }

    /** The "Upgrade (10)" button of the shop screen. */
    method OnUpgrade()
      requires currentScreen == Shop
      modifies this
      ensures Snapshot() == Step(old(Snapshot()), Upgrade)
    {
      if globalCount as int >= UPGRADE_COST {
        globalCount := (globalCount as int - UPGRADE_COST) as Int32;
        shopLevel := Wrap32(shopLevel as int + 1);
      }
    }
  }
}
