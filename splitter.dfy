/**
 * The single-bar voltage levels with a splitter breaker: bar 1 and bar 2,
 * the bays below `n / 2` on bar 1 and the others on bar 2, and the breaker
 * `CB_bars` between the two bars.
 */
module Splitter {
  import opened Common
  import opened Grid
  import opened Layouts
  import opened SingleBar

  /** The breaker `CB_bars` from bar 1 to bar 2. */
  const BarsCoupling := Pattern([], [], [SwitchPat(Lit("CB_bars"), Bar(0), Bar(1), CircuitBreaker)], [])

  /** `CB_bars` once the bars have ids `base` and `base + 1`. */
  function CbBars(base: Id): Switch
  {
    Switch("CB_bars", Some(base), Some(base + 1), CircuitBreaker)
  }

  /** Bays on bar 1: the first half, rounded down. */
  function Bar1Bays(n: nat): nat
  {
    n / 2
  }

  /** Bays on bar 2: the rest. */
  function Bar2Bays(n: nat): nat
  {
    n - n / 2
  }

  /** Id of the bar bay `i` hangs from when the bars have ids `base` and `base + 1`. */
  function SideBar(n: nat, base: Id, i: nat): Id
  {
    if i < Bar1Bays(n) then base else base + 1
  }

  // ------------------------------------------------ splitter, unsegmented

  /** `create_single_bar_with_splitter` without segments: the plain single-bar bay, with Dis2 from the bay's side of the bar. */
  const SplitterLayout := Layout([Own(" bar 1"), Own(" bar 2")],
                                 Pattern([], [BayConnName, Indexed("LineBus2_"), Indexed("LineBus3_")],
                                         [Dis("Dis1_", Local(0), Local(1)), Cb("CB_", Local(1), Local(2)),
                                          Dis("Dis2_", Side, Local(2))],
                                         [0]),
                                 1, BarsCoupling)

  /** Bars `{name} bar 1` and `{name} bar 2`, three buses per bay, three switches per bay and `CB_bars`, no lines. */
  lemma SplitterCounts(name: string, n: nat, base: Id)
    ensures |LevelBuses(SplitterLayout, name, n, false, base)| == 2 + 3 * n
    ensures |LevelSwitches(SplitterLayout, name, n, false, Bar1Bays(n), base)| == 3 * n + 1
    ensures |LevelConn(SplitterLayout, n, false, base)| == n
    ensures LevelLines(SplitterLayout, name, n, false, base) == []
  {
    BuildBusCount(SplitterLayout, name, n, false, Bar1Bays(n), base);
    BuildSwitchCount(SplitterLayout, name, n, false, Bar1Bays(n), base);
    BuildConnCount(SplitterLayout, name, n, false, Bar1Bays(n), base);
    BuildUnsegmentedLines(SplitterLayout, name, n, Bar1Bays(n), base);
  }

  /** Switch `k` of bay `i`: its pattern resolved against the two bars and the bay's own buses. */
  lemma SplitterSwitch(name: string, n: nat, base: Id, i: nat, k: nat)
    requires k < 3
    ensures BaySwitch(name, SplitterLayout, false, Bar1Bays(n), base, i, k)
            == MakeSwitch(name, SplitterLayout.bay.switches[k], i, Bar1Bays(n), [Some(base), Some(base + 1)], base + 2 + 3 * i)
  {
    var l := SplitterLayout;
    BaySwitchIs(name, l, false, Bar1Bays(n), base, i, k);
    OffIs(i, 3);
    assert LoopIndex(l.step, i) == i;
    assert Current(l.bay, false, BarIds(l, false, base), base + BayOffset(l, false, i)) == [Some(base), Some(base + 1)];
  }

  /** A switch numbered by its bay, `{prefix}{i}`, between two of the bay's own buses. */
  lemma LocalSwitch(name: string, prefix: string, a: nat, b: nat, kind: SwitchKind, i: nat, split: nat, cur: seq<Option<Id>>, local: Id)
    ensures MakeSwitch(name, SwitchPat(Num(false, prefix), Local(a), Local(b), kind), i, split, cur, local)
            == Switch(prefix + NatStr(i), Some(local + a), Some(local + b), kind)
  {
  }

  /** A switch numbered by its bay, `{prefix}{i}`, from the bay's side of the bars to one of its own buses. */
  lemma SideSwitch(name: string, prefix: string, b: nat, kind: SwitchKind, i: nat, split: nat, cur: seq<Option<Id>>, local: Id)
    ensures MakeSwitch(name, SwitchPat(Num(false, prefix), Side, Local(b), kind), i, split, cur, local)
            == Switch(prefix + NatStr(i), Pick(cur, if i < split then 0 else 1), Some(local + b), kind)
  {
  }

  /** Bay `i` opens with `Dis1_i` from bus1 to bus2. */
  lemma SplitterDis1(name: string, n: nat, base: Id, i: nat)
    ensures BaySwitch(name, SplitterLayout, false, Bar1Bays(n), base, i, 0)
            == Switch("Dis1_" + NatStr(i), Some(base + 2 + 3 * i), Some(base + 3 + 3 * i), Disconnector)
  {
    SplitterSwitch(name, n, base, i, 0);
    assert SplitterLayout.bay.switches[0] == Dis("Dis1_", Local(0), Local(1));
    LocalSwitch(name, "Dis1_", 0, 1, Disconnector, i, Bar1Bays(n), [Some(base), Some(base + 1)], base + 2 + 3 * i);
  }

  /** Bay `i` continues with the breaker `CB_i` from bus2 to bus3. */
  lemma SplitterCb(name: string, n: nat, base: Id, i: nat)
    ensures BaySwitch(name, SplitterLayout, false, Bar1Bays(n), base, i, 1)
            == Switch("CB_" + NatStr(i), Some(base + 3 + 3 * i), Some(base + 4 + 3 * i), CircuitBreaker)
  {
    SplitterSwitch(name, n, base, i, 1);
    assert SplitterLayout.bay.switches[1] == Cb("CB_", Local(1), Local(2));
    LocalSwitch(name, "CB_", 1, 2, CircuitBreaker, i, Bar1Bays(n), [Some(base), Some(base + 1)], base + 2 + 3 * i);
  }

  /** Bay `i` closes with `Dis2_i` from bar 1 (bays below `n / 2`) or bar 2 to bus3. */
  lemma SplitterDis2(name: string, n: nat, base: Id, i: nat)
    ensures BaySwitch(name, SplitterLayout, false, Bar1Bays(n), base, i, 2)
            == Switch("Dis2_" + NatStr(i), Some(SideBar(n, base, i)), Some(base + 4 + 3 * i), Disconnector)
  {
    SplitterSwitch(name, n, base, i, 2);
    assert SplitterLayout.bay.switches[2] == Dis("Dis2_", Side, Local(2));
    SideSwitch(name, "Dis2_", 2, Disconnector, i, Bar1Bays(n), [Some(base), Some(base + 1)], base + 2 + 3 * i);
  }

  /** After the loop, `CB_bars` couples bar 1 to bar 2. */
  lemma SplitterCoupling(name: string, n: nat, base: Id)
    ensures CouplingSwitch(name, SplitterLayout, n, false, Bar1Bays(n), base, 0) == CbBars(base)
  {
    assert LastBars(SplitterLayout.bay, n, false, BarIds(SplitterLayout, false, base), LoopBase(SplitterLayout, false, base))
           == [Some(base), Some(base + 1)];
  }

  /** The returned connection buses are the bays' bus1, in bay order. */
  lemma SplitterConn(name: string, n: nat, base: Id)
    ensures LevelConn(SplitterLayout, n, false, base) == seq(n, i requires 0 <= i < n => base + 2 + 3 * i)
  {
    var conn := LevelConn(SplitterLayout, n, false, base);
    BuildConnCount(SplitterLayout, name, n, false, Bar1Bays(n), base);
    forall i | 0 <= i < n
      ensures conn[i] == base + 2 + 3 * i
    {
      BuildConnAt(SplitterLayout, name, n, false, Bar1Bays(n), base, i, 0);
      OffIs(i, 1);
      OffIs(i, 3);
    }
  }

  // -------------------------------------------------- splitter, segmented

  /**
   * The bays of one side when segmented, bay `j` of the side being bay
   * `first + j` of the level: its segment `{name}{side}{first + j + 1})`
   * and the plain single-bar bay hanging from that segment. The bar
   * pattern is never used, since the bars are segments.
   */
  function SideLayout(side: string, first: nat): Layout
  {
    Layout([Own(" bar")],
           Pattern([Wrapped(true, side, first + 1, ")")],
                   [Wrapped(true, "_bay_conn_", first, ""), Wrapped(false, "LineBus2_", first, ""),
                    Wrapped(false, "LineBus3_", first, "")],
                   [SwitchPat(Wrapped(false, "Dis1_", first, ""), Local(0), Local(1), Disconnector),
                    SwitchPat(Wrapped(false, "CB_", first, ""), Local(1), Local(2), CircuitBreaker),
                    SwitchPat(Wrapped(false, "Dis2_", first, ""), Bar(0), Local(2), Disconnector)],
                   [0]),
           1, NoCoupling)
  }

  /** Two levels one after the other. */
  /** Bays `0 .. h - 1` on segments of bar 1, then bays `h .. h + m - 1` on segments of bar 2. */
  function TwoSides(name: string, h: nat, m: nat, base: Id): Level
  {
    Pair(SideLayout(" bar1 (", 0), SideLayout(" bar2 (", h), name, h, m, base)
  }

  /**
   * `create_single_bar_with_splitter` with segments, once every bay has its
   * offsets: the bays below `n / 2` on segments of bar 1, the others on
   * segments of bar 2, and each bar's segments chained on their own.
   */
  function SegmentedSplitter(name: string, n: nat, base: Id): Level
  {
    TwoSides(name, Bar1Bays(n), Bar2Bays(n), base)
  }

  /** The level the splitter builds, segmented or not. */
  function SplitterLevel(name: string, n: nat, seg: bool, base: Id): Level
  {
    if seg then SegmentedSplitter(name, n, base) else Build(SplitterLayout, name, n, false, Bar1Bays(n), base)
  }

  /** A layout shaped like a splitter side: one bar, three buses and three switches per bay. */
  predicate SideShaped(l: Layout)
  {
    OneBar(l) && |l.bay.buses| == 3 && |l.bay.switches| == 3
  }

  /** A side has the one-bar shape, with three buses and three switches per bay. */
  lemma SideShape(side: string, first: nat)
    ensures SideShaped(SideLayout(side, first))
  {
  }

  /** A side-shaped build of `m` bays: four buses, three switches and one connection bus per bay. */
  lemma SideCounts(l: Layout, name: string, m: nat, base: Id)
    requires SideShaped(l)
    ensures |LevelBuses(l, name, m, true, base)| == 4 * m
    ensures |LevelSwitches(l, name, m, true, 0, base)| == 3 * m
    ensures |LevelConn(l, m, true, base)| == m
  {
    OneBarCounts(l, name, m, true, base);
    assert |l.bay.buses| + 1 == 4 && |l.bay.switches| == 3;
  }

  /** Two side-shaped builds in a row: the second starts four ids per bay after the first. */
  lemma PairIs(l1: Layout, l2: Layout, name: string, h: nat, m: nat, base: Id)
    requires SideShaped(l1)
    ensures Pair(l1, l2, name, h, m, base) == Join(Build(l1, name, h, true, 0, base), Build(l2, name, m, true, 0, base + 4 * h))
  {
    SideCounts(l1, name, h, base);
  }

  /** Four buses per bay: the segment, the connection bus and the two line buses. */
  lemma PairBusCount(l1: Layout, l2: Layout, name: string, h: nat, m: nat, base: Id)
    requires SideShaped(l1) && SideShaped(l2)
    ensures |Pair(l1, l2, name, h, m, base).buses| == 4 * (h + m)
  {
    PairIs(l1, l2, name, h, m, base);
    SideCounts(l1, name, h, base);
    SideCounts(l2, name, m, base + 4 * h);
  }

  /** Three switches per bay. */
  lemma PairSwitchCount(l1: Layout, l2: Layout, name: string, h: nat, m: nat, base: Id)
    requires SideShaped(l1) && SideShaped(l2)
    ensures |Pair(l1, l2, name, h, m, base).switches| == 3 * (h + m)
  {
    PairIs(l1, l2, name, h, m, base);
    SideCounts(l1, name, h, base);
    SideCounts(l2, name, m, base + 4 * h);
  }

  /** One connection bus per bay. */
  lemma PairConnCount(l1: Layout, l2: Layout, name: string, h: nat, m: nat, base: Id)
    requires SideShaped(l1) && SideShaped(l2)
    ensures |Pair(l1, l2, name, h, m, base).conn| == h + m
  {
    PairIs(l1, l2, name, h, m, base);
    SideCounts(l1, name, h, base);
    SideCounts(l2, name, m, base + 4 * h);
  }

  /** Each side's segments are chained on their own: no section line joins the two. */
  lemma PairLines(l1: Layout, l2: Layout, name: string, h: nat, m: nat, base: Id)
    requires SideShaped(l1) && SideShaped(l2)
    ensures Pair(l1, l2, name, h, m, base).lines == Chain(name, SegIds(base, h, 4, 0)) + Chain(name, SegIds(base + 4 * h, m, 4, 0))
  {
    PairIs(l1, l2, name, h, m, base);
    OneBarLines(l1, name, h, true, base);
    OneBarLines(l2, name, m, true, base + 4 * h);
  }

  /** The segmented splitter has four buses per bay. */
  lemma TwoSidesBusCount(name: string, h: nat, m: nat, base: Id)
    ensures |TwoSides(name, h, m, base).buses| == 4 * (h + m)
  {
    SideShape(" bar1 (", 0);
    SideShape(" bar2 (", h);
    PairBusCount(SideLayout(" bar1 (", 0), SideLayout(" bar2 (", h), name, h, m, base);
  }

  /** The segmented splitter has three switches per bay. */
  lemma TwoSidesSwitchCount(name: string, h: nat, m: nat, base: Id)
    ensures |TwoSides(name, h, m, base).switches| == 3 * (h + m)
  {
    SideShape(" bar1 (", 0);
    SideShape(" bar2 (", h);
    PairSwitchCount(SideLayout(" bar1 (", 0), SideLayout(" bar2 (", h), name, h, m, base);
  }

  /** The segmented splitter returns one connection bus per bay. */
  lemma TwoSidesConnCount(name: string, h: nat, m: nat, base: Id)
    ensures |TwoSides(name, h, m, base).conn| == h + m
  {
    SideShape(" bar1 (", 0);
    SideShape(" bar2 (", h);
    PairConnCount(SideLayout(" bar1 (", 0), SideLayout(" bar2 (", h), name, h, m, base);
  }

  /** The segmented splitter chains bar 1's segments and bar 2's segments, each on their own. */
  lemma TwoSidesLines(name: string, h: nat, m: nat, base: Id)
    ensures TwoSides(name, h, m, base).lines == Chain(name, SegIds(base, h, 4, 0)) + Chain(name, SegIds(base + 4 * h, m, 4, 0))
  {
    SideShape(" bar1 (", 0);
    SideShape(" bar2 (", h);
    PairLines(SideLayout(" bar1 (", 0), SideLayout(" bar2 (", h), name, h, m, base);
  }

  /** Bar 2's side starts right after bar 1's: bays `h ..` have their buses from `base + 4 * h`. */
  lemma TwoSidesIs(name: string, h: nat, m: nat, base: Id)
    ensures TwoSides(name, h, m, base)
            == Join(Build(SideLayout(" bar1 (", 0), name, h, true, 0, base), Build(SideLayout(" bar2 (", h), name, m, true, 0, base + 4 * h))
  {
    SideShape(" bar1 (", 0);
    PairIs(SideLayout(" bar1 (", 0), SideLayout(" bar2 (", h), name, h, m, base);
  }

  /** A side's bay `j` is bay `first + j`: `Dis1_{first + j}` joins its bus1 and bus2. */
  lemma SideDis1(side: string, first: nat, name: string, base: Id, j: nat)
    ensures BaySwitch(name, SideLayout(side, first), true, 0, base, j, 0)
            == Switch("Dis1_" + NatStr(first + j), Some(base + 4 * j + 1), Some(base + 4 * j + 2), Disconnector)
  {
    SideShape(side, first);
    OneBarSwitch(SideLayout(side, first), name, true, base, j, 0);
    assert "Dis1_" + NatStr(j + first) + "" == "Dis1_" + NatStr(first + j);
  }

  /** `CB_{first + j}` joins the bay's bus2 and bus3. */
  lemma SideCb(side: string, first: nat, name: string, base: Id, j: nat)
    ensures BaySwitch(name, SideLayout(side, first), true, 0, base, j, 1)
            == Switch("CB_" + NatStr(first + j), Some(base + 4 * j + 2), Some(base + 4 * j + 3), CircuitBreaker)
  {
    SideShape(side, first);
    OneBarSwitch(SideLayout(side, first), name, true, base, j, 1);
    assert "CB_" + NatStr(j + first) + "" == "CB_" + NatStr(first + j);
  }

  /** `Dis2_{first + j}` hangs bus3 from the bay's own segment. */
  lemma SideDis2(side: string, first: nat, name: string, base: Id, j: nat)
    ensures BaySwitch(name, SideLayout(side, first), true, 0, base, j, 2)
            == Switch("Dis2_" + NatStr(first + j), Some(base + 4 * j), Some(base + 4 * j + 3), Disconnector)
  {
    SideShape(side, first);
    OneBarSwitch(SideLayout(side, first), name, true, base, j, 2);
    assert "Dis2_" + NatStr(j + first) + "" == "Dis2_" + NatStr(first + j);
  }

  /** A side's switches, bay by bay: bay `j` has switches `3 * j` to `3 * j + 2`. */
  lemma SideSwitchAt(side: string, first: nat, name: string, m: nat, base: Id, j: nat, k: nat)
    requires j < m && k < 3
    ensures 3 * j + k < |LevelSwitches(SideLayout(side, first), name, m, true, 0, base)|
    ensures LevelSwitches(SideLayout(side, first), name, m, true, 0, base)[3 * j + k]
            == BaySwitch(name, SideLayout(side, first), true, 0, base, j, k)
  {
    BuildSwitchAt(SideLayout(side, first), name, m, true, 0, base, j, k);
    OffIs(j, 3);
  }

  /** A side's bay `j` starts with its segment `{name}{side}{first + j + 1})`. */
  lemma SideSegmentAt(side: string, first: nat, name: string, m: nat, base: Id, j: nat)
    requires j < m
    ensures 4 * j < |LevelBuses(SideLayout(side, first), name, m, true, base)|
    ensures LevelBuses(SideLayout(side, first), name, m, true, base)[4 * j]
            == Bus(base + 4 * j, name + side + NatStr(first + j + 1) + ")", Connectivity)
  {
    var l := SideLayout(side, first);
    BuildBusAt(l, name, m, true, 0, base, j, 0);
    OffIs(j, 4);
    assert LoopIndex(l.step, j) == j;
    assert j + (first + 1) == first + j + 1;
  }

  /** A side's bay `j` returns its bus1, right after its segment. */
  lemma SideConnAt(side: string, first: nat, name: string, m: nat, base: Id, j: nat)
    requires j < m
    ensures j < |LevelConn(SideLayout(side, first), m, true, base)|
    ensures LevelConn(SideLayout(side, first), m, true, base)[j] == base + 4 * j + 1
  {
    var l := SideLayout(side, first);
    SideShape(side, first);
    OneBarConn(l, name, m, true, base);
  }

  // ------------------------------------------------------------ splitter, methods

  /** The segmented splitter, once every bay has its offsets: bar 1's side, then bar 2's. */
  method CreateSegmentedSplitter(grid: MultiCircuit, name: string, n: nat) returns (conn: seq<Id>)
    modifies grid
    ensures grid.State() == Extend(old(grid.State()), name, SegmentedSplitter(name, n, old(grid.nextId)))
    ensures conn == SegmentedSplitter(name, n, old(grid.nextId)).conn
    ensures old(grid.Valid()) ==> grid.Valid()
  {
    conn := AddTwoSegmented(grid, name, SideLayout(" bar1 (", 0), Bar1Bays(n), SideLayout(" bar2 (", Bar1Bays(n)), Bar2Bays(n));
  }

  /** `create_single_bar_with_splitter`, with the segmented branch as evidently intended. */
  method CreateSingleBarWithSplitter(grid: MultiCircuit, name: string, n: nat, seg: bool) returns (conn: seq<Id>)
    modifies grid
    ensures grid.State() == Extend(old(grid.State()), name, SplitterLevel(name, n, seg, old(grid.nextId)))
    ensures conn == SplitterLevel(name, n, seg, old(grid.nextId)).conn
    ensures old(grid.Valid()) ==> grid.Valid()
  {
    if seg {
      conn := CreateSegmentedSplitter(grid, name, n);
    } else {
      conn := AddLevel(grid, SplitterLayout, name, n, false, Bar1Bays(n));
    }
  }

  // ------------------------------------------------------------ splitter, as written

  /** What a builder leaves in the grid and how it ends: the connection buses, or the exception it raises. */
  datatype Outcome = Outcome(level: Level, result: Result<seq<Id>>)

  /**
   * `create_single_bar_with_splitter` as written. With segments, the first
   * bay adds its segment and then reads `x_offset`, which only the
   * unsegmented branches assign: the build stops there with
   * `UnboundLocalError`. Without bays nothing is read and the build ends
   * with only its voltage level.
   */
  function SplitterAsWritten(name: string, n: nat, seg: bool, base: Id): Outcome
  {
    if !seg then Outcome(Build(SplitterLayout, name, n, false, Bar1Bays(n), base), Ok(LevelConn(SplitterLayout, n, false, base)))
    else if n == 0 then Outcome(Level([], [], [], []), Ok([]))
    else Outcome(Level([Bus(base, name + (if 0 < Bar1Bays(n) then " bar1 (" else " bar2 (") + "1)", Connectivity)], [], [], []),
                 Err(UnboundLocalError("x_offset")))
  }

  /** As written, any segmented splitter with a bay raises, leaving one segment behind instead of the intended level. */
  lemma SplitterAsWrittenRaises(name: string, n: nat, base: Id)
    requires 0 < n
    ensures SplitterAsWritten(name, n, true, base).result == Err(UnboundLocalError("x_offset"))
    ensures |SplitterAsWritten(name, n, true, base).level.buses| == 1
    ensures |SplitterLevel(name, n, true, base).buses| == 4 * n
  {
    TwoSidesBusCount(name, Bar1Bays(n), Bar2Bays(n), base);
  }

  /** Unsegmented, or without bays, the code as written builds the intended level and returns its connection buses. */
  lemma SplitterAsWrittenAgrees(name: string, n: nat, seg: bool, base: Id)
    requires !seg || n == 0
    ensures SplitterAsWritten(name, n, seg, base).level == SplitterLevel(name, n, seg, base)
    ensures SplitterAsWritten(name, n, seg, base).result == Ok(SplitterLevel(name, n, seg, base).conn)
  {
    if seg {
      TwoSidesBusCount(name, 0, 0, base);
      TwoSidesSwitchCount(name, 0, 0, base);
      TwoSidesConnCount(name, 0, 0, base);
      TwoSidesLines(name, 0, 0, base);
    }
  }

  // ------------------------------------------------ splitter with disconnectors

  /** Two bars, then per bay its connection bus and the breaker `CB_i` from the bay's bar; `coupling` after the loop. */
  function SplitterDisLayout(coupling: Pattern): Layout
  {
    Layout([Own(" bar 1"), Own(" bar 2")], Pattern([], [BayConnName], [Cb("CB_", Side, Local(0))], [0]), 1, coupling)
  }

  /**
   * `create_single_bar_with_splitter_with_disconnectors`: the bars and
   * `CB_bars` before the loop, one bus and one breaker per bay, and `CB_bars`
   * once more after the loop when `again`. No segment is ever recorded, so no
   * section line is added.
   */
  function SplitterDisLevel(name: string, n: nat, again: bool, base: Id): Level
  {
    var b := Build(SplitterDisLayout(if again then BarsCoupling else NoCoupling), name, n, false, Bar1Bays(n), base);
    b.(switches := [CbBars(base)] + b.switches)
  }

  /** How many switches of `ss` run from bus `a` to bus `b`. */
  function Couplers(ss: seq<Switch>, a: Id, b: Id): nat
  {
    if ss == [] then 0
    else Couplers(ss[..|ss| - 1], a, b) + (if ss[|ss| - 1].from == Some(a) && ss[|ss| - 1].to == Some(b) then 1 else 0)
  }

  lemma {:induction false} CouplersAppend(s: seq<Switch>, t: seq<Switch>, a: Id, b: Id)
    ensures Couplers(s + t, a, b) == Couplers(s, a, b) + Couplers(t, a, b)
    decreases |t|
  {
    if t != [] {
      assert (s + t)[..|s + t| - 1] == s + t[..|t| - 1];
      CouplersAppend(s, t[..|t| - 1], a, b);
    } else {
      assert s + t == s;
    }
  }

  lemma {:induction false} CouplersNone(ss: seq<Switch>, a: Id, b: Id)
    requires forall k :: 0 <= k < |ss| ==> ss[k].to != Some(b)
    ensures Couplers(ss, a, b) == 0
    decreases |ss|
  {
    if ss != [] {
      CouplersNone(ss[..|ss| - 1], a, b);
    }
  }

  /** Bay `i` adds the breaker `CB_i` from its bar (bar 1 below `n / 2`, else bar 2) to its connection bus. */
  lemma SplitterDisSwitch(c: Pattern, name: string, n: nat, base: Id, i: nat)
    requires i < n
    ensures i < |LevelSwitches(SplitterDisLayout(c), name, n, false, Bar1Bays(n), base)|
    ensures LevelSwitches(SplitterDisLayout(c), name, n, false, Bar1Bays(n), base)[i]
            == Switch("CB_" + NatStr(i), Some(SideBar(n, base, i)), Some(base + 2 + i), CircuitBreaker)
  {
    var l := SplitterDisLayout(c);
    BuildSwitchAt(l, name, n, false, Bar1Bays(n), base, i, 0);
    OffIs(i, 1);
    BaySwitchIs(name, l, false, Bar1Bays(n), base, i, 0);
    assert LoopIndex(l.step, i) == i;
    assert Current(l.bay, false, BarIds(l, false, base), base + BayOffset(l, false, i)) == [Some(base), Some(base + 1)];
    SideSwitch(name, "CB_", 0, CircuitBreaker, i, Bar1Bays(n), [Some(base), Some(base + 1)], base + 2 + i);
  }

  /** After the loop the repeated coupling is `CB_bars` again. */
  lemma SplitterDisCoupling(name: string, n: nat, base: Id)
    ensures CouplingSwitch(name, SplitterDisLayout(BarsCoupling), n, false, Bar1Bays(n), base, 0) == CbBars(base)
  {
    var l := SplitterDisLayout(BarsCoupling);
    assert LastBars(l.bay, n, false, BarIds(l, false, base), LoopBase(l, false, base)) == [Some(base), Some(base + 1)];
  }

  /** No bay breaker joins the two bars: each ends at its own connection bus. */
  lemma SplitterDisBaysCouple(c: Pattern, name: string, n: nat, base: Id)
    ensures n <= |LevelSwitches(SplitterDisLayout(c), name, n, false, Bar1Bays(n), base)|
    ensures Couplers(LevelSwitches(SplitterDisLayout(c), name, n, false, Bar1Bays(n), base)[..n], base, base + 1) == 0
  {
    var ss := LevelSwitches(SplitterDisLayout(c), name, n, false, Bar1Bays(n), base);
    BuildSwitchCount(SplitterDisLayout(c), name, n, false, Bar1Bays(n), base);
    forall k | 0 <= k < n
      ensures ss[..n][k].to != Some(base + 1)
    {
      SplitterDisSwitch(c, name, n, base, k);
    }
    CouplersNone(ss[..n], base, base + 1);
  }

  /** A list whose first `n` switches couple nothing couples as much as the rest of it. */
  lemma CouplersAfter(ss: seq<Switch>, n: nat, a: Id, b: Id)
    requires n <= |ss| && Couplers(ss[..n], a, b) == 0
    ensures Couplers(ss, a, b) == Couplers(ss[n..], a, b)
  {
    assert ss == ss[..n] + ss[n..];
    CouplersAppend(ss[..n], ss[n..], a, b);
  }

  /** After the bays come the coupling's switches: `CB_bars` again, or nothing. */
  lemma SplitterDisTail(name: string, n: nat, again: bool, base: Id)
    ensures n <= |LevelSwitches(SplitterDisLayout(if again then BarsCoupling else NoCoupling), name, n, false, Bar1Bays(n), base)|
    ensures LevelSwitches(SplitterDisLayout(if again then BarsCoupling else NoCoupling), name, n, false, Bar1Bays(n), base)[n..]
            == if again then [CbBars(base)] else []
  {
    var l := SplitterDisLayout(if again then BarsCoupling else NoCoupling);
    BuildSwitchTail(l, name, n, false, Bar1Bays(n), base);
    OffIs(n, |l.bay.switches|);
    if again {
      SplitterDisCoupling(name, n, base);
    }
  }

  /**
   * The bars are coupled by `CB_bars` once, plus once more when the coupling
   * is repeated after the loop: as written, every unsegmented build has two.
   */
  lemma SplitterDisCouplers(name: string, n: nat, again: bool, base: Id)
    ensures Couplers(SplitterDisLevel(name, n, again, base).switches, base, base + 1) == if again then 2 else 1
  {
    var ss := LevelSwitches(SplitterDisLayout(if again then BarsCoupling else NoCoupling), name, n, false, Bar1Bays(n), base);
    SplitterDisBaysCouple(if again then BarsCoupling else NoCoupling, name, n, base);
    SplitterDisTail(name, n, again, base);
    CouplersAfter(ss, n, base, base + 1);
    CouplersAppend([CbBars(base)], ss, base, base + 1);
  }

  /**
   * `create_single_bar_with_splitter_with_disconnectors` as written:
   * `CB_bars` before the loop, and again after it unless `seg`.
   */
  method CreateSingleBarWithSplitterWithDisconnectors(grid: MultiCircuit, name: string, n: nat, seg: bool) returns (conn: seq<Id>)
    modifies grid
    ensures grid.State() == Extend(old(grid.State()), name, SplitterDisLevel(name, n, !seg, old(grid.nextId)))
    ensures conn == SplitterDisLevel(name, n, !seg, old(grid.nextId)).conn
    ensures old(grid.Valid()) ==> grid.Valid()
  {
    conn := AddSplitterDis(grid, name, n, !seg);
  }

  /** The same builder as evidently intended: `CB_bars` once, before the loop, whatever `seg` says. */
  method CreateSplitterWithOneCoupler(grid: MultiCircuit, name: string, n: nat, seg: bool) returns (conn: seq<Id>)
    modifies grid
    ensures grid.State() == Extend(old(grid.State()), name, SplitterDisLevel(name, n, false, old(grid.nextId)))
    ensures conn == SplitterDisLevel(name, n, false, old(grid.nextId)).conn
    ensures old(grid.Valid()) ==> grid.Valid()
  {
    conn := AddSplitterDis(grid, name, n, false);
  }

  /** The bars, `CB_bars`, the bays, then `CB_bars` once more when `again`. */
  method AddSplitterDis(grid: MultiCircuit, name: string, n: nat, again: bool) returns (conn: seq<Id>)
    modifies grid
    ensures grid.State() == Extend(old(grid.State()), name, SplitterDisLevel(name, n, again, old(grid.nextId)))
    ensures conn == SplitterDisLevel(name, n, again, old(grid.nextId)).conn
    ensures old(grid.Valid()) ==> grid.Valid()
  {
    var l := SplitterDisLayout(if again then BarsCoupling else NoCoupling);
    var base := grid.nextId;
    grid.AddVoltageLevel(name);
    var bars := AddBars(grid, Names(name, l.bars, 0));
    ghost var pre := PreBars(name, l, false, base);
    assert bars == BarIds(l, false, base);
    assert grid.nextId == LoopBase(l, false, base);
    assert grid.buses == old(grid.buses) + pre;
    grid.AddSwitch(CbBars(base));
    ghost var mid := grid.buses;
    conn := AddBody(grid, l, name, n, false, bars, Bar1Bays(n));
    AppendAssoc(old(grid.buses), pre, grid.buses[|mid|..]);
    AppendAssoc(old(grid.switches), [CbBars(base)], LevelSwitches(l, name, n, false, Bar1Bays(n), base));
    BuildUnsegmentedLines(l, name, n, Bar1Bays(n), base);
    if old(grid.Valid()) {
      BuildFresh(old(grid.State()), l, name, n, false, Bar1Bays(n));
    }
  }
}
