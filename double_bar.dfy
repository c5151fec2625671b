/**
 * The double-bar voltage levels: plain, with disconnectors, with a transfer
 * bar, and with a transfer bar and disconnectors. Each has two busbars (three
 * with the transfer bar) or, segmented, one segment of every bar per bay; each
 * closes with a coupling between the bars and returns the bay-connection
 * buses, one per bay in bay order.
 */
module DoubleBar {
  import opened Common
  import opened Grid
  import opened Layouts
  import opened SingleBar

  const Bar1Segment := Wrapped(true, " bar1 (", 1, ")")
  const Bar2Segment := Wrapped(true, " bar2 (", 1, ")")
  const TransferSegment := Wrapped(true, " bar_t (", 1, ")")

  function Coupler(name: string, from: Ref, to: Ref, kind: SwitchKind): SwitchPat
  {
    SwitchPat(Lit(name), from, to, kind)
  }

  /**
   * `create_double_bar`: per bay, bus1 - Dis1 - bus2 - CB - bus3, and bus3
   * reaches bar1 through Dis2 and bar2 through Dis3; the coupling joins each
   * bar to a coupling bus and the two coupling buses through a breaker.
   */
  const DoubleBarLayout := Layout([Own(" bar1"), Own(" bar2")],
                                  Pattern([Bar1Segment, Bar2Segment],
                                          [BayConnName, Indexed("LineBus2_"), Indexed("LineBus3_")],
                                          [Dis("Dis1_", Local(0), Local(1)), Cb("CB_", Local(1), Local(2)),
                                           Dis("Dis2_", Bar(0), Local(2)), Dis("Dis3_", Bar(1), Local(2))],
                                          [0]),
                                  1,
                                  Pattern([], [Own("_coupling_bar1"), Own("_coupling_bar2")],
                                          [Coupler("Dis_bar1", Bar(0), Local(0), Disconnector),
                                           Coupler("Dis_bar2", Bar(1), Local(1), Disconnector),
                                           Coupler("CB_coupling", Local(0), Local(1), CircuitBreaker)],
                                          []))

  /** `create_double_bar_with_disconnectors`: per bay, bus1 - CB - bus2, and bus2 reaches each bar through a disconnector; one breaker couples the bars. */
  const DoubleBarDisLayout := Layout([Own(" bar1"), Own(" bar2")],
                                     Pattern([Bar1Segment, Bar2Segment],
                                             [BayConnName, Indexed("LineBus2_")],
                                             [Cb("CB_", Local(0), Local(1)),
                                              Dis("Dis2_", Bar(0), Local(1)), Dis("Dis3_", Bar(1), Local(1))],
                                             [0]),
                                     1,
                                     Pattern([], [], [Coupler("CB_coupling", Bar(0), Bar(1), CircuitBreaker)], []))

  /**
   * `create_double_bar_with_transference_bar`, with `t` where the builder
   * attaches the transfer bar: the double-bar bay plus Dis4 from bus1 to the
   * transfer bar; the coupling joins both bars to its first bus, its two
   * buses through a breaker, and its second bus to the transfer bar.
   */
  function TransferLayout(t: Ref): Layout
  {
    Layout([Own(" bar1"), Own(" bar2"), Own(" transfer bar")],
           Pattern([Bar1Segment, Bar2Segment, TransferSegment],
                   [BayConnName, Indexed("BayBus2_"), Indexed("BayBus3_")],
                   [Dis("Dis1_", Local(0), Local(1)), Cb("CB_", Local(1), Local(2)),
                    Dis("Dis2_", Bar(0), Local(2)), Dis("Dis3_", Bar(1), Local(2)), Dis("Dis4_", Local(0), t)],
                   [0]),
           1,
           Pattern([], [Own("_coupling_bar1"), Own("_coupling_bar2")],
                   [Coupler("Dis_bar1", Local(0), Bar(0), Disconnector),
                    Coupler("Dis_bar2", Local(0), Bar(1), Disconnector),
                    Coupler("CB_coupling", Local(0), Local(1), CircuitBreaker),
                    Coupler("Dis_coupling", Local(1), t, Disconnector)],
                   []))
  }

  /**
   * `create_double_bar_with_transference_bar_with_disconnectors`: per bay,
   * bus1 - CB - bus2, bus2 to each bar and bus1 to the transfer bar through
   * disconnectors; the coupling bus reaches both bars through disconnectors
   * and the transfer bar through a breaker.
   */
  function TransferDisLayout(t: Ref): Layout
  {
    Layout([Own(" bar1"), Own(" bar2"), Own(" transfer bar")],
           Pattern([Bar1Segment, Bar2Segment, TransferSegment],
                   [BayConnName, Indexed("BayBus2_")],
                   [Cb("CB_", Local(0), Local(1)), Dis("Dis1_", Local(1), Bar(0)),
                    Dis("Dis2_", Local(1), Bar(1)), Dis("Dis3_", Local(0), t)],
                   [0]),
           1,
           Pattern([], [Own("_coupling_bar1")],
                   [Coupler("Dis_bar1", Local(0), Bar(0), Disconnector),
                    Coupler("Dis_bar2", Local(0), Bar(1), Disconnector),
                    Coupler("CB_coupling", Local(0), t, CircuitBreaker)],
                   []))
  }

  /**
   * Where the transfer-bar builders, as written, attach the transfer bar: the
   * busbar when unsegmented; segmented, the variable is never assigned (each
   * bay's `bar_t` segment goes only to the list chained afterwards).
   */
  function TransferAsWritten(seg: bool): Ref
  {
    if seg then Unset else Bar(2)
  }

  /** The shape the four builders share: a segment per bar, bay `i` handled by loop index `i`, bus1 as connection bus. */
  predicate Bays(l: Layout)
  {
    Uniform(l) && l.bay.conn == [0] && l.step == 1
  }

  lemma Shapes(t: Ref)
    ensures Bays(DoubleBarLayout) && Bays(DoubleBarDisLayout) && Bays(TransferLayout(t)) && Bays(TransferDisLayout(t))
  {
  }

  // ------------------------------------------------------------ generic facts

  /** Switch `k` of bay `i`: its pattern resolved against the bars of bay `i` and the bay's own buses. */
  lemma BaysSwitch(l: Layout, name: string, seg: bool, base: Id, i: nat, k: nat)
    requires Bays(l) && k < |l.bay.switches|
    ensures BaySwitch(name, l, seg, 0, base, i, k)
            == MakeSwitch(name, l.bay.switches[k], i, 0, BarRefs(seg, |l.bars|, |l.bay.buses|, base, i),
                          LocalId(seg, |l.bars|, |l.bay.buses|, base, i))
  {
    UniformSwitch(name, l, seg, 0, base, i, k);
    assert LoopIndex(l.step, i) == i;
  }

  /** The returned connection buses are the bays' bus1, in bay order. */
  lemma BaysConn(l: Layout, name: string, n: nat, seg: bool, base: Id)
    requires Bays(l)
    ensures LevelConn(l, n, seg, base) == seq(n, i requires 0 <= i < n => LocalId(seg, |l.bars|, |l.bay.buses|, base, i))
  {
    var conn := LevelConn(l, n, seg, base);
    UniformCounts(l, name, n, seg, 0, base);
    forall i | 0 <= i < n
      ensures conn[i] == LocalId(seg, |l.bars|, |l.bay.buses|, base, i)
    {
      UniformConnAt(l, name, n, seg, base, i, 0);
      OffIs(i, 1);
    }
  }

  /** Segmented, each bar's segments are chained in bay order, bar after bar; unsegmented there are no lines. */
  lemma BaysLines(l: Layout, name: string, n: nat, seg: bool, base: Id)
    requires Uniform(l)
    ensures LevelLines(l, name, n, seg, base)
            == if seg then ChainAll(name, seq(|l.bars|, c requires 0 <= c < |l.bars| => SegIds(base, n, Width(l.bay, true), c)))
               else []
  {
    if seg {
      BuildSegLines(l, name, n, 0, base);
      var lists := SegLists(l.bay, n, true, base);
      forall c | 0 <= c < |l.bars|
        ensures lists[c] == SegIds(base, n, Width(l.bay, true), c)
      {
        SegListIs(l.bay, n, base, c);
      }
      assert lists == seq(|l.bars|, c requires 0 <= c < |l.bars| => SegIds(base, n, Width(l.bay, true), c));
    } else {
      BuildUnsegmentedLines(l, name, n, 0, base);
    }
  }

  lemma ChainOne(name: string, lists: seq<seq<Id>>)
    requires |lists| == 1
    ensures ChainAll(name, lists) == Chain(name, lists[0])
  {
    assert lists[..0] == [];
  }

  lemma ChainTwo(name: string, lists: seq<seq<Id>>)
    requires |lists| == 2
    ensures ChainAll(name, lists) == Chain(name, lists[0]) + Chain(name, lists[1])
  {
    ChainOne(name, lists[..1]);
  }

  lemma ChainThree(name: string, lists: seq<seq<Id>>)
    requires |lists| == 3
    ensures ChainAll(name, lists) == Chain(name, lists[0]) + Chain(name, lists[1]) + Chain(name, lists[2])
  {
    ChainTwo(name, lists[..2]);
  }

  /** Two bars: segmented, the bar1 segments and then the bar2 segments are chained in bay order. */
  lemma TwoBarLines(l: Layout, name: string, m: nat, seg: bool, base: Id)
    requires Uniform(l) && |l.bars| == 2
    ensures LevelLines(l, name, m, seg, base)
            == if seg then Chain(name, SegIds(base, m, Width(l.bay, true), 0)) + Chain(name, SegIds(base, m, Width(l.bay, true), 1))
               else []
  {
    BaysLines(l, name, m, seg, base);
    if seg {
      ChainTwo(name, seq(|l.bars|, c requires 0 <= c < |l.bars| => SegIds(base, m, Width(l.bay, true), c)));
    }
  }

  /** Three bars: segmented, the bar1, bar2 and transfer-bar segments are chained in bay order, bar after bar. */
  lemma ThreeBarLines(l: Layout, name: string, m: nat, seg: bool, base: Id)
    requires Uniform(l) && |l.bars| == 3
    ensures LevelLines(l, name, m, seg, base)
            == if seg then Chain(name, SegIds(base, m, Width(l.bay, true), 0)) + Chain(name, SegIds(base, m, Width(l.bay, true), 1))
                           + Chain(name, SegIds(base, m, Width(l.bay, true), 2))
               else []
  {
    BaysLines(l, name, m, seg, base);
    if seg {
      ChainThree(name, seq(|l.bars|, c requires 0 <= c < |l.bars| => SegIds(base, m, Width(l.bay, true), c)));
    }
  }

  // ---------------------------------------------------------------- plain

  method CreateDoubleBar(grid: MultiCircuit, name: string, n: nat, seg: bool) returns (conn: seq<Id>)
    modifies grid
    ensures grid.State() == Extend(old(grid.State()), name, Build(DoubleBarLayout, name, n, seg, 0, old(grid.nextId)))
    ensures conn == Build(DoubleBarLayout, name, n, seg, 0, old(grid.nextId)).conn
    ensures old(grid.Valid()) ==> grid.Valid()
  {
    conn := AddLevel(grid, DoubleBarLayout, name, n, seg, 0);
  }

  /** Two bars and three buses per bay, or five per bay (two segments first), then two coupling buses; four switches per bay and three for the coupling. */
  lemma DoubleBarCounts(name: string, n: nat, seg: bool, base: Id)
    ensures |LevelBuses(DoubleBarLayout, name, n, seg, base)| == if seg then 5 * n + 2 else 4 + 3 * n
    ensures |LevelSwitches(DoubleBarLayout, name, n, seg, 0, base)| == 4 * n + 3
    ensures |LevelConn(DoubleBarLayout, n, seg, base)| == n
    ensures |LevelLines(DoubleBarLayout, name, n, seg, base)| == if seg then 2 * Links(n) else 0
  {
    UniformCounts(DoubleBarLayout, name, n, seg, 0, base);
  }

  /** Bay `i`: Dis1 from bus1 to bus2, the breaker from bus2 to bus3, Dis2 from bar1 and Dis3 from bar2 to bus3. */
  lemma DoubleBarSwitches(name: string, seg: bool, base: Id, i: nat)
    ensures BaySwitch(name, DoubleBarLayout, seg, 0, base, i, 0)
            == Switch("Dis1_" + NatStr(i), Some(LocalId(seg, 2, 3, base, i)), Some(LocalId(seg, 2, 3, base, i) + 1), Disconnector)
    ensures BaySwitch(name, DoubleBarLayout, seg, 0, base, i, 1)
            == Switch("CB_" + NatStr(i), Some(LocalId(seg, 2, 3, base, i) + 1), Some(LocalId(seg, 2, 3, base, i) + 2), CircuitBreaker)
    ensures BaySwitch(name, DoubleBarLayout, seg, 0, base, i, 2)
            == Switch("Dis2_" + NatStr(i), Some(BarId(seg, 2, 3, base, i, 0)), Some(LocalId(seg, 2, 3, base, i) + 2), Disconnector)
    ensures BaySwitch(name, DoubleBarLayout, seg, 0, base, i, 3)
            == Switch("Dis3_" + NatStr(i), Some(BarId(seg, 2, 3, base, i, 1)), Some(LocalId(seg, 2, 3, base, i) + 2), Disconnector)
  {
    var l := DoubleBarLayout;
    assert Bays(l) && |l.bay.switches| == 4 && |l.bars| == 2 && |l.bay.buses| == 3;
    BaysSwitch(l, name, seg, base, i, 0);
    BaysSwitch(l, name, seg, base, i, 1);
    BaysSwitch(l, name, seg, base, i, 2);
    BaysSwitch(l, name, seg, base, i, 3);
  }

  /** The coupling: each bar (its last segment when segmented) to its coupling bus, and the breaker between the coupling buses. */
  lemma DoubleBarCoupling(name: string, n: nat, seg: bool, base: Id)
    ensures CouplingSwitch(name, DoubleBarLayout, n, seg, 0, base, 0)
            == Switch("Dis_bar1", LastBar(seg, 2, 3, base, n, 0), Some(FirstId(seg, 2, 3, base, n)), Disconnector)
    ensures CouplingSwitch(name, DoubleBarLayout, n, seg, 0, base, 1)
            == Switch("Dis_bar2", LastBar(seg, 2, 3, base, n, 1), Some(FirstId(seg, 2, 3, base, n) + 1), Disconnector)
    ensures CouplingSwitch(name, DoubleBarLayout, n, seg, 0, base, 2)
            == Switch("CB_coupling", Some(FirstId(seg, 2, 3, base, n)), Some(FirstId(seg, 2, 3, base, n) + 1), CircuitBreaker)
  {
    UniformCouplingSwitch(name, DoubleBarLayout, n, seg, 0, base, 0);
    UniformCouplingSwitch(name, DoubleBarLayout, n, seg, 0, base, 1);
    UniformCouplingSwitch(name, DoubleBarLayout, n, seg, 0, base, 2);
    LastBarIs(seg, 2, 3, base, n, 0);
    LastBarIs(seg, 2, 3, base, n, 1);
  }

  /** Segmented, the bar1 segments and then the bar2 segments are chained in bay order. */
  lemma DoubleBarLines(name: string, n: nat, seg: bool, base: Id)
    ensures LevelLines(DoubleBarLayout, name, n, seg, base)
            == if seg then Chain(name, SegIds(base, n, 5, 0)) + Chain(name, SegIds(base, n, 5, 1)) else []
  {
    var l := DoubleBarLayout;
    assert Uniform(l) && |l.bars| == 2 && Width(l.bay, true) == 5;
    TwoBarLines(l, name, n, seg, base);
  }

  // ------------------------------------------------------ with disconnectors

  method CreateDoubleBarWithDisconnectors(grid: MultiCircuit, name: string, n: nat, seg: bool) returns (conn: seq<Id>)
    modifies grid
    ensures grid.State() == Extend(old(grid.State()), name, Build(DoubleBarDisLayout, name, n, seg, 0, old(grid.nextId)))
    ensures conn == Build(DoubleBarDisLayout, name, n, seg, 0, old(grid.nextId)).conn
    ensures old(grid.Valid()) ==> grid.Valid()
  {
    conn := AddLevel(grid, DoubleBarDisLayout, name, n, seg, 0);
  }

  /** Two bars and two buses per bay, or four per bay, and no coupling bus; three switches per bay and one for the coupling. */
  lemma DoubleBarDisCounts(name: string, n: nat, seg: bool, base: Id)
    ensures |LevelBuses(DoubleBarDisLayout, name, n, seg, base)| == if seg then 4 * n else 2 + 2 * n
    ensures |LevelSwitches(DoubleBarDisLayout, name, n, seg, 0, base)| == 3 * n + 1
    ensures |LevelConn(DoubleBarDisLayout, n, seg, base)| == n
    ensures |LevelLines(DoubleBarDisLayout, name, n, seg, base)| == if seg then 2 * Links(n) else 0
  {
    UniformCounts(DoubleBarDisLayout, name, n, seg, 0, base);
  }

  /** Bay `i`: the breaker from bus1 to bus2, then Dis2 from bar1 and Dis3 from bar2 to bus2. */
  lemma DoubleBarDisSwitches(name: string, seg: bool, base: Id, i: nat)
    ensures BaySwitch(name, DoubleBarDisLayout, seg, 0, base, i, 0)
            == Switch("CB_" + NatStr(i), Some(LocalId(seg, 2, 2, base, i)), Some(LocalId(seg, 2, 2, base, i) + 1), CircuitBreaker)
    ensures BaySwitch(name, DoubleBarDisLayout, seg, 0, base, i, 1)
            == Switch("Dis2_" + NatStr(i), Some(BarId(seg, 2, 2, base, i, 0)), Some(LocalId(seg, 2, 2, base, i) + 1), Disconnector)
    ensures BaySwitch(name, DoubleBarDisLayout, seg, 0, base, i, 2)
            == Switch("Dis3_" + NatStr(i), Some(BarId(seg, 2, 2, base, i, 1)), Some(LocalId(seg, 2, 2, base, i) + 1), Disconnector)
  {
    var l := DoubleBarDisLayout;
    assert Bays(l) && |l.bay.switches| == 3 && |l.bars| == 2 && |l.bay.buses| == 2;
    BaysSwitch(l, name, seg, base, i, 0);
    BaysSwitch(l, name, seg, base, i, 1);
    BaysSwitch(l, name, seg, base, i, 2);
  }

  /** The coupling is one breaker from bar1 to bar2 (their last segments when segmented). */
  lemma DoubleBarDisCoupling(name: string, n: nat, seg: bool, base: Id)
    ensures CouplingSwitch(name, DoubleBarDisLayout, n, seg, 0, base, 0)
            == Switch("CB_coupling", LastBar(seg, 2, 2, base, n, 0), LastBar(seg, 2, 2, base, n, 1), CircuitBreaker)
  {
    UniformCouplingSwitch(name, DoubleBarDisLayout, n, seg, 0, base, 0);
    LastBarIs(seg, 2, 2, base, n, 0);
    LastBarIs(seg, 2, 2, base, n, 1);
  }

  lemma DoubleBarDisLines(name: string, n: nat, seg: bool, base: Id)
    ensures LevelLines(DoubleBarDisLayout, name, n, seg, base)
            == if seg then Chain(name, SegIds(base, n, 4, 0)) + Chain(name, SegIds(base, n, 4, 1)) else []
  {
    var l := DoubleBarDisLayout;
    assert Uniform(l) && |l.bars| == 2 && Width(l.bay, true) == 4;
    TwoBarLines(l, name, n, seg, base);
  }

  // ------------------------------------------------------- with transfer bar

  /** Builds with the transfer bar attached to the bar itself, or to each bay's `bar_t` segment when segmented. */
  method CreateDoubleBarWithTransferenceBar(grid: MultiCircuit, name: string, n: nat, seg: bool) returns (conn: seq<Id>)
    modifies grid
    ensures grid.State() == Extend(old(grid.State()), name, Build(TransferLayout(Bar(2)), name, n, seg, 0, old(grid.nextId)))
    ensures conn == Build(TransferLayout(Bar(2)), name, n, seg, 0, old(grid.nextId)).conn
    ensures old(grid.Valid()) ==> grid.Valid()
  {
    conn := AddLevel(grid, TransferLayout(Bar(2)), name, n, seg, 0);
  }

  /** Three bars and three buses per bay, or six per bay, then two coupling buses; five switches per bay and four for the coupling. */
  lemma TransferCounts(t: Ref, name: string, n: nat, seg: bool, base: Id)
    ensures |LevelBuses(TransferLayout(t), name, n, seg, base)| == if seg then 6 * n + 2 else 5 + 3 * n
    ensures |LevelSwitches(TransferLayout(t), name, n, seg, 0, base)| == 5 * n + 4
    ensures |LevelConn(TransferLayout(t), n, seg, base)| == n
    ensures |LevelLines(TransferLayout(t), name, n, seg, base)| == if seg then 3 * Links(n) else 0
  {
    UniformCounts(TransferLayout(t), name, n, seg, 0, base);
  }

  /** Bay `i`: the double-bar bay's four switches, whatever the transfer bar is. */
  lemma TransferSwitches(t: Ref, name: string, seg: bool, base: Id, i: nat)
    ensures BaySwitch(name, TransferLayout(t), seg, 0, base, i, 0)
            == Switch("Dis1_" + NatStr(i), Some(LocalId(seg, 3, 3, base, i)), Some(LocalId(seg, 3, 3, base, i) + 1), Disconnector)
    ensures BaySwitch(name, TransferLayout(t), seg, 0, base, i, 1)
            == Switch("CB_" + NatStr(i), Some(LocalId(seg, 3, 3, base, i) + 1), Some(LocalId(seg, 3, 3, base, i) + 2), CircuitBreaker)
    ensures BaySwitch(name, TransferLayout(t), seg, 0, base, i, 2)
            == Switch("Dis2_" + NatStr(i), Some(BarId(seg, 3, 3, base, i, 0)), Some(LocalId(seg, 3, 3, base, i) + 2), Disconnector)
    ensures BaySwitch(name, TransferLayout(t), seg, 0, base, i, 3)
            == Switch("Dis3_" + NatStr(i), Some(BarId(seg, 3, 3, base, i, 1)), Some(LocalId(seg, 3, 3, base, i) + 2), Disconnector)
  {
    var l := TransferLayout(t);
    assert Bays(l) && |l.bay.switches| == 5 && |l.bars| == 3 && |l.bay.buses| == 3;
    BaysSwitch(l, name, seg, base, i, 0);
    BaysSwitch(l, name, seg, base, i, 1);
    BaysSwitch(l, name, seg, base, i, 2);
    BaysSwitch(l, name, seg, base, i, 3);
  }

  /** Bay `i` ends with Dis4 from bus1 to the transfer bar, the bay's own `bar_t` segment when segmented. */
  lemma TransferDis4(name: string, seg: bool, base: Id, i: nat)
    ensures BaySwitch(name, TransferLayout(Bar(2)), seg, 0, base, i, 4)
            == Switch("Dis4_" + NatStr(i), Some(LocalId(seg, 3, 3, base, i)), Some(BarId(seg, 3, 3, base, i, 2)), Disconnector)
  {
    BaysSwitch(TransferLayout(Bar(2)), name, seg, base, i, 4);
  }

  /** The coupling: bus1 to each bar, the breaker from bus1 to bus2, and bus2 to the transfer bar (last segments when segmented). */
  lemma TransferCoupling(name: string, n: nat, seg: bool, base: Id)
    ensures CouplingSwitch(name, TransferLayout(Bar(2)), n, seg, 0, base, 0)
            == Switch("Dis_bar1", Some(FirstId(seg, 3, 3, base, n)), LastBar(seg, 3, 3, base, n, 0), Disconnector)
    ensures CouplingSwitch(name, TransferLayout(Bar(2)), n, seg, 0, base, 1)
            == Switch("Dis_bar2", Some(FirstId(seg, 3, 3, base, n)), LastBar(seg, 3, 3, base, n, 1), Disconnector)
    ensures CouplingSwitch(name, TransferLayout(Bar(2)), n, seg, 0, base, 2)
            == Switch("CB_coupling", Some(FirstId(seg, 3, 3, base, n)), Some(FirstId(seg, 3, 3, base, n) + 1), CircuitBreaker)
    ensures CouplingSwitch(name, TransferLayout(Bar(2)), n, seg, 0, base, 3)
            == Switch("Dis_coupling", Some(FirstId(seg, 3, 3, base, n) + 1), LastBar(seg, 3, 3, base, n, 2), Disconnector)
  {
    var l := TransferLayout(Bar(2));
    UniformCouplingSwitch(name, l, n, seg, 0, base, 0);
    UniformCouplingSwitch(name, l, n, seg, 0, base, 1);
    UniformCouplingSwitch(name, l, n, seg, 0, base, 2);
    UniformCouplingSwitch(name, l, n, seg, 0, base, 3);
    LastBarIs(seg, 3, 3, base, n, 0);
    LastBarIs(seg, 3, 3, base, n, 1);
    LastBarIs(seg, 3, 3, base, n, 2);
  }

  lemma TransferLines(t: Ref, name: string, n: nat, seg: bool, base: Id)
    ensures LevelLines(TransferLayout(t), name, n, seg, base)
            == if seg then Chain(name, SegIds(base, n, 6, 0)) + Chain(name, SegIds(base, n, 6, 1)) + Chain(name, SegIds(base, n, 6, 2))
               else []
  {
    var l := TransferLayout(t);
    assert Uniform(l) && |l.bars| == 3 && Width(l.bay, true) == 6;
    ThreeBarLines(l, name, n, seg, base);
  }

  /**
   * As written, a segmented build leaves Dis4 of every bay and the coupling's
   * Dis_coupling with no bus at their transfer-bar end, although `n` segments
   * of the transfer bar are created and chained.
   */
  lemma TransferAsWrittenUnset(name: string, n: nat, base: Id, i: nat)
    ensures BaySwitch(name, TransferLayout(TransferAsWritten(true)), true, 0, base, i, 4).to == None
    ensures CouplingSwitch(name, TransferLayout(TransferAsWritten(true)), n, true, 0, base, 3).to == None
    ensures |LevelBuses(TransferLayout(TransferAsWritten(true)), name, n, true, base)| == 6 * n + 2
  {
    var l := TransferLayout(Unset);
    BaysSwitch(l, name, true, base, i, 4);
    UniformCouplingSwitch(name, l, n, true, 0, base, 3);
    TransferCounts(Unset, name, n, true, base);
  }

  /** Unsegmented, the builder as written and the corrected one are the same build. */
  lemma TransferAsWrittenAgrees(name: string, n: nat, base: Id)
    ensures TransferLayout(TransferAsWritten(false)) == TransferLayout(Bar(2))
    ensures TransferDisLayout(TransferAsWritten(false)) == TransferDisLayout(Bar(2))
  {
  }

  // ------------------------------------ with transfer bar and disconnectors

  method CreateDoubleBarWithTransferenceBarWithDisconnectors(grid: MultiCircuit, name: string, n: nat, seg: bool) returns (conn: seq<Id>)
    modifies grid
    ensures grid.State() == Extend(old(grid.State()), name, Build(TransferDisLayout(Bar(2)), name, n, seg, 0, old(grid.nextId)))
    ensures conn == Build(TransferDisLayout(Bar(2)), name, n, seg, 0, old(grid.nextId)).conn
    ensures old(grid.Valid()) ==> grid.Valid()
  {
    conn := AddLevel(grid, TransferDisLayout(Bar(2)), name, n, seg, 0);
  }

  /** Three bars and two buses per bay, or five per bay, then one coupling bus; four switches per bay and three for the coupling. */
  lemma TransferDisCounts(t: Ref, name: string, n: nat, seg: bool, base: Id)
    ensures |LevelBuses(TransferDisLayout(t), name, n, seg, base)| == if seg then 5 * n + 1 else 4 + 2 * n
    ensures |LevelSwitches(TransferDisLayout(t), name, n, seg, 0, base)| == 4 * n + 3
    ensures |LevelConn(TransferDisLayout(t), n, seg, base)| == n
    ensures |LevelLines(TransferDisLayout(t), name, n, seg, base)| == if seg then 3 * Links(n) else 0
  {
    UniformCounts(TransferDisLayout(t), name, n, seg, 0, base);
  }

  /** Bay `i`: the breaker from bus1 to bus2, Dis1 and Dis2 from bus2 to bar1 and bar2, Dis3 from bus1 to the transfer bar. */
  lemma TransferDisSwitches(name: string, seg: bool, base: Id, i: nat)
    ensures BaySwitch(name, TransferDisLayout(Bar(2)), seg, 0, base, i, 0)
            == Switch("CB_" + NatStr(i), Some(LocalId(seg, 3, 2, base, i)), Some(LocalId(seg, 3, 2, base, i) + 1), CircuitBreaker)
    ensures BaySwitch(name, TransferDisLayout(Bar(2)), seg, 0, base, i, 1)
            == Switch("Dis1_" + NatStr(i), Some(LocalId(seg, 3, 2, base, i) + 1), Some(BarId(seg, 3, 2, base, i, 0)), Disconnector)
    ensures BaySwitch(name, TransferDisLayout(Bar(2)), seg, 0, base, i, 2)
            == Switch("Dis2_" + NatStr(i), Some(LocalId(seg, 3, 2, base, i) + 1), Some(BarId(seg, 3, 2, base, i, 1)), Disconnector)
    ensures BaySwitch(name, TransferDisLayout(Bar(2)), seg, 0, base, i, 3)
            == Switch("Dis3_" + NatStr(i), Some(LocalId(seg, 3, 2, base, i)), Some(BarId(seg, 3, 2, base, i, 2)), Disconnector)
  {
    var l := TransferDisLayout(Bar(2));
    assert Bays(l) && |l.bay.switches| == 4 && |l.bars| == 3 && |l.bay.buses| == 2;
    BaysSwitch(l, name, seg, base, i, 0);
    BaysSwitch(l, name, seg, base, i, 1);
    BaysSwitch(l, name, seg, base, i, 2);
    BaysSwitch(l, name, seg, base, i, 3);
  }

  /** The coupling bus reaches bar1 and bar2 through disconnectors and the transfer bar through the breaker. */
  lemma TransferDisCoupling(name: string, n: nat, seg: bool, base: Id)
    ensures CouplingSwitch(name, TransferDisLayout(Bar(2)), n, seg, 0, base, 0)
            == Switch("Dis_bar1", Some(FirstId(seg, 3, 2, base, n)), LastBar(seg, 3, 2, base, n, 0), Disconnector)
    ensures CouplingSwitch(name, TransferDisLayout(Bar(2)), n, seg, 0, base, 1)
            == Switch("Dis_bar2", Some(FirstId(seg, 3, 2, base, n)), LastBar(seg, 3, 2, base, n, 1), Disconnector)
    ensures CouplingSwitch(name, TransferDisLayout(Bar(2)), n, seg, 0, base, 2)
            == Switch("CB_coupling", Some(FirstId(seg, 3, 2, base, n)), LastBar(seg, 3, 2, base, n, 2), CircuitBreaker)
  {
    var l := TransferDisLayout(Bar(2));
    UniformCouplingSwitch(name, l, n, seg, 0, base, 0);
    UniformCouplingSwitch(name, l, n, seg, 0, base, 1);
    UniformCouplingSwitch(name, l, n, seg, 0, base, 2);
    LastBarIs(seg, 3, 2, base, n, 0);
    LastBarIs(seg, 3, 2, base, n, 1);
    LastBarIs(seg, 3, 2, base, n, 2);
  }

  lemma TransferDisLines(t: Ref, name: string, n: nat, seg: bool, base: Id)
    ensures LevelLines(TransferDisLayout(t), name, n, seg, base)
            == if seg then Chain(name, SegIds(base, n, 5, 0)) + Chain(name, SegIds(base, n, 5, 1)) + Chain(name, SegIds(base, n, 5, 2))
               else []
  {
    var l := TransferDisLayout(t);
    assert Uniform(l) && |l.bars| == 3 && Width(l.bay, true) == 5;
    ThreeBarLines(l, name, n, seg, base);
  }

  /** As written, a segmented build leaves Dis3 of every bay and the coupling breaker with no bus at their transfer-bar end. */
  lemma TransferDisAsWrittenUnset(name: string, n: nat, base: Id, i: nat)
    ensures BaySwitch(name, TransferDisLayout(TransferAsWritten(true)), true, 0, base, i, 3).to == None
    ensures CouplingSwitch(name, TransferDisLayout(TransferAsWritten(true)), n, true, 0, base, 2).to == None
  {
    var l := TransferDisLayout(Unset);
    BaysSwitch(l, name, true, base, i, 3);
    UniformCouplingSwitch(name, l, n, true, 0, base, 2);
  }
}
