/**
 * The single-bar voltage levels: plain, with disconnectors, with by-pass,
 * with by-pass and disconnectors, and the two splitter variants. Every
 * builder returns the bay-connection buses, one per bay in bay order.
 */
module SingleBar {
  import opened Common
  import opened Grid
  import opened Layouts

  /** A builder without a coupling step. */
  const NoCoupling := Pattern([], [], [], [])

  function Dis(name: string, from: Ref, to: Ref): SwitchPat
  {
    SwitchPat(Num(false, name), from, to, Disconnector)
  }

  function Cb(name: string, from: Ref, to: Ref): SwitchPat
  {
    SwitchPat(Num(false, name), from, to, CircuitBreaker)
  }

  function Indexed(prefix: string): NamePat
  {
    Num(false, prefix)
  }

  /** The segment `{name} bar ({i + 1})` of bay `i`. */
  const BarSegment := Wrapped(true, " bar (", 1, ")")

  /** The bay's connection bus `{name}_bay_conn_{i}`. */
  const BayConnName := Num(true, "_bay_conn_")

  // ------------------------------------------------ builders with one busbar

  /** `create_single_bar`: per bay, bus1 - Dis1 - bus2 - CB - bus3 - Dis2 - bar. */
  const SingleBarLayout := Layout([Own(" bar")],
                                  Pattern([BarSegment],
                                          [BayConnName, Indexed("LineBus2_"), Indexed("LineBus3_")],
                                          [Dis("Dis1_", Local(0), Local(1)), Cb("CB_", Local(1), Local(2)),
                                           Dis("Dis2_", Bar(0), Local(2))],
                                          [0]),
                                  1, NoCoupling)

  /** `create_single_bar_with_disconnectors`: per bay, bus1 - CB - bar. */
  const DisconnectorsLayout := Layout([Own(" bar")],
                                      Pattern([BarSegment], [BayConnName], [Cb("CB_", Local(0), Bar(0))], [0]),
                                      1, NoCoupling)

  /** `create_single_bar_with_bypass`: the plain bay, with Dis2 turned round, plus a by-pass disconnector from bus1 to the bar. */
  const BypassLayout := Layout([Own(" bar")],
                               Pattern([BarSegment],
                                       [BayConnName, Indexed("BayBus2_"), Indexed("BayBus3_")],
                                       [Dis("Dis1_", Local(0), Local(1)), Cb("CB_", Local(1), Local(2)),
                                        Dis("Dis2_", Local(2), Bar(0)), Dis("Bypass_Dis_", Local(0), Bar(0))],
                                       [0]),
                               1, NoCoupling)

  /** `create_single_bar_with_bypass_with_disconnectors`: per bay, a breaker and a by-pass disconnector, both from bus1 to the bar. */
  const BypassDisconnectorsLayout := Layout([Own(" bar")],
                                            Pattern([BarSegment], [BayConnName],
                                                    [Cb("CB_", Local(0), Bar(0)), Dis("Bypass_Dis_", Local(0), Bar(0))],
                                                    [0]),
                                            1, NoCoupling)

  /**
   * The shape the four builders above share: one busbar, or one segment per
   * bay, bay `i` handled by loop index `i`, the bay's first bus as its
   * connection bus and no coupling.
   */
  predicate OneBar(l: Layout)
  {
    |l.bars| == 1 && |l.bay.segs| == 1 && l.bay.conn == [0] && l.step == 1 && l.coupling == NoCoupling
  }

  /** Bus, switch, connection and line counts of a one-bar build with `w` buses per bay. */
  lemma OneBarCounts(l: Layout, name: string, n: nat, seg: bool, base: Id)
    requires OneBar(l)
    ensures |LevelBuses(l, name, n, seg, base)| == if seg then n * (|l.bay.buses| + 1) else 1 + n * |l.bay.buses|
    ensures |LevelSwitches(l, name, n, seg, 0, base)| == n * |l.bay.switches|
    ensures |LevelConn(l, n, seg, base)| == n
    ensures |LevelLines(l, name, n, seg, base)| == if seg && n > 1 then n - 1 else 0
  {
    UniformCounts(l, name, n, seg, 0, base);
  }

  /** Switch `k` of bay `i`: its pattern resolved against the bay's bar and its own buses. */
  lemma OneBarSwitch(l: Layout, name: string, seg: bool, base: Id, i: nat, k: nat)
    requires OneBar(l) && k < |l.bay.switches|
    ensures BaySwitch(name, l, seg, 0, base, i, k)
            == MakeSwitch(name, l.bay.switches[k], i, 0, [Some(BarId(seg, 1, |l.bay.buses|, base, i, 0))],
                          LocalId(seg, 1, |l.bay.buses|, base, i))
  {
    UniformSwitch(name, l, seg, 0, base, i, k);
    assert LoopIndex(l.step, i) == i;
    assert BarRefs(seg, 1, |l.bay.buses|, base, i) == [Some(BarId(seg, 1, |l.bay.buses|, base, i, 0))];
  }

  /** The returned connection buses are the bays' bus1, in bay order. */
  lemma OneBarConn(l: Layout, name: string, n: nat, seg: bool, base: Id)
    requires OneBar(l)
    ensures LevelConn(l, n, seg, base) == seq(n, i requires 0 <= i < n => LocalId(seg, 1, |l.bay.buses|, base, i))
  {
    var conn := LevelConn(l, n, seg, base);
    UniformCounts(l, name, n, seg, 0, base);
    forall i | 0 <= i < n
      ensures conn[i] == LocalId(seg, 1, |l.bay.buses|, base, i)
    {
      UniformConnAt(l, name, n, seg, base, i, 0);
      OffIs(i, 1);
    }
  }

  /** Segmented with more than one bay, section lines chain the segments in bay order; otherwise there are none. */
  lemma OneBarLines(l: Layout, name: string, n: nat, seg: bool, base: Id)
    requires OneBar(l)
    ensures LevelLines(l, name, n, seg, base)
            == if seg && n > 1 then Sections(name, SegIds(base, n, |l.bay.buses| + 1, 0)) else []
  {
    if seg {
      BuildSegLines(l, name, n, 0, base);
      var lists := SegLists(l.bay, n, true, base);
      SegListIs(l.bay, n, base, 0);
      assert lists[..0] == [];
      assert ChainAll(name, lists) == Chain(name, lists[0]);
    } else {
      BuildUnsegmentedLines(l, name, n, 0, base);
    }
  }

  // ---------------------------------------------------------------- plain

  method CreateSingleBar(grid: MultiCircuit, name: string, n: nat, seg: bool) returns (conn: seq<Id>)
    modifies grid
    ensures grid.State() == Extend(old(grid.State()), name, Build(SingleBarLayout, name, n, seg, 0, old(grid.nextId)))
    ensures conn == Build(SingleBarLayout, name, n, seg, 0, old(grid.nextId)).conn
    ensures old(grid.Valid()) ==> grid.Valid()
  {
    conn := AddLevel(grid, SingleBarLayout, name, n, seg, 0);
  }

  /** One bar and three buses per bay, or four per bay (its segment first); three switches per bay; one connection bus per bay. */
  lemma SingleBarCounts(name: string, n: nat, seg: bool, base: Id)
    ensures |LevelBuses(SingleBarLayout, name, n, seg, base)| == if seg then 4 * n else 1 + 3 * n
    ensures |LevelSwitches(SingleBarLayout, name, n, seg, 0, base)| == 3 * n
    ensures |LevelConn(SingleBarLayout, n, seg, base)| == n
    ensures |LevelLines(SingleBarLayout, name, n, seg, base)| == if seg && n > 1 then n - 1 else 0
  {
    OneBarCounts(SingleBarLayout, name, n, seg, base);
  }

  /** The names bay `i` gives its buses: its bar segment when segmented, then bus1, bus2 and bus3. */
  lemma SingleBarNames(name: string, seg: bool, i: nat)
    ensures seg ==> IterNames(name, SingleBarLayout.bay, i, seg)[0] == name + " bar (" + NatStr(i + 1) + ")"
    ensures IterNames(name, SingleBarLayout.bay, i, seg)[SegCount(SingleBarLayout.bay, seg)] == name + "_bay_conn_" + NatStr(i)
    ensures IterNames(name, SingleBarLayout.bay, i, seg)[SegCount(SingleBarLayout.bay, seg) + 1] == "LineBus2_" + NatStr(i)
    ensures IterNames(name, SingleBarLayout.bay, i, seg)[SegCount(SingleBarLayout.bay, seg) + 2] == "LineBus3_" + NatStr(i)
  {
  }

  /** Bay `i` switches: Dis1 joins bus1 and bus2, the breaker bus2 and bus3, Dis2 the bar and bus3. */
  lemma SingleBarSwitches(name: string, seg: bool, base: Id, i: nat)
    ensures BaySwitch(name, SingleBarLayout, seg, 0, base, i, 0)
            == Switch("Dis1_" + NatStr(i), Some(LocalId(seg, 1, 3, base, i)), Some(LocalId(seg, 1, 3, base, i) + 1), Disconnector)
    ensures BaySwitch(name, SingleBarLayout, seg, 0, base, i, 1)
            == Switch("CB_" + NatStr(i), Some(LocalId(seg, 1, 3, base, i) + 1), Some(LocalId(seg, 1, 3, base, i) + 2), CircuitBreaker)
    ensures BaySwitch(name, SingleBarLayout, seg, 0, base, i, 2)
            == Switch("Dis2_" + NatStr(i), Some(BarId(seg, 1, 3, base, i, 0)), Some(LocalId(seg, 1, 3, base, i) + 2), Disconnector)
  {
    OneBarSwitch(SingleBarLayout, name, seg, base, i, 0);
    OneBarSwitch(SingleBarLayout, name, seg, base, i, 1);
    OneBarSwitch(SingleBarLayout, name, seg, base, i, 2);
  }

  // ------------------------------------------------------ with disconnectors

  method CreateSingleBarWithDisconnectors(grid: MultiCircuit, name: string, n: nat, seg: bool) returns (conn: seq<Id>)
    modifies grid
    ensures grid.State() == Extend(old(grid.State()), name, Build(DisconnectorsLayout, name, n, seg, 0, old(grid.nextId)))
    ensures conn == Build(DisconnectorsLayout, name, n, seg, 0, old(grid.nextId)).conn
    ensures old(grid.Valid()) ==> grid.Valid()
  {
    conn := AddLevel(grid, DisconnectorsLayout, name, n, seg, 0);
  }

  /** One bar and one bus per bay, or two per bay when segmented; one breaker per bay. */
  lemma DisconnectorsCounts(name: string, n: nat, seg: bool, base: Id)
    ensures |LevelBuses(DisconnectorsLayout, name, n, seg, base)| == if seg then 2 * n else 1 + n
    ensures |LevelSwitches(DisconnectorsLayout, name, n, seg, 0, base)| == n
    ensures |LevelConn(DisconnectorsLayout, n, seg, base)| == n
    ensures |LevelLines(DisconnectorsLayout, name, n, seg, base)| == if seg && n > 1 then n - 1 else 0
  {
    OneBarCounts(DisconnectorsLayout, name, n, seg, base);
  }

  /** Bay `i`'s breaker `CB_{i}` runs from its connection bus to its bar. */
  lemma DisconnectorsSwitches(name: string, seg: bool, base: Id, i: nat)
    ensures BaySwitch(name, DisconnectorsLayout, seg, 0, base, i, 0)
            == Switch("CB_" + NatStr(i), Some(LocalId(seg, 1, 1, base, i)), Some(BarId(seg, 1, 1, base, i, 0)), CircuitBreaker)
  {
    var l := DisconnectorsLayout;
    assert OneBar(l) && |l.bay.switches| == 1 && |l.bay.buses| == 1;
    OneBarSwitch(l, name, seg, base, i, 0);
  }

  // ----------------------------------------------------------------- by-pass

  method CreateSingleBarWithBypass(grid: MultiCircuit, name: string, n: nat, seg: bool) returns (conn: seq<Id>)
    modifies grid
    ensures grid.State() == Extend(old(grid.State()), name, Build(BypassLayout, name, n, seg, 0, old(grid.nextId)))
    ensures conn == Build(BypassLayout, name, n, seg, 0, old(grid.nextId)).conn
    ensures old(grid.Valid()) ==> grid.Valid()
  {
    conn := AddLevel(grid, BypassLayout, name, n, seg, 0);
  }

  /** One bar and three buses per bay, or four per bay when segmented; four switches per bay. */
  lemma BypassCounts(name: string, n: nat, seg: bool, base: Id)
    ensures |LevelBuses(BypassLayout, name, n, seg, base)| == if seg then 4 * n else 1 + 3 * n
    ensures |LevelSwitches(BypassLayout, name, n, seg, 0, base)| == 4 * n
    ensures |LevelConn(BypassLayout, n, seg, base)| == n
    ensures |LevelLines(BypassLayout, name, n, seg, base)| == if seg && n > 1 then n - 1 else 0
  {
    OneBarCounts(BypassLayout, name, n, seg, base);
  }

  /** Bay `i`: bus1 - Dis1 - bus2 - CB - bus3 - Dis2 - bar, and the by-pass disconnector from bus1 straight to the bar. */
  lemma BypassSwitches(name: string, seg: bool, base: Id, i: nat)
    ensures BaySwitch(name, BypassLayout, seg, 0, base, i, 0)
            == Switch("Dis1_" + NatStr(i), Some(LocalId(seg, 1, 3, base, i)), Some(LocalId(seg, 1, 3, base, i) + 1), Disconnector)
    ensures BaySwitch(name, BypassLayout, seg, 0, base, i, 1)
            == Switch("CB_" + NatStr(i), Some(LocalId(seg, 1, 3, base, i) + 1), Some(LocalId(seg, 1, 3, base, i) + 2), CircuitBreaker)
    ensures BaySwitch(name, BypassLayout, seg, 0, base, i, 2)
            == Switch("Dis2_" + NatStr(i), Some(LocalId(seg, 1, 3, base, i) + 2), Some(BarId(seg, 1, 3, base, i, 0)), Disconnector)
    ensures BaySwitch(name, BypassLayout, seg, 0, base, i, 3)
            == Switch("Bypass_Dis_" + NatStr(i), Some(LocalId(seg, 1, 3, base, i)), Some(BarId(seg, 1, 3, base, i, 0)), Disconnector)
  {
    OneBarSwitch(BypassLayout, name, seg, base, i, 0);
    OneBarSwitch(BypassLayout, name, seg, base, i, 1);
    OneBarSwitch(BypassLayout, name, seg, base, i, 2);
    OneBarSwitch(BypassLayout, name, seg, base, i, 3);
  }

  // ------------------------------------------------ by-pass with disconnectors

  method CreateSingleBarWithBypassWithDisconnectors(grid: MultiCircuit, name: string, n: nat, seg: bool) returns (conn: seq<Id>)
    modifies grid
    ensures grid.State() == Extend(old(grid.State()), name, Build(BypassDisconnectorsLayout, name, n, seg, 0, old(grid.nextId)))
    ensures conn == Build(BypassDisconnectorsLayout, name, n, seg, 0, old(grid.nextId)).conn
    ensures old(grid.Valid()) ==> grid.Valid()
  {
    conn := AddLevel(grid, BypassDisconnectorsLayout, name, n, seg, 0);
  }

  /** One bar and one bus per bay, or two per bay when segmented; two switches per bay. */
  lemma BypassDisconnectorsCounts(name: string, n: nat, seg: bool, base: Id)
    ensures |LevelBuses(BypassDisconnectorsLayout, name, n, seg, base)| == if seg then 2 * n else 1 + n
    ensures |LevelSwitches(BypassDisconnectorsLayout, name, n, seg, 0, base)| == 2 * n
    ensures |LevelConn(BypassDisconnectorsLayout, n, seg, base)| == n
    ensures |LevelLines(BypassDisconnectorsLayout, name, n, seg, base)| == if seg && n > 1 then n - 1 else 0
  {
    OneBarCounts(BypassDisconnectorsLayout, name, n, seg, base);
  }

  /** Bay `i`: a breaker and a by-pass disconnector in parallel between bus1 and the bar. */
  lemma BypassDisconnectorsSwitches(name: string, seg: bool, base: Id, i: nat)
    ensures BaySwitch(name, BypassDisconnectorsLayout, seg, 0, base, i, 0)
            == Switch("CB_" + NatStr(i), Some(LocalId(seg, 1, 1, base, i)), Some(BarId(seg, 1, 1, base, i, 0)), CircuitBreaker)
    ensures BaySwitch(name, BypassDisconnectorsLayout, seg, 0, base, i, 1)
            == Switch("Bypass_Dis_" + NatStr(i), Some(LocalId(seg, 1, 1, base, i)), Some(BarId(seg, 1, 1, base, i, 0)), Disconnector)
  {
    var l := BypassDisconnectorsLayout;
    assert OneBar(l) && |l.bay.switches| == 2 && |l.bay.buses| == 1;
    OneBarSwitch(l, name, seg, base, i, 0);
    OneBarSwitch(l, name, seg, base, i, 1);
  }
}
