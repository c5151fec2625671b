/**
 * The breaker-and-a-half voltage levels. Bays come in pairs: each loop
 * iteration, at bay index `i = 0, 2, 4, ...`, builds one diameter between
 * bar1 and bar2 that serves bays `i` and `i + 1`, and returns both of its
 * connection buses.
 */
module BreakerAndAHalf {
  import opened Common
  import opened Grid
  import opened Layouts
  import opened SingleBar
  import opened DoubleBar

  /** Diameters built for `n` bays: one per iteration of `range(0, n, 2)`. */
  function Diameters(n: nat): nat
  {
    (n + 1) / 2
  }

  /** Iteration `j` runs exactly when its bay index `2 * j` is below `n`, and the diameters serve `n` bays rounded up to even. */
  lemma DiametersRange(n: nat, j: nat)
    ensures j < Diameters(n) <==> 2 * j < n
    ensures 2 * Diameters(n) == n + n % 2
  {
  }

  /**
   * `create_breaker_and_a_half`, with the names of bus5, dis7 and dis8 as
   * parameters: bar1 - Dis1 - bus1 - SW1 - bus2 - Dis2 - bus3 - Dis4 - bus4 -
   * SW2 - bus5 - Dis5 - bus6 - dis7 - bus7 - SW3 - bus8 - dis8 - bar2, with
   * Dis3 from bus3 to the first connection bus and Dis6 from bus6 to the
   * second. The switch kinds are the builder's: Dis3 and Dis6 are breakers,
   * SW2 and SW3 disconnectors.
   */
  function DiameterLayout(bus5: string, dis7: string, dis8: string): Layout
  {
    Layout([Own(" bar1"), Own(" bar2")],
           Pattern([Bar1Segment, Bar2Segment],
                   [Indexed("LineBus1_"), Indexed("LineBus2_"), Indexed("LineBus3_"), Indexed("LineBus4_"),
                    Indexed(bus5), Indexed("LineBus6_"), Indexed("LineBus7_"), Indexed("LineBus8_"),
                    BayConnName, Wrapped(true, "_bay_conn_", 1, "")],
                   [Dis("Dis1_", Bar(0), Local(0)), Cb("SW1_", Local(0), Local(1)), Dis("Dis2_", Local(1), Local(2)),
                    Cb("Dis3_", Local(2), Local(8)), Dis("Dis4_", Local(2), Local(3)), Dis("SW2_", Local(3), Local(4)),
                    Dis("Dis5_", Local(4), Local(5)), Cb("Dis6_", Local(5), Local(9)), Dis(dis7, Local(5), Local(6)),
                    Dis("SW3_", Local(6), Local(7)), Dis(dis8, Local(7), Bar(1))],
                   [8, 9]),
           2, NoCoupling)
  }

  /** The names as written: bus5 reuses `LineBus4_{i}`, dis7 and dis8 reuse `Dis6_{i}`. */
  const AsWrittenDiameter := DiameterLayout("LineBus4_", "Dis6_", "Dis6_")

  /** Every bus and switch of a diameter under a name of its own. */
  const BreakerAndAHalfLayout := DiameterLayout("LineBus5_", "Dis7_", "Dis8_")

  /** `create_breaker_and_a_half_with_disconnectors`: bar1 - SW1 - conn1 - SW2 - conn2 - SW3 - bar2, all breakers. */
  const BreakerAndAHalfDisLayout := Layout([Own(" bar1"), Own(" bar2")],
                                           Pattern([Bar1Segment, Bar2Segment],
                                                   [BayConnName, Wrapped(true, "_bay_conn_", 1, "")],
                                                   [Cb("SW1_", Bar(0), Local(0)), Cb("SW2_", Local(0), Local(1)),
                                                    Cb("SW3_", Local(1), Bar(1))],
                                                   [0, 1]),
                                           2, NoCoupling)

  /** The shape both builders share: a segment per bar, two iterations' worth of bay index per loop step, two connection buses. */
  predicate Paired(l: Layout)
  {
    Uniform(l) && l.step == 2 && |l.bay.conn| == 2
  }

  // ------------------------------------------------------------ generic facts

  /** Switch `k` of diameter `j`, whose bay index is `2 * j`. */
  lemma PairedSwitch(l: Layout, name: string, seg: bool, base: Id, j: nat, k: nat)
    requires Paired(l) && k < |l.bay.switches|
    ensures BaySwitch(name, l, seg, 0, base, j, k)
            == MakeSwitch(name, l.bay.switches[k], 2 * j, 0, BarRefs(seg, |l.bars|, |l.bay.buses|, base, j),
                          LocalId(seg, |l.bars|, |l.bay.buses|, base, j))
  {
    UniformSwitch(name, l, seg, 0, base, j, k);
  }

  /** Diameter `j` returns its two connection buses at positions `2 * j` and `2 * j + 1`. */
  lemma PairedConn(l: Layout, name: string, m: nat, seg: bool, base: Id, j: nat)
    requires Paired(l) && j < m
    ensures 2 * j + 1 < |LevelConn(l, m, seg, base)|
    ensures LevelConn(l, m, seg, base)[2 * j] == LocalId(seg, |l.bars|, |l.bay.buses|, base, j) + l.bay.conn[0]
    ensures LevelConn(l, m, seg, base)[2 * j + 1] == LocalId(seg, |l.bars|, |l.bay.buses|, base, j) + l.bay.conn[1]
  {
    UniformConnAt(l, name, m, seg, base, j, 0);
    UniformConnAt(l, name, m, seg, base, j, 1);
    OffIs(j, 2);
  }

  // ---------------------------------------------------------------- plain

  /** `create_breaker_and_a_half` as written, with the colliding names of `AsWrittenDiameter`. */
  method CreateBreakerAndAHalf(grid: MultiCircuit, name: string, n: nat, seg: bool) returns (conn: seq<Id>)
    modifies grid
    ensures grid.State() == Extend(old(grid.State()), name, Build(AsWrittenDiameter, name, Diameters(n), seg, 0, old(grid.nextId)))
    ensures conn == Build(AsWrittenDiameter, name, Diameters(n), seg, 0, old(grid.nextId)).conn
    ensures old(grid.Valid()) ==> grid.Valid()
  {
    conn := AddLevel(grid, AsWrittenDiameter, name, Diameters(n), seg, 0);
  }

  /** The same builder as evidently intended, every bus and switch of a diameter under a name of its own. */
  method CreateBreakerAndAHalfRenamed(grid: MultiCircuit, name: string, n: nat, seg: bool) returns (conn: seq<Id>)
    modifies grid
    ensures grid.State() == Extend(old(grid.State()), name, Build(BreakerAndAHalfLayout, name, Diameters(n), seg, 0, old(grid.nextId)))
    ensures conn == Build(BreakerAndAHalfLayout, name, Diameters(n), seg, 0, old(grid.nextId)).conn
    ensures old(grid.Valid()) ==> grid.Valid()
  {
    conn := AddLevel(grid, BreakerAndAHalfLayout, name, Diameters(n), seg, 0);
  }

  /**
   * Two bars and ten buses per diameter, or twelve per diameter (two
   * segments first); eleven switches per diameter; two connection buses per
   * diameter, that is `n` rounded up to even.
   */
  lemma BreakerAndAHalfCounts(name: string, n: nat, seg: bool, base: Id)
    ensures |LevelBuses(BreakerAndAHalfLayout, name, Diameters(n), seg, base)|
            == if seg then 12 * Diameters(n) else 2 + 10 * Diameters(n)
    ensures |LevelSwitches(BreakerAndAHalfLayout, name, Diameters(n), seg, 0, base)| == 11 * Diameters(n)
    ensures |LevelConn(BreakerAndAHalfLayout, Diameters(n), seg, base)| == n + n % 2
    ensures |LevelLines(BreakerAndAHalfLayout, name, Diameters(n), seg, base)| == if seg then 2 * Links(Diameters(n)) else 0
  {
    UniformCounts(BreakerAndAHalfLayout, name, Diameters(n), seg, 0, base);
  }

  /** The path from bar1 to bar2 through diameter `j`: Dis1, SW1, Dis2, Dis4, SW2, Dis5, Dis7, SW3 and Dis8 in turn. */
  lemma BreakerAndAHalfPath(name: string, seg: bool, base: Id, j: nat)
    ensures BaySwitch(name, BreakerAndAHalfLayout, seg, 0, base, j, 0)
            == Switch("Dis1_" + NatStr(2 * j), Some(BarId(seg, 2, 10, base, j, 0)), Some(LocalId(seg, 2, 10, base, j)), Disconnector)
    ensures BaySwitch(name, BreakerAndAHalfLayout, seg, 0, base, j, 1)
            == Switch("SW1_" + NatStr(2 * j), Some(LocalId(seg, 2, 10, base, j)), Some(LocalId(seg, 2, 10, base, j) + 1), CircuitBreaker)
    ensures BaySwitch(name, BreakerAndAHalfLayout, seg, 0, base, j, 2)
            == Switch("Dis2_" + NatStr(2 * j), Some(LocalId(seg, 2, 10, base, j) + 1), Some(LocalId(seg, 2, 10, base, j) + 2), Disconnector)
    ensures BaySwitch(name, BreakerAndAHalfLayout, seg, 0, base, j, 4)
            == Switch("Dis4_" + NatStr(2 * j), Some(LocalId(seg, 2, 10, base, j) + 2), Some(LocalId(seg, 2, 10, base, j) + 3), Disconnector)
    ensures BaySwitch(name, BreakerAndAHalfLayout, seg, 0, base, j, 5)
            == Switch("SW2_" + NatStr(2 * j), Some(LocalId(seg, 2, 10, base, j) + 3), Some(LocalId(seg, 2, 10, base, j) + 4), Disconnector)
  {
    var l := BreakerAndAHalfLayout;
    assert Paired(l) && |l.bay.switches| == 11 && |l.bars| == 2 && |l.bay.buses| == 10;
    PairedSwitch(l, name, seg, base, j, 0);
    PairedSwitch(l, name, seg, base, j, 1);
    PairedSwitch(l, name, seg, base, j, 2);
    PairedSwitch(l, name, seg, base, j, 4);
    PairedSwitch(l, name, seg, base, j, 5);
  }

  /** The second half of the path, from bus5 to bar2. */
  lemma BreakerAndAHalfPathEnd(name: string, seg: bool, base: Id, j: nat)
    ensures BaySwitch(name, BreakerAndAHalfLayout, seg, 0, base, j, 6)
            == Switch("Dis5_" + NatStr(2 * j), Some(LocalId(seg, 2, 10, base, j) + 4), Some(LocalId(seg, 2, 10, base, j) + 5), Disconnector)
    ensures BaySwitch(name, BreakerAndAHalfLayout, seg, 0, base, j, 8)
            == Switch("Dis7_" + NatStr(2 * j), Some(LocalId(seg, 2, 10, base, j) + 5), Some(LocalId(seg, 2, 10, base, j) + 6), Disconnector)
    ensures BaySwitch(name, BreakerAndAHalfLayout, seg, 0, base, j, 9)
            == Switch("SW3_" + NatStr(2 * j), Some(LocalId(seg, 2, 10, base, j) + 6), Some(LocalId(seg, 2, 10, base, j) + 7), Disconnector)
    ensures BaySwitch(name, BreakerAndAHalfLayout, seg, 0, base, j, 10)
            == Switch("Dis8_" + NatStr(2 * j), Some(LocalId(seg, 2, 10, base, j) + 7), Some(BarId(seg, 2, 10, base, j, 1)), Disconnector)
  {
    var l := BreakerAndAHalfLayout;
    assert Paired(l) && |l.bay.switches| == 11 && |l.bars| == 2 && |l.bay.buses| == 10;
    PairedSwitch(l, name, seg, base, j, 6);
    PairedSwitch(l, name, seg, base, j, 8);
    PairedSwitch(l, name, seg, base, j, 9);
    PairedSwitch(l, name, seg, base, j, 10);
  }

  /** The branches to the bays: Dis3 from bus3 to the first connection bus, Dis6 from bus6 to the second. */
  lemma BreakerAndAHalfTaps(name: string, seg: bool, base: Id, j: nat)
    ensures BaySwitch(name, BreakerAndAHalfLayout, seg, 0, base, j, 3)
            == Switch("Dis3_" + NatStr(2 * j), Some(LocalId(seg, 2, 10, base, j) + 2), Some(LocalId(seg, 2, 10, base, j) + 8), CircuitBreaker)
    ensures BaySwitch(name, BreakerAndAHalfLayout, seg, 0, base, j, 7)
            == Switch("Dis6_" + NatStr(2 * j), Some(LocalId(seg, 2, 10, base, j) + 5), Some(LocalId(seg, 2, 10, base, j) + 9), CircuitBreaker)
  {
    var l := BreakerAndAHalfLayout;
    assert Paired(l) && |l.bay.switches| == 11 && |l.bars| == 2 && |l.bay.buses| == 10;
    PairedSwitch(l, name, seg, base, j, 3);
    PairedSwitch(l, name, seg, base, j, 7);
  }

  /** The `k`-th connection bus returned is named `{name}_bay_conn_{k}`: diameter `j` serves bays `2 * j` and `2 * j + 1`. */
  lemma BreakerAndAHalfConn(name: string, n: nat, seg: bool, base: Id, j: nat)
    requires j < Diameters(n)
    ensures 2 * j + 1 < |LevelConn(BreakerAndAHalfLayout, Diameters(n), seg, base)|
    ensures LevelConn(BreakerAndAHalfLayout, Diameters(n), seg, base)[2 * j] == LocalId(seg, 2, 10, base, j) + 8
    ensures LevelConn(BreakerAndAHalfLayout, Diameters(n), seg, base)[2 * j + 1] == LocalId(seg, 2, 10, base, j) + 9
    ensures IterNames(name, BreakerAndAHalfLayout.bay, 2 * j, seg)[SegCount(BreakerAndAHalfLayout.bay, seg) + 8]
            == name + "_bay_conn_" + NatStr(2 * j)
    ensures IterNames(name, BreakerAndAHalfLayout.bay, 2 * j, seg)[SegCount(BreakerAndAHalfLayout.bay, seg) + 9]
            == name + "_bay_conn_" + NatStr(2 * j + 1)
  {
    PairedConn(BreakerAndAHalfLayout, name, Diameters(n), seg, base, j);
  }

  lemma BreakerAndAHalfLines(name: string, n: nat, seg: bool, base: Id)
    ensures LevelLines(BreakerAndAHalfLayout, name, Diameters(n), seg, base)
            == if seg then Chain(name, SegIds(base, Diameters(n), 12, 0)) + Chain(name, SegIds(base, Diameters(n), 12, 1)) else []
  {
    var l := BreakerAndAHalfLayout;
    assert Uniform(l) && |l.bars| == 2 && Width(l.bay, true) == 12;
    TwoBarLines(l, name, Diameters(n), seg, base);
  }

  /**
   * As written, bus4 and bus5 of a diameter share the name `LineBus4_{i}`,
   * and Dis6, dis7 and dis8 all carry the name `Dis6_{i}`.
   */
  lemma AsWrittenNamesCollide(name: string, seg: bool, base: Id, j: nat)
    ensures IterNames(name, AsWrittenDiameter.bay, 2 * j, seg)[SegCount(AsWrittenDiameter.bay, seg) + 3]
            == IterNames(name, AsWrittenDiameter.bay, 2 * j, seg)[SegCount(AsWrittenDiameter.bay, seg) + 4]
    ensures BaySwitch(name, AsWrittenDiameter, seg, 0, base, j, 7).name == BaySwitch(name, AsWrittenDiameter, seg, 0, base, j, 8).name
    ensures BaySwitch(name, AsWrittenDiameter, seg, 0, base, j, 8).name == BaySwitch(name, AsWrittenDiameter, seg, 0, base, j, 10).name
  {
    var l := AsWrittenDiameter;
    assert Paired(l) && |l.bay.switches| == 11;
    PairedSwitch(l, name, seg, base, j, 7);
    PairedSwitch(l, name, seg, base, j, 8);
    PairedSwitch(l, name, seg, base, j, 10);
  }

  /** Two names that differ at a position both prefixes cover stay different whatever follows. */
  lemma PrefixesDiffer(p: string, q: string, s: string, t: string, k: nat)
    requires k < |p| && k < |q| && p[k] != q[k]
    ensures p + s != q + t
  {
    assert (p + s)[k] == p[k];
    assert (q + t)[k] == q[k];
  }

  /** With the corrected names, bus4 and bus5 differ. */
  lemma BusNamesDistinct(name: string, seg: bool, j: nat)
    ensures IterNames(name, BreakerAndAHalfLayout.bay, 2 * j, seg)[SegCount(BreakerAndAHalfLayout.bay, seg) + 3]
            != IterNames(name, BreakerAndAHalfLayout.bay, 2 * j, seg)[SegCount(BreakerAndAHalfLayout.bay, seg) + 4]
  {
    var d := NatStr(2 * j);
    PrefixesDiffer("LineBus4_", "LineBus5_", d, d, 7);
  }

  /** With the corrected names, Dis6, Dis7 and Dis8 differ from one another. */
  lemma SwitchNamesDistinct(name: string, seg: bool, base: Id, j: nat)
    ensures BaySwitch(name, BreakerAndAHalfLayout, seg, 0, base, j, 7).name != BaySwitch(name, BreakerAndAHalfLayout, seg, 0, base, j, 8).name
    ensures BaySwitch(name, BreakerAndAHalfLayout, seg, 0, base, j, 8).name != BaySwitch(name, BreakerAndAHalfLayout, seg, 0, base, j, 10).name
    ensures BaySwitch(name, BreakerAndAHalfLayout, seg, 0, base, j, 7).name != BaySwitch(name, BreakerAndAHalfLayout, seg, 0, base, j, 10).name
  {
    var d := NatStr(2 * j);
    BreakerAndAHalfTaps(name, seg, base, j);
    BreakerAndAHalfPathEnd(name, seg, base, j);
    PrefixesDiffer("Dis6_", "Dis7_", d, d, 3);
    PrefixesDiffer("Dis7_", "Dis8_", d, d, 3);
    PrefixesDiffer("Dis6_", "Dis8_", d, d, 3);
  }

  // ------------------------------------------------------- with disconnectors

  method CreateBreakerAndAHalfWithDisconnectors(grid: MultiCircuit, name: string, n: nat, seg: bool) returns (conn: seq<Id>)
    modifies grid
    ensures grid.State() == Extend(old(grid.State()), name, Build(BreakerAndAHalfDisLayout, name, Diameters(n), seg, 0, old(grid.nextId)))
    ensures conn == Build(BreakerAndAHalfDisLayout, name, Diameters(n), seg, 0, old(grid.nextId)).conn
    ensures old(grid.Valid()) ==> grid.Valid()
  {
    conn := AddLevel(grid, BreakerAndAHalfDisLayout, name, Diameters(n), seg, 0);
  }

  /** Two bars and two buses per diameter, or four per diameter; three breakers per diameter; both buses are connection buses. */
  lemma BreakerAndAHalfDisCounts(name: string, n: nat, seg: bool, base: Id)
    ensures |LevelBuses(BreakerAndAHalfDisLayout, name, Diameters(n), seg, base)|
            == if seg then 4 * Diameters(n) else 2 + 2 * Diameters(n)
    ensures |LevelSwitches(BreakerAndAHalfDisLayout, name, Diameters(n), seg, 0, base)| == 3 * Diameters(n)
    ensures |LevelConn(BreakerAndAHalfDisLayout, Diameters(n), seg, base)| == n + n % 2
    ensures |LevelLines(BreakerAndAHalfDisLayout, name, Diameters(n), seg, base)| == if seg then 2 * Links(Diameters(n)) else 0
  {
    UniformCounts(BreakerAndAHalfDisLayout, name, Diameters(n), seg, 0, base);
  }

  /** Diameter `j` chains bar1 - SW1 - conn1 - SW2 - conn2 - SW3 - bar2. */
  lemma BreakerAndAHalfDisSwitches(name: string, seg: bool, base: Id, j: nat)
    ensures BaySwitch(name, BreakerAndAHalfDisLayout, seg, 0, base, j, 0)
            == Switch("SW1_" + NatStr(2 * j), Some(BarId(seg, 2, 2, base, j, 0)), Some(LocalId(seg, 2, 2, base, j)), CircuitBreaker)
    ensures BaySwitch(name, BreakerAndAHalfDisLayout, seg, 0, base, j, 1)
            == Switch("SW2_" + NatStr(2 * j), Some(LocalId(seg, 2, 2, base, j)), Some(LocalId(seg, 2, 2, base, j) + 1), CircuitBreaker)
    ensures BaySwitch(name, BreakerAndAHalfDisLayout, seg, 0, base, j, 2)
            == Switch("SW3_" + NatStr(2 * j), Some(LocalId(seg, 2, 2, base, j) + 1), Some(BarId(seg, 2, 2, base, j, 1)), CircuitBreaker)
  {
    var l := BreakerAndAHalfDisLayout;
    assert Paired(l) && |l.bay.switches| == 3 && |l.bars| == 2 && |l.bay.buses| == 2;
    PairedSwitch(l, name, seg, base, j, 0);
    PairedSwitch(l, name, seg, base, j, 1);
    PairedSwitch(l, name, seg, base, j, 2);
  }

  /** Both buses of diameter `j` are returned, in order, at positions `2 * j` and `2 * j + 1`. */
  lemma BreakerAndAHalfDisConn(name: string, n: nat, seg: bool, base: Id, j: nat)
    requires j < Diameters(n)
    ensures 2 * j + 1 < |LevelConn(BreakerAndAHalfDisLayout, Diameters(n), seg, base)|
    ensures LevelConn(BreakerAndAHalfDisLayout, Diameters(n), seg, base)[2 * j] == LocalId(seg, 2, 2, base, j)
    ensures LevelConn(BreakerAndAHalfDisLayout, Diameters(n), seg, base)[2 * j + 1] == LocalId(seg, 2, 2, base, j) + 1
  {
    PairedConn(BreakerAndAHalfDisLayout, name, Diameters(n), seg, base, j);
  }

  lemma BreakerAndAHalfDisLines(name: string, n: nat, seg: bool, base: Id)
    ensures LevelLines(BreakerAndAHalfDisLayout, name, Diameters(n), seg, base)
            == if seg then Chain(name, SegIds(base, Diameters(n), 4, 0)) + Chain(name, SegIds(base, Diameters(n), 4, 1)) else []
  {
    var l := BreakerAndAHalfDisLayout;
    assert Uniform(l) && |l.bars| == 2 && Width(l.bay, true) == 4;
    TwoBarLines(l, name, Diameters(n), seg, base);
  }
}
