/**
 * The ring voltage levels. A ring has `max(n, 3)` positions. In the plain
 * ring each position adds three buses (its connection bus and the two sides
 * of its breaker); with disconnectors it adds a single bus and the breakers
 * sit between positions. Each position is linked to the previous one and
 * the last also to the first, which closes the ring.
 */
module Ring {
  import opened Common
  import opened Grid
  import opened Layouts

  /** `n_positions = max(n_bays, 3)`. */
  function Positions(n: nat): nat
  {
    if n < 3 then 3 else n
  }

  /** Buses per position. */
  function W(dis: bool): nat
  {
    if dis then 1 else 3
  }

  /** The connection bus of position `k`, where the link from the previous position arrives. */
  function Entry(dis: bool, base: Id, k: nat): Id
  {
    base + W(dis) * k
  }

  /** The bus of position `k` the link to the next position leaves from. */
  function Exit(dis: bool, base: Id, k: nat): Id
  {
    base + W(dis) * k + W(dis) - 1
  }

  function PositionNames(dis: bool, name: string, n: nat): (r: seq<string>)
    ensures |r| == W(dis)
  {
    if dis then [name + "_position_" + NatStr(n)]
    else [name + "_position_" + NatStr(n), name + "_cb_" + NatStr(n) + ".1", name + "_cb_" + NatStr(n) + ".2"]
  }

  /**
   * The switches linking position `n` of `np` to its neighbours, with its
   * first bus at `b`, the previous position's exit at `prev` and the ring's
   * first bus at `first`: none at the first position; the link from the
   * previous position elsewhere, preceded at the last position by the
   * closing switch back to `first`. Plain ring: disconnectors; with
   * disconnectors: breakers.
   */
  function RingLinks(dis: bool, np: nat, n: nat, first: Id, prev: Id, b: Id): seq<Switch>
  {
    if n == 0 then []
    else if dis then
      if n + 1 == np then [Switch("CB_" + NatStr(n), Some(b), Some(first), CircuitBreaker),
                           Switch("CB_" + NatStr(n - 1), Some(prev), Some(b), CircuitBreaker)]
      else [Switch("CB_" + NatStr(n), Some(prev), Some(b), CircuitBreaker)]
    else
      if n + 1 == np then [Switch("CB_" + NatStr(n) + ".2", Some(b + 2), Some(first), Disconnector),
                           Switch("dis_" + NatStr(n - 1) + ".2", Some(prev), Some(b), Disconnector)]
      else [Switch("dis_" + NatStr(n) + "12", Some(prev), Some(b), Disconnector)]
  }

  /** A plain position's own switches: the breaker from bus2 to bus3, then the disconnector from bus1 to bus2. */
  function RingOwn(n: nat, b: Id): seq<Switch>
  {
    [Switch("CB_" + NatStr(n), Some(b + 1), Some(b + 2), CircuitBreaker),
     Switch("dis_" + NatStr(n) + ".1", Some(b), Some(b + 1), Disconnector)]
  }

  /** The switches position `n` adds, in order. */
  function PositionSwitches(dis: bool, np: nat, n: nat, first: Id, prev: Id, b: Id): seq<Switch>
  {
    if dis then RingLinks(dis, np, n, first, prev, b) else RingLinks(dis, np, n, first, prev, b) + RingOwn(n, b)
  }

  /** What position `n` adds when the ring's buses start at `base`. */
  function Position(dis: bool, name: string, np: nat, n: nat, base: Id): Level
  {
    var prev := if n == 0 then base else Exit(dis, base, n - 1);
    Level(NewBuses(PositionNames(dis, name, n), Connectivity, Entry(dis, base, n)),
          PositionSwitches(dis, np, n, base, prev, Entry(dis, base, n)), [], [Entry(dis, base, n)])
  }

  /** Parts laid down one after the other. */
  function JoinAll(parts: seq<Level>): Level
    decreases |parts|
  {
    if parts == [] then Level([], [], [], []) else Join(JoinAll(parts[..|parts| - 1]), parts[|parts| - 1])
  }

  /** What positions `0 .. n - 1` add, one entry each. */
  function Parts(dis: bool, name: string, np: nat, n: nat, base: Id): seq<Level>
  {
    seq(n, k requires 0 <= k < n => Position(dis, name, np, k, base))
  }

  /** Positions `0 .. n - 1`. */
  function RingUpTo(dis: bool, name: string, np: nat, n: nat, base: Id): Level
  {
    JoinAll(Parts(dis, name, np, n, base))
  }

  /** The whole ring for `nBays` bays. */
  function RingLevel(dis: bool, name: string, nBays: nat, base: Id): Level
  {
    RingUpTo(dis, name, Positions(nBays), Positions(nBays), base)
  }

  // ------------------------------------------------------------- the builders

  /** One iteration of the plain ring's loop. */
  method AddPosition(grid: MultiCircuit, name: string, np: nat, n: nat, first: Id, prev: Id, ghost base: Id)
    returns (bus1: Id, bus3: Id)
    modifies grid
    requires grid.nextId == Entry(false, base, n)
    requires 0 < n ==> first == base && prev == Exit(false, base, n - 1)
    ensures grid.State() == Grow(old(grid.State()), Position(false, name, np, n, base))
    ensures bus1 == Entry(false, base, n) && bus3 == Exit(false, base, n)
    ensures old(grid.Valid()) ==> grid.Valid()
  {
    var b := grid.nextId;
    ghost var s0 := grid.State();
    ghost var px := if n == 0 then base else Exit(false, base, n - 1);
    var pre: seq<Switch> := [];
    if n == 0 {
    } else if n + 1 == np {
      pre := [Switch("CB_" + NatStr(n) + ".2", Some(b + 2), Some(first), Disconnector),
              Switch("dis_" + NatStr(n - 1) + ".2", Some(prev), Some(b), Disconnector)];
      grid.AddSwitches(pre);
    } else {
      pre := [Switch("dis_" + NatStr(n) + "12", Some(prev), Some(b), Disconnector)];
      grid.AddSwitches(pre);
    }
    assert pre == RingLinks(false, np, n, base, px, b);
    bus1, bus3 := AddOwn(grid, name, n);
    AppendAssoc(s0.switches, pre, RingOwn(n, b));
  }

  /** The second half of a plain position: its three buses, its breaker and its disconnector. */
  method AddOwn(grid: MultiCircuit, name: string, n: nat) returns (bus1: Id, bus3: Id)
    modifies grid
    ensures grid.State() == old(grid.State()).(buses := old(grid.buses) + NewBuses(PositionNames(false, name, n), Connectivity, old(grid.nextId)),
                                              switches := old(grid.switches) + RingOwn(n, old(grid.nextId)),
                                              nextId := old(grid.nextId) + 3)
    ensures bus1 == old(grid.nextId) && bus3 == old(grid.nextId) + 2
    ensures old(grid.Valid()) ==> grid.Valid()
  {
    var names := PositionNames(false, name, n);
    var ids := grid.AddBuses(names, Connectivity);
    if old(grid.Valid()) {
      FreshBelowAppend(old(grid.buses), old(grid.nextId), NewBuses(names, Connectivity, old(grid.nextId)));
    }
    bus1, bus3 := ids[0], ids[2];
    grid.AddSwitches([Switch("CB_" + NatStr(n), Some(ids[1]), Some(ids[2]), CircuitBreaker),
                      Switch("dis_" + NatStr(n) + ".1", Some(ids[0]), Some(ids[1]), Disconnector)]);
  }

  /** One iteration of the ring-with-disconnectors loop. */
  method AddDisPosition(grid: MultiCircuit, name: string, np: nat, n: nat, first: Id, prev: Id, ghost base: Id)
    returns (bus: Id)
    modifies grid
    requires grid.nextId == Entry(true, base, n)
    requires 0 < n ==> first == base && prev == Exit(true, base, n - 1)
    ensures grid.State() == Grow(old(grid.State()), Position(true, name, np, n, base))
    ensures bus == Entry(true, base, n)
    ensures old(grid.Valid()) ==> grid.Valid()
  {
    var b := grid.nextId;
    ghost var s0 := grid.State();
    var pre: seq<Switch> := [];
    if n == 0 {
    } else if n + 1 == np {
      pre := [Switch("CB_" + NatStr(n), Some(b), Some(first), CircuitBreaker),
              Switch("CB_" + NatStr(n - 1), Some(prev), Some(b), CircuitBreaker)];
      grid.AddSwitches(pre);
    } else {
      pre := [Switch("CB_" + NatStr(n), Some(prev), Some(b), CircuitBreaker)];
      grid.AddSwitches(pre);
    }
    bus := grid.AddBus(name + "_position_" + NatStr(n), Connectivity);
    assert [Bus(bus, name + "_position_" + NatStr(n), Connectivity)] == NewBuses(PositionNames(true, name, n), Connectivity, b);
  }

  /** One iteration of either loop: the position's switches and buses; returns its first and last bus. */
  method AddAnyPosition(grid: MultiCircuit, dis: bool, name: string, np: nat, n: nat, first: Id, prev: Id, ghost base: Id)
    returns (bus1: Id, bus3: Id)
    modifies grid
    requires grid.nextId == Entry(dis, base, n)
    requires 0 < n ==> first == base && prev == Exit(dis, base, n - 1)
    ensures grid.State() == Grow(old(grid.State()), Position(dis, name, np, n, base))
    ensures bus1 == Entry(dis, base, n) && bus3 == Exit(dis, base, n)
    ensures old(grid.Valid()) ==> grid.Valid()
  {
    if dis {
      bus1 := AddDisPosition(grid, name, np, n, first, prev, base);
      bus3 := bus1;
    } else {
      bus1, bus3 := AddPosition(grid, name, np, n, first, prev, base);
    }
  }

  /** `create_ring` and `create_ring_with_disconnectors` (`dis`): the positions in order; returns each position's connection bus. */
  method CreateRing(grid: MultiCircuit, name: string, nBays: nat, dis: bool) returns (conn: seq<Id>)
    modifies grid
    ensures grid.State() == Extend(old(grid.State()), name, RingLevel(dis, name, nBays, old(grid.nextId)))
    ensures conn == RingLevel(dis, name, nBays, old(grid.nextId)).conn
    ensures old(grid.Valid()) ==> grid.Valid()
  {
    var np := Positions(nBays);
    grid.AddVoltageLevel(name);
    ghost var s1 := grid.State();
    var base := grid.nextId;
    var first: Id := base;
    var prev: Id := base;
    conn := [];
    var n := 0;
    while n < np
      invariant n <= np
      invariant grid.nextId == Entry(dis, base, n)
      invariant grid.State() == Grow(s1, RingUpTo(dis, name, np, n, base))
      invariant conn == RingUpTo(dis, name, np, n, base).conn
      invariant 0 < n ==> first == base && prev == Exit(dis, base, n - 1)
      invariant old(grid.Valid()) ==> grid.Valid()
    {
      var bus1, bus3 := AddAnyPosition(grid, dis, name, np, n, first, prev, base);
      if n == 0 {
        first := bus1;
      }
      conn := conn + [bus1];
      prev := bus3;
      GrowJoin(s1, RingUpTo(dis, name, np, n, base), Position(dis, name, np, n, base));
      RingStep(dis, name, np, n, base);
      n := n + 1;
    }
    ExtendGrow(old(grid.State()), name, RingUpTo(dis, name, np, np, base));
  }

  // ------------------------------------------------------- what a ring holds

  /** Where position `k`'s switches start: after 2 at the first position and 3 at every other (plain), or 1 at every position but the first. */
  function SwitchStart(dis: bool, k: nat): nat
  {
    if k == 0 then 0 else if dis then k - 1 else 3 * k - 1
  }

  /** How many switches link position `k` of `np` to its neighbours: none at the first, two at the last, one elsewhere. */
  function LinkCount(np: nat, k: nat): nat
  {
    if k == 0 then 0 else if k + 1 == np then 2 else 1
  }

  /** Laying down a prefix of the parts lays down a prefix of the buses and of the switches. */
  lemma {:induction false} JoinAllPrefix(parts: seq<Level>, k: nat)
    requires k <= |parts|
    ensures JoinAll(parts[..k]).buses <= JoinAll(parts).buses
    ensures JoinAll(parts[..k]).switches <= JoinAll(parts).switches
    decreases |parts|
  {
    if k < |parts| {
      var init := parts[..|parts| - 1];
      assert init[..k] == parts[..k];
      JoinAllPrefix(init, k);
    } else {
      assert parts[..k] == parts;
    }
  }

  /** The first `k + 1` parts are the first `k` followed by part `k`. */
  lemma JoinAllSnoc(parts: seq<Level>, k: nat)
    requires k < |parts|
    ensures JoinAll(parts[..k + 1]) == Join(JoinAll(parts[..k]), parts[k])
  {
    var pre := parts[..k + 1];
    assert pre[..k] == parts[..k];
  }

  /** Part `k`'s switches follow those of the parts before it. */
  lemma JoinAllSwitchAt(parts: seq<Level>, k: nat, q: nat)
    requires k < |parts| && q < |parts[k].switches|
    ensures |JoinAll(parts[..k]).switches| + q < |JoinAll(parts).switches|
    ensures JoinAll(parts).switches[|JoinAll(parts[..k]).switches| + q] == parts[k].switches[q]
  {
    JoinAllSnoc(parts, k);
    JoinAllPrefix(parts, k + 1);
    JoinPrefixAt(JoinAll(parts[..k]).switches, parts[k].switches, JoinAll(parts).switches, q);
  }

  /** Part `k`'s buses follow those of the parts before it. */
  lemma JoinAllBusAt(parts: seq<Level>, k: nat, q: nat)
    requires k < |parts| && q < |parts[k].buses|
    ensures |JoinAll(parts[..k]).buses| + q < |JoinAll(parts).buses|
    ensures JoinAll(parts).buses[|JoinAll(parts[..k]).buses| + q] == parts[k].buses[q]
  {
    JoinAllSnoc(parts, k);
    JoinAllPrefix(parts, k + 1);
    JoinPrefixAt(JoinAll(parts[..k]).buses, parts[k].buses, JoinAll(parts).buses, q);
  }

  /** An element of the second half of a prefix `a + b` of `c`. */
  lemma JoinPrefixAt<T>(a: seq<T>, b: seq<T>, c: seq<T>, i: nat)
    requires a + b <= c && i < |b|
    ensures |a| + i < |c| && c[|a| + i] == b[i]
  {
    assert (a + b)[|a| + i] == b[i];
  }

  /** The first `k` of `n` positions are the first `k` positions. */
  lemma PartsPrefix(dis: bool, name: string, np: nat, n: nat, k: nat, base: Id)
    requires k <= n
    ensures Parts(dis, name, np, n, base)[..k] == Parts(dis, name, np, k, base)
  {
  }

  /** One more position joins its part to the ring so far. */
  lemma RingStep(dis: bool, name: string, np: nat, n: nat, base: Id)
    ensures RingUpTo(dis, name, np, n + 1, base) == Join(RingUpTo(dis, name, np, n, base), Position(dis, name, np, n, base))
  {
    var ps := Parts(dis, name, np, n + 1, base);
    PartsPrefix(dis, name, np, n + 1, n, base);
    assert ps[n] == Position(dis, name, np, n, base);
  }

  lemma {:induction false} RingBusCount(dis: bool, name: string, np: nat, n: nat, base: Id)
    ensures |RingUpTo(dis, name, np, n, base).buses| == W(dis) * n
    ensures RingUpTo(dis, name, np, n, base).lines == []
    decreases n
  {
    if n > 0 {
      RingStep(dis, name, np, n - 1, base);
      RingBusCount(dis, name, np, n - 1, base);
    }
  }

  lemma {:induction false} RingSwitchCount(dis: bool, name: string, np: nat, n: nat, base: Id)
    requires 3 <= np && n <= np
    ensures |RingUpTo(dis, name, np, n, base).switches| == if n == np then W(dis) * np else SwitchStart(dis, n)
    decreases n
  {
    if n > 0 {
      RingStep(dis, name, np, n - 1, base);
      RingSwitchCount(dis, name, np, n - 1, base);
    }
  }

  /** The connection buses are the positions' first buses. */
  lemma {:induction false} RingConn(dis: bool, name: string, np: nat, n: nat, base: Id)
    ensures RingUpTo(dis, name, np, n, base).conn == seq(n, k requires 0 <= k < n => Entry(dis, base, k))
    decreases n
  {
    if n > 0 {
      RingStep(dis, name, np, n - 1, base);
      RingConn(dis, name, np, n - 1, base);
    }
  }

  /** Switch `q` of position `k` follows the switches of the positions before it. */
  lemma RingSwitchAt(dis: bool, name: string, np: nat, n: nat, base: Id, k: nat, q: nat)
    requires k < n && q < |Position(dis, name, np, k, base).switches|
    ensures |RingUpTo(dis, name, np, k, base).switches| + q < |RingUpTo(dis, name, np, n, base).switches|
    ensures RingUpTo(dis, name, np, n, base).switches[|RingUpTo(dis, name, np, k, base).switches| + q]
            == Position(dis, name, np, k, base).switches[q]
  {
    var ps := Parts(dis, name, np, n, base);
    PartsPrefix(dis, name, np, n, k, base);
    assert ps[k] == Position(dis, name, np, k, base);
    JoinAllSwitchAt(ps, k, q);
    assert JoinAll(ps[..k]) == RingUpTo(dis, name, np, k, base);
  }

  /** Bus `q` of position `k` has id `Entry(k) + q` and the position's `q`-th name. */
  lemma RingBusAt(dis: bool, name: string, np: nat, n: nat, base: Id, k: nat, q: nat)
    requires k < n && q < W(dis)
    ensures W(dis) * k + q < |RingUpTo(dis, name, np, n, base).buses|
    ensures RingUpTo(dis, name, np, n, base).buses[W(dis) * k + q] == Bus(Entry(dis, base, k) + q, PositionNames(dis, name, k)[q], Connectivity)
  {
    var ps := Parts(dis, name, np, n, base);
    var b := NewBuses(PositionNames(dis, name, k), Connectivity, Entry(dis, base, k));
    PartsPrefix(dis, name, np, n, k, base);
    assert ps[k].buses == b;
    RingBusCount(dis, name, np, k, base);
    JoinAllBusAt(ps, k, q);
    assert JoinAll(ps[..k]) == RingUpTo(dis, name, np, k, base);
    assert b[q] == Bus(Entry(dis, base, k) + q, PositionNames(dis, name, k)[q], Connectivity);
  }

  /** `n_positions` positions: three buses and three switches each (plain), or one of each (with disconnectors); one connection bus per position. */
  lemma RingCounts(dis: bool, name: string, nBays: nat, base: Id)
    ensures |RingLevel(dis, name, nBays, base).buses| == W(dis) * Positions(nBays)
    ensures |RingLevel(dis, name, nBays, base).switches| == W(dis) * Positions(nBays)
    ensures RingLevel(dis, name, nBays, base).conn == seq(Positions(nBays), k requires 0 <= k < Positions(nBays) => Entry(dis, base, k))
    ensures Positions(nBays) >= nBays
    ensures RingLevel(dis, name, nBays, base).lines == []
  {
    RingBusCount(dis, name, Positions(nBays), Positions(nBays), base);
    RingSwitchCount(dis, name, Positions(nBays), Positions(nBays), base);
    RingConn(dis, name, Positions(nBays), Positions(nBays), base);
  }

  /** Position `k` (not the first) is linked from the previous position's exit. */
  lemma LinkAt(dis: bool, name: string, np: nat, base: Id, k: nat)
    requires 3 <= np && 0 < k < np
    ensures SwitchStart(dis, k) + LinkCount(np, k) - 1 < |RingUpTo(dis, name, np, np, base).switches|
    ensures RingUpTo(dis, name, np, np, base).switches[SwitchStart(dis, k) + LinkCount(np, k) - 1].from == Some(Exit(dis, base, k - 1))
    ensures RingUpTo(dis, name, np, np, base).switches[SwitchStart(dis, k) + LinkCount(np, k) - 1].to == Some(Entry(dis, base, k))
  {
    var b := Entry(dis, base, k);
    assert Position(dis, name, np, k, base).switches == PositionSwitches(dis, np, k, base, Exit(dis, base, k - 1), b);
    LinkSwitches(dis, np, k, base, Exit(dis, base, k - 1), b);
    RingSwitchCount(dis, name, np, k, base);
    RingSwitchAt(dis, name, np, np, base, k, LinkCount(np, k) - 1);
  }

  /** A position after the first is linked from `prev` by its last link switch; the last position's first switch goes back to `first`. */
  lemma LinkSwitches(dis: bool, np: nat, n: nat, first: Id, prev: Id, b: Id)
    requires 0 < n < np
    ensures 1 <= LinkCount(np, n) <= |PositionSwitches(dis, np, n, first, prev, b)|
    ensures PositionSwitches(dis, np, n, first, prev, b)[LinkCount(np, n) - 1].from == Some(prev)
    ensures PositionSwitches(dis, np, n, first, prev, b)[LinkCount(np, n) - 1].to == Some(b)
    ensures n + 1 == np ==> PositionSwitches(dis, np, n, first, prev, b)[0].from == Some(b + W(dis) - 1)
    ensures n + 1 == np ==> PositionSwitches(dis, np, n, first, prev, b)[0].to == Some(first)
  {
  }

  /** The last position, `k`, is linked back to the first. */
  lemma CloseAt(dis: bool, name: string, np: nat, base: Id, k: nat)
    requires 3 <= np && k + 1 == np
    ensures SwitchStart(dis, k) < |RingUpTo(dis, name, np, np, base).switches|
    ensures RingUpTo(dis, name, np, np, base).switches[SwitchStart(dis, k)].from == Some(Exit(dis, base, k))
    ensures RingUpTo(dis, name, np, np, base).switches[SwitchStart(dis, k)].to == Some(base)
  {
    var b := Entry(dis, base, k);
    var prev := Exit(dis, base, k - 1);
    assert Position(dis, name, np, k, base).switches == PositionSwitches(dis, np, k, base, prev, b);
    LinkSwitches(dis, np, k, base, prev, b);
    RingSwitchCount(dis, name, np, k, base);
    RingSwitchAt(dis, name, np, np, base, k, 0);
    assert Exit(dis, base, k) == b + W(dis) - 1;
  }

  /** The position after `k` round a ring of `np`. */
  function Next(np: nat, k: nat): nat
  {
    if k + 1 == np then 0 else k + 1
  }

  /** The ring is closed: for every position some switch leads from it to the next one, the last position leading back to the first. */
  lemma RingClosed(dis: bool, name: string, nBays: nat, base: Id, k: nat)
    requires k < Positions(nBays)
    ensures exists i :: 0 <= i < |RingLevel(dis, name, nBays, base).switches|
                        && RingLevel(dis, name, nBays, base).switches[i].from == Some(Exit(dis, base, k))
                        && RingLevel(dis, name, nBays, base).switches[i].to == Some(Entry(dis, base, Next(Positions(nBays), k)))
  {
    var np := Positions(nBays);
    var sw := RingUpTo(dis, name, np, np, base).switches;
    assert RingLevel(dis, name, nBays, base).switches == sw;
    if k + 1 < np {
      assert Next(np, k) == k + 1;
      LinkAt(dis, name, np, base, k + 1);
      var i := SwitchStart(dis, k + 1) + LinkCount(np, k + 1) - 1;
      assert sw[i].from == Some(Exit(dis, base, k)) && sw[i].to == Some(Entry(dis, base, k + 1));
    } else {
      assert Next(np, k) == 0;
      CloseAt(dis, name, np, base, k);
      assert Entry(dis, base, 0) == base;
      var i := SwitchStart(dis, k);
      assert sw[i].from == Some(Exit(dis, base, k)) && sw[i].to == Some(Entry(dis, base, 0));
    }
  }

  /** Inside plain position `k`, after its links: the breaker `CB_k` from bus2 to bus3, then the disconnector `dis_k.1` from bus1 to bus2. */
  lemma RingPositionSwitches(name: string, nBays: nat, base: Id, k: nat)
    requires k < Positions(nBays)
    ensures SwitchStart(false, k) + LinkCount(Positions(nBays), k) + 1 < |RingLevel(false, name, nBays, base).switches|
    ensures RingLevel(false, name, nBays, base).switches[SwitchStart(false, k) + LinkCount(Positions(nBays), k)]
            == Switch("CB_" + NatStr(k), Some(Entry(false, base, k) + 1), Some(Entry(false, base, k) + 2), CircuitBreaker)
    ensures RingLevel(false, name, nBays, base).switches[SwitchStart(false, k) + LinkCount(Positions(nBays), k) + 1]
            == Switch("dis_" + NatStr(k) + ".1", Some(Entry(false, base, k)), Some(Entry(false, base, k) + 1), Disconnector)
  {
    var np := Positions(nBays);
    var prev := if k == 0 then base else Exit(false, base, k - 1);
    var own := PositionSwitches(false, np, k, base, prev, Entry(false, base, k));
    assert Position(false, name, np, k, base).switches == own;
    OwnSwitches(np, k, base, prev, Entry(false, base, k));
    RingSwitchCount(false, name, np, k, base);
    var sw := RingUpTo(false, name, np, np, base).switches;
    RingSwitchAt(false, name, np, np, base, k, LinkCount(np, k));
    assert sw[SwitchStart(false, k) + LinkCount(np, k)] == own[LinkCount(np, k)];
    RingSwitchAt(false, name, np, np, base, k, LinkCount(np, k) + 1);
    assert sw[SwitchStart(false, k) + LinkCount(np, k) + 1] == own[LinkCount(np, k) + 1];
  }

  /** A plain position's own breaker and disconnector follow its links. */
  lemma OwnSwitches(np: nat, n: nat, first: Id, prev: Id, b: Id)
    ensures |PositionSwitches(false, np, n, first, prev, b)| == LinkCount(np, n) + 2
    ensures PositionSwitches(false, np, n, first, prev, b)[LinkCount(np, n)]
            == Switch("CB_" + NatStr(n), Some(b + 1), Some(b + 2), CircuitBreaker)
    ensures PositionSwitches(false, np, n, first, prev, b)[LinkCount(np, n) + 1]
            == Switch("dis_" + NatStr(n) + ".1", Some(b), Some(b + 1), Disconnector)
  {
  }

  /**
   * With disconnectors, the breaker from position `np - 3` to `np - 2` and
   * the one from `np - 2` to the last position are both named
   * `CB_{np - 2}`.
   */
  lemma RingDisNamesRepeat(name: string, nBays: nat, base: Id)
    ensures Positions(nBays) - 1 < |RingLevel(true, name, nBays, base).switches|
    ensures RingLevel(true, name, nBays, base).switches[Positions(nBays) - 3].name
            == RingLevel(true, name, nBays, base).switches[Positions(nBays) - 1].name
            == "CB_" + NatStr(Positions(nBays) - 2)
  {
    var np := Positions(nBays);
    RingSwitchCount(true, name, np, np - 2, base);
    RingSwitchCount(true, name, np, np - 1, base);
    RingSwitchAt(true, name, np, np, base, np - 2, 0);
    RingSwitchAt(true, name, np, np, base, np - 1, 1);
  }
}
