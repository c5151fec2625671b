/**
 * The entry points of `common_functions.py`: turning a bus into a whole
 * voltage level of a chosen type (`transform_bus_into_voltage_level`),
 * splitting a busbar into one connectivity bus per device
 * (`transform_bus_to_connectivity_grid`), and building a substation from
 * voltage-level templates (`create_substation`).
 */
module VoltageLevels {
  import opened Common
  import opened Grid
  import opened Layouts
  import opened Rewiring
  import SB = SingleBar
  import SP = Splitter
  import DB = DoubleBar
  import BH = BreakerAndAHalf
  import RG = Ring

  /** `VoltageLevelTypes`; `Other` stands for any member the dispatch does not name. */
  datatype VoltageLevelType =
    | SingleBar
    | SingleBarWithBypass
    | SingleBarWithSplitter
    | DoubleBar
    | DoubleBarWithBypass
    | DoubleBarWithTransference
    | DoubleBarDuplex
    | Ring
    | BreakerAndAHalf
    | Other

  /** The types with a builder; the others are left as `TODO` or reported as not implemented. */
  predicate Implemented(t: VoltageLevelType)
  {
    !(t.DoubleBarWithBypass? || t.DoubleBarDuplex? || t.Other?)
  }

  // ------------------------------------------------------- choosing a builder

  /** The types whose builder runs one fixed layout: all but the splitter and the ring. */
  predicate ByLayout(t: VoltageLevelType)
  {
    t.SingleBar? || t.SingleBarWithBypass? || t.DoubleBar? || t.DoubleBarWithTransference? || t.BreakerAndAHalf?
  }

  /** The layout of the builder chosen by `t` and `dis`. */
  function LayoutOf(t: VoltageLevelType, dis: bool): Layout
    requires ByLayout(t)
  {
    match t
    case SingleBar => if dis then SB.DisconnectorsLayout else SB.SingleBarLayout
    case SingleBarWithBypass => if dis then SB.BypassDisconnectorsLayout else SB.BypassLayout
    case DoubleBar => if dis then DB.DoubleBarDisLayout else DB.DoubleBarLayout
    case DoubleBarWithTransference => if dis then DB.TransferDisLayout(Bar(2)) else DB.TransferLayout(Bar(2))
    case BreakerAndAHalf => if dis then BH.BreakerAndAHalfDisLayout else BH.AsWrittenDiameter
  }

  /** How many times the builder's loop runs for `n` bays: once per bay, or once per diameter of two bays. */
  function Loops(t: VoltageLevelType, n: nat): nat
  {
    if t.BreakerAndAHalf? then BH.Diameters(n) else n
  }

  /**
   * The level the builder chosen by `t` and `dis` adds for `n` bays, new ids
   * from `base`; `None` when no builder runs. Only the single bar is ever
   * segmented. The builders are the code as written: the breaker-and-a-half
   * diameter reuses `LineBus4_` and `Dis6_`, and the unsegmented splitter with
   * disconnectors couples its bars twice.
   */
  function LevelOf(t: VoltageLevelType, dis: bool, name: string, n: nat, seg: bool, base: Id): Option<Level>
  {
    if ByLayout(t) then Some(Build(LayoutOf(t, dis), name, Loops(t, n), seg && t.SingleBar?, 0, base))
    else if t.SingleBarWithSplitter? then Some(if dis then SP.SplitterDisLevel(name, n, true, base) else SP.SplitterLevel(name, n, false, base))
    else if t.Ring? then Some(RG.RingLevel(dis, name, n, base))
    else None
  }

  /** The grid after a builder that may not have run. */
  function WithLevel(s: GridState, name: string, o: Option<Level>): GridState
  {
    if o.None? then s else Extend(s, name, o.value)
  }

  /** Each bay iteration returns one connection bus, except a breaker-and-a-half diameter, which returns two. */
  lemma LayoutConn(t: VoltageLevelType, dis: bool)
    requires ByLayout(t)
    ensures |LayoutOf(t, dis).bay.conn| == if t.BreakerAndAHalf? then 2 else 1
  {
  }

  /** A build with layout `l` over `m` iterations returns `m * |l.bay.conn|` connection buses, all freshly minted. */
  lemma BuildConn(l: Layout, name: string, m: nat, seg: bool, split: nat, base: Id)
    ensures |Build(l, name, m, seg, split, base).conn| == m * |l.bay.conn|
    ensures forall i :: 0 <= i < |Build(l, name, m, seg, split, base).conn| ==> base <= Build(l, name, m, seg, split, base).conn[i]
  {
    BuildConnCount(l, name, m, seg, split, base);
    BuildConnAbove(l, name, m, seg, split, base);
  }

  /** Every builder returns at least one connection bus per bay, each a bus it created. */
  lemma LevelConnCount(t: VoltageLevelType, dis: bool, name: string, n: nat, seg: bool, base: Id)
    requires Implemented(t)
    ensures LevelOf(t, dis, name, n, seg, base).Some?
    ensures n <= |LevelOf(t, dis, name, n, seg, base).value.conn|
    ensures forall i :: 0 <= i < |LevelOf(t, dis, name, n, seg, base).value.conn| ==>
              base <= LevelOf(t, dis, name, n, seg, base).value.conn[i]
  {
    if ByLayout(t) {
      LayoutConn(t, dis);
      BH.DiametersRange(n, 0);
      BuildConn(LayoutOf(t, dis), name, Loops(t, n), seg && t.SingleBar?, 0, base);
    } else if t.SingleBarWithSplitter? {
      var l := if dis then SP.SplitterDisLayout(SP.BarsCoupling) else SP.SplitterLayout;
      assert |l.bay.conn| == 1;
      BuildConn(l, name, n, false, SP.Bar1Bays(n), base);
    } else {
      RG.RingCounts(dis, name, n, base);
    }
  }

  /** The builders that run one fixed layout, chosen by `vl_type` and then by `add_disconnectors`. */
  method CreateByLayout(grid: MultiCircuit, t: VoltageLevelType, dis: bool, name: string, n: nat, seg: bool)
    returns (conn: seq<Id>)
    modifies grid
    requires ByLayout(t)
    ensures grid.State() == Extend(old(grid.State()), name, Build(LayoutOf(t, dis), name, Loops(t, n), seg && t.SingleBar?, 0, old(grid.nextId)))
    ensures conn == Build(LayoutOf(t, dis), name, Loops(t, n), seg && t.SingleBar?, 0, old(grid.nextId)).conn
    ensures old(grid.Valid()) ==> grid.Valid()
  {
    if dis {
      conn := CreateWithDisconnectors(grid, t, name, n, seg);
    } else {
      conn := CreateWithBreakers(grid, t, name, n, seg);
    }
  }

  /** The `add_disconnectors` branch of each fixed-layout type. */
  method CreateWithDisconnectors(grid: MultiCircuit, t: VoltageLevelType, name: string, n: nat, seg: bool)
    returns (conn: seq<Id>)
    modifies grid
    requires ByLayout(t)
    ensures grid.State() == Extend(old(grid.State()), name, Build(LayoutOf(t, true), name, Loops(t, n), seg && t.SingleBar?, 0, old(grid.nextId)))
    ensures conn == Build(LayoutOf(t, true), name, Loops(t, n), seg && t.SingleBar?, 0, old(grid.nextId)).conn
    ensures old(grid.Valid()) ==> grid.Valid()
  {
    match t
    case SingleBar =>
      conn := SB.CreateSingleBarWithDisconnectors(grid, name, n, seg);
    case SingleBarWithBypass =>
      conn := SB.CreateSingleBarWithBypassWithDisconnectors(grid, name, n, false);
    case DoubleBar =>
      conn := DB.CreateDoubleBarWithDisconnectors(grid, name, n, false);
    case DoubleBarWithTransference =>
      conn := DB.CreateDoubleBarWithTransferenceBarWithDisconnectors(grid, name, n, false);
    case BreakerAndAHalf =>
      conn := BH.CreateBreakerAndAHalfWithDisconnectors(grid, name, n, false);
  }

  /** The other branch: each fixed-layout type with breakers. */
  method CreateWithBreakers(grid: MultiCircuit, t: VoltageLevelType, name: string, n: nat, seg: bool)
    returns (conn: seq<Id>)
    modifies grid
    requires ByLayout(t)
    ensures grid.State() == Extend(old(grid.State()), name, Build(LayoutOf(t, false), name, Loops(t, n), seg && t.SingleBar?, 0, old(grid.nextId)))
    ensures conn == Build(LayoutOf(t, false), name, Loops(t, n), seg && t.SingleBar?, 0, old(grid.nextId)).conn
    ensures old(grid.Valid()) ==> grid.Valid()
  {
    match t
    case SingleBar =>
      conn := SB.CreateSingleBar(grid, name, n, seg);
    case SingleBarWithBypass =>
      conn := SB.CreateSingleBarWithBypass(grid, name, n, false);
    case DoubleBar =>
      conn := DB.CreateDoubleBar(grid, name, n, false);
    case DoubleBarWithTransference =>
      conn := DB.CreateDoubleBarWithTransferenceBar(grid, name, n, false);
    case BreakerAndAHalf =>
      conn := BH.CreateBreakerAndAHalf(grid, name, n, false);
  }

  /**
   * The dispatch on `vl_type` and `add_disconnectors`: runs the chosen
   * builder and returns its connection buses, or nothing when the type has
   * no builder.
   */
  method CreateLevel(grid: MultiCircuit, t: VoltageLevelType, dis: bool, name: string, n: nat, seg: bool)
    returns (conn: Option<seq<Id>>)
    modifies grid
    ensures grid.State() == WithLevel(old(grid.State()), name, LevelOf(t, dis, name, n, seg, old(grid.nextId)))
    ensures conn.Some? <==> Implemented(t)
    ensures conn.Some? ==> conn.value == LevelOf(t, dis, name, n, seg, old(grid.nextId)).value.conn
    ensures old(grid.Valid()) ==> grid.Valid()
  {
    if ByLayout(t) {
      var c := CreateByLayout(grid, t, dis, name, n, seg);
      conn := Some(c);
    } else {
      conn := CreateOther(grid, t, dis, name, n);
    }
  }

  /** The builders that do not go through a bay layout: the splitter and the ring, or none. */
  method CreateOther(grid: MultiCircuit, t: VoltageLevelType, dis: bool, name: string, n: nat)
    returns (conn: Option<seq<Id>>)
    requires !ByLayout(t)
    modifies grid
    ensures grid.State() == WithLevel(old(grid.State()), name, LevelOf(t, dis, name, n, false, old(grid.nextId)))
    ensures conn.Some? <==> Implemented(t)
    ensures conn.Some? ==> conn.value == LevelOf(t, dis, name, n, false, old(grid.nextId)).value.conn
    ensures old(grid.Valid()) ==> grid.Valid()
  {
    var c: seq<Id>;
    if t.SingleBarWithSplitter? {
      if dis {
        c := SP.CreateSingleBarWithSplitterWithDisconnectors(grid, name, n, false);
      } else {
        c := SP.CreateSingleBarWithSplitter(grid, name, n, false);
      }
    } else if t.Ring? {
      c := RG.CreateRing(grid, name, n, dis);
    } else {
      return None;
    }
    conn := Some(c);
  }

  // ------------------------------------------ transform_bus_into_voltage_level

  /**
   * The grid after level `lv` has replaced `bus`: the level is added under
   * the bus's name, the `q`-th associated branch moves to connection bus `q`,
   * the injections take the connection buses after the branches', and the
   * bus is deleted.
   */
  function Place(s: GridState, bus: Bus, lv: Level): GridState
    requires DeviceCount(s, bus.id) <= |lv.conn|
  {
    var ks := BranchesAt(s.branches, bus.id);
    var js := InjectionsAt(s.injections, bus.id);
    var e := Extend(s, bus.name, lv);
    e.(branches := RewireBranches(e.branches, bus.id, ks, lv.conn, |ks|),
       injections := RewireInjections(e.injections, js, lv.conn[|ks|..], |js|),
       buses := WithoutBus(e.buses, bus.id))
  }

  /** The grid after turning `bus` into a voltage level of type `t`; nothing changes for a type without a builder. */
  function Transformed(s: GridState, bus: Bus, t: VoltageLevelType, dis: bool, seg: bool): GridState
  {
    if !Implemented(t) then s
    else
      LevelConnCount(t, dis, bus.name, DeviceCount(s, bus.id), seg, s.nextId);
      Place(s, bus, LevelOf(t, dis, bus.name, DeviceCount(s, bus.id), seg, s.nextId).value)
  }

  /** The grid after `bus` has been replaced by level `o`, if there is one. */
  function Settle(s: GridState, bus: Bus, o: Option<Level>): GridState
    requires o.Some? ==> DeviceCount(s, bus.id) <= |o.value.conn|
  {
    if o.None? then s else Place(s, bus, o.value)
  }

  /** The redirection loops and the deletion, once the level (if any) is built. */
  method Rewire(bus: Bus, grid: MultiCircuit, ghost s: GridState, ghost o: Option<Level>,
                ks: seq<nat>, js: seq<nat>, conn: Option<seq<Id>>)
    modifies grid
    requires ks == BranchesAt(s.branches, bus.id) && js == InjectionsAt(s.injections, bus.id)
    requires conn.Some? <==> o.Some?
    requires o.Some? ==> conn.value == o.value.conn && |ks| + |js| <= |o.value.conn|
    requires grid.State() == WithLevel(s, bus.name, o)
    ensures grid.State() == Settle(s, bus, o)
    ensures old(grid.Valid()) ==> grid.Valid()
  {
    if conn.None? {
      return;
    }
    var c := conn.value;
    RedirectBranches(grid, bus.id, ks, c);
    RedirectInjections(grid, js, c[|ks|..]);
    grid.DeleteBus(bus.id);
  }

  /** `transform_bus_into_voltage_level`. */
  method TransformBusIntoVoltageLevel(bus: Bus, grid: MultiCircuit, t: VoltageLevelType, dis: bool, seg: bool)
    modifies grid
    ensures grid.State() == Transformed(old(grid.State()), bus, t, dis, seg)
    ensures old(grid.Valid()) ==> grid.Valid()
  {
    var ks := BranchesAt(grid.branches, bus.id);
    var js := InjectionsAt(grid.injections, bus.id);
    var n := |ks| + |js|;
    ghost var s := grid.State();
    assert n == DeviceCount(s, bus.id);
    ghost var o := LevelOf(t, dis, bus.name, n, seg, s.nextId);
    TransformedIsSettle(s, bus, t, dis, seg);
    var conn := CreateLevel(grid, t, dis, bus.name, n, seg);
    Rewire(bus, grid, s, o, ks, js, conn);
  }

  /**
   * Placing a level on a bus of the grid whose connection buses are all new:
   * associated branch `q` now runs from or to connection bus `q`, every
   * other branch is as it was, the level's lines follow, and a branch still
   * touches the deleted bus only if both its ends were there.
   */
  lemma PlaceBranches(s: GridState, bus: Bus, lv: Level)
    requires DeviceCount(s, bus.id) <= |lv.conn| && bus.id < s.nextId
    requires forall i :: 0 <= i < |lv.conn| ==> s.nextId <= lv.conn[i]
    ensures var ks := BranchesAt(s.branches, bus.id);
            var r := Place(s, bus, lv).branches;
            |r| == |s.branches| + |lv.lines| && r[|s.branches|..] == lv.lines &&
            (forall q :: 0 <= q < |ks| ==> r[ks[q]] == Redirect(s.branches[ks[q]], bus.id, lv.conn[q])) &&
            (forall k :: 0 <= k < |s.branches| && !Touches(s.branches[k], bus.id) ==> r[k] == s.branches[k]) &&
            (forall k :: 0 <= k < |s.branches| ==>
               (Touches(r[k], bus.id) <==> s.branches[k].from == Some(bus.id) && s.branches[k].to == Some(bus.id)))
  {
    var ks := BranchesAt(s.branches, bus.id);
    forall q | 0 <= q < |ks|
      ensures lv.conn[q] != bus.id
    {
    }
    MoveBranches(s.branches, lv.lines, bus.id, lv.conn);
    MoveBranchesLeaves(s.branches, lv.lines, bus.id, lv.conn);
    assert Place(s, bus, lv).branches == RewireBranches(s.branches + lv.lines, bus.id, ks, lv.conn, |ks|);
  }

  /**
   * Placing a level on a bus of the grid whose connection buses are all new:
   * the associated injections are moved onto the connection buses after the
   * branches' (`MoveInjections` says where each one lands), the others are
   * as they were, and none is left on the deleted bus.
   */
  lemma PlaceInjections(s: GridState, bus: Bus, lv: Level)
    requires DeviceCount(s, bus.id) <= |lv.conn| && bus.id < s.nextId
    requires forall i :: 0 <= i < |lv.conn| ==> s.nextId <= lv.conn[i]
    ensures var ks := BranchesAt(s.branches, bus.id);
            var js := InjectionsAt(s.injections, bus.id);
            var r := Place(s, bus, lv).injections;
            |r| == |s.injections| &&
            r == RewireInjections(s.injections, js, lv.conn[|ks|..], |js|) &&
            (forall k :: 0 <= k < |s.injections| && s.injections[k].bus != Some(bus.id) ==> r[k] == s.injections[k]) &&
            (forall k :: 0 <= k < |r| ==> r[k].bus != Some(bus.id))
  {
    var ks := BranchesAt(s.branches, bus.id);
    MoveInjections(s.injections, bus.id, lv.conn, |ks|);
  }

  /** Placing a level: the bus is gone, the level's buses, switches and name are in, and nothing else is added or removed. */
  lemma PlaceBuses(s: GridState, bus: Bus, lv: Level)
    requires DeviceCount(s, bus.id) <= |lv.conn|
    ensures var r := Place(s, bus, lv);
            (forall b :: b in r.buses <==> (b in s.buses || b in lv.buses) && b.id != bus.id) &&
            r.switches == s.switches + lv.switches && r.nextId == s.nextId + |lv.buses| &&
            r.voltageLevels == s.voltageLevels + [bus.name] && r.substations == s.substations
  {
  }

  /**
   * `transform_bus_into_voltage_level` on a bus of the grid: a type without
   * a builder changes nothing; any other places a level with enough fresh
   * connection buses for every associated device, so the placement facts
   * above apply.
   */
  lemma TransformedIsPlace(s: GridState, bus: Bus, t: VoltageLevelType, dis: bool, seg: bool)
    ensures !Implemented(t) ==> Transformed(s, bus, t, dis, seg) == s
    ensures Implemented(t) ==>
              var lv := LevelOf(t, dis, bus.name, DeviceCount(s, bus.id), seg, s.nextId).value;
              DeviceCount(s, bus.id) <= |lv.conn| && (forall i :: 0 <= i < |lv.conn| ==> s.nextId <= lv.conn[i]) &&
              Transformed(s, bus, t, dis, seg) == Place(s, bus, lv)
  {
    if Implemented(t) {
      LevelConnCount(t, dis, bus.name, DeviceCount(s, bus.id), seg, s.nextId);
    }
  }

  /** Turning a bus into a level is settling the level the dispatch builds, which fits the bus's devices. */
  lemma TransformedIsSettle(s: GridState, bus: Bus, t: VoltageLevelType, dis: bool, seg: bool)
    ensures var o := LevelOf(t, dis, bus.name, DeviceCount(s, bus.id), seg, s.nextId);
            (o.Some? <==> Implemented(t)) &&
            (o.Some? ==> DeviceCount(s, bus.id) <= |o.value.conn|) &&
            Transformed(s, bus, t, dis, seg) == Settle(s, bus, o)
  {
    if Implemented(t) {
      LevelConnCount(t, dis, bus.name, DeviceCount(s, bus.id), seg, s.nextId);
    }
  }
}
