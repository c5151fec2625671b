/**
 * `transform_bus_to_connectivity_grid`: splitting a busbar into one
 * connectivity bus per attached device, tied together by backbone lines, so
 * that the power through each part of the busbar can be studied.
 */
module ConnectivityGrid {
  import opened Common
  import opened Grid
  import opened Rewiring
  import Layouts


  /** The name of the connectivity bus made for the `i`-th device of a kind. */
  function ConnName(name: string, i: nat): string
  {
    name + "_conn_" + NatStr(i)
  }

  function ConnNames(name: string, m: nat): (r: seq<string>)
    ensures |r| == m
  {
    seq(m, i requires 0 <= i < m => ConnName(name, i))
  }

  /** `m` consecutive ids from `base`. */
  function Ids(base: Id, m: nat): (r: seq<Id>)
    ensures |r| == m
  {
    seq(m, i requires 0 <= i < m => base + i)
  }

  /** Backbone line `i`, from `ids[i]` to `ids[i + 1]`. */
  function BackboneLine(name: string, ids: seq<Id>, i: nat): Branch
    requires i + 1 < |ids|
  {
    Branch(name + "_backbone_" + NatStr(i), Some(ids[i]), Some(ids[i + 1]))
  }

  /** Consecutive ids split at any point. */
  lemma IdsAppend(base: Id, m: nat, n: nat)
    ensures Ids(base, m) + Ids(base + m, n) == Ids(base, m + n)
  {
    var a, b := Ids(base, m), Ids(base + m, n);
    forall i | 0 <= i < m + n
      ensures (a + b)[i] == base + i
    {
      if i < m {
        assert (a + b)[i] == a[i];
      } else {
        assert (a + b)[i] == b[i - m];
      }
    }
  }

  /** Backbone line `i` joins `ids[i]` and `ids[i + 1]`. */
  lemma BackboneEnds(name: string, ids: seq<Id>)
    ensures var r := Backbone(name, ids);
            |r| == Layouts.Links(|ids|) &&
            forall i :: 0 <= i < |r| ==> r[i].from == Some(ids[i]) && r[i].to == Some(ids[i + 1])
  {
  }

  /** The backbone lines: one between each pair of neighbouring ids. */
  function Backbone(name: string, ids: seq<Id>): (r: seq<Branch>)
  {
    seq(Layouts.Links(|ids|), i requires 0 <= i < Layouts.Links(|ids|) => BackboneLine(name, ids, i))
  }

  /** The first loop of the split: a connectivity bus per associated branch, and the branch moved onto it. */
  function SplitBranches(s: GridState, bar: Bus): GridState
  {
    var ks := BranchesAt(s.branches, bar.id);
    s.(buses := s.buses + NewBuses(ConnNames(bar.name, |ks|), Connectivity, s.nextId),
       branches := RewireBranches(s.branches, bar.id, ks, Ids(s.nextId, |ks|), |ks|),
       nextId := s.nextId + |ks|)
  }

  /** The second loop: a connectivity bus per associated injection, numbered from 0 again, and the injection moved onto it. */
  function SplitInjections(s: GridState, bar: Bus): GridState
  {
    var js := InjectionsAt(s.injections, bar.id);
    s.(buses := s.buses + NewBuses(ConnNames(bar.name, |js|), Connectivity, s.nextId),
       injections := RewireInjections(s.injections, js, Ids(s.nextId, |js|), |js|),
       nextId := s.nextId + |js|)
  }

  /** The grid after splitting `bar`: both loops, the backbone lines over all new buses, and the busbar deleted. */
  function ToConnectivityGrid(s: GridState, bar: Bus): GridState
  {
    var s2 := SplitInjections(SplitBranches(s, bar), bar);
    s2.(branches := s2.branches + Backbone(bar.name, Ids(s.nextId, DeviceCount(s, bar.id))),
        buses := WithoutBus(s2.buses, bar.id))
  }

  /** One connection-name step: the names for `j + 1` devices extend those for `j`. */
  lemma ConnBusesStep(name: string, j: nat, base: Id)
    ensures NewBuses(ConnNames(name, j + 1), Connectivity, base)
            == NewBuses(ConnNames(name, j), Connectivity, base) + [Bus(base + j, ConnName(name, j), Connectivity)]
  {
  }

  /** The loop over the associated branches. */
  method ConnectBranches(grid: MultiCircuit, bar: Bus, ks: seq<nat>) returns (ids: seq<Id>)
    modifies grid
    requires Below(ks, |grid.branches|)
    ensures ids == Ids(old(grid.nextId), |ks|)
    ensures grid.State() == old(grid.State()).(buses := old(grid.buses) + NewBuses(ConnNames(bar.name, |ks|), Connectivity, old(grid.nextId)),
                                               branches := RewireBranches(old(grid.branches), bar.id, ks, ids, |ks|),
                                               nextId := old(grid.nextId) + |ks|)
    ensures old(grid.Valid()) ==> grid.Valid()
  {
    ghost var all := Ids(grid.nextId, |ks|);
    ids := [];
    var j := 0;
    while j < |ks|
      invariant j <= |ks| && ids == all[..j]
      invariant grid.buses == old(grid.buses) + NewBuses(ConnNames(bar.name, j), Connectivity, old(grid.nextId))
      invariant grid.branches == RewireBranches(old(grid.branches), bar.id, ks, all, j)
      invariant grid.nextId == old(grid.nextId) + j
      invariant grid.substations == old(grid.substations) && grid.voltageLevels == old(grid.voltageLevels)
      invariant grid.switches == old(grid.switches) && grid.injections == old(grid.injections)
    {
      var id := grid.AddBus(ConnName(bar.name, j), Connectivity);
      ConnBusesStep(bar.name, j, old(grid.nextId));
      assert id == all[j] && all[..j + 1] == all[..j] + [id];
      var k := ks[j];
      ghost var before := grid.branches;
      if grid.branches[k].from == Some(bar.id) {
        grid.SetBranchFrom(k, id);
      } else if grid.branches[k].to == Some(bar.id) {
        grid.SetBranchTo(k, id);
      }
      assert grid.branches == before[k := Redirect(before[k], bar.id, id)];
      ids := ids + [id];
      j := j + 1;
    }
    if old(grid.Valid()) {
      NewBusesConsecutive(ConnNames(bar.name, |ks|), Connectivity, old(grid.nextId));
      FreshBelowAppend(old(grid.buses), old(grid.nextId), NewBuses(ConnNames(bar.name, |ks|), Connectivity, old(grid.nextId)));
    }
  }

  /** The loop over the associated injections. */
  method ConnectInjections(grid: MultiCircuit, bar: Bus, js: seq<nat>) returns (ids: seq<Id>)
    modifies grid
    requires Below(js, |grid.injections|)
    ensures ids == Ids(old(grid.nextId), |js|)
    ensures grid.State() == old(grid.State()).(buses := old(grid.buses) + NewBuses(ConnNames(bar.name, |js|), Connectivity, old(grid.nextId)),
                                               injections := RewireInjections(old(grid.injections), js, ids, |js|),
                                               nextId := old(grid.nextId) + |js|)
    ensures old(grid.Valid()) ==> grid.Valid()
  {
    ghost var all := Ids(grid.nextId, |js|);
    ids := [];
    var j := 0;
    while j < |js|
      invariant j <= |js| && ids == all[..j]
      invariant grid.buses == old(grid.buses) + NewBuses(ConnNames(bar.name, j), Connectivity, old(grid.nextId))
      invariant grid.injections == RewireInjections(old(grid.injections), js, all, j)
      invariant grid.nextId == old(grid.nextId) + j
      invariant grid.substations == old(grid.substations) && grid.voltageLevels == old(grid.voltageLevels)
      invariant grid.switches == old(grid.switches) && grid.branches == old(grid.branches)
    {
      var id := grid.AddBus(ConnName(bar.name, j), Connectivity);
      ConnBusesStep(bar.name, j, old(grid.nextId));
      assert id == all[j] && all[..j + 1] == all[..j] + [id];
      assert RewireInjections(old(grid.injections), js, all, j + 1)
             == grid.injections[js[j] := grid.injections[js[j]].(bus := Some(id))];
      grid.SetInjectionBus(js[j], id);
      ids := ids + [id];
      j := j + 1;
    }
    if old(grid.Valid()) {
      NewBusesConsecutive(ConnNames(bar.name, |js|), Connectivity, old(grid.nextId));
      FreshBelowAppend(old(grid.buses), old(grid.nextId), NewBuses(ConnNames(bar.name, |js|), Connectivity, old(grid.nextId)));
    }
  }

  /** The backbone loop: line `i` ties bus `i` to bus `i + 1`. */
  method AddBackbone(grid: MultiCircuit, name: string, ids: seq<Id>) returns (lines: seq<Branch>)
    modifies grid
    ensures lines == Backbone(name, ids)
    ensures grid.State() == old(grid.State()).(branches := old(grid.branches) + lines)
  {
    lines := [];
    var i := 0;
    while i + 1 < |ids|
      invariant i <= Layouts.Links(|ids|)
      invariant lines == seq(i, k requires 0 <= k < i => BackboneLine(name, ids, k))
      invariant grid.State() == old(grid.State()).(branches := old(grid.branches) + lines)
    {
      var ln := Branch(name + "_backbone_" + NatStr(i), Some(ids[i]), Some(ids[i + 1]));
      grid.AddLine(ln);
      lines := lines + [ln];
      i := i + 1;
    }
  }

  /** `transform_bus_to_connectivity_grid`: returns the new buses' ids and the backbone lines. */
  method TransformBusToConnectivityGrid(grid: MultiCircuit, busbar: Bus) returns (newBuses: seq<Id>, newLines: seq<Branch>)
    modifies grid
    ensures grid.State() == ToConnectivityGrid(old(grid.State()), busbar)
    ensures newBuses == Ids(old(grid.nextId), DeviceCount(old(grid.State()), busbar.id))
    ensures newLines == Backbone(busbar.name, newBuses)
    ensures old(grid.Valid()) ==> grid.Valid()
  {
    ghost var s := grid.State();
    var ks := BranchesAt(grid.branches, busbar.id);
    var js := InjectionsAt(grid.injections, busbar.id);
    var a := ConnectBranches(grid, busbar, ks);
    ghost var s1 := grid.State();
    assert s1 == SplitBranches(s, busbar);
    var b := ConnectInjections(grid, busbar, js);
    ghost var s2 := grid.State();
    assert s2 == SplitInjections(SplitBranches(s, busbar), busbar);
    newBuses := a + b;
    IdsAppend(s.nextId, |ks|, |js|);
    assert newBuses == Ids(s.nextId, DeviceCount(s, busbar.id));
    newLines := AddBackbone(grid, busbar.name, newBuses);
    grid.DeleteBus(busbar.id);
  }

  // ------------------------------------------------------------ properties

  /** The split grid's branches: the associated ones moved in order onto the first new buses, then the backbone over all new buses. */
  lemma ConnGridBranchesIs(s: GridState, bar: Bus)
    ensures var ks := BranchesAt(s.branches, bar.id);
            var js := InjectionsAt(s.injections, bar.id);
            ToConnectivityGrid(s, bar).branches
            == RewireBranches(s.branches, bar.id, ks, Ids(s.nextId, |ks|), |ks|) + Backbone(bar.name, Ids(s.nextId, |ks| + |js|))
  {
    var ks := BranchesAt(s.branches, bar.id);
    var s1 := SplitBranches(s, bar);
    assert s1.branches == RewireBranches(s.branches, bar.id, ks, Ids(s.nextId, |ks|), |ks|);
    assert s1.injections == s.injections;
    assert SplitInjections(s1, bar).branches == s1.branches;
    assert DeviceCount(s, bar.id) == |ks| + |InjectionsAt(s.injections, bar.id)|;
  }

  /** The split grid's injections: the associated ones moved in order onto the new buses after the branches'. */
  lemma ConnGridInjectionsIs(s: GridState, bar: Bus)
    ensures var ks := BranchesAt(s.branches, bar.id);
            var js := InjectionsAt(s.injections, bar.id);
            ToConnectivityGrid(s, bar).injections == RewireInjections(s.injections, js, Ids(s.nextId + |ks|, |js|), |js|)
  {
    var s1 := SplitBranches(s, bar);
    assert s1.injections == s.injections;
    assert s1.nextId == s.nextId + |BranchesAt(s.branches, bar.id)|;
  }

  /** The split grid's buses: the new ones for the branches, then for the injections, all without the busbar. */
  lemma ConnGridBusesIs(s: GridState, bar: Bus)
    ensures var ks := BranchesAt(s.branches, bar.id);
            var js := InjectionsAt(s.injections, bar.id);
            var r := ToConnectivityGrid(s, bar);
            r.buses == WithoutBus(s.buses + NewBuses(ConnNames(bar.name, |ks|), Connectivity, s.nextId)
                                  + NewBuses(ConnNames(bar.name, |js|), Connectivity, s.nextId + |ks|), bar.id) &&
            r.nextId == s.nextId + |ks| + |js| &&
            r.switches == s.switches && r.substations == s.substations && r.voltageLevels == s.voltageLevels
  {
    var ks := BranchesAt(s.branches, bar.id);
    var s1 := SplitBranches(s, bar);
    assert s1.injections == s.injections;
    assert s1.nextId == s.nextId + |ks|;
    assert s1.buses == s.buses + NewBuses(ConnNames(bar.name, |ks|), Connectivity, s.nextId);
  }

  /** The branch list of a split: the `id` side of branch `ks[q]` moves to new bus `base + q`. */
  lemma SplitLinesMoved(bs: seq<Branch>, id: Id, base: Id, name: string, n: nat)
    ensures var ks := BranchesAt(bs, id);
            Below(ks, |bs|) &&
            var r := RewireBranches(bs, id, ks, Ids(base, |ks|), |ks|) + Backbone(name, Ids(base, n));
            forall q :: 0 <= q < |ks| ==> r[ks[q]] == Redirect(bs[ks[q]], id, base + q)
  {
    var ks := BranchesAt(bs, id);
    var targets := Ids(base, |ks|);
    var bb := Backbone(name, Ids(base, n));
    RewireBranchesAppend(bs, bb, id, ks, targets, |ks|);
    RewireBranchesAt(bs + bb, id, ks, targets, |ks|);
    var r := RewireBranches(bs + bb, id, ks, targets, |ks|);
    forall q | 0 <= q < |ks|
      ensures r[ks[q]] == Redirect(bs[ks[q]], id, base + q)
    {
      assert (bs + bb)[ks[q]] == bs[ks[q]];
      assert targets[q] == base + q;
    }
  }

  /** The branch list of a split keeps every branch not attached to `id`, and adds `Links(n)` lines. */
  lemma SplitLinesKept(bs: seq<Branch>, id: Id, base: Id, name: string, n: nat)
    ensures var ks := BranchesAt(bs, id);
            Below(ks, |bs|) &&
            var r := RewireBranches(bs, id, ks, Ids(base, |ks|), |ks|) + Backbone(name, Ids(base, n));
            |r| == |bs| + Layouts.Links(n) &&
            forall k :: 0 <= k < |bs| && !Touches(bs[k], id) ==> r[k] == bs[k]
  {
    var ks := BranchesAt(bs, id);
    var targets := Ids(base, |ks|);
    var bb := Backbone(name, Ids(base, n));
    RewireBranchesAppend(bs, bb, id, ks, targets, |ks|);
    MoveBranches(bs, bb, id, targets);
  }

  /** The branch list of a split ends with the backbone: the line at `|bs| + i` joins `base + i` and `base + i + 1`. */
  lemma SplitLinesBackbone(bs: seq<Branch>, id: Id, base: Id, name: string, n: nat)
    ensures var ks := BranchesAt(bs, id);
            Below(ks, |bs|) &&
            var r := RewireBranches(bs, id, ks, Ids(base, |ks|), |ks|) + Backbone(name, Ids(base, n));
            forall k :: |bs| <= k < |r| ==> r[k].from == Some(base + (k - |bs|)) && r[k].to == Some(base + (k - |bs|) + 1)
  {
    var ks := BranchesAt(bs, id);
    var moved := RewireBranches(bs, id, ks, Ids(base, |ks|), |ks|);
    var ids := Ids(base, n);
    var bb := Backbone(name, ids);
    BackboneEnds(name, ids);
    var r: seq<Branch> := moved + bb;
    forall k | |bs| <= k < |r|
      ensures r[k].from == Some(base + (k - |bs|)) && r[k].to == Some(base + (k - |bs|) + 1)
    {
      assert r[k] == bb[k - |bs|];
      assert ids[k - |bs|] == base + (k - |bs|);
      assert ids[k - |bs| + 1] == base + (k - |bs|) + 1;
    }
  }

  /**
   * With the new buses above `id`, a branch of the split still touches `id`
   * exactly when both its ends were on it; no backbone line does.
   */
  lemma SplitLinesTouch(bs: seq<Branch>, id: Id, base: Id, name: string, n: nat)
    requires id < base
    ensures var ks := BranchesAt(bs, id);
            Below(ks, |bs|) &&
            var r := RewireBranches(bs, id, ks, Ids(base, |ks|), |ks|) + Backbone(name, Ids(base, n));
            forall k :: 0 <= k < |r| ==> (Touches(r[k], id) <==> k < |bs| && bs[k].from == Some(id) && bs[k].to == Some(id))
  {
    var ks := BranchesAt(bs, id);
    var targets := Ids(base, |ks|);
    var ids := Ids(base, n);
    var bb := Backbone(name, ids);
    BackboneEnds(name, ids);
    RewireBranchesAppend(bs, bb, id, ks, targets, |ks|);
    MoveBranchesLeaves(bs, bb, id, targets);
    var r := RewireBranches(bs + bb, id, ks, targets, |ks|);
    forall k | |bs| <= k < |r|
      ensures !Touches(r[k], id)
    {
      assert r[k] == bb[k - |bs|];
      assert ids[k - |bs|] == base + (k - |bs|);
    }
  }

  /**
   * The injection list of a split, new buses from `base` above `id`:
   * injection `js[q]` sits on `base + q`, the others are as they were, and
   * none is left on `id`.
   */
  lemma SplitLoads(injs: seq<Injection>, id: Id, base: Id)
    requires id < base
    ensures var js := InjectionsAt(injs, id);
            Below(js, |injs|) &&
            var r := RewireInjections(injs, js, Ids(base, |js|), |js|);
            (forall q :: 0 <= q < |js| ==> r[js[q]] == injs[js[q]].(bus := Some(base + q))) &&
            (forall k :: 0 <= k < |injs| && injs[k].bus != Some(id) ==> r[k] == injs[k]) &&
            (forall k :: 0 <= k < |r| ==> r[k].bus != Some(id))
  {
    var js := InjectionsAt(injs, id);
    var conn := Ids(base, |js|);
    assert conn[0..] == conn;
    MoveInjections(injs, id, conn, 0);
  }

  /** The bus list of a split holds the new buses for the branches, then those for the injections, both named from `_conn_0`. */
  lemma SplitBusesAdded(bs: seq<Bus>, id: Id, base: Id, name: string, m1: nat, m2: nat)
    requires id < base
    ensures var a := NewBuses(ConnNames(name, m1), Connectivity, base);
            var b := NewBuses(ConnNames(name, m2), Connectivity, base + m1);
            var r := WithoutBus(bs + a + b, id);
            (forall q :: 0 <= q < m1 ==> Bus(base + q, ConnName(name, q), Connectivity) in r) &&
            (forall q :: 0 <= q < m2 ==> Bus(base + m1 + q, ConnName(name, q), Connectivity) in r)
  {
    var a := NewBuses(ConnNames(name, m1), Connectivity, base);
    var b := NewBuses(ConnNames(name, m2), Connectivity, base + m1);
    var all := bs + a + b;
    var r := WithoutBus(all, id);
    forall q | 0 <= q < m1
      ensures Bus(base + q, ConnName(name, q), Connectivity) in r
    {
      assert a[q] == Bus(base + q, ConnName(name, q), Connectivity);
      assert all[|bs| + q] == a[q];
    }
    forall q | 0 <= q < m2
      ensures Bus(base + m1 + q, ConnName(name, q), Connectivity) in r
    {
      assert b[q] == Bus(base + m1 + q, ConnName(name, q), Connectivity);
      assert all[|bs| + m1 + q] == b[q];
    }
  }

  /** The bus list of a split: the busbar is gone, every other old bus stays, and the rest are new connectivity buses. */
  lemma SplitBusesKept(bs: seq<Bus>, id: Id, base: Id, name: string, m1: nat, m2: nat)
    ensures var a := NewBuses(ConnNames(name, m1), Connectivity, base);
            var b := NewBuses(ConnNames(name, m2), Connectivity, base + m1);
            var r := WithoutBus(bs + a + b, id);
            (forall c :: c in bs && c.id != id ==> c in r) &&
            (forall c :: c in r ==> c.id != id && (c in bs || (c.kind == Connectivity && base <= c.id < base + m1 + m2)))
  {
    var a := NewBuses(ConnNames(name, m1), Connectivity, base);
    var b := NewBuses(ConnNames(name, m2), Connectivity, base + m1);
    var all := bs + a + b;
    forall c | c in all
      ensures c in bs || (c.kind == Connectivity && base <= c.id < base + m1 + m2)
    {
      var i :| 0 <= i < |all| && all[i] == c;
      if i >= |bs| + m1 {
        assert c == b[i - |bs| - m1];
      } else if i >= |bs| {
        assert c == a[i - |bs|];
      }
    }
  }

  /**
   * The injections' buses are numbered from 0 again, so a split with both
   * branches and injections (`m1` and `m2` new buses) yields two different
   * buses named `{name}_conn_0`.
   */
  lemma ConnNamesRepeat(bs: seq<Bus>, id: Id, base: Id, name: string, m1: nat, m2: nat)
    requires id < base && m1 > 0 && m2 > 0
    ensures var r := WithoutBus(bs + NewBuses(ConnNames(name, m1), Connectivity, base)
                                + NewBuses(ConnNames(name, m2), Connectivity, base + m1), id);
            Bus(base, ConnName(name, 0), Connectivity) in r &&
            Bus(base + m1, ConnName(name, 0), Connectivity) in r
  {
    var a := NewBuses(ConnNames(name, m1), Connectivity, base);
    var b := NewBuses(ConnNames(name, m2), Connectivity, base + m1);
    var all := bs + a + b;
    assert all[|bs|] == a[0] == Bus(base, ConnName(name, 0), Connectivity);
    assert all[|bs| + m1] == b[0] == Bus(base + m1, ConnName(name, 0), Connectivity);
  }
}
