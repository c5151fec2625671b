/**
 * Moving devices off a bus: finding the branches and injections attached to
 * the bus (what `MultiCircuit.get_bus_devices` returns), and pointing each
 * of them at a new bus, in list order.
 */
module Rewiring {
  import opened Common
  import opened Grid

  predicate Touches(b: Branch, id: Id)
  {
    b.from == Some(id) || b.to == Some(id)
  }

  predicate Increasing(ks: seq<nat>)
  {
    forall p, q :: 0 <= p < q < |ks| ==> ks[p] < ks[q]
  }

  /** Every index in `ks` is below `n`. */
  predicate Below(ks: seq<nat>, n: nat)
  {
    forall q :: 0 <= q < |ks| ==> ks[q] < n
  }

  /** The indices of the branches attached to bus `id`, in list order; `BranchesAtHas` shows none is missed. */
  function BranchesAt(bs: seq<Branch>, id: Id): (ks: seq<nat>)
    ensures Increasing(ks) && Below(ks, |bs|)
    ensures forall q :: 0 <= q < |ks| ==> Touches(bs[ks[q]], id)
    decreases |bs|
  {
    if bs == [] then []
    else
      var init := bs[..|bs| - 1];
      var ks := BranchesAt(init, id);
      assert forall q :: 0 <= q < |ks| ==> bs[ks[q]] == init[ks[q]];
      if Touches(bs[|bs| - 1], id) then ks + [|bs| - 1] else ks
  }

  /** The indices of the injections at bus `id`, in list order; `InjectionsAtHas` shows none is missed. */
  function InjectionsAt(injs: seq<Injection>, id: Id): (ks: seq<nat>)
    ensures Increasing(ks) && Below(ks, |injs|)
    ensures forall q :: 0 <= q < |ks| ==> injs[ks[q]].bus == Some(id)
    decreases |injs|
  {
    if injs == [] then []
    else
      var init := injs[..|injs| - 1];
      var ks := InjectionsAt(init, id);
      assert forall q :: 0 <= q < |ks| ==> injs[ks[q]] == init[ks[q]];
      if injs[|injs| - 1].bus == Some(id) then ks + [|injs| - 1] else ks
  }

  /** No branch touching `id` is missed: branch `k` is listed. */
  lemma {:induction false} BranchesAtHas(bs: seq<Branch>, id: Id, k: nat)
    requires k < |bs| && Touches(bs[k], id)
    ensures k in BranchesAt(bs, id)
    decreases |bs|
  {
    var init := bs[..|bs| - 1];
    if k < |bs| - 1 {
      assert init[k] == bs[k];
      BranchesAtHas(init, id, k);
    }
  }

  /** No injection at `id` is missed: injection `k` is listed. */
  lemma {:induction false} InjectionsAtHas(injs: seq<Injection>, id: Id, k: nat)
    requires k < |injs| && injs[k].bus == Some(id)
    ensures k in InjectionsAt(injs, id)
    decreases |injs|
  {
    var init := injs[..|injs| - 1];
    if k < |injs| - 1 {
      assert init[k] == injs[k];
      InjectionsAtHas(init, id, k);
    }
  }

  /** How many devices are attached to bus `id`: the branches touching it and the injections on it. */
  function DeviceCount(s: GridState, id: Id): nat
  {
    |BranchesAt(s.branches, id)| + |InjectionsAt(s.injections, id)|
  }

  /** The branch moved from bus `id` to bus `to`: its from side if that was `id`, otherwise its to side. */
  function Redirect(b: Branch, id: Id, to: Id): Branch
  {
    if b.from == Some(id) then b.(from := Some(to))
    else if b.to == Some(id) then b.(to := Some(to))
    else b
  }

  /** Only one side moves: a branch still touches `id` afterwards exactly when both its ends were at `id`. */
  lemma RedirectLeaves(b: Branch, id: Id, to: Id)
    requires to != id
    ensures Touches(Redirect(b, id, to), id) <==> b.from == Some(id) && b.to == Some(id)
    ensures Redirect(b, id, to).name == b.name
  {
  }

  /** The branches once the first `j` of `ks` are redirected, the `q`-th to `targets[q]`. */
  function RewireBranches(bs: seq<Branch>, id: Id, ks: seq<nat>, targets: seq<Id>, j: nat): (r: seq<Branch>)
    requires j <= |ks| && j <= |targets| && Below(ks, |bs|)
    ensures |r| == |bs|
  {
    if j == 0 then bs
    else
      var prev := RewireBranches(bs, id, ks, targets, j - 1);
      prev[ks[j - 1] := Redirect(prev[ks[j - 1]], id, targets[j - 1])]
  }

  /** The injections once the first `j` of `ks` are moved, the `q`-th to `targets[q]`. */
  function RewireInjections(injs: seq<Injection>, ks: seq<nat>, targets: seq<Id>, j: nat): (r: seq<Injection>)
    requires j <= |ks| && j <= |targets| && Below(ks, |injs|)
    ensures |r| == |injs|
  {
    if j == 0 then injs
    else
      var prev := RewireInjections(injs, ks, targets, j - 1);
      prev[ks[j - 1] := prev[ks[j - 1]].(bus := Some(targets[j - 1]))]
  }

  /** With distinct indices, the `q`-th listed branch is redirected to `targets[q]` and every other branch is left alone. */
  lemma {:induction false} RewireBranchesAt(bs: seq<Branch>, id: Id, ks: seq<nat>, targets: seq<Id>, j: nat)
    requires j <= |ks| && j <= |targets| && Below(ks, |bs|) && Increasing(ks)
    ensures forall q :: 0 <= q < j ==> RewireBranches(bs, id, ks, targets, j)[ks[q]] == Redirect(bs[ks[q]], id, targets[q])
    ensures forall k :: 0 <= k < |bs| && k !in ks[..j] ==> RewireBranches(bs, id, ks, targets, j)[k] == bs[k]
  {
    if j > 0 {
      RewireBranchesAt(bs, id, ks, targets, j - 1);
      assert ks[..j] == ks[..j - 1] + [ks[j - 1]];
      assert ks[j - 1] !in ks[..j - 1];
    }
  }

  /** Rewiring leaves branches appended after the listed ones alone. */
  lemma {:induction false} RewireBranchesAppend(bs: seq<Branch>, extra: seq<Branch>, id: Id, ks: seq<nat>, targets: seq<Id>, j: nat)
    requires j <= |ks| && j <= |targets| && Below(ks, |bs|)
    ensures Below(ks, |bs + extra|)
    ensures RewireBranches(bs + extra, id, ks, targets, j) == RewireBranches(bs, id, ks, targets, j) + extra
  {
    if j > 0 {
      RewireBranchesAppend(bs, extra, id, ks, targets, j - 1);
      var prev := RewireBranches(bs, id, ks, targets, j - 1);
      var k := ks[j - 1];
      assert (prev + extra)[k] == prev[k];
      assert (prev + extra)[k := Redirect(prev[k], id, targets[j - 1])] == prev[k := Redirect(prev[k], id, targets[j - 1])] + extra;
    }
  }

  /** With distinct indices, the `q`-th listed injection moves to `targets[q]` and every other injection is left alone. */
  lemma {:induction false} RewireInjectionsAt(injs: seq<Injection>, ks: seq<nat>, targets: seq<Id>, j: nat)
    requires j <= |ks| && j <= |targets| && Below(ks, |injs|) && Increasing(ks)
    ensures forall q :: 0 <= q < j ==> RewireInjections(injs, ks, targets, j)[ks[q]] == injs[ks[q]].(bus := Some(targets[q]))
    ensures forall k :: 0 <= k < |injs| && k !in ks[..j] ==> RewireInjections(injs, ks, targets, j)[k] == injs[k]
  {
    if j > 0 {
      RewireInjectionsAt(injs, ks, targets, j - 1);
      assert ks[..j] == ks[..j - 1] + [ks[j - 1]];
      assert ks[j - 1] !in ks[..j - 1];
    }
  }

  /**
   * Moving every branch attached to `id` in `bs`, with `extra` appended after
   * them, the `q`-th onto `targets[q]`: branch `q` is redirected, and every
   * other branch and the appended ones are left alone.
   */
  lemma MoveBranches(bs: seq<Branch>, extra: seq<Branch>, id: Id, targets: seq<Id>)
    requires |BranchesAt(bs, id)| <= |targets|
    ensures var ks := BranchesAt(bs, id);
            Below(ks, |bs + extra|) &&
            var r := RewireBranches(bs + extra, id, ks, targets, |ks|);
            |r| == |bs| + |extra| && r[|bs|..] == extra &&
            (forall q :: 0 <= q < |ks| ==> r[ks[q]] == Redirect(bs[ks[q]], id, targets[q])) &&
            (forall k :: 0 <= k < |bs| && !Touches(bs[k], id) ==> r[k] == bs[k])
  {
    var ks := BranchesAt(bs, id);
    var all := bs + extra;
    assert Below(ks, |all|);
    var r := RewireBranches(all, id, ks, targets, |ks|);
    RewireBranchesAt(all, id, ks, targets, |ks|);
    assert ks[..|ks|] == ks;
    forall q | 0 <= q < |ks|
      ensures r[ks[q]] == Redirect(bs[ks[q]], id, targets[q])
    {
      assert all[ks[q]] == bs[ks[q]];
    }
    forall k | |bs| <= k < |all|
      ensures r[k] == extra[k - |bs|]
    {
      assert k !in ks;
    }
    assert r[|bs|..] == extra;
    forall k | 0 <= k < |bs| && !Touches(bs[k], id)
      ensures r[k] == bs[k]
    {
      assert all[k] == bs[k];
    }
  }

  /**
   * When none of the targets is `id`, a moved branch still touches `id`
   * exactly when both its ends were there: only one side moves.
   */
  lemma MoveBranchesLeaves(bs: seq<Branch>, extra: seq<Branch>, id: Id, targets: seq<Id>)
    requires |BranchesAt(bs, id)| <= |targets|
    requires forall q :: 0 <= q < |BranchesAt(bs, id)| ==> targets[q] != id
    ensures var ks := BranchesAt(bs, id);
            Below(ks, |bs + extra|) &&
            var r := RewireBranches(bs + extra, id, ks, targets, |ks|);
            forall k :: 0 <= k < |bs| ==> (Touches(r[k], id) <==> bs[k].from == Some(id) && bs[k].to == Some(id))
  {
    var ks := BranchesAt(bs, id);
    MoveBranches(bs, extra, id, targets);
    var r := RewireBranches(bs + extra, id, ks, targets, |ks|);
    forall k | 0 <= k < |bs|
      ensures Touches(r[k], id) <==> bs[k].from == Some(id) && bs[k].to == Some(id)
    {
      if Touches(bs[k], id) {
        BranchesAtHas(bs, id, k);
        var q :| 0 <= q < |ks| && ks[q] == k;
        RedirectLeaves(bs[k], id, targets[q]);
      }
    }
  }

  /**
   * Moving every injection at `id`, the `q`-th onto `conn[o + q]`, none of
   * which is `id`: injection `q` sits on its target, the others are left
   * alone, and none is left at `id`.
   */
  lemma MoveInjections(injs: seq<Injection>, id: Id, conn: seq<Id>, o: nat)
    requires o + |InjectionsAt(injs, id)| <= |conn|
    requires forall i :: o <= i < o + |InjectionsAt(injs, id)| ==> conn[i] != id
    ensures var js := InjectionsAt(injs, id);
            var r := RewireInjections(injs, js, conn[o..], |js|);
            (forall q :: 0 <= q < |js| ==> r[js[q]] == injs[js[q]].(bus := Some(conn[o + q]))) &&
            (forall k :: 0 <= k < |injs| && injs[k].bus != Some(id) ==> r[k] == injs[k]) &&
            (forall k :: 0 <= k < |r| ==> r[k].bus != Some(id))
  {
    var js := InjectionsAt(injs, id);
    var targets := conn[o..];
    RewireInjectionsAt(injs, js, targets, |js|);
    assert js[..|js|] == js;
    var r := RewireInjections(injs, js, targets, |js|);
    forall q | 0 <= q < |js|
      ensures r[js[q]] == injs[js[q]].(bus := Some(conn[o + q]))
    {
      assert r[js[q]] == injs[js[q]].(bus := Some(targets[q]));
      assert targets[q] == conn[o + q];
    }
    forall k | 0 <= k < |injs|
      ensures injs[k].bus != Some(id) ==> r[k] == injs[k]
      ensures r[k].bus != Some(id)
    {
      if injs[k].bus == Some(id) {
        InjectionsAtHas(injs, id, k);
      }
      if k in js {
        var q :| 0 <= q < |js| && js[q] == k;
        assert r[js[q]] == injs[js[q]].(bus := Some(conn[o + q]));
      }
    }
  }

  /** The loop over the associated branches: the `j`-th listed branch goes to `targets[j]`. */
  method RedirectBranches(grid: MultiCircuit, id: Id, ks: seq<nat>, targets: seq<Id>)
    modifies grid
    requires |ks| <= |targets| && Below(ks, |grid.branches|)
    ensures grid.State() == old(grid.State()).(branches := RewireBranches(old(grid.branches), id, ks, targets, |ks|))
    ensures grid.buses == old(grid.buses) && grid.nextId == old(grid.nextId)
  {
    var j := 0;
    while j < |ks|
      invariant j <= |ks|
      invariant grid.State() == old(grid.State()).(branches := RewireBranches(old(grid.branches), id, ks, targets, j))
    {
      var k := ks[j];
      if grid.branches[k].from == Some(id) {
        grid.SetBranchFrom(k, targets[j]);
      } else if grid.branches[k].to == Some(id) {
        grid.SetBranchTo(k, targets[j]);
      }
      j := j + 1;
    }
  }

  /** The loop over the associated injections: the `j`-th listed injection goes to `targets[j]`. */
  method RedirectInjections(grid: MultiCircuit, ks: seq<nat>, targets: seq<Id>)
    modifies grid
    requires |ks| <= |targets| && Below(ks, |grid.injections|)
    ensures grid.State() == old(grid.State()).(injections := RewireInjections(old(grid.injections), ks, targets, |ks|))
    ensures grid.buses == old(grid.buses) && grid.nextId == old(grid.nextId)
  {
    var j := 0;
    while j < |ks|
      invariant j <= |ks|
      invariant grid.State() == old(grid.State()).(injections := RewireInjections(old(grid.injections), ks, targets, j))
    {
      grid.SetInjectionBus(ks[j], targets[j]);
      j := j + 1;
    }
  }
}
