/**
 * Index bookkeeping of the differential-algebraic block solver: the slots
 * given to state, algebraic, parameter, differential and lag variables, the
 * dense vectors built from {variable: value} maps, the first guess of an
 * implicit step and the in-place refresh of the lag-0 slots.
 *
 * Variables are identified by their uid (a non-negative integer, as
 * `uuid4().int` is). The symbolic equations, and therefore the set of lag
 * variables that the substitutions create, are inputs of the model.
 */
module DaeIndex {
  import opened Common

  /** A differential variable: its uid, the uid of the variable it differentiates, its order. */
  datatype DiffVar = DiffVar(uid: nat, baseUid: nat, order: nat)

  /** A lag variable: its uid, the uid of its base variable, how many steps back it looks. */
  datatype LagVar = LagVar(uid: nat, baseUid: nat, lag: nat)

  // ---------------------------------------------------------------------------
  // Running-counter dictionaries
  // ---------------------------------------------------------------------------

  /**
   * The dictionary filled by `for v in s: d[v.uid] = i; i += 1`, with `i`
   * starting at `start`: every entry consumes one slot, a later entry
   * overwriting an earlier one with the same uid.
   */
  function Slots(s: seq<nat>, start: nat): (d: map<nat, nat>)
    ensures forall u :: u in d <==> u in s
    ensures forall u :: u in d ==> start <= d[u] < start + |s|
  {
    if s == [] then map[] else Slots(s[..|s| - 1], start)[s[|s| - 1] := start + |s| - 1]
  }

  /** Position of the last occurrence of u in s. */
  function LastIndexOf(s: seq<nat>, u: nat): (p: nat)
    requires u in s
    ensures p < |s| && s[p] == u && forall q :: p < q < |s| ==> s[q] != u
  {
    if s[|s| - 1] == u then |s| - 1 else LastIndexOf(s[..|s| - 1], u)
  }

  /** Each uid gets the slot of its last occurrence. */
  lemma {:induction false} SlotsLastIndex(s: seq<nat>, start: nat, u: nat)
    requires u in s
    ensures Slots(s, start)[u] == start + LastIndexOf(s, u)
  {
    if s[|s| - 1] != u {
      SlotsLastIndex(s[..|s| - 1], start, u);
    }
  }

  /** Distinct uids get distinct slots. */
  lemma SlotsInjective(s: seq<nat>, start: nat, u: nat, v: nat)
    requires u in s && v in s && u != v
    ensures Slots(s, start)[u] != Slots(s, start)[v]
  {
    SlotsLastIndex(s, start, u);
    SlotsLastIndex(s, start, v);
  }

  /** Continuing the counter over a second list is the same as one pass over both. */
  lemma {:induction false} SlotsAppend(s: seq<nat>, t: seq<nat>, start: nat)
    ensures Slots(s, start) + Slots(t, start + |s|) == Slots(s + t, start)
    decreases |t|
  {
    if t == [] {
      assert s + t == s;
      assert Slots(t, start + |s|) == map[];
      MergeEmpty(Slots(s, start));
    } else {
      var t' := t[..|t| - 1];
      var k, v := t[|t| - 1], start + |s| + |t| - 1;
      assert (s + t)[..|s + t| - 1] == s + t' && (s + t)[|s + t| - 1] == k;
      calc {
        Slots(s + t, start);
        Slots(s + t', start)[k := v];
        { SlotsAppend(s, t', start); }
        (Slots(s, start) + Slots(t', start + |s|))[k := v];
        { MergeUpdate(Slots(s, start), Slots(t', start + |s|), k, v); }
        Slots(s, start) + Slots(t', start + |s|)[k := v];
        Slots(s, start) + Slots(t, start + |s|);
      }
    }
  }

  lemma MergeEmpty(m: map<nat, nat>)
    ensures m + map[] == m && map[] + m == m
  {
  }

  lemma MergeUpdate(a: map<nat, nat>, b: map<nat, nat>, k: nat, v: nat)
    ensures a + b[k := v] == (a + b)[k := v]
  {
  }

  /** The counting loop itself, adding to the dictionary d0. */
  method AssignSlots(d0: map<nat, nat>, s: seq<nat>, start: nat) returns (d: map<nat, nat>, next: nat)
    ensures d == d0 + Slots(s, start) && next == start + |s|
  {
    d := d0;
    next := start;
    var p := 0;
    while p < |s|
      invariant p <= |s| && next == start + p
      invariant d == d0 + Slots(s[..p], start)
    {
      assert s[..p + 1][..p] == s[..p];
      d := d[s[p] := next];
      next := next + 1;
      p := p + 1;
    }
    assert s[..p] == s;
  }

  /** A dictionary filled by the counting loop from 0. */
  method AssignFrom0(s: seq<nat>) returns (d: map<nat, nat>)
    ensures d == Slots(s, 0)
  {
    var next;
    d, next := AssignSlots(map[], s, 0);
    MergeEmpty(Slots(s, 0));
  }

  /**
   * The three counting loops over `uid2idx_vars`: states, algebraic
   * variables, then the sorted lag variables, whose counter starts after
   * every state and algebraic slot.
   */
  method NumberVariables(stateVars: seq<nat>, algebraicVars: seq<nat>, lagUids: seq<nat>) returns (vars: map<nat, nat>)
    ensures vars == VarSlots(stateVars, algebraicVars, lagUids)
  {
    var i;
    vars, i := AssignSlots(map[], stateVars, 0);
    MergeEmpty(Slots(stateVars, 0));
    assert vars == Slots(stateVars, 0);
    vars, i := AssignSlots(vars, algebraicVars, i);
    SlotsAppend(stateVars, algebraicVars, 0);
    assert vars == Slots(stateVars + algebraicVars, 0);
    vars, i := AssignSlots(vars, lagUids, |stateVars| + |algebraicVars|);
  }

  /** The uids of a list of variables, in order. */
  function Uids<T>(xs: seq<T>, uid: T -> nat): (r: seq<nat>)
    ensures |r| == |xs| && forall p :: 0 <= p < |xs| ==> r[p] == uid(xs[p])
  {
    if xs == [] then [] else Uids(xs[..|xs| - 1], uid) + [uid(xs[|xs| - 1])]
  }

  function DiffUid(d: DiffVar): nat
  {
    d.uid
  }

  function LagUid(l: LagVar): nat
  {
    l.uid
  }

  // ---------------------------------------------------------------------------
  // Lag variables: sorted by (base uid, lag), slotted after the other variables
  // ---------------------------------------------------------------------------

  predicate KeyLess(a: LagVar, b: LagVar)
  {
    a.baseUid < b.baseUid || (a.baseUid == b.baseUid && a.lag < b.lag)
  }

  ghost predicate SortedByKey(s: seq<LagVar>)
  {
    forall i, j :: 0 <= i < j < |s| ==> KeyLess(s[i], s[j])
  }

  /** No two lag variables share a (base uid, lag) key. */
  ghost predicate UniqueKeys(s: seq<LagVar>)
  {
    forall i, j :: 0 <= i < j < |s| ==> (s[i].baseUid, s[i].lag) != (s[j].baseUid, s[j].lag)
  }

  function InsertByKey(s: seq<LagVar>, v: LagVar): (r: seq<LagVar>)
    requires SortedByKey(s) && forall w :: w in s ==> (w.baseUid, w.lag) != (v.baseUid, v.lag)
    ensures SortedByKey(r) && |r| == |s| + 1
    ensures forall w :: w in r <==> w in s || w == v
  {
    if s == [] then [v]
    else if KeyLess(v, s[0]) then
      assert forall j :: 0 <= j < |s| ==> s[j] == s[0] || KeyLess(s[0], s[j]);
      [v] + s
    else
      assert forall w :: w in s[1..] ==> KeyLess(s[0], w);
      var rest := InsertByKey(s[1..], v);
      assert forall j :: 0 <= j < |rest| ==> KeyLess(s[0], rest[j]);
      [s[0]] + rest
  }

  /** `sorted(lag_vars_set, key=lambda x: (x.base_var.uid, x.lag))`. */
  method SortLags(lagSet: seq<LagVar>) returns (r: seq<LagVar>)
    requires UniqueKeys(lagSet)
    ensures SortedByKey(r) && |r| == |lagSet|
    ensures forall w :: w in r <==> w in lagSet
  {
    r := [];
    var i := 0;
    while i < |lagSet|
      invariant i <= |lagSet| && SortedByKey(r) && |r| == i
      invariant forall w :: w in r <==> w in lagSet[..i]
    {
      assert lagSet[..i + 1] == lagSet[..i] + [lagSet[i]];
      assert forall w :: w in r ==> (w.baseUid, w.lag) != (lagSet[i].baseUid, lagSet[i].lag);
      r := InsertByKey(r, lagSet[i]);
      i := i + 1;
    }
    assert lagSet[..i] == lagSet;
  }

  /**
   * The variable slots of the solver: states from 0, algebraic variables
   * next, then the lag variables after all of them.
   */
  function VarSlots(stateVars: seq<nat>, algebraicVars: seq<nat>, lagUids: seq<nat>): map<nat, nat>
  {
    Slots(stateVars + algebraicVars, 0) + Slots(lagUids, |stateVars| + |algebraicVars|)
  }

  /**
   * The slots as the constructor writes them: the lag counter starts at
   * `len(uid2idx_vars)`, the number of DISTINCT state and algebraic uids.
   */
  function VarSlotsAsWritten(stateVars: seq<nat>, algebraicVars: seq<nat>, lagUids: seq<nat>): map<nat, nat>
  {
    var d := Slots(stateVars + algebraicVars, 0);
    d + Slots(lagUids, |d|)
  }

  /** Lag slots never meet a state or algebraic slot. */
  lemma VarSlotsDisjoint(stateVars: seq<nat>, algebraicVars: seq<nat>, lagUids: seq<nat>, u: nat, v: nat)
    requires u in stateVars + algebraicVars && u !in lagUids && v in lagUids
    ensures VarSlots(stateVars, algebraicVars, lagUids)[u] < |stateVars| + |algebraicVars|
    ensures VarSlots(stateVars, algebraicVars, lagUids)[v] >= |stateVars| + |algebraicVars|
  {
  }

  /**
   * With a repeated state uid, the first lag variable is given the slot that
   * the state already holds: states [7, 7] take slots 0 and 1 and leave one
   * dictionary key, so the lag counter starts at 1.
   */
  lemma AsWrittenLagSlotCollides()
    ensures VarSlotsAsWritten([7, 7], [], [9])[9] == VarSlotsAsWritten([7, 7], [], [9])[7] == 1
    ensures VarSlots([7, 7], [], [9])[9] == 2 && VarSlots([7, 7], [], [9])[7] == 1
  {
    assert [7, 7] + [] == [7, 7];
    assert Slots([7, 7], 0) == map[7 := 1];
  }

  // ---------------------------------------------------------------------------
  // Scattering a {variable: value} mapping into a dense vector
  // ---------------------------------------------------------------------------

  /** Entry of the vector built by `sort_vars`: 0 or the variable placed there. */
  datatype Slot = Zero | VarAt(uid: nat)

  /**
   * The loop `for key, val in mapping.items(): x[slots[key]] = val`, over a
   * vector x: a key without a slot raises `missing(key)`, a slot past the end
   * raises IndexError, and the first failing key decides.
   */
  function Scatter<T>(slots: map<nat, nat>, x: seq<T>, entries: seq<(nat, T)>, missing: nat -> PyError): (r: Result<seq<T>>)
    ensures r.Ok? ==> |r.value| == |x|
    decreases |entries|
  {
    if entries == [] then Ok(x)
    else if entries[0].0 !in slots then Err(missing(entries[0].0))
    else if slots[entries[0].0] >= |x| then Err(IndexError)
    else Scatter(slots, x[slots[entries[0].0] := entries[0].1], entries[1..], missing)
  }

  /** The scatter fails exactly when some key lacks a slot or has one past the end. */
  lemma {:induction false} ScatterOk<T>(slots: map<nat, nat>, x: seq<T>, entries: seq<(nat, T)>, missing: nat -> PyError)
    ensures Scatter(slots, x, entries, missing).Ok? <==>
              forall p :: 0 <= p < |entries| ==> entries[p].0 in slots && slots[entries[p].0] < |x|
    decreases |entries|
  {
    if entries != [] && entries[0].0 in slots && slots[entries[0].0] < |x| {
      ScatterOk(slots, x[slots[entries[0].0] := entries[0].1], entries[1..], missing);
      assert forall p :: 1 <= p < |entries| ==> entries[p] == entries[1..][p - 1];
    }
  }

  /**
   * On success, slot j holds the value of the last entry whose key maps to j,
   * and x[j] where no key maps to j.
   */
  lemma {:induction false} ScatterValues<T>(slots: map<nat, nat>, x: seq<T>, entries: seq<(nat, T)>,
                                             missing: nat -> PyError, j: nat)
    requires forall p :: 0 <= p < |entries| ==> entries[p].0 in slots && slots[entries[p].0] < |x|
    requires j < |x|
    ensures Scatter(slots, x, entries, missing).Ok?
    ensures (forall p :: 0 <= p < |entries| ==> slots[entries[p].0] != j) ==>
              Scatter(slots, x, entries, missing).value[j] == x[j]
    ensures forall p :: 0 <= p < |entries| && slots[entries[p].0] == j &&
                        (forall q :: p < q < |entries| ==> slots[entries[q].0] != j) ==>
              Scatter(slots, x, entries, missing).value[j] == entries[p].1
    decreases |entries|
  {
    ScatterOk(slots, x, entries, missing);
    if entries != [] {
      var x' := x[slots[entries[0].0] := entries[0].1];
      ScatterValues(slots, x', entries[1..], missing, j);
      assert forall p :: 1 <= p < |entries| ==> entries[p] == entries[1..][p - 1];
      forall p | 0 <= p < |entries| && slots[entries[p].0] == j &&
                 (forall q :: p < q < |entries| ==> slots[entries[q].0] != j)
        ensures Scatter(slots, x, entries, missing).value[j] == entries[p].1
      {
        if p > 0 {
          assert entries[1..][p - 1] == entries[p];
          assert forall q :: p - 1 < q < |entries[1..]| ==> slots[entries[1..][q].0] != j;
        } else {
          assert forall q :: 0 <= q < |entries[1..]| ==> slots[entries[1..][q].0] != j;
        }
      }
    }
  }

  /** When every slot lies inside the vector, a failure can only come from a missing key. */
  lemma {:induction false} ScatterMissing<T>(slots: map<nat, nat>, x: seq<T>, entries: seq<(nat, T)>, missing: nat -> PyError)
    requires forall k :: k in slots ==> slots[k] < |x|
    ensures Scatter(slots, x, entries, missing).Err? ==>
              exists p :: 0 <= p < |entries| && entries[p].0 !in slots &&
                          Scatter(slots, x, entries, missing).error == missing(entries[p].0)
    decreases |entries|
  {
    if entries != [] && entries[0].0 in slots {
      var x' := x[slots[entries[0].0] := entries[0].1];
      ScatterMissing(slots, x', entries[1..], missing);
      if Scatter(slots, x, entries, missing).Err? {
        var p :| 0 <= p < |entries[1..]| && entries[1..][p].0 !in slots &&
                 Scatter(slots, x', entries[1..], missing).error == missing(entries[1..][p].0);
        assert entries[1..][p] == entries[p + 1];
      }
    }
  }

  /** The scatter loop on an array, stopping at the first failing key. */
  method ScatterInto<T>(slots: map<nat, nat>, x: array<T>, entries: seq<(nat, T)>, missing: nat -> PyError)
    returns (err: Option<PyError>)
    modifies x
    ensures Scatter(slots, old(x[..]), entries, missing) == if err.None? then Ok(x[..]) else Err(err.value)
  {
    var i := 0;
    while i < |entries|
      invariant i <= |entries|
      invariant Scatter(slots, old(x[..]), entries, missing) == Scatter(slots, x[..], entries[i..], missing)
    {
      var key := entries[i].0;
      if key !in slots {
        return Some(missing(key));
      }
      if slots[key] >= x.Length {
        return Some(IndexError);
      }
      assert entries[i..][1..] == entries[i + 1..];
      x[slots[key]] := entries[i].1;
      i := i + 1;
    }
    assert entries[i..] == [];
    return None;
  }

  function AsSlotEntries(mapping: seq<(nat, real)>): (r: seq<(nat, Slot)>)
    ensures |r| == |mapping| && forall p :: 0 <= p < |r| ==> r[p] == (mapping[p].0, VarAt(mapping[p].0))
  {
    if mapping == [] then [] else AsSlotEntries(mapping[..|mapping| - 1]) + [(mapping[|mapping| - 1].0, VarAt(mapping[|mapping| - 1].0))]
  }

  function MissingKey(u: nat): PyError
  {
    KeyError(NatStr(u))
  }

  function MissingDefinition(u: nat): PyError
  {
    ValueError
  }

  // ---------------------------------------------------------------------------
  // The first implicit-Euler guess
  // ---------------------------------------------------------------------------

  /**
   * `build_initial_guess` from the copy `res`: each first-order differential
   * variable adds h·dx0[its slot] to its base variable's entry; a base uid
   * without a slot raises KeyError, an index past the end IndexError.
   */
  function Guess(varSlots: map<nat, nat>, diffSlots: map<nat, nat>, res: seq<real>, dx0: seq<real>, h: real,
                 ds: seq<DiffVar>): Result<seq<real>>
    decreases |ds|
  {
    if ds == [] then Ok(res)
    else if ds[0].order > 1 then Guess(varSlots, diffSlots, res, dx0, h, ds[1..])
    else if ds[0].baseUid !in varSlots then Err(KeyError(NatStr(ds[0].baseUid)))
    else if ds[0].uid !in diffSlots then Err(KeyError(NatStr(ds[0].uid)))
    else if varSlots[ds[0].baseUid] >= |res| || diffSlots[ds[0].uid] >= |dx0| then Err(IndexError)
    else
      var idx := varSlots[ds[0].baseUid];
      Guess(varSlots, diffSlots, res[idx := res[idx] + h * dx0[diffSlots[ds[0].uid]]], dx0, h, ds[1..])
  }

  /** Total shift that the first-order differential variables in ds add to slot j. */
  function ShiftAt(varSlots: map<nat, nat>, diffSlots: map<nat, nat>, dx0: seq<real>, h: real, ds: seq<DiffVar>, j: nat): real
    requires forall p :: 0 <= p < |ds| && ds[p].order <= 1 ==>
               ds[p].baseUid in varSlots && ds[p].uid in diffSlots && diffSlots[ds[p].uid] < |dx0|
    decreases |ds|
  {
    if ds == [] then 0.0
    else
      assert forall p :: 1 <= p < |ds| ==> ds[p] == ds[1..][p - 1];
      (if ds[0].order <= 1 && varSlots[ds[0].baseUid] == j then h * dx0[diffSlots[ds[0].uid]] else 0.0) +
      ShiftAt(varSlots, diffSlots, dx0, h, ds[1..], j)
  }

  /**
   * On success the guess is x0 shifted, entry by entry, by the steps of the
   * first-order differential variables based there; other entries keep x0.
   */
  lemma {:induction false} GuessShifts(varSlots: map<nat, nat>, diffSlots: map<nat, nat>, res: seq<real>, dx0: seq<real>,
                                        h: real, ds: seq<DiffVar>)
    requires Guess(varSlots, diffSlots, res, dx0, h, ds).Ok?
    ensures forall p :: 0 <= p < |ds| && ds[p].order <= 1 ==>
              ds[p].baseUid in varSlots && ds[p].uid in diffSlots && diffSlots[ds[p].uid] < |dx0|
    ensures |Guess(varSlots, diffSlots, res, dx0, h, ds).value| == |res|
    ensures forall j :: 0 <= j < |res| ==>
              Guess(varSlots, diffSlots, res, dx0, h, ds).value[j] == res[j] + ShiftAt(varSlots, diffSlots, dx0, h, ds, j)
    decreases |ds|
  {
    if ds != [] {
      assert forall p :: 1 <= p < |ds| ==> ds[p] == ds[1..][p - 1];
      if ds[0].order > 1 {
        GuessShifts(varSlots, diffSlots, res, dx0, h, ds[1..]);
      } else {
        var idx := varSlots[ds[0].baseUid];
        var res' := res[idx := res[idx] + h * dx0[diffSlots[ds[0].uid]]];
        GuessShifts(varSlots, diffSlots, res', dx0, h, ds[1..]);
      }
    }
  }

  /** Slots that no first-order differential variable is based at are not shifted. */
  lemma {:induction false} ShiftAtUntouched(varSlots: map<nat, nat>, diffSlots: map<nat, nat>, dx0: seq<real>, h: real,
                                             ds: seq<DiffVar>, j: nat)
    requires forall p :: 0 <= p < |ds| && ds[p].order <= 1 ==>
               ds[p].baseUid in varSlots && ds[p].uid in diffSlots && diffSlots[ds[p].uid] < |dx0|
    requires forall p :: 0 <= p < |ds| && ds[p].order <= 1 ==> varSlots[ds[p].baseUid] != j
    ensures ShiftAt(varSlots, diffSlots, dx0, h, ds, j) == 0.0
    decreases |ds|
  {
    if ds != [] {
      assert forall p :: 1 <= p < |ds| ==> ds[p] == ds[1..][p - 1];
      ShiftAtUntouched(varSlots, diffSlots, dx0, h, ds[1..], j);
    }
  }

  // ---------------------------------------------------------------------------
  // The solver's bookkeeping
  // ---------------------------------------------------------------------------

  /**
   * The index part of `DiffBlockSolver`. The variable lists are the
   * flattened lists of all blocks, in declaration order; `lagSet` is the set
   * of lag variables that the symbolic substitutions registered.
   */
  class DiffBlockSolver {
    var stateVars: seq<nat>
    var algebraicVars: seq<nat>
    var parameters: seq<nat>
    var dt: nat
    var diffVars: seq<DiffVar>
    var lagVars: seq<LagVar>
    var uid2idxVars: map<nat, nat>
    var uid2idxParams: map<nat, nat>
    var uid2idxDiff: map<nat, nat>
    var uid2idxLag: map<nat, nat>
    var uid2idxT: map<nat, nat>

    constructor(stateVars: seq<nat>, algebraicVars: seq<nat>, blockParameters: seq<nat>, dt: nat, time: nat,
                diffVars: seq<DiffVar>, lagSet: seq<LagVar>)
      requires dt !in blockParameters
      requires UniqueKeys(lagSet)
      ensures this.stateVars == stateVars && this.algebraicVars == algebraicVars && this.diffVars == diffVars
      ensures this.dt == dt && parameters == blockParameters + [dt]
      ensures uid2idxParams == Slots(parameters, 0) && uid2idxParams[dt] == |parameters| - 1
      ensures SortedByKey(lagVars) && |lagVars| == |lagSet| && forall w :: w in lagVars <==> w in lagSet
      ensures uid2idxVars == VarSlots(stateVars, algebraicVars, Uids(lagVars, LagUid))
      ensures uid2idxDiff == Slots(Uids(diffVars, DiffUid), 0)
      ensures uid2idxLag == Slots(Uids(lagVars, LagUid), 0)
      ensures uid2idxT == map[time := 0]
      ensures Valid()
    {
      this.stateVars := stateVars;
      this.algebraicVars := algebraicVars;
      this.diffVars := diffVars;
      this.dt := dt;
      // the solver's own time-step parameter goes after the blocks' parameters
      var params := blockParameters + [dt];
      this.parameters := params;

      var ps := AssignFrom0(params);
      assert params[..|params| - 1] == blockParameters;
      this.uid2idxParams := ps;
      var diffs := AssignFrom0(Uids(diffVars, DiffUid));
      this.uid2idxDiff := diffs;
      this.uid2idxT := map[time := 0];

      var lags := SortLags(lagSet);
      this.lagVars := lags;
      var vars := NumberVariables(stateVars, algebraicVars, Uids(lags, LagUid));
      this.uid2idxVars := vars;
      var lagIdx := AssignFrom0(Uids(lags, LagUid));
      this.uid2idxLag := lagIdx;
    }

    /** What the constructor establishes and the other methods rely on. */
    ghost predicate Valid()
      reads this
    {
      SortedByKey(lagVars) &&
      uid2idxVars == VarSlots(stateVars, algebraicVars, Uids(lagVars, LagUid)) &&
      uid2idxDiff == Slots(Uids(diffVars, DiffUid), 0) &&
      uid2idxLag == Slots(Uids(lagVars, LagUid), 0)
    }

    function NState(): nat
      reads this
    {
      |stateVars|
    }

    function NAlg(): nat
      reads this
    {
      |algebraicVars|
    }

    /**
     * `sort_vars`: a vector of n_state + n_alg entries holding each mapped
     * variable at its slot. A key without a slot raises KeyError; a lag
     * variable's slot lies past the end and raises IndexError.
     */
    method SortVars(mapping: seq<(nat, real)>) returns (r: Result<seq<Slot>>)
      ensures r == Scatter(uid2idxVars, seq(NState() + NAlg(), _ => Zero), AsSlotEntries(mapping), MissingKey)
    {
      var x := new Slot[|stateVars| + |algebraicVars|](_ => Zero);
      assert x[..] == seq(NState() + NAlg(), _ => Zero);
      var err := ScatterInto(uid2idxVars, x, AsSlotEntries(mapping), MissingKey);
      r := if err.None? then Ok(x[..]) else Err(err.value);
    }

    /**
     * `build_init_diffvars_vector`: a vector of n_diff entries with each
     * value at its differential slot. A key that is not a differential
     * variable raises ValueError.
     */
    method BuildInitDiffvarsVector(mapping: seq<(nat, real)>) returns (r: Result<seq<real>>)
      requires Valid()
      ensures r == Scatter(uid2idxDiff, seq(|diffVars|, _ => 0.0), mapping, MissingDefinition)
      ensures r.Err? <==> exists p :: 0 <= p < |mapping| && mapping[p].0 !in Uids(diffVars, DiffUid)
      ensures r.Err? ==> r.error == ValueError
    {
      var x := new real[|diffVars|](_ => 0.0);
      assert x[..] == seq(|diffVars|, _ => 0.0);
      var err := ScatterInto(uid2idxDiff, x, mapping, MissingDefinition);
      r := if err.None? then Ok(x[..]) else Err(err.value);
      ScatterOk(uid2idxDiff, seq(|diffVars|, _ => 0.0), mapping, MissingDefinition);
      ScatterMissing(uid2idxDiff, seq(|diffVars|, _ => 0.0), mapping, MissingDefinition);
    }

    /**
     * `build_initial_guess`: a fresh copy of x0 whose base entries of
     * first-order differential variables are stepped by h·dx0; x0 itself
     * is left as it was.
     */
    method BuildInitialGuess(x0: array<real>, dx0: array<real>, h: real) returns (r: Result<array<real>>)
      ensures r.Err? <==> Guess(uid2idxVars, uid2idxDiff, x0[..], dx0[..], h, diffVars).Err?
      ensures r.Err? ==> r.error == Guess(uid2idxVars, uid2idxDiff, x0[..], dx0[..], h, diffVars).error
      ensures r.Ok? ==> fresh(r.value) && Guess(uid2idxVars, uid2idxDiff, x0[..], dx0[..], h, diffVars) == Ok(r.value[..])
    {
      var res := new real[x0.Length](k requires 0 <= k < x0.Length reads x0 => x0[k]);
      assert res[..] == x0[..];
      var i := 0;
      while i < |diffVars|
        invariant i <= |diffVars| && res.Length == x0.Length
        invariant Guess(uid2idxVars, uid2idxDiff, x0[..], dx0[..], h, diffVars) ==
                  Guess(uid2idxVars, uid2idxDiff, res[..], dx0[..], h, diffVars[i..])
      {
        var d := diffVars[i];
        assert diffVars[i..][1..] == diffVars[i + 1..];
        if d.order <= 1 {
          if d.baseUid !in uid2idxVars {
            return Err(KeyError(NatStr(d.baseUid)));
          }
          var idx := uid2idxVars[d.baseUid];
          if d.uid !in uid2idxDiff {
            return Err(KeyError(NatStr(d.uid)));
          }
          var diffIdx := uid2idxDiff[d.uid];
          if idx >= res.Length || diffIdx >= dx0.Length {
            return Err(IndexError);
          }
          res[idx] := res[idx] + h * dx0[diffIdx];
        }
        i := i + 1;
      }
      assert diffVars[i..] == [];
      return Ok(res);
    }

    /**
     * `_update_0_lags`: every lag-0 slot takes its base variable's current
     * value; all other lag slots keep theirs.
     */
    method UpdateZeroLags(xNew: seq<real>, lag: array<real>)
      requires lag.Length == |lagVars|
      requires forall p :: 0 <= p < |lagVars| && lagVars[p].lag == 0 ==>
                 lagVars[p].baseUid in uid2idxVars && uid2idxVars[lagVars[p].baseUid] < |xNew|
      modifies lag
      ensures forall p :: 0 <= p < lag.Length ==>
                lag[p] == if lagVars[p].lag == 0 then xNew[uid2idxVars[lagVars[p].baseUid]] else old(lag[p])
    {
      var i := 0;
      while i < |lagVars|
        invariant i <= |lagVars|
        invariant forall p :: 0 <= p < lag.Length ==>
                    lag[p] == if p < i && lagVars[p].lag == 0 then xNew[uid2idxVars[lagVars[p].baseUid]] else old(lag[p])
      {
        if lagVars[i].lag == 0 {
          lag[i] := xNew[uid2idxVars[lagVars[i].baseUid]];
        }
        i := i + 1;
      }
    }
  }

  /** Every key of a differential mapping has a slot inside the vector, so only ValueError can arise. */
  lemma DiffSlotsInRange(diffVars: seq<DiffVar>, u: nat)
    requires u in Uids(diffVars, DiffUid)
    ensures u in Slots(Uids(diffVars, DiffUid), 0) && Slots(Uids(diffVars, DiffUid), 0)[u] < |diffVars|
  {
  }
}
