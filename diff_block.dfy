/**
 * `block2diffblock`: the rewrite that turns every state equation
 * `d(x)/dt = f` of a block tree into the algebraic equation `f - dt_x`
 * with a differential variable `dt_x`, on a copy of each block that shares
 * the original's list objects.
 *
 * Python lists are objects (`PyList`), so the aliasing that the shallow
 * `__dict__` copy of `DiffBlock.from_block` creates is part of the model:
 * appending to the copy's algebraic lists also appends to the input's, and
 * replacing the copy's children replaces the input's children.
 */
module DiffBlocks {
  import opened Common

  /** A symbolic variable, identified by uid. */
  datatype Var = Var(uid: nat, name: string)

  /** A differential variable `dt_x` standing for the derivative of its base variable. */
  datatype DiffVar = DiffVar(name: string, base: Var)

  /** An equation: one the symbolic layer produced (by handle), or `eq - dt_var`. */
  datatype Expr = Atom(handle: nat) | Minus(eq: Expr, dv: DiffVar)

  /**
   * `DiffVar.get_or_create(name='dt_' + x.name, base_var=x)`; the registry
   * behind it is not modelled, the variable is defined by its name and base.
   */
  function DtVar(x: Var): (d: DiffVar)
    ensures d.base == x && d.name == "dt_" + x.name
  {
    DiffVar("dt_" + x.name, x)
  }

  /** A mutable Python list. */
  class PyList<T> {
    var items: seq<T>

    constructor (s: seq<T>)
      ensures items == s
    {
      items := s;
    }
  }

  /** The value held by a block tree. */
  datatype BlockVal = BlockVal(
    isDiff: bool,
    algebraicEqs: seq<Expr>,
    algebraicVars: seq<Var>,
    stateEqs: seq<Expr>,
    stateVars: seq<Var>,
    diffVars: seq<DiffVar>,
    lagVars: seq<DiffVar>,
    reformulatedVars: seq<DiffVar>,
    differentialEqs: seq<Expr>,
    children: seq<BlockVal>)

  /**
   * A `Block` (isDiff false) or a `DiffBlock` (isDiff true). The algebraic
   * lists and the children list are list objects, shared between a block
   * and its DiffBlock copy; the other lists are only ever rebound to fresh
   * lists or appended to while fresh, so they are held by value.
   */
  class Block {
    var isDiff: bool
    var algebraicEqs: PyList<Expr>
    var algebraicVars: PyList<Var>
    var children: PyList<BlockVal>
    var stateEqs: seq<Expr>
    var stateVars: seq<Var>
    var diffVars: seq<DiffVar>
    var lagVars: seq<DiffVar>
    var reformulatedVars: seq<DiffVar>
    var differentialEqs: seq<Expr>

    /** The tree the block holds. */
    function Model(): (v: BlockVal)
      reads this, algebraicEqs, algebraicVars, children
      ensures v.isDiff == isDiff && v.stateEqs == stateEqs && v.children == children.items
    {
      BlockVal(isDiff, algebraicEqs.items, algebraicVars.items, stateEqs, stateVars,
               diffVars, lagVars, reformulatedVars, differentialEqs, children.items)
    }

    /**
     * `DiffBlock.from_block`: a new DiffBlock holding the SAME list objects
     * as `block`, with empty diff, lag, reformulated and differential lists.
     */
    constructor FromBlock(block: Block)
      ensures isDiff
      ensures algebraicEqs == block.algebraicEqs && algebraicVars == block.algebraicVars && children == block.children
      ensures stateEqs == block.stateEqs && stateVars == block.stateVars
      ensures diffVars == [] && lagVars == [] && reformulatedVars == [] && differentialEqs == []
    {
      isDiff := true;
      algebraicEqs := block.algebraicEqs;
      algebraicVars := block.algebraicVars;
      stateEqs := block.stateEqs;
      stateVars := block.stateVars;
      children := block.children;
      diffVars := [];
      lagVars := [];
      reformulatedVars := [];
      differentialEqs := [];
    }
  }

  // ---------------------------------------------------------------------------
  // The rewrite on values
  // ---------------------------------------------------------------------------

  /** The equations `eqs[i] - dt_vars[i]`. */
  function Rewritten(eqs: seq<Expr>, vars: seq<Var>): (r: seq<Expr>)
    requires |eqs| <= |vars|
    ensures |r| == |eqs|
    ensures forall i :: 0 <= i < |eqs| ==> r[i] == Minus(eqs[i], DtVar(vars[i]))
  {
    if eqs == [] then [] else Rewritten(eqs[..|eqs| - 1], vars) + [Minus(eqs[|eqs| - 1], DtVar(vars[|eqs| - 1]))]
  }

  /** The differential variables of the first n state variables. */
  function DtVars(vars: seq<Var>, n: nat): (r: seq<DiffVar>)
    requires n <= |vars|
    ensures |r| == n
    ensures forall i :: 0 <= i < n ==> r[i] == DtVar(vars[i])
  {
    if n == 0 then [] else DtVars(vars, n - 1) + [DtVar(vars[n - 1])]
  }

  /** A block's own part of the rewrite, its children still unconverted. */
  function DiffPart(v: BlockVal): (w: BlockVal)
    requires |v.stateEqs| <= |v.stateVars|
    ensures w.children == v.children && w.isDiff && w.stateEqs == []
  {
    BlockVal(true, v.algebraicEqs + Rewritten(v.stateEqs, v.stateVars), v.algebraicVars + v.stateVars[..|v.stateEqs|],
             [], [], DtVars(v.stateVars, |v.stateEqs|), [], [], [], v.children)
  }

  /**
   * The tree `block2diffblock` returns for a tree holding v: IndexError
   * when some block has fewer state variables than state equations.
   */
  function Convert(v: BlockVal): (r: Result<BlockVal>)
    decreases v
    ensures r.Err? ==> r.error == IndexError
    ensures r.Ok? ==> |v.stateEqs| <= |v.stateVars| && |r.value.children| == |v.children|
  {
    var n := |v.stateEqs|;
    if |v.stateVars| < n then Err(IndexError)
    else if exists i :: 0 <= i < |v.children| && Convert(v.children[i]).Err? then Err(IndexError)
    else
      var kids := seq(|v.children|, i requires 0 <= i < |v.children| => Convert(v.children[i]).value);
      Ok(DiffPart(v).(children := kids))
  }

  /** The children of a converted block are the conversions of the original children. */
  lemma ConvertedChildren(v: BlockVal)
    requires Convert(v).Ok?
    ensures forall i :: 0 <= i < |v.children| ==> Convert(v.children[i]) == Ok(Convert(v).value.children[i])
  {
  }

  /** A block whose state variables cover its equations and whose children all convert, converts to these parts. */
  lemma ConvertParts(v: BlockVal, kids: seq<BlockVal>)
    requires |v.stateEqs| <= |v.stateVars| && |kids| == |v.children|
    requires forall k :: 0 <= k < |kids| ==> Convert(v.children[k]) == Ok(kids[k])
    ensures Convert(v) == Ok(DiffPart(v).(children := kids))
  {
    assert kids == seq(|v.children|, i requires 0 <= i < |v.children| => Convert(v.children[i]).value);
  }

  /** Every block of the tree has at least as many state variables as state equations. */
  ghost predicate StateVarsCover(v: BlockVal)
    decreases v
  {
    |v.stateEqs| <= |v.stateVars| && forall i :: 0 <= i < |v.children| ==> StateVarsCover(v.children[i])
  }

  /** The rewrite succeeds exactly on trees where no state variable is missing. */
  lemma {:induction false} ConvertOkIff(v: BlockVal)
    ensures Convert(v).Ok? <==> StateVarsCover(v)
    decreases v
  {
    forall i | 0 <= i < |v.children| {
      ConvertOkIff(v.children[i]);
    }
  }

  /**
   * One converted block: empty state lists; one algebraic equation
   * `eq - dt_x`, one algebraic variable x and one differential variable
   * `dt_x` appended per state equation, after the existing ones; the diff
   * lists hold nothing else.
   */
  lemma ConvertShape(v: BlockVal)
    requires Convert(v).Ok?
    ensures var w := Convert(v).value;
      w.isDiff && w.stateEqs == [] && w.stateVars == [] &&
      |w.algebraicEqs| == |v.algebraicEqs| + |v.stateEqs| &&
      |w.algebraicVars| == |v.algebraicVars| + |v.stateEqs| &&
      |w.diffVars| == |v.stateEqs| &&
      w.algebraicEqs[..|v.algebraicEqs|] == v.algebraicEqs &&
      w.algebraicVars[..|v.algebraicVars|] == v.algebraicVars &&
      (forall i :: 0 <= i < |v.stateEqs| ==>
         w.algebraicEqs[|v.algebraicEqs| + i] == Minus(v.stateEqs[i], w.diffVars[i]) &&
         w.algebraicVars[|v.algebraicVars| + i] == v.stateVars[i] &&
         w.diffVars[i].base == v.stateVars[i]) &&
      w.lagVars == [] && w.reformulatedVars == [] && w.differentialEqs == []
  {
  }

  /** Number of equations of a tree, for the given kind. */
  function CountEqs(v: BlockVal, algebraic: bool): nat
    decreases v
  {
    (if algebraic then |v.algebraicEqs| else |v.stateEqs|) + CountEqsAll(v.children, algebraic)
  }

  function CountEqsAll(cs: seq<BlockVal>, algebraic: bool): nat
    decreases cs
  {
    if cs == [] then 0 else CountEqs(cs[0], algebraic) + CountEqsAll(cs[1..], algebraic)
  }

  /** Over the whole tree, the algebraic equations afterwards number the algebraic plus state ones before, and no state equation is left. */
  lemma {:induction false} ConvertCounts(v: BlockVal)
    requires Convert(v).Ok?
    ensures CountEqs(Convert(v).value, true) == CountEqs(v, true) + CountEqs(v, false)
    ensures CountEqs(Convert(v).value, false) == 0
    decreases v, 1
  {
    ConvertedChildren(v);
    ConvertCountsAll(v.children, Convert(v).value.children);
  }

  lemma {:induction false} ConvertCountsAll(cs: seq<BlockVal>, ws: seq<BlockVal>)
    requires |cs| == |ws| && forall i :: 0 <= i < |cs| ==> Convert(cs[i]) == Ok(ws[i])
    ensures CountEqsAll(ws, true) == CountEqsAll(cs, true) + CountEqsAll(cs, false)
    ensures CountEqsAll(ws, false) == 0
    decreases cs, 0
  {
    if cs != [] {
      ConvertCounts(cs[0]);
      ConvertCountsAll(cs[1..], ws[1..]);
    }
  }

  /**
   * Converting a converted tree loses its differential variables:
   * `from_block` resets `diff_vars`, and no state equation remains to
   * re-create them.
   */
  lemma ReconvertDropsDiffVars(v: BlockVal)
    requires Convert(v).Ok?
    ensures Convert(Convert(v).value).Ok?
    ensures Convert(Convert(v).value).value.diffVars == []
    ensures Convert(Convert(v).value).value.algebraicEqs == Convert(v).value.algebraicEqs
  {
    var w := Convert(v).value;
    ConvertOkIff(v);
    ConvertedCovers(v);
    ConvertOkIff(w);
  }

  lemma {:induction false} ConvertedCovers(v: BlockVal)
    requires Convert(v).Ok?
    ensures StateVarsCover(Convert(v).value)
    decreases v
  {
    var w := Convert(v).value;
    ConvertedChildren(v);
    forall i | 0 <= i < |w.children| ensures StateVarsCover(w.children[i]) {
      ConvertedCovers(v.children[i]);
    }
  }

  // ---------------------------------------------------------------------------
  // The rewrite on objects
  // ---------------------------------------------------------------------------

  /**
   * `block2diffblock`. On success the returned DiffBlock holds the converted
   * tree; it shares its algebraic lists and its children list with `block`
   * (so `block` sees the appended equations and the replaced children),
   * while `block`'s own state lists are left as they were.
   */
  method Block2DiffBlock(block: Block) returns (r: Result<Block>)
    modifies block.algebraicEqs, block.algebraicVars, block.children
    ensures r.Ok? <==> Convert(old(block.Model())).Ok?
    ensures r.Err? ==> r.error == IndexError
    ensures r.Ok? ==> r.value.Model() == Convert(old(block.Model())).value
    ensures r.Ok? ==> fresh(r.value)
    ensures r.Ok? ==> r.value.algebraicEqs == block.algebraicEqs && r.value.algebraicVars == block.algebraicVars
    ensures r.Ok? ==> r.value.children == block.children
  {
    ghost var v := block.Model();
    var d := NewDiffBlock(block);
    if d.Err? {
      return Err(IndexError);
    }
    var ok2 := ConvertChildren(d.value.children);
    if !ok2 {
      return Err(IndexError);
    }
    ConvertParts(v, d.value.children.items);
    r := d;
  }

  /**
   * The part of `block2diffblock` before the children loop: the DiffBlock
   * copy, its emptied state lists and the rewritten state equations.
   */
  method NewDiffBlock(block: Block) returns (r: Result<Block>)
    modifies block.algebraicEqs, block.algebraicVars
    ensures r.Ok? <==> |block.stateEqs| <= |block.stateVars|
    ensures r.Ok? ==> fresh(r.value)
    ensures r.Ok? ==> r.value.algebraicEqs == block.algebraicEqs && r.value.algebraicVars == block.algebraicVars
    ensures r.Ok? ==> r.value.children == block.children
    ensures r.Ok? ==> r.value.Model() == old(DiffPart(block.Model()))
    ensures block.children.items == old(block.children.items)
  {
    var d := new Block.FromBlock(block);
    d.stateEqs := [];
    d.stateVars := [];
    var ok, dts := RewriteStateEqs(d.algebraicEqs, d.algebraicVars, block.stateEqs, block.stateVars);
    if !ok {
      return Err(IndexError);
    }
    d.diffVars := d.diffVars + dts;
    r := Ok(d);
  }

  /**
   * The loop over `block.state_eqs` (eqs, with `block.state_vars` as vars):
   * appends `eq - dt_x` to the algebraic equations, x to the algebraic
   * variables and `dt_x` to the diff variables (returned in `dts`). False
   * (IndexError) when a state variable is missing, after the equations
   * before it were appended, which the input block then sees as well.
   */
  method RewriteStateEqs(algEqs: PyList<Expr>, algVars: PyList<Var>, eqs: seq<Expr>, vars: seq<Var>)
    returns (ok: bool, dts: seq<DiffVar>)
    modifies algEqs, algVars
    ensures ok <==> |eqs| <= |vars|
    ensures ok ==> algEqs.items == old(algEqs.items) + Rewritten(eqs, vars)
    ensures ok ==> algVars.items == old(algVars.items) + vars[..|eqs|]
    ensures ok ==> dts == DtVars(vars, |eqs|)
    ensures !ok ==> algEqs.items == old(algEqs.items) + Rewritten(eqs[..|vars|], vars)
    ensures !ok ==> algVars.items == old(algVars.items) + vars
  {
    var i := 0;
    dts := [];
    while i < |eqs|
      invariant i <= |eqs| && i <= |vars|
      invariant algEqs.items == old(algEqs.items) + Rewritten(eqs[..i], vars)
      invariant algVars.items == old(algVars.items) + vars[..i]
      invariant dts == DtVars(vars, i)
    {
      if i >= |vars| {
        assert vars[..i] == vars;
        return false, dts;
      }
      var x := vars[i];
      var dv := DtVar(x);
      assert eqs[..i + 1][..i] == eqs[..i];
      algEqs.items := algEqs.items + [Minus(eqs[i], dv)];
      assert vars[..i + 1] == vars[..i] + [x];
      algVars.items := algVars.items + [x];
      dts := dts + [dv];
      i := i + 1;
    }
    assert eqs[..i] == eqs;
    return true, dts;
  }

  /**
   * The loop `diff_block.children[i] = block2diffblock(child_block)`: false
   * (IndexError) when some child does not convert, after the children before
   * it were replaced.
   */
  method ConvertChildren(list: PyList<BlockVal>) returns (ok: bool)
    modifies list
    ensures ok <==> forall k :: 0 <= k < |old(list.items)| ==> Convert(old(list.items)[k]).Ok?
    ensures ok ==> |list.items| == |old(list.items)|
    ensures ok ==> forall k :: 0 <= k < |list.items| ==> Convert(old(list.items)[k]) == Ok(list.items[k])
  {
    ghost var kids := list.items;
    var i := 0;
    while i < |list.items|
      invariant i <= |list.items| == |kids|
      invariant forall k :: 0 <= k < i ==> Convert(kids[k]) == Ok(list.items[k])
      invariant forall k :: i <= k < |kids| ==> list.items[k] == kids[k]
    {
      var c := Convert(list.items[i]);
      if c.Err? {
        return false;
      }
      list.items := list.items[i := c.value];
      i := i + 1;
    }
    return true;
  }
}
