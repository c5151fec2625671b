/**
 * The sparsity structure of a symbolic Jacobian in compressed-sparse-column
 * (CSC) form, and the packing of an n×n grid of blocks into one matrix.
 *
 * Derivatives come from the symbolic layer, which is not modelled: the
 * derivative of equation `row` with respect to variable `col` is given as
 * an entry of the matrix `derivs`, and is either a constant or an opaque
 * expression.
 */
module Jacobian {
  import opened Common

  /** A simplified derivative: a constant, or any other expression (by handle). */
  datatype Deriv = Const(value: real) | Symbolic(handle: nat)

  predicate StructuralZero(d: Deriv)
  {
    d.Const? && d.value == 0.0
  }

  /** One structurally non-zero entry, with its column first as in the (col, row, fn) triplets. */
  datatype Triplet = Triplet(col: nat, row: nat, expr: Deriv)

  /** The pattern the Jacobian evaluator is compiled with. */
  datatype CscPattern = CscPattern(cols: seq<nat>, indices: seq<nat>, indptr: seq<nat>, exprs: seq<Deriv>)

  ghost predicate NoDuplicates(s: seq<nat>)
  {
    forall i, j :: 0 <= i < j < |s| ==> s[i] != s[j]
  }

  /** The duplicate check of `_get_jacobian`: true when some variable is listed twice. */
  method HasRepeatedVar(variables: seq<nat>) returns (repeated: bool)
    ensures repeated <==> !NoDuplicates(variables)
  {
    var checkSet: set<nat> := {};
    var i := 0;
    while i < |variables|
      invariant i <= |variables| && NoDuplicates(variables[..i])
      invariant forall v :: v in checkSet <==> v in variables[..i]
    {
      if variables[i] in checkSet {
        var k :| 0 <= k < i && variables[..i][k] == variables[i];
        assert variables[k] == variables[i];
        return true;
      }
      checkSet := checkSet + {variables[i]};
      assert variables[..i + 1] == variables[..i] + [variables[i]];
      i := i + 1;
    }
    assert variables[..i] == variables;
    return false;
  }

  // ---------------------------------------------------------------------------
  // Triplets
  // ---------------------------------------------------------------------------

  /** (r, c) comes before (row, col) in row-major order. */
  predicate RowMajorBefore(r: nat, c: nat, row: nat, col: nat)
  {
    r < row || (r == row && c < col)
  }

  predicate ColMajorLess(a: Triplet, b: Triplet)
  {
    a.col < b.col || (a.col == b.col && a.row < b.row)
  }

  /** t is the non-zero derivative of equation t.row with respect to variable t.col. */
  ghost predicate IsEntry(D: Mat<Deriv>, t: Triplet)
  {
    D.Valid() && t.row < D.rows && t.col < D.cols && t.expr == D.at[t.row][t.col] && !StructuralZero(t.expr)
  }

  ghost predicate RowMajorSorted(ts: seq<Triplet>)
  {
    forall i, j :: 0 <= i < j < |ts| ==> RowMajorBefore(ts[i].row, ts[i].col, ts[j].row, ts[j].col)
  }

  ghost predicate ColMajorSorted(ts: seq<Triplet>)
  {
    forall i, j :: 0 <= i < j < |ts| ==> ColMajorLess(ts[i], ts[j])
  }

  /**
   * The double loop over equations and variables: one triplet per
   * derivative that is not the constant 0, in row-major order.
   */
  method CollectTriplets(D: Mat<Deriv>) returns (ts: seq<Triplet>)
    requires D.Valid()
    ensures RowMajorSorted(ts)
    ensures forall t :: t in ts <==> IsEntry(D, t)
  {
    ts := [];
    var row := 0;
    while row < D.rows
      invariant row <= D.rows && RowMajorSorted(ts)
      invariant forall t :: t in ts <==> IsEntry(D, t) && t.row < row
    {
      var col := 0;
      while col < D.cols
        invariant col <= D.cols && RowMajorSorted(ts)
        invariant forall t :: t in ts <==> IsEntry(D, t) && RowMajorBefore(t.row, t.col, row, col)
      {
        var d := D.at[row][col];
        if !StructuralZero(d) {
          ts := ts + [Triplet(col, row, d)];
        }
        col := col + 1;
      }
      row := row + 1;
    }
  }

  function InsertColMajor(s: seq<Triplet>, t: Triplet): (r: seq<Triplet>)
    requires ColMajorSorted(s) && forall u :: u in s ==> (u.col, u.row) != (t.col, t.row)
    ensures ColMajorSorted(r) && |r| == |s| + 1
    ensures forall u :: u in r <==> u in s || u == t
  {
    if s == [] then [t]
    else if ColMajorLess(t, s[0]) then
      assert forall j :: 0 <= j < |s| ==> j == 0 || ColMajorLess(s[0], s[j]);
      [t] + s
    else
      assert forall u :: u in s[1..] ==> ColMajorLess(s[0], u);
      var rest := InsertColMajor(s[1..], t);
      assert forall j :: 0 <= j < |rest| ==> ColMajorLess(s[0], rest[j]);
      [s[0]] + rest
  }

  /** `triplets.sort(key=lambda t: (t[0], t[1]))`: the same triplets in (col, row) order. */
  method SortTriplets(ts: seq<Triplet>) returns (r: seq<Triplet>)
    requires RowMajorSorted(ts)
    ensures ColMajorSorted(r) && |r| == |ts|
    ensures forall u :: u in r <==> u in ts
  {
    r := [];
    var i := 0;
    while i < |ts|
      invariant i <= |ts| && ColMajorSorted(r) && |r| == i
      invariant forall u :: u in r <==> u in ts[..i]
    {
      assert ts[..i + 1] == ts[..i] + [ts[i]];
      assert forall u :: u in r ==> (u.col, u.row) != (ts[i].col, ts[i].row);
      r := InsertColMajor(r, ts[i]);
      i := i + 1;
    }
    assert ts[..i] == ts;
  }

  // ---------------------------------------------------------------------------
  // Column starts (indptr)
  // ---------------------------------------------------------------------------

  /** Number of entries of s equal to c. */
  function CountEq(s: seq<nat>, c: nat): nat
  {
    if s == [] then 0 else CountEq(s[..|s| - 1], c) + (if s[|s| - 1] == c then 1 else 0)
  }

  /** Number of entries of s below c. */
  function CountBelow(s: seq<nat>, c: nat): (n: nat)
    ensures n <= |s|
  {
    if s == [] then 0 else CountBelow(s[..|s| - 1], c) + (if s[|s| - 1] < c then 1 else 0)
  }

  lemma {:induction false} CountBelowSucc(s: seq<nat>, c: nat)
    ensures CountBelow(s, c + 1) == CountBelow(s, c) + CountEq(s, c)
  {
    if s != [] {
      CountBelowSucc(s[..|s| - 1], c);
    }
  }

  lemma {:induction false} CountBelowZero(s: seq<nat>)
    ensures CountBelow(s, 0) == 0
  {
    if s != [] {
      CountBelowZero(s[..|s| - 1]);
    }
  }

  lemma {:induction false} CountBelowAll(s: seq<nat>, n: nat)
    requires forall k :: 0 <= k < |s| ==> s[k] < n
    ensures CountBelow(s, n) == |s|
  {
    if s != [] {
      CountBelowAll(s[..|s| - 1], n);
    }
  }

  lemma {:induction false} CountBelowMono(s: seq<nat>, c: nat, d: nat)
    requires c <= d
    ensures CountBelow(s, c) <= CountBelow(s, d)
  {
    if s != [] {
      CountBelowMono(s[..|s| - 1], c, d);
    }
  }

  /** In a non-decreasing sequence, the entries below c are exactly its first CountBelow(s, c). */
  lemma {:induction false} CountBelowSorted(s: seq<nat>, c: nat, k: nat)
    requires forall i, j :: 0 <= i < j < |s| ==> s[i] <= s[j]
    requires k < |s|
    ensures s[k] < c <==> k < CountBelow(s, c)
  {
    var s' := s[..|s| - 1];
    if k < |s| - 1 {
      CountBelowSorted(s', c, k);
      if s[|s| - 1] < c {
        assert s[k] <= s[|s| - 1];
      }
    } else if s' != [] && s[|s| - 1] >= c  {
      assert forall i :: 0 <= i < |s'| ==> s'[i] < c ==> i < CountBelow(s', c) by {
        forall i | 0 <= i < |s'| { CountBelowSorted(s', c, i); }
      }
    } else if s' != [] {
      assert forall i :: 0 <= i < |s'| ==> s'[i] <= s[|s| - 1];
      CountBelowAll(s', c);
    }
  }

  /**
   * `indptr = zeros(n+1); for c in cols: indptr[c+1] += 1; cumsum(indptr)`:
   * indptr[c] ends as the number of entries in the columns before c.
   */
  method BuildIndptr(cols: seq<nat>, n: nat) returns (indptr: seq<nat>)
    requires forall k :: 0 <= k < |cols| ==> cols[k] < n
    ensures |indptr| == n + 1
    ensures forall c :: 0 <= c <= n ==> indptr[c] == CountBelow(cols, c)
  {
    var a := new nat[n + 1](_ => 0);
    var k := 0;
    while k < |cols|
      invariant k <= |cols| && a[0] == 0
      invariant forall c :: 0 <= c < n ==> a[c + 1] == CountEq(cols[..k], c)
    {
      assert cols[..k + 1][..k] == cols[..k];
      a[cols[k] + 1] := a[cols[k] + 1] + 1;
      k := k + 1;
    }
    assert cols[..k] == cols;
    CountBelowZero(cols);
    var j := 1;
    while j <= n
      invariant 1 <= j <= n + 1 && a[0] == 0
      invariant forall c :: 0 <= c < j ==> a[c] == CountBelow(cols, c)
      invariant forall c :: j <= c <= n ==> a[c] == CountEq(cols, c - 1)
    {
      CountBelowSucc(cols, j - 1);
      a[j] := a[j] + a[j - 1];
      j := j + 1;
    }
    indptr := a[..];
  }

  function ColsOf(ts: seq<Triplet>): (r: seq<nat>)
    ensures |r| == |ts| && forall k :: 0 <= k < |ts| ==> r[k] == ts[k].col
  {
    if ts == [] then [] else ColsOf(ts[..|ts| - 1]) + [ts[|ts| - 1].col]
  }

  function RowsOf(ts: seq<Triplet>): (r: seq<nat>)
    ensures |r| == |ts| && forall k :: 0 <= k < |ts| ==> r[k] == ts[k].row
  {
    if ts == [] then [] else RowsOf(ts[..|ts| - 1]) + [ts[|ts| - 1].row]
  }

  function ExprsOf(ts: seq<Triplet>): (r: seq<Deriv>)
    ensures |r| == |ts| && forall k :: 0 <= k < |ts| ==> r[k] == ts[k].expr
  {
    if ts == [] then [] else ExprsOf(ts[..|ts| - 1]) + [ts[|ts| - 1].expr]
  }

  /** The pattern lists entries of D, in (col, row) order. */
  ghost predicate ListsEntriesInOrder(D: Mat<Deriv>, p: CscPattern)
  {
    var nnz := |p.cols|;
    |p.indices| == nnz && |p.exprs| == nnz &&
    (forall k :: 0 <= k < nnz ==> IsEntry(D, Triplet(p.cols[k], p.indices[k], p.exprs[k]))) &&
    (forall i, k :: 0 <= i < k < nnz ==>
       p.cols[i] < p.cols[k] || (p.cols[i] == p.cols[k] && p.indices[i] < p.indices[k]))
  }

  /** Every non-zero derivative of D is listed in the pattern. */
  ghost predicate ListsAllEntries(D: Mat<Deriv>, p: CscPattern)
    requires D.Valid() && |p.indices| == |p.cols|
  {
    forall r, c :: 0 <= r < D.rows && 0 <= c < D.cols && !StructuralZero(D.at[r][c]) ==>
      exists k :: 0 <= k < |p.cols| && p.cols[k] == c && p.indices[k] == r
  }

  /** indptr[c] counts the entries in the columns before c, for 0 <= c <= ncols. */
  ghost predicate PointsToColumns(p: CscPattern, ncols: nat)
  {
    |p.indptr| == ncols + 1 && p.indptr[0] == 0 && p.indptr[ncols] == |p.cols| &&
    (forall c :: 0 <= c <= ncols ==> p.indptr[c] == CountBelow(p.cols, c))
  }

  /** The CSC structure of the derivatives D of |D| equations with respect to variables. */
  ghost predicate IsCscOf(D: Mat<Deriv>, p: CscPattern)
    requires D.Valid()
  {
    ListsEntriesInOrder(D, p) && ListsAllEntries(D, p) && PointsToColumns(p, D.cols)
  }

  /** The sorted triplets, split into the three parallel arrays, list exactly D's entries. */
  lemma SortedListsEntries(D: Mat<Deriv>, sorted: seq<Triplet>, indptr: seq<nat>)
    requires D.Valid() && ColMajorSorted(sorted)
    requires forall u :: u in sorted <==> IsEntry(D, u)
    ensures ListsEntriesInOrder(D, CscPattern(ColsOf(sorted), RowsOf(sorted), indptr, ExprsOf(sorted)))
    ensures ListsAllEntries(D, CscPattern(ColsOf(sorted), RowsOf(sorted), indptr, ExprsOf(sorted)))
  {
    var cols, rows, exprs := ColsOf(sorted), RowsOf(sorted), ExprsOf(sorted);
    assert forall k :: 0 <= k < |cols| ==> Triplet(cols[k], rows[k], exprs[k]) == sorted[k];
    forall rr, c | 0 <= rr < D.rows && 0 <= c < D.cols && !StructuralZero(D.at[rr][c])
      ensures exists k :: 0 <= k < |cols| && cols[k] == c && rows[k] == rr
    {
      assert IsEntry(D, Triplet(c, rr, D.at[rr][c]));
      var k :| 0 <= k < |sorted| && sorted[k] == Triplet(c, rr, D.at[rr][c]);
      assert cols[k] == c && rows[k] == rr;
    }
  }

  /**
   * The structure built by `_get_jacobian` for the equations whose
   * derivatives are the rows of D, with respect to `variables`: ValueError
   * when a variable is listed twice.
   */
  method GetJacobian(variables: seq<nat>, D: Mat<Deriv>) returns (r: Result<CscPattern>)
    requires D.Valid() && D.cols == |variables|
    ensures r.Err? <==> !NoDuplicates(variables)
    ensures r.Err? ==> r.error == ValueError
    ensures r.Ok? ==> IsCscOf(D, r.value)
  {
    var repeated := HasRepeatedVar(variables);
    if repeated {
      return Err(ValueError);
    }
    var ts := CollectTriplets(D);
    var sorted := SortTriplets(ts);
    var cols, rows, exprs := ColsOf(sorted), RowsOf(sorted), ExprsOf(sorted);
    assert forall k :: 0 <= k < |cols| ==> cols[k] < D.cols by {
      forall k | 0 <= k < |cols| ensures cols[k] < D.cols {
        assert sorted[k] in ts;
      }
    }
    var indptr := BuildIndptr(cols, |variables|);
    CountBelowAll(cols, |variables|);
    CountBelowZero(cols);
    SortedListsEntries(D, sorted, indptr);
    return Ok(CscPattern(cols, rows, indptr, exprs));
  }

  /** Column c's entries are the slice indptr[c] .. indptr[c+1] of the pattern. */
  lemma ColumnSlice(D: Mat<Deriv>, p: CscPattern, c: nat, k: nat)
    requires D.Valid() && IsCscOf(D, p) && c < D.cols && k < |p.cols|
    ensures p.cols[k] == c <==> p.indptr[c] <= k < p.indptr[c + 1]
  {
    assert forall i, j :: 0 <= i < j < |p.cols| ==> p.cols[i] <= p.cols[j];
    CountBelowSorted(p.cols, c, k);
    CountBelowSorted(p.cols, c + 1, k);
  }

  /** The column starts (indptr) begin at 0, never decrease, and end at the number of non-zeros. */
  lemma IndptrMonotone(D: Mat<Deriv>, p: CscPattern, c: nat, d: nat)
    requires D.Valid() && IsCscOf(D, p) && c <= d <= D.cols
    ensures p.indptr[c] <= p.indptr[d]
  {
    CountBelowMono(p.cols, c, d);
  }

  // ---------------------------------------------------------------------------
  // Packing an n × n grid of blocks
  // ---------------------------------------------------------------------------

  /** Two blocks with equal row counts side by side. */
  function Beside(a: Mat<real>, b: Mat<real>): (m: Mat<real>)
    requires a.Valid() && b.Valid() && a.rows == b.rows
    ensures m.Valid() && m.rows == a.rows && m.cols == a.cols + b.cols
  {
    Mat(a.rows, a.cols + b.cols, seq(a.rows, i requires 0 <= i < a.rows => a.at[i] + b.at[i]))
  }

  /** The left part of Beside(a, b) is a, the right part is b. */
  lemma BesideHas(a: Mat<real>, b: Mat<real>, i: nat, j: nat, x: real)
    requires a.Valid() && b.Valid() && a.rows == b.rows
    ensures j < a.cols ==> (Beside(a, b).Has(i, j, x) <==> a.Has(i, j, x))
    ensures Beside(a, b).Has(i, a.cols + j, x) <==> b.Has(i, j, x)
  {
    if i < a.rows {
      assert Beside(a, b).at[i] == a.at[i] + b.at[i];
    }
  }

  /** Two blocks with equal column counts one above the other. */
  function Above(a: Mat<real>, b: Mat<real>): (m: Mat<real>)
    requires a.Valid() && b.Valid() && a.cols == b.cols
    ensures m.Valid() && m.rows == a.rows + b.rows && m.cols == a.cols
  {
    Mat(a.rows + b.rows, a.cols, a.at + b.at)
  }

  /** The top part of Above(a, b) is a, the bottom part is b. */
  lemma AboveHas(a: Mat<real>, b: Mat<real>, i: nat, j: nat, x: real)
    requires a.Valid() && b.Valid() && a.cols == b.cols
    ensures i < a.rows ==> (Above(a, b).Has(i, j, x) <==> a.Has(i, j, x))
    ensures Above(a, b).Has(a.rows + i, j, x) <==> b.Has(i, j, x)
  {
    if i < b.rows {
      assert Above(a, b).at[a.rows + i] == b.at[i];
    }
  }

  /** Total column count of the first k blocks. */
  function ColsBefore(ms: seq<Mat<real>>, k: nat): nat
    requires k <= |ms|
  {
    if k == 0 then 0 else ColsBefore(ms, k - 1) + ms[k - 1].cols
  }

  /** Total row count of the first k blocks. */
  function RowsBefore(ms: seq<Mat<real>>, k: nat): nat
    requires k <= |ms|
  {
    if k == 0 then 0 else RowsBefore(ms, k - 1) + ms[k - 1].rows
  }

  lemma {:induction false} ColsBeforePrefix(ms: seq<Mat<real>>, l: nat, k: nat)
    requires k <= l <= |ms|
    ensures ColsBefore(ms[..l], k) == ColsBefore(ms, k)
    decreases k
  {
    if k > 0 {
      ColsBeforePrefix(ms, l, k - 1);
    }
  }

  lemma {:induction false} RowsBeforePrefix(ms: seq<Mat<real>>, l: nat, k: nat)
    requires k <= l <= |ms|
    ensures RowsBefore(ms[..l], k) == RowsBefore(ms, k)
    decreases k
  {
    if k > 0 {
      RowsBeforePrefix(ms, l, k - 1);
    }
  }

  ghost predicate SameRows(ms: seq<Mat<real>>)
  {
    |ms| > 0 && forall k :: 0 <= k < |ms| ==> ms[k].Valid() && ms[k].rows == ms[0].rows
  }

  ghost predicate SameCols(ms: seq<Mat<real>>)
  {
    |ms| > 0 && forall k :: 0 <= k < |ms| ==> ms[k].Valid() && ms[k].cols == ms[0].cols
  }

  /** `hstack`: blocks with equal row counts, left to right. */
  function HStack(ms: seq<Mat<real>>): (m: Mat<real>)
    requires SameRows(ms)
    ensures m.Valid() && m.rows == ms[0].rows && m.cols == ColsBefore(ms, |ms|)
  {
    if |ms| == 1 then ms[0]
    else
      ColsBeforePrefix(ms, |ms| - 1, |ms| - 1);
      Beside(HStack(ms[..|ms| - 1]), ms[|ms| - 1])
  }

  /** `vstack`: blocks with equal column counts, top to bottom. */
  function VStack(ms: seq<Mat<real>>): (m: Mat<real>)
    requires SameCols(ms)
    ensures m.Valid() && m.cols == ms[0].cols && m.rows == RowsBefore(ms, |ms|)
  {
    if |ms| == 1 then ms[0]
    else
      RowsBeforePrefix(ms, |ms| - 1, |ms| - 1);
      Above(VStack(ms[..|ms| - 1]), ms[|ms| - 1])
  }

  /** Entry (i, j) of block k of an hstack sits at column ColsBefore(ms, k) + j. */
  lemma {:induction false} HStackHas(ms: seq<Mat<real>>, k: nat, i: nat, j: nat, x: real)
    requires SameRows(ms) && k < |ms| && ms[k].Has(i, j, x)
    ensures HStack(ms).Has(i, ColsBefore(ms, k) + j, x)
  {
    var n := |ms|;
    if n > 1 {
      var pre := ms[..n - 1];
      var left := HStack(pre);
      assert HStack(ms) == Beside(left, ms[n - 1]);
      ColsBeforePrefix(ms, n - 1, n - 1);
      if k < n - 1 {
        ColsBeforePrefix(ms, n - 1, k);
        assert pre[k] == ms[k];
        HStackHas(pre, k, i, j, x);
        BesideHas(left, ms[n - 1], i, ColsBefore(ms, k) + j, x);
      } else {
        BesideHas(left, ms[n - 1], i, j, x);
      }
    }
  }

  /** Entry (i, j) of block k of a vstack sits at row RowsBefore(ms, k) + i. */
  lemma {:induction false} VStackHas(ms: seq<Mat<real>>, k: nat, i: nat, j: nat, x: real)
    requires SameCols(ms) && k < |ms| && ms[k].Has(i, j, x)
    ensures VStack(ms).Has(RowsBefore(ms, k) + i, j, x)
  {
    var n := |ms|;
    if n > 1 {
      var pre := ms[..n - 1];
      var top := VStack(pre);
      assert VStack(ms) == Above(top, ms[n - 1]);
      RowsBeforePrefix(ms, n - 1, n - 1);
      if k < n - 1 {
        RowsBeforePrefix(ms, n - 1, k);
        assert pre[k] == ms[k];
        VStackHas(pre, k, i, j, x);
        AboveHas(top, ms[n - 1], RowsBefore(ms, k) + i, j, x);
      } else {
        AboveHas(top, ms[n - 1], i, j, x);
      }
    }
  }

  function KeyName(i: nat, j: nat): string
  {
    "(" + NatStr(i) + ", " + NatStr(j) + ")"
  }

  /** Row i of the grid: the blocks (i, 0) … (i, n-1). */
  function GridRow(blocks: map<(nat, nat), Mat<real>>, i: nat, n: nat): (r: seq<Mat<real>>)
    requires forall j :: 0 <= j < n ==> (i, j) in blocks
    ensures |r| == n && forall j :: 0 <= j < n ==> r[j] == blocks[(i, j)]
  {
    seq(n, j requires 0 <= j < n => blocks[(i, j)])
  }

  /** Every block (i, j) with i, j < n is present. */
  ghost predicate AllPresent(blocks: map<(nat, nat), Mat<real>>, n: nat)
  {
    forall i, j :: 0 <= i < n && 0 <= j < n ==> (i, j) in blocks
  }

  /** The grid as a sequence of rows. */
  function Grid(blocks: map<(nat, nat), Mat<real>>, n: nat): (g: seq<seq<Mat<real>>>)
    requires AllPresent(blocks, n)
    ensures |g| == n && forall i :: 0 <= i < n ==> g[i] == GridRow(blocks, i, n)
  {
    seq(n, i requires 0 <= i < n => GridRow(blocks, i, n))
  }

  /** Each row stacks side by side, and the stacked rows have equal widths. */
  ghost predicate Stackable(g: seq<seq<Mat<real>>>)
  {
    |g| > 0 && SameRows(g[0]) &&
    forall i :: 0 <= i < |g| ==> SameRows(g[i]) && ColsBefore(g[i], |g[i]|) == ColsBefore(g[0], |g[0]|)
  }

  /** Every row of the grid put side by side. */
  function HStacks(g: seq<seq<Mat<real>>>): (r: seq<Mat<real>>)
    requires Stackable(g)
    ensures SameCols(r) && |r| == |g|
  {
    seq(|g|, i requires 0 <= i < |g| && SameRows(g[i]) => HStack(g[i]))
  }

  /** Entry (a, b) of block (i, j) of a stackable grid lands in the packed matrix. */
  lemma GridEntry(g: seq<seq<Mat<real>>>, i: nat, j: nat, a: nat, b: nat, x: real)
    requires Stackable(g) && i < |g| && j < |g[i]| && g[i][j].Has(a, b, x)
    ensures VStack(HStacks(g)).Has(RowsBefore(HStacks(g), i) + a, ColsBefore(g[i], j) + b, x)
  {
    var hs := HStacks(g);
    HStackHas(g[i], j, a, b, x);
    assert hs[i] == HStack(g[i]);
    VStackHas(hs, i, a, ColsBefore(g[i], j) + b, x);
  }

  /** The whole grid is present and stacks. */
  ghost predicate Packable(blocks: map<(nat, nat), Mat<real>>, n: nat)
  {
    AllPresent(blocks, n) && Stackable(Grid(blocks, n))
  }

  ghost function Packed(blocks: map<(nat, nat), Mat<real>>, n: nat): Mat<real>
    requires Packable(blocks, n)
  {
    VStack(HStacks(Grid(blocks, n)))
  }

  /** Row i of the grid is present and its blocks have equal row counts. */
  ghost predicate RowStackable(blocks: map<(nat, nat), Mat<real>>, i: nat, n: nat)
  {
    (forall j :: 0 <= j < n ==> (i, j) in blocks) && SameRows(GridRow(blocks, i, n))
  }

  /** In a packable grid, every row stacks, to the width of row 0. */
  lemma PackableRow(blocks: map<(nat, nat), Mat<real>>, n: nat, i: nat)
    requires i < n
    ensures Packable(blocks, n) ==> RowStackable(blocks, i, n) && RowStackable(blocks, 0, n) &&
                                    HStack(GridRow(blocks, i, n)).cols == HStack(GridRow(blocks, 0, n)).cols
  {
    if Packable(blocks, n) {
      var g := Grid(blocks, n);
      assert g[i] == GridRow(blocks, i, n) && g[0] == GridRow(blocks, 0, n);
    }
  }

  /**
   * One pass of the loop of `pack_blocks_scipy`: collect the blocks of row
   * i (KeyError for a missing one) and hstack them (ValueError when their
   * row counts differ, or when there are none).
   */
  method StackRow(blocks: map<(nat, nat), Mat<real>>, i: nat, n: nat) returns (r: Result<Mat<real>>)
    requires forall k :: k in blocks ==> blocks[k].Valid()
    ensures r.Ok? <==> RowStackable(blocks, i, n)
    ensures r.Ok? ==> RowStackable(blocks, i, n) && r.value == HStack(GridRow(blocks, i, n))
    ensures r.Err? ==> r.error == ValueError || r.error.KeyError?
    ensures (forall j :: 0 <= j < n ==> (i, j) in blocks) && r.Err? ==> r.error == ValueError
  {
    var j := 0;
    while j < n
      invariant j <= n && forall q :: 0 <= q < j ==> (i, q) in blocks
    {
      if (i, j) !in blocks {
        return Err(KeyError(KeyName(i, j)));
      }
      j := j + 1;
    }
    var colBlocks := GridRow(blocks, i, n);
    if n == 0 || !(forall q :: 0 <= q < n ==> colBlocks[q].rows == colBlocks[0].rows) {
      return Err(ValueError);
    }
    return Ok(HStack(colBlocks));
  }

  /**
   * `pack_blocks_scipy`: hstack each grid row, then vstack the rows. A
   * missing block raises KeyError; an empty grid, or blocks whose shapes do
   * not line up, raise ValueError.
   */
  method PackBlocks(blocks: map<(nat, nat), Mat<real>>, n: nat) returns (r: Result<Mat<real>>)
    requires forall k :: k in blocks ==> blocks[k].Valid()
    ensures r.Ok? <==> Packable(blocks, n)
    ensures r.Ok? ==> Packable(blocks, n) && r.value == Packed(blocks, n)
    ensures r.Err? ==> r.error == ValueError || r.error.KeyError?
    ensures AllPresent(blocks, n) && r.Err? ==> r.error == ValueError
  {
    var rowBlocks: seq<Mat<real>> := [];
    var i := 0;
    while i < n
      invariant i <= n && |rowBlocks| == i
      invariant forall q :: 0 <= q < i ==> RowStackable(blocks, q, n) && rowBlocks[q] == HStack(GridRow(blocks, q, n))
    {
      var row := StackRow(blocks, i, n);
      if row.Err? {
        PackableRow(blocks, n, i);
        return Err(row.error);
      }
      rowBlocks := rowBlocks + [row.value];
      i := i + 1;
    }
    if n == 0 || exists q :: 0 <= q < n && rowBlocks[q].cols != rowBlocks[0].cols {
      if n > 0 {
        var q :| 0 <= q < n && rowBlocks[q].cols != rowBlocks[0].cols;
        PackableRow(blocks, n, q);
      }
      return Err(ValueError);
    }
    forall q, j | 0 <= q < n && 0 <= j < n
      ensures (q, j) in blocks
    {
      assert RowStackable(blocks, q, n);
    }
    var g := Grid(blocks, n);
    assert forall q :: 0 <= q < n ==> g[q] == GridRow(blocks, q, n);
    var hs := HStacks(g);
    assert forall q :: 0 <= q < n ==> hs[q] == HStack(g[q]);
    assert rowBlocks == hs;
    return Ok(VStack(rowBlocks));
  }

  /**
   * Entry (a, b) of block (i, j) lands at row RowsBefore(rows above) + a and
   * column ColsBefore(blocks to its left) + b of the packed matrix.
   */
  lemma PackedEntry(blocks: map<(nat, nat), Mat<real>>, n: nat, i: nat, j: nat, a: nat, b: nat, x: real)
    requires Packable(blocks, n) && i < n && j < n
    requires blocks[(i, j)].Has(a, b, x)
    ensures Packed(blocks, n).Has(RowsBefore(HStacks(Grid(blocks, n)), i) + a, ColsBefore(GridRow(blocks, i, n), j) + b, x)
  {
    var g := Grid(blocks, n);
    assert g[i] == GridRow(blocks, i, n);
    assert g[i][j] == blocks[(i, j)];
    GridEntry(g, i, j, a, b, x);
  }
}
