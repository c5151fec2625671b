/**
 * Contingency screening: the per-column maximum-magnitude reduction of the
 * time-series driver (real and complex), and the PTDF/LODF scan that
 * computes post-contingency flows and loadings of the monitored branches and
 * lists the problems found.
 */
module Contingency {
  import opened Common

  /** A complex number; only its modulus is ever compared. */
  datatype Complex = Complex(re: real, im: real)

  /** Squared modulus: |z| > |w| exactly when NormSq(z) > NormSq(w), the square root being increasing. */
  function NormSq(z: Complex): (r: real)
    ensures r >= 0.0
  {
    z.re * z.re + z.im * z.im
  }

  /** Row i holds the first entry of largest magnitude among the first n rows of column j. */
  ghost predicate FirstMaxAt<T>(A: Mat<T>, mag: T -> real, j: nat, n: nat, i: int)
    requires A.Valid() && j < A.cols && n <= A.rows
  {
    0 <= i < n &&
    (forall i' :: 0 <= i' < n ==> mag(A.at[i'][j]) <= mag(A.at[i][j])) &&
    (forall i' :: 0 <= i' < i ==> mag(A.at[i'][j]) < mag(A.at[i][j]))
  }

  /** None of the first n entries of column j has a positive magnitude. */
  ghost predicate NullColumn<T>(A: Mat<T>, mag: T -> real, j: nat, n: nat)
    requires A.Valid() && j < A.cols && n <= A.rows
  {
    forall i :: 0 <= i < n ==> mag(A.at[i][j]) <= 0.0
  }

  /** x is the entry kept for column j: no magnitude exceeds it, and it is zero or the first maximum. */
  ghost predicate ColumnMaxIs<T>(A: Mat<T>, mag: T -> real, zero: T, j: nat, x: T)
    requires A.Valid() && j < A.cols
  {
    (forall i :: 0 <= i < A.rows ==> mag(A.at[i][j]) <= mag(x)) &&
    (NullColumn(A, mag, j, A.rows) ==> x == zero) &&
    (!NullColumn(A, mag, j, A.rows) ==> exists i :: FirstMaxAt(A, mag, j, A.rows, i) && x == A.at[i][j])
  }

  /** The column maxima that the driver keeps for real and for complex matrices. */
  ghost predicate IsColumnMax<T>(A: Mat<T>, mag: T -> real, zero: T, res: seq<T>)
    requires A.Valid()
  {
    |res| == A.cols && forall j :: 0 <= j < A.cols ==> ColumnMaxIs(A, mag, zero, j, res[j])
  }

  /**
   * The loop shared by `max_abs_per_col` and `max_abs_per_col_cx`: for each
   * column, keep the first entry of largest magnitude, starting from zero
   * (the comparison is strict).
   */
  method MaxMagnitudePerCol<T>(A: Mat<T>, mag: T -> real, zero: T) returns (res: seq<T>)
    requires A.Valid() && mag(zero) == 0.0
    ensures IsColumnMax(A, mag, zero, res)
  {
    var r := new T[A.cols](_ => zero);
    var j := 0;
    while j < A.cols
      invariant j <= A.cols
      invariant forall j' :: j <= j' < A.cols ==> r[j'] == zero
      invariant forall j' :: 0 <= j' < j ==> ColumnMaxIs(A, mag, zero, j', r[j'])
    {
      ColumnMax(A, mag, zero, r, j);
      j := j + 1;
    }
    res := r[..];
  }

  /** The inner loop, on column j. */
  method ColumnMax<T>(A: Mat<T>, mag: T -> real, zero: T, r: array<T>, j: nat)
    requires A.Valid() && mag(zero) == 0.0
    requires j < A.cols == r.Length && r[j] == zero
    modifies r
    ensures forall j' :: 0 <= j' < r.Length && j' != j ==> r[j'] == old(r[j'])
    ensures ColumnMaxIs(A, mag, zero, j, r[j])
  {
    var i := 0;
    while i < A.rows
      invariant i <= A.rows
      invariant forall j' :: 0 <= j' < r.Length && j' != j ==> r[j'] == old(r[j'])
      invariant forall i' :: 0 <= i' < i ==> mag(A.at[i'][j]) <= mag(r[j])
      invariant NullColumn(A, mag, j, i) ==> r[j] == zero
      invariant !NullColumn(A, mag, j, i) ==> exists i0 :: FirstMaxAt(A, mag, j, i, i0) && r[j] == A.at[i0][j]
    {
      var val := mag(A.at[i][j]);
      if val > mag(r[j]) {
        r[j] := A.at[i][j];
        assert FirstMaxAt(A, mag, j, i + 1, i);
      } else if !NullColumn(A, mag, j, i) {
        var i0 :| FirstMaxAt(A, mag, j, i, i0) && r[j] == A.at[i0][j];
        assert FirstMaxAt(A, mag, j, i + 1, i0);
      }
      i := i + 1;
    }
  }

  /**
   * `max_abs_per_col`: per column, the first entry of largest absolute
   * value; a column of zeros gives 0.
   */
  method MaxAbsPerCol(A: Mat<real>) returns (res: seq<real>)
    requires A.Valid()
    ensures IsColumnMax(A, AbsReal, 0.0, res)
    ensures forall j :: 0 <= j < A.cols ==>
              (res[j] == 0.0 <==> forall i :: 0 <= i < A.rows ==> A.at[i][j] == 0.0)
  {
    res := MaxMagnitudePerCol(A, AbsReal, 0.0);
    forall j | 0 <= j < A.cols
      ensures res[j] == 0.0 <==> forall i :: 0 <= i < A.rows ==> A.at[i][j] == 0.0
    {
      assert ColumnMaxIs(A, AbsReal, 0.0, j, res[j]);
      assert AbsReal(res[j]) == 0.0 <==> res[j] == 0.0;
      assert forall i :: 0 <= i < A.rows ==> AbsReal(A.at[i][j]) <= AbsReal(res[j]);
    }
  }

  /** `max_abs_per_col_cx`: the same rule under the complex modulus. */
  method MaxAbsPerColCx(A: Mat<Complex>) returns (res: seq<Complex>)
    requires A.Valid()
    ensures IsColumnMax(A, NormSq, Complex(0.0, 0.0), res)
  {
    res := MaxMagnitudePerCol(A, NormSq, Complex(0.0, 0.0));
  }

  /** The offset added to every rating before a loading division. */
  const Eps: real := 0.000000001

  function Dot(a: seq<real>, b: seq<real>): real
    requires |a| == |b|
  {
    if a == [] then 0.0 else Dot(a[..|a| - 1], b[..|b| - 1]) + a[|a| - 1] * b[|b| - 1]
  }

  /**
   * The arguments of `linear_contingency_scan_numba`. The pairs
   * (conBr[p], conCg[p]) are the single contingencies: the branch that
   * trips and the contingency group it belongs to.
   */
  datatype ScanInput = ScanInput(
    nbr: nat, nConGroups: nat, pbus: seq<real>, rates: seq<real>, conRates: seq<real>,
    ptdf: Mat<real>, lodf: Mat<real>, monIdx: seq<int>, conBr: seq<int>, conCg: seq<int>)
  {
    /** Shapes and indices the numba code reads without bounds checks. */
    ghost predicate WellFormed()
    {
      ptdf.Valid() && lodf.Valid() && ptdf.rows == nbr && lodf.rows == nbr && lodf.cols == nbr &&
      |rates| == nbr && |conRates| == nbr &&
      (forall mm :: 0 <= mm < |monIdx| ==> 0 <= monIdx[mm] < nbr) &&
      (forall p :: 0 <= p < |conBr| ==> 0 <= conBr[p] < nbr) &&
      (forall p :: 0 <= p < |conCg| ==> 0 <= conCg[p] < nConGroups)
    }

    /** The base flows `PTDF @ Pbus`. */
    function Sbr0(): (s: seq<real>)
      requires ptdf.Valid() && ptdf.cols == |pbus|
      ensures |s| == ptdf.rows && forall m :: 0 <= m < |s| ==> s[m] == BaseFlow(m)
    {
      seq(ptdf.rows, m requires 0 <= m < ptdf.rows => BaseFlow(m))
    }

    /** The base flow of branch m: row m of the PTDF times the injections. */
    function BaseFlow(m: nat): real
      requires ptdf.Valid() && ptdf.cols == |pbus| && m < ptdf.rows
    {
      Dot(ptdf.at[m], pbus)
    }

    ghost predicate Ready()
    {
      WellFormed() && ptdf.cols == |pbus| && |conBr| == |conCg|
    }

    /** Flow on monitored branch m after branch c trips. */
    function Flow(m: nat, c: nat): real
      requires Ready() && m < nbr && c < nbr
    {
      BaseFlow(m) + lodf.at[m][c] * BaseFlow(c)
    }

    predicate Overloaded(m: nat)
      requires Ready() && m < nbr
    {
      AbsReal(BaseFlow(m)) > rates[m]
    }

    function BaseLoading(m: nat): real
      requires Ready() && m < nbr && rates[m] + Eps != 0.0
    {
      BaseFlow(m) / (rates[m] + Eps)
    }

    function ContingencyLoading(m: nat): real
      requires Ready() && m < nbr && conRates[m] + Eps != 0.0
    {
      BaseFlow(m) / (conRates[m] + Eps)
    }

    /** LoadingCon[g, m] after the first n pairs of a branch within its base rating. */
    ghost function PairLoading(g: int, m: nat, n: nat): real
      requires Ready() && m < nbr && n <= |conCg| && rates[m] + Eps != 0.0
    {
      if Tripped(g, m, n) && conRates[m] + Eps != 0.0 then ContingencyLoading(m) else BaseLoading(m)
    }

    /** Some of the first n pairs overloads branch m. */
    ghost predicate AnyTrips(m: nat, n: nat)
      requires Ready() && m < nbr && n <= |conBr|
    {
      exists p :: 0 <= p < n && AbsReal(Flow(m, conBr[p])) > conRates[m]
    }

    /**
     * The scan of branch m divides by zero, which njit code answers with
     * ZeroDivisionError: the base loading always divides by `rates[m] + Eps`,
     * and a pair that overloads a branch within its base rating divides by
     * `conRates[m] + Eps`.
     */
    ghost predicate DividesByZero(m: nat)
      requires Ready() && m < nbr
    {
      rates[m] + Eps == 0.0 || (!Overloaded(m) && conRates[m] + Eps == 0.0 && AnyTrips(m, |conBr|))
    }

    /** Some of the first k monitored branches divides by zero. */
    ghost predicate ScanDivides(k: nat)
      requires Ready() && k <= |monIdx|
    {
      exists i :: 0 <= i < k && DividesByZero(monIdx[i])
    }

    ghost predicate HasPair(g: int, n: nat)
      requires Ready() && n <= |conCg|
    {
      exists p :: 0 <= p < n && conCg[p] == g
    }

    /** The last of the first n pairs that belongs to group g. */
    function LastPair(g: int, n: nat): (p: nat)
      requires Ready() && n <= |conCg| && HasPair(g, n)
      ensures p < n && conCg[p] == g && forall q :: p < q < n ==> conCg[q] != g
    {
      if conCg[n - 1] == g then n - 1 else LastPair(g, n - 1)
    }

    /** Some pair among the first n of group g overloads branch m. */
    ghost predicate Tripped(g: int, m: nat, n: nat)
      requires Ready() && m < nbr && n <= |conCg|
    {
      exists p :: 0 <= p < n && conCg[p] == g && AbsReal(Flow(m, conBr[p])) > conRates[m]
    }

    /** Final SbrCon entry of a monitored column: the flow of the group's last pair, if it is computed. */
    ghost function ColumnFlow(g: int, m: nat): real
      requires Ready() && m < nbr
    {
      if !Overloaded(m) && HasPair(g, |conCg|) then Flow(m, conBr[LastPair(g, |conCg|)]) else 0.0
    }

    /** Final LoadingCon entry of a monitored column. */
    ghost function ColumnLoading(g: int, m: nat): real
      requires Ready() && m < nbr && !DividesByZero(m)
    {
      if !Overloaded(m) && Tripped(g, m, |conCg|) then
        TrippedTrips(this, g, m, |conCg|);
        ContingencyLoading(m)
      else BaseLoading(m)
    }

    /** Whether a scan of monitored branch m records (m, c): its own overload, or a pair that overloads it. */
    ghost predicate IsProblem(m: nat, c: int)
      requires Ready() && m < nbr
    {
      if Overloaded(m) then c == -1
      else exists p :: 0 <= p < |conBr| && conBr[p] == c && AbsReal(Flow(m, conBr[p])) > conRates[m]
    }

    /** Problems recorded by the first n pairs for a non-overloaded branch m. */
    function PairProblems(m: nat, n: nat): seq<(int, int)>
      requires Ready() && m < nbr && n <= |conBr|
    {
      if n == 0 then []
      else PairProblems(m, n - 1) + (if AbsReal(Flow(m, conBr[n - 1])) > conRates[m] then [(m, conBr[n - 1])] else [])
    }

    function BranchProblems(m: nat): seq<(int, int)>
      requires Ready() && m < nbr
    {
      if Overloaded(m) then [(m, -1)] else PairProblems(m, |conBr|)
    }

    /** The problem lists of the first k monitored positions, in order. */
    function BranchLists(k: nat): (ls: seq<seq<(int, int)>>)
      requires Ready() && k <= |monIdx|
      ensures |ls| == k && forall i :: 0 <= i < k ==> ls[i] == BranchProblems(monIdx[i])
    {
      seq(k, i requires 0 <= i < k => BranchProblems(monIdx[i]))
    }

    /** Problems recorded by the first k monitored positions. */
    function Problems(k: nat): seq<(int, int)>
      requires Ready() && k <= |monIdx|
    {
      Concat(BranchLists(k))
    }
  }

  /** The numba slice assignment `L[:, m] = v`. */
  method SetColumn(L: array2<real>, m: nat, v: real)
    requires m < L.Length1
    modifies L
    ensures forall g, m' :: 0 <= g < L.Length0 && 0 <= m' < L.Length1 ==>
              L[g, m'] == if m' == m then v else old(L[g, m'])
  {
    var g := 0;
    while g < L.Length0
      invariant g <= L.Length0
      invariant forall g', m' :: 0 <= g' < L.Length0 && 0 <= m' < L.Length1 ==>
                  L[g', m'] == if m' == m && g' < g then v else old(L[g', m'])
    {
      L[g, m] := v;
      g := g + 1;
    }
  }

  /** One iteration of the monitored-branch loop, for branch m. */
  method ScanBranch(inp: ScanInput, sbrCon: array2<real>, loadingCon: array2<real>, m: nat)
    returns (r: Result<seq<(int, int)>>)
    requires inp.Ready() && m < inp.nbr
    requires sbrCon.Length0 == inp.nConGroups && sbrCon.Length1 == inp.nbr
    requires loadingCon.Length0 == inp.nConGroups && loadingCon.Length1 == inp.nbr
    requires sbrCon != loadingCon
    modifies sbrCon, loadingCon
    ensures r.Err? <==> inp.DividesByZero(m)
    ensures r.Err? ==> r.error == ZeroDivisionError
    ensures r.Ok? ==> forall g, m' :: 0 <= g < inp.nConGroups && 0 <= m' < inp.nbr ==>
              sbrCon[g, m'] == if m' == m && !inp.Overloaded(m) && inp.HasPair(g, |inp.conCg|)
                               then inp.Flow(m, inp.conBr[inp.LastPair(g, |inp.conCg|)])
                               else old(sbrCon[g, m'])
    ensures r.Ok? ==> forall g, m' :: 0 <= g < inp.nConGroups && 0 <= m' < inp.nbr ==>
              loadingCon[g, m'] == if m' == m then inp.ColumnLoading(g, m) else old(loadingCon[g, m'])
    ensures r.Ok? ==> r.value == inp.BranchProblems(m)
  {
    if inp.rates[m] + Eps == 0.0 {
      return Err(ZeroDivisionError);
    }
    SetColumn(loadingCon, m, inp.BaseLoading(m));
    if !inp.Overloaded(m) {
      r := ScanPairs(inp, sbrCon, loadingCon, m);
      if r.Ok? {
        forall g | 0 <= g < inp.nConGroups
          ensures loadingCon[g, m] == inp.ColumnLoading(g, m)
        {
          if inp.Tripped(g, m, |inp.conCg|) {
            TrippedTrips(inp, g, m, |inp.conCg|);
          }
        }
      }
    } else {
      r := Ok([(m, -1)]);
    }
  }

  /** The contingency-pair loop of a branch m within its base rating, whose column holds the base loading. */
  method ScanPairs(inp: ScanInput, sbrCon: array2<real>, loadingCon: array2<real>, m: nat)
    returns (r: Result<seq<(int, int)>>)
    requires inp.Ready() && m < inp.nbr && inp.rates[m] + Eps != 0.0
    requires sbrCon.Length0 == inp.nConGroups && sbrCon.Length1 == inp.nbr
    requires loadingCon.Length0 == inp.nConGroups && loadingCon.Length1 == inp.nbr
    requires sbrCon != loadingCon
    requires forall g :: 0 <= g < inp.nConGroups ==> loadingCon[g, m] == inp.BaseLoading(m)
    modifies sbrCon, loadingCon
    ensures r.Err? <==> inp.conRates[m] + Eps == 0.0 && inp.AnyTrips(m, |inp.conBr|)
    ensures r.Err? ==> r.error == ZeroDivisionError
    ensures forall g, m' :: 0 <= g < inp.nConGroups && 0 <= m' < inp.nbr && m' != m ==>
              sbrCon[g, m'] == old(sbrCon[g, m']) && loadingCon[g, m'] == old(loadingCon[g, m'])
    ensures r.Ok? ==> forall g :: 0 <= g < inp.nConGroups ==>
              sbrCon[g, m] == if inp.HasPair(g, |inp.conCg|) then inp.Flow(m, inp.conBr[inp.LastPair(g, |inp.conCg|)])
                              else old(sbrCon[g, m])
    ensures r.Ok? ==> forall g :: 0 <= g < inp.nConGroups ==>
              loadingCon[g, m] == inp.PairLoading(g, m, |inp.conCg|)
    ensures r.Ok? ==> r.value == inp.PairProblems(m, |inp.conBr|)
  {
    var probs := [];
    var p := 0;
    while p < |inp.conBr|
      invariant p <= |inp.conBr|
      invariant inp.conRates[m] + Eps == 0.0 ==> !inp.AnyTrips(m, p)
      invariant forall g, m' :: 0 <= g < inp.nConGroups && 0 <= m' < inp.nbr && m' != m ==>
                  sbrCon[g, m'] == old(sbrCon[g, m']) && loadingCon[g, m'] == old(loadingCon[g, m'])
      invariant forall g :: 0 <= g < inp.nConGroups ==>
                  sbrCon[g, m] == if inp.HasPair(g, p) then inp.Flow(m, inp.conBr[inp.LastPair(g, p)]) else old(sbrCon[g, m])
      invariant forall g :: 0 <= g < inp.nConGroups ==>
                  loadingCon[g, m] == inp.PairLoading(g, m, p)
      invariant probs == inp.PairProblems(m, p)
    {
      var step := ApplyPair(inp, sbrCon, loadingCon, m, p, probs);
      AnyTripsStep(inp, m, p);
      if step.Err? {
        AnyTripsUpTo(inp, m, p + 1, |inp.conBr|);
        return Err(ZeroDivisionError);
      }
      probs := step.value;
      p := p + 1;
    }
    r := Ok(probs);
  }

  /**
   * One step of the contingency-pair loop: pair p against branch m. An
   * overload with `conRates[m] + Eps` zero is a ZeroDivisionError.
   */
  method ApplyPair(inp: ScanInput, sbrCon: array2<real>, loadingCon: array2<real>, m: nat, p: nat,
                   probs: seq<(int, int)>) returns (r: Result<seq<(int, int)>>)
    requires inp.Ready() && m < inp.nbr && p < |inp.conBr| && inp.rates[m] + Eps != 0.0
    requires sbrCon.Length0 == inp.nConGroups && sbrCon.Length1 == inp.nbr
    requires loadingCon.Length0 == inp.nConGroups && loadingCon.Length1 == inp.nbr
    requires sbrCon != loadingCon
    requires forall g :: 0 <= g < inp.nConGroups ==>
               loadingCon[g, m] == inp.PairLoading(g, m, p)
    requires probs == inp.PairProblems(m, p)
    modifies sbrCon, loadingCon
    ensures r.Err? <==> AbsReal(inp.Flow(m, inp.conBr[p])) > inp.conRates[m] && inp.conRates[m] + Eps == 0.0
    ensures r.Err? ==> r.error == ZeroDivisionError
    ensures forall g, m' :: 0 <= g < inp.nConGroups && 0 <= m' < inp.nbr && m' != m ==>
              sbrCon[g, m'] == old(sbrCon[g, m']) && loadingCon[g, m'] == old(loadingCon[g, m'])
    ensures forall g :: 0 <= g < inp.nConGroups ==>
              sbrCon[g, m] == if g == inp.conCg[p] then inp.Flow(m, inp.conBr[p]) else old(sbrCon[g, m])
    ensures r.Ok? ==> forall g :: 0 <= g < inp.nConGroups ==>
              loadingCon[g, m] == inp.PairLoading(g, m, p + 1)
    ensures r.Ok? ==> r.value == inp.PairProblems(m, p + 1)
  {
    var c := inp.conBr[p];
    var cgi := inp.conCg[p];
    sbrCon[cgi, m] := inp.Flow(m, c);
    var probs' := probs;
    if AbsReal(sbrCon[cgi, m]) > inp.conRates[m] {
      if inp.conRates[m] + Eps == 0.0 {
        return Err(ZeroDivisionError);
      }
      loadingCon[cgi, m] := inp.ContingencyLoading(m);
      probs' := probs + [(m, c)];
    }
    forall g | 0 <= g < inp.nConGroups {
      TrippedStep(inp, g, m, p);
    }
    r := Ok(probs');
  }

  /** A trip among the first n pairs is a trip among the first n' ones, for n <= n'. */
  lemma AnyTripsUpTo(inp: ScanInput, m: nat, n: nat, n': nat)
    requires inp.Ready() && m < inp.nbr && n <= n' <= |inp.conBr| && inp.AnyTrips(m, n)
    ensures inp.AnyTrips(m, n')
  {
    var p :| 0 <= p < n && AbsReal(inp.Flow(m, inp.conBr[p])) > inp.conRates[m];
  }

  /** A pair of group g that overloads branch m is a pair that overloads it. */
  lemma TrippedTrips(inp: ScanInput, g: int, m: nat, n: nat)
    requires inp.Ready() && m < inp.nbr && n <= |inp.conCg|
    requires inp.Tripped(g, m, n)
    ensures inp.AnyTrips(m, n)
  {
    var p :| 0 <= p < n && inp.conCg[p] == g && AbsReal(inp.Flow(m, inp.conBr[p])) > inp.conRates[m];
  }

  /** Pair p trips group g for branch m when it belongs to g and overloads m. */
  lemma TrippedStep(inp: ScanInput, g: int, m: nat, p: nat)
    requires inp.Ready() && m < inp.nbr && p < |inp.conCg|
    ensures inp.Tripped(g, m, p + 1) <==>
              inp.Tripped(g, m, p) || (g == inp.conCg[p] && AbsReal(inp.Flow(m, inp.conBr[p])) > inp.conRates[m])
  {
    if inp.Tripped(g, m, p + 1) && !inp.Tripped(g, m, p) {
      var q :| 0 <= q < p + 1 && inp.conCg[q] == g && AbsReal(inp.Flow(m, inp.conBr[q])) > inp.conRates[m];
      assert q == p;
    }
  }

  /**
   * `linear_contingency_scan_numba`. The prange loop runs sequentially (the
   * function is not compiled with parallel=True), so problems come in
   * monitored-branch order, then contingency-pair order. A zero divisor in a
   * loading raises ZeroDivisionError, as njit code does by default.
   */
  method LinearContingencyScan(inp: ScanInput) returns (r: Result<(Mat<real>, Mat<real>, seq<(int, int)>)>)
    requires inp.WellFormed()
    ensures |inp.conBr| != |inp.conCg| <==> r == Err(AssertionError)
    ensures |inp.conBr| == |inp.conCg| && inp.ptdf.cols != |inp.pbus| <==> r == Err(ValueError)
    ensures inp.Ready() ==> (r == Err(ZeroDivisionError) <==> inp.ScanDivides(|inp.monIdx|))
    ensures r.Ok? ==>
              inp.Ready() && !inp.ScanDivides(|inp.monIdx|) &&
              var (sbrCon, loadingCon, problems) := r.value;
              sbrCon.Valid() && loadingCon.Valid() &&
              sbrCon.rows == loadingCon.rows == inp.nConGroups && sbrCon.cols == loadingCon.cols == inp.nbr &&
              (forall g, m :: 0 <= g < inp.nConGroups && 0 <= m < inp.nbr ==>
                 sbrCon.at[g][m] == (if m in inp.monIdx then inp.ColumnFlow(g, m) else 0.0) &&
                 loadingCon.at[g][m] == (if m in inp.monIdx then inp.ColumnLoading(g, m) else 0.0)) &&
              problems == inp.Problems(|inp.monIdx|)
  {
    if |inp.conBr| != |inp.conCg| {
      return Err(AssertionError);
    }
    var sbrCon := new real[inp.nConGroups, inp.nbr]((_, _) => 0.0);
    var loadingCon := new real[inp.nConGroups, inp.nbr]((_, _) => 0.0);
    if inp.ptdf.cols != |inp.pbus| {
      // the matrix product rejects mismatched shapes
      return Err(ValueError);
    }
    var scan := ScanMonitored(inp, sbrCon, loadingCon);
    if scan.Err? {
      return Err(ZeroDivisionError);
    }
    return Ok((MatOf(sbrCon), MatOf(loadingCon), scan.value));
  }

  /** The loop over the monitored branches, on zero-filled SbrCon and LoadingCon. */
  method ScanMonitored(inp: ScanInput, sbrCon: array2<real>, loadingCon: array2<real>) returns (r: Result<seq<(int, int)>>)
    requires inp.Ready()
    requires sbrCon.Length0 == inp.nConGroups && sbrCon.Length1 == inp.nbr
    requires loadingCon.Length0 == inp.nConGroups && loadingCon.Length1 == inp.nbr
    requires sbrCon != loadingCon
    requires forall g, m :: 0 <= g < inp.nConGroups && 0 <= m < inp.nbr ==> sbrCon[g, m] == 0.0 && loadingCon[g, m] == 0.0
    modifies sbrCon, loadingCon
    ensures r.Err? <==> inp.ScanDivides(|inp.monIdx|)
    ensures r.Err? ==> r.error == ZeroDivisionError
    ensures r.Ok? ==> forall g, m :: 0 <= g < inp.nConGroups && 0 <= m < inp.nbr ==>
              sbrCon[g, m] == (if m in inp.monIdx then inp.ColumnFlow(g, m) else 0.0) &&
              loadingCon[g, m] == (if m in inp.monIdx then inp.ColumnLoading(g, m) else 0.0)
    ensures r.Ok? ==> r.value == inp.Problems(|inp.monIdx|)
  {
    var problems: seq<(int, int)> := [];
    var mm := 0;
    while mm < |inp.monIdx|
      invariant mm <= |inp.monIdx|
      invariant !inp.ScanDivides(mm)
      invariant forall g, m :: 0 <= g < inp.nConGroups && 0 <= m < inp.nbr ==>
                  sbrCon[g, m] == (if m in inp.monIdx[..mm] then inp.ColumnFlow(g, m) else 0.0) &&
                  loadingCon[g, m] == (if m in inp.monIdx[..mm] then inp.ColumnLoading(g, m) else 0.0)
      invariant problems == inp.Problems(mm)
    {
      var m := inp.monIdx[mm];
      var step := ScanBranch(inp, sbrCon, loadingCon, m);
      if step.Err? {
        ScanDividesAt(inp, mm);
        return Err(ZeroDivisionError);
      }
      ScanDividesStep(inp, mm);
      assert inp.monIdx[..mm + 1] == inp.monIdx[..mm] + [m];
      ProblemsStep(inp, mm);
      problems := problems + step.value;
      mm := mm + 1;
    }
    assert inp.monIdx[..mm] == inp.monIdx;
    r := Ok(problems);
  }

  /** A monitored branch that divides by zero makes the scan divide by zero. */
  lemma ScanDividesAt(inp: ScanInput, mm: nat)
    requires inp.Ready() && mm < |inp.monIdx| && inp.DividesByZero(inp.monIdx[mm])
    ensures inp.ScanDivides(|inp.monIdx|)
  {
  }

  /** Scanning one more monitored branch divides by zero exactly when that branch does or an earlier one did. */
  lemma ScanDividesStep(inp: ScanInput, k: nat)
    requires inp.Ready() && k < |inp.monIdx|
    ensures inp.ScanDivides(k + 1) <==> inp.ScanDivides(k) || inp.DividesByZero(inp.monIdx[k])
  {
    if inp.ScanDivides(k + 1) && !inp.ScanDivides(k) {
      var i :| 0 <= i < k + 1 && inp.DividesByZero(inp.monIdx[i]);
      assert i == k;
    }
  }

  /** One more pair trips branch m exactly when it overloads m or an earlier pair did. */
  lemma AnyTripsStep(inp: ScanInput, m: nat, p: nat)
    requires inp.Ready() && m < inp.nbr && p < |inp.conBr|
    ensures inp.AnyTrips(m, p + 1) <==> inp.AnyTrips(m, p) || AbsReal(inp.Flow(m, inp.conBr[p])) > inp.conRates[m]
  {
    if inp.AnyTrips(m, p + 1) && !inp.AnyTrips(m, p) {
      var q :| 0 <= q < p + 1 && AbsReal(inp.Flow(m, inp.conBr[q])) > inp.conRates[m];
      assert q == p;
    }
  }

  /**
   * The problem list holds (m, c) exactly when m is a monitored branch and
   * either m is overloaded in the base case (c = −1) or contingency pair c
   * overloads it.
   */
  lemma ScanProblemsMembership(inp: ScanInput, m: int, c: int)
    requires inp.Ready()
    ensures (m, c) in inp.Problems(|inp.monIdx|) <==> m in inp.monIdx && 0 <= m < inp.nbr && inp.IsProblem(m, c)
  {
    var ls := inp.BranchLists(|inp.monIdx|);
    ConcatMembership(ls, (m, c));
    if (m, c) in inp.Problems(|inp.monIdx|) {
      var mm :| 0 <= mm < |ls| && (m, c) in ls[mm];
      BranchProblemsMembership(inp, inp.monIdx[mm], m, c);
    }
    if m in inp.monIdx && 0 <= m < inp.nbr && inp.IsProblem(m, c) {
      var mm :| 0 <= mm < |inp.monIdx| && inp.monIdx[mm] == m;
      BranchProblemsMembership(inp, m, m, c);
      assert (m, c) in ls[mm];
    }
  }

  /** Scanning one more monitored position appends that branch's problems. */
  lemma ProblemsStep(inp: ScanInput, k: nat)
    requires inp.Ready() && k < |inp.monIdx|
    ensures inp.Problems(k + 1) == inp.Problems(k) + inp.BranchProblems(inp.monIdx[k])
  {
    assert inp.BranchLists(k + 1)[..k] == inp.BranchLists(k);
  }

  lemma BranchProblemsMembership(inp: ScanInput, m0: nat, m: int, c: int)
    requires inp.Ready() && m0 < inp.nbr
    ensures (m, c) in inp.BranchProblems(m0) <==> m == m0 && inp.IsProblem(m0, c)
  {
    if !inp.Overloaded(m0) {
      PairProblemsMembership(inp, m0, |inp.conBr|, m, c);
    }
  }

  lemma {:induction false} PairProblemsMembership(inp: ScanInput, m0: nat, n: nat, m: int, c: int)
    requires inp.Ready() && m0 < inp.nbr && n <= |inp.conBr|
    ensures (m, c) in inp.PairProblems(m0, n) <==>
              m == m0 && exists p :: 0 <= p < n && inp.conBr[p] == c && AbsReal(inp.Flow(m0, inp.conBr[p])) > inp.conRates[m0]
  {
    if n > 0 {
      PairProblemsMembership(inp, m0, n - 1, m, c);
    }
  }
}
