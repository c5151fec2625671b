/**
 * Shared vocabulary: optional values, the Python exceptions the modelled code
 * raises, rectangular matrices standing for numpy 2-D arrays, and the decimal
 * rendering of natural numbers used by f-string names.
 */
module Common {

  datatype Option<T> = None | Some(value: T)

  /** The Python exceptions that the modelled functions raise. */
  datatype PyError =
    | ValueError
    | KeyError(key: string)
    | IndexError
    | TypeError
    | AssertionError
    | UnboundLocalError(name: string)
    | AttributeError
    | ZeroDivisionError

  datatype Result<T> = Ok(value: T) | Err(error: PyError)

  /** A numpy 2-D array: `rows` rows of `cols` entries each. */
  datatype Mat<T> = Mat(rows: nat, cols: nat, at: seq<seq<T>>)
  {
    ghost predicate Valid()
    {
      |at| == rows && forall i :: 0 <= i < rows ==> |at[i]| == cols
    }

    /** Entry (r, c) exists and holds x. */
    ghost predicate Has(r: nat, c: nat, x: T)
    {
      Valid() && r < rows && c < cols && at[r][c] == x
    }
  }

  /** The value held by a 2-D array. */
  function MatOf<T>(a: array2<T>): (m: Mat<T>)
    reads a
    ensures m.Valid() && m.rows == a.Length0 && m.cols == a.Length1
    ensures forall t, j :: 0 <= t < a.Length0 && 0 <= j < a.Length1 ==> m.at[t][j] == a[t, j]
  {
    Mat(a.Length0, a.Length1, seq(a.Length0, t requires 0 <= t < a.Length0 reads a =>
                                    seq(a.Length1, j requires 0 <= j < a.Length1 reads a => a[t, j])))
  }

  function AbsReal(x: real): (r: real)
    ensures r >= 0.0 && (r == x || r == -x)
  {
    if x < 0.0 then -x else x
  }

  /** Sum of a vector of reals (numpy `.sum()`). */
  function SumReal(s: seq<real>): real
  {
    if s == [] then 0.0 else SumReal(s[..|s| - 1]) + s[|s| - 1]
  }

  /** Sum of a vector of integers. */
  function SumInt(s: seq<int>): int
  {
    if s == [] then 0 else SumInt(s[..|s| - 1]) + s[|s| - 1]
  }

  /** Number of `true` entries of a boolean vector. */
  function CountTrue(s: seq<bool>): (n: nat)
    ensures n <= |s|
  {
    if s == [] then 0 else CountTrue(s[..|s| - 1]) + (if s[|s| - 1] then 1 else 0)
  }

  ghost predicate StrictlyIncreasing(s: seq<int>)
  {
    forall i, j :: 0 <= i < j < |s| ==> s[i] < s[j]
  }

  /** Inserts `x` before the first element that exceeds it. */
  function InsertSorted(s: seq<int>, x: int): (r: seq<int>)
    ensures |r| == |s| + 1
    ensures forall y :: y in r <==> y in s || y == x
  {
    if s == [] || x < s[0] then [x] + s else [s[0]] + InsertSorted(s[1..], x)
  }

  /** Inserting a new element into a strictly increasing sequence keeps it strictly increasing. */
  lemma {:induction false} InsertSortedIncreasing(s: seq<int>, x: int)
    requires StrictlyIncreasing(s) && x !in s
    ensures StrictlyIncreasing(InsertSorted(s, x))
  {
    if s != [] && x >= s[0] {
      var rest := InsertSorted(s[1..], x);
      InsertSortedIncreasing(s[1..], x);
      forall j | 0 <= j < |rest|
        ensures s[0] < rest[j]
      {
        assert rest[j] in rest;
      }
      var r := [s[0]] + rest;
      forall i, j | 0 <= i < j < |r|
        ensures r[i] < r[j]
      {
        assert r[j] == rest[j - 1];
        if i > 0 {
          assert r[i] == rest[i - 1];
        }
      }
    } else if s != [] {
      var r := [x] + s;
      forall i, j | 0 <= i < j < |r|
        ensures r[i] < r[j]
      {
        assert r[j] == s[j - 1];
        if i > 0 {
          assert r[i] == s[i - 1];
        } else {
          assert s[0] <= s[j - 1];
        }
      }
    }
  }

  /**
   * `np.sort(np.array(list(set(s))))`: the distinct elements of s in ascending
   * order. A Python set that the code iterates is modelled as a sequence
   * without repetitions, so the same routine sorts it.
   */
  method SortedUnique(s: seq<int>) returns (r: seq<int>)
    ensures StrictlyIncreasing(r)
    ensures forall y :: y in r <==> y in s
  {
    r := [];
    var i := 0;
    while i < |s|
      invariant i <= |s| && StrictlyIncreasing(r)
      invariant forall y :: y in r <==> y in s[..i]
    {
      assert s[..i + 1] == s[..i] + [s[i]];
      if s[i] !in r {
        InsertSortedIncreasing(r, s[i]);
        r := InsertSorted(r, s[i]);
      }
      i := i + 1;
    }
    assert s[..i] == s;
  }

  /** Python's `set.add` on a set modelled as a sequence without repetitions. */
  function AddToSet(s: seq<int>, x: int): (r: seq<int>)
    ensures forall y :: y in r <==> y in s || y == x
  {
    if x in s then s else s + [x]
  }

  function Digit(d: nat): char
    requires d < 10
  {
    "0123456789"[d]
  }

  /** Python's `str(n)` for a natural number. */
  function NatStr(n: nat): (s: string)
    ensures |s| >= 1
    ensures forall i :: 0 <= i < |s| ==> '0' <= s[i] <= '9'
  {
    if n < 10 then [Digit(n)] else NatStr(n / 10) + [Digit(n % 10)]
  }

  /** Decimal value of a non-empty digit string; `NatStr` is its right inverse. */
  function DigitsValue(s: string): nat
    requires forall i :: 0 <= i < |s| ==> '0' <= s[i] <= '9'
  {
    if s == [] then 0 else 10 * DigitsValue(s[..|s| - 1]) + ((s[|s| - 1] as int - '0' as int) as nat)
  }

  lemma DigitValue(d: nat)
    requires d < 10
    ensures Digit(d) as int - '0' as int == d
  {
  }

  lemma {:induction false} DigitsValueOfNatStr(n: nat)
    ensures DigitsValue(NatStr(n)) == n
    decreases n
  {
    if n < 10 {
      DigitValue(n);
    } else {
      var s := NatStr(n);
      var q, d := n / 10, n % 10;
      DigitsValueOfNatStr(q);
      DigitValue(d);
      assert s == NatStr(q) + [Digit(d)];
      assert s[..|s| - 1] == NatStr(q);
      assert DigitsValue(s) == 10 * DigitsValue(NatStr(q)) + d;
    }
  }

  /** Distinct numbers render as distinct strings, so names built from indices differ. */
  lemma NatStrInjective(m: nat, n: nat)
    requires m != n
    ensures NatStr(m) != NatStr(n)
  {
    DigitsValueOfNatStr(m);
    DigitsValueOfNatStr(n);
  }

  /** The lists of ss joined in order, as a loop that extends a list by each in turn builds it. */
  function Concat<T>(ss: seq<seq<T>>): seq<T>
  {
    if |ss| == 0 then [] else Concat(ss[..|ss| - 1]) + ss[|ss| - 1]
  }

  /** An element of a joined list comes from one of the parts, and every part's elements are kept. */
  lemma {:induction false} ConcatMembership<T>(ss: seq<seq<T>>, x: T)
    ensures x in Concat(ss) <==> exists i :: 0 <= i < |ss| && x in ss[i]
  {
    if |ss| > 0 {
      var pre := ss[..|ss| - 1];
      ConcatMembership(pre, x);
      if x in Concat(pre) {
        var i :| 0 <= i < |pre| && x in pre[i];
        assert ss[i] == pre[i];
      }
      if i :| 0 <= i < |ss| && x in ss[i] {
        if i < |pre| {
          assert pre[i] == ss[i];
        }
      }
    }
  }
}
