/**
 * The block diagram of a dynamic model (a node map keyed by device uid and
 * a list of connections), its round trip through plain dictionaries, and
 * the `DynamicModelHost` choice between a template and a custom model.
 *
 * The dictionaries are Python values: `PyObj` stands for them, a dict being
 * its entries in insertion order. A parsed node keeps whatever values the
 * dictionary held, as the dataclass does.
 */
module DynamicModel {
  import opened Common

  datatype PyObj =
    | PNone
    | PInt(i: int)
    | PReal(r: real)
    | PStr(s: string)
    | PList(elems: seq<PyObj>)
    | PDict(items: seq<(PyObj, PyObj)>)

  /** Position of the first entry with the given key, or -1 when there is none. */
  function Find(items: seq<(PyObj, PyObj)>, key: PyObj): (i: int)
    ensures -1 <= i < |items|
    ensures i >= 0 ==> items[i].0 == key && forall j :: 0 <= j < i ==> items[j].0 != key
    ensures i < 0 ==> forall j :: 0 <= j < |items| ==> items[j].0 != key
  {
    if items == [] then -1
    else if items[0].0 == key then 0
    else
      var j := Find(items[1..], key);
      if j < 0 then -1 else j + 1
  }

  /** `d[key]` on a dict: the value of the first entry with that key, KeyError when there is none. */
  function Get(d: PyObj, key: string): (r: Result<PyObj>)
    requires d.PDict?
    ensures r.Err? <==> Find(d.items, PStr(key)) < 0
    ensures r.Err? ==> r.error == KeyError(key)
  {
    var i := Find(d.items, PStr(key));
    if i < 0 then Err(KeyError(key)) else Ok(d.items[i].1)
  }

  /** The lookups `d[keys[0]]`, `d[keys[1]]`, ... in order; the first missing key raises. */
  function Fields(d: PyObj, keys: seq<string>): (r: Result<seq<PyObj>>)
    requires d.PDict?
    ensures r.Ok? ==> |r.value| == |keys|
    ensures r.Err? ==> r.error.KeyError? && r.error.key in keys
  {
    if keys == [] then Ok([])
    else
      var first := Get(d, keys[0]);
      if first.Err? then Err(first.error)
      else
        var rest := Fields(d, keys[1..]);
        if rest.Err? then Err(rest.error) else Ok([first.value] + rest.value)
  }

  /** Every lookup succeeds exactly when every key is present, and then yields the keys' values in order. */
  lemma {:induction false} FieldsSpec(d: PyObj, keys: seq<string>)
    requires d.PDict?
    ensures Fields(d, keys).Ok? <==> forall i :: 0 <= i < |keys| ==> Get(d, keys[i]).Ok?
    ensures Fields(d, keys).Ok? ==> forall i :: 0 <= i < |keys| ==> Get(d, keys[i]) == Ok(Fields(d, keys).value[i])
  {
    if keys != [] {
      FieldsSpec(d, keys[1..]);
      assert forall i :: 1 <= i < |keys| ==> keys[i] == keys[1..][i - 1];
    }
  }

  /**
   * The whitespace `int()` skips around a number: tab to carriage return and
   * the space among the ASCII characters, and the non-ASCII characters for
   * which `str.isspace` holds. The ASCII separators 0x1C to 0x1F are not
   * skipped, although `str.isspace` holds for them.
   */
  predicate IsSpace(c: char)
  {
    var x := c as int;
    9 <= x <= 13 || x == 32 || x == 0x85 || x == 0xA0 || x == 0x1680 || 0x2000 <= x <= 0x200A
    || x == 0x2028 || x == 0x2029 || x == 0x202F || x == 0x205F || x == 0x3000
  }

  lemma DigitNotSpace(c: char)
    requires '0' <= c <= '9'
    ensures !IsSpace(c)
  {
  }

  predicate IsDigit(c: char)
  {
    '0' <= c <= '9'
  }

  /** `s.lstrip()`: `s` from its first non-whitespace character on. */
  function StripLeft(s: string): (t: string)
    ensures |t| <= |s|
    ensures t != [] ==> !IsSpace(t[0])
  {
    if s != [] && IsSpace(s[0]) then StripLeft(s[1..]) else s
  }

  /** `s.rstrip()`: `s` up to its last non-whitespace character. */
  function StripRight(s: string): (t: string)
    ensures |t| <= |s|
    ensures t != [] ==> t[0] == s[0] && !IsSpace(t[|t| - 1])
  {
    if s != [] && IsSpace(s[|s| - 1]) then StripRight(s[..|s| - 1]) else s
  }

  /** `s.strip()`: `s` without its leading and trailing whitespace. */
  function Strip(s: string): (t: string)
    ensures t != [] ==> !IsSpace(t[0]) && !IsSpace(t[|t| - 1])
  {
    StripRight(StripLeft(s))
  }

  /** Digits, with single underscores allowed between two digits: the body of a decimal integer literal. */
  predicate Grouped(s: string)
  {
    s != [] && IsDigit(s[0]) && IsDigit(s[|s| - 1])
    && (forall k :: 0 <= k < |s| ==> IsDigit(s[k]) || s[k] == '_')
    && (forall k :: 0 < k < |s| && s[k] == '_' ==> s[k - 1] != '_')
  }

  /** `s` with its underscores dropped. */
  function Unscored(s: string): string
  {
    if s == [] then [] else (if s[0] == '_' then [] else [s[0]]) + Unscored(s[1..])
  }

  /** Dropping the underscores of digits and underscores leaves digits only. */
  lemma {:induction false} UnscoredDigits(s: string)
    requires forall k :: 0 <= k < |s| ==> IsDigit(s[k]) || s[k] == '_'
    ensures forall k :: 0 <= k < |Unscored(s)| ==> '0' <= Unscored(s)[k] <= '9'
  {
    if s != [] {
      UnscoredDigits(s[1..]);
    }
  }

  /** A string without underscores is left as it is. */
  lemma {:induction false} UnscoredNone(s: string)
    requires forall k :: 0 <= k < |s| ==> s[k] != '_'
    ensures Unscored(s) == s
  {
    if s != [] {
      UnscoredNone(s[1..]);
      assert s == [s[0]] + s[1..];
    }
  }

  /** `int(s)` for a string already stripped: an optional sign, then the grouped digits. */
  function SignedValue(t: string): Result<int>
  {
    if t != [] && (t[0] == '+' || t[0] == '-') then Magnitude(t[1..], t[0] == '-') else Magnitude(t, false)
  }

  /** The grouped digits `body` as a number, negated when `neg`; anything else is a ValueError. */
  function Magnitude(body: string, neg: bool): Result<int>
  {
    if Grouped(body) then
      UnscoredDigits(body);
      Ok(if neg then -(DigitsValue(Unscored(body)) as int) else DigitsValue(Unscored(body)))
    else Err(ValueError)
  }

  /**
   * Python's `int(o)`: integers as they are, floats truncated toward zero; a
   * string is stripped of whitespace and must then be an optional sign and
   * ASCII decimal digits, with single underscores between digits, and is
   * read as that decimal number; other strings raise ValueError, other types
   * TypeError.
   */
  function PyIntOf(o: PyObj): (r: Result<int>)
    ensures o.PInt? ==> r == Ok(o.i)
    ensures o.PReal? ==> r.Ok? && (if o.r >= 0.0 then 0.0 <= r.value as real <= o.r < r.value as real + 1.0
                                   else o.r <= r.value as real <= 0.0 && r.value as real - 1.0 < o.r)
    ensures o.PNone? || o.PList? || o.PDict? ==> r == Err(TypeError)
  {
    match o
    case PInt(i) => Ok(i)
    case PReal(x) => Ok(if x >= 0.0 then x.Floor else -((-x).Floor))
    case PStr(s) => SignedValue(Strip(s))
    case _ => Err(TypeError)
  }

  /** `int(str(n))` is n. */
  lemma PyIntOfNatStr(n: nat)
    ensures PyIntOf(PStr(NatStr(n))) == Ok(n)
  {
    DigitsValueOfNatStr(n);
    Unsigned(NatStr(n), n);
  }

  /** The sign `int` accepts before the digits. */
  datatype Sign = NoSign | Plus | Minus

  function SignText(sg: Sign): string
  {
    match sg
    case NoSign => ""
    case Plus => "+"
    case Minus => "-"
  }

  /** A sign may precede the digits: `int("-17")` is -17, `int("+17")` is 17. */
  lemma PyIntOfSigned(n: nat, sg: Sign)
    ensures PyIntOf(PStr(SignText(sg) + NatStr(n))) == Ok(if sg == Minus then -(n as int) else n)
  {
    DigitsValueOfNatStr(n);
    PyIntOfDigits(NatStr(n), n, sg);
  }

  /** An optionally signed run of digits reads as its decimal value `v`. */
  lemma PyIntOfDigits(d: string, v: nat, sg: Sign)
    requires d != [] && forall k :: 0 <= k < |d| ==> '0' <= d[k] <= '9'
    requires v == DigitsValue(d)
    ensures PyIntOf(PStr(SignText(sg) + d)) == Ok(if sg == Minus then -(v as int) else v)
  {
    match sg
    case NoSign =>
      assert SignText(sg) + d == d;
      Unsigned(d, v);
    case Plus => Signed(d, '+', v);
    case Minus => Signed(d, '-', v);
  }

  lemma Unsigned(d: string, v: nat)
    requires d != [] && forall k :: 0 <= k < |d| ==> '0' <= d[k] <= '9'
    requires v == DigitsValue(d)
    ensures PyIntOf(PStr(d)) == Ok(v)
  {
    DigitNotSpace(d[0]);
    DigitNotSpace(d[|d| - 1]);
    StripBare(d);
    MagnitudeDigits(d, false);
  }

  lemma Signed(d: string, c: char, v: nat)
    requires d != [] && forall k :: 0 <= k < |d| ==> '0' <= d[k] <= '9'
    requires v == DigitsValue(d)
    requires c == '+' || c == '-'
    ensures PyIntOf(PStr([c] + d)) == Ok(if c == '-' then -(v as int) else v)
  {
    var t := [c] + d;
    var neg := c == '-';
    assert PyIntOf(PStr(t)) == SignedValue(t) by { SignedBare(t, c, d); PyIntOfBare(t); }
    assert SignedValue(t) == Magnitude(d, neg) by { SignedValueSigned(t, c, d); }
    assert Magnitude(d, neg) == Ok(if neg then -(v as int) else v) by { MagnitudeDigits(d, neg); }
  }

  lemma SignedBare(t: string, c: char, d: string)
    requires d != [] && forall k :: 0 <= k < |d| ==> '0' <= d[k] <= '9'
    requires c == '+' || c == '-'
    requires t == [c] + d
    ensures t != [] && !IsSpace(t[0]) && !IsSpace(t[|t| - 1])
  {
    assert t[0] == c && t[|t| - 1] == d[|d| - 1];
    DigitNotSpace(d[|d| - 1]);
  }

  lemma SignedValueSigned(t: string, c: char, d: string)
    requires c == '+' || c == '-'
    requires t == [c] + d
    ensures SignedValue(t) == Magnitude(d, c == '-')
  {
    assert t[0] == c && t[1..] == d;
  }

  lemma SignedValueUnsigned(t: string)
    requires t != [] && IsDigit(t[0])
    ensures SignedValue(t) == Magnitude(t, false)
  {
  }

  /** Without surrounding whitespace, `int(s)` reads `s` as it is. */
  lemma PyIntOfBare(s: string)
    requires s != [] ==> !IsSpace(s[0]) && !IsSpace(s[|s| - 1])
    ensures PyIntOf(PStr(s)) == SignedValue(s)
  {
    StripBare(s);
  }

  /** Whitespace around a string is ignored: `int(" 17\n")` is `int("17")`. */
  lemma PyIntOfPadded(pre: string, t: string, post: string)
    requires forall k :: 0 <= k < |pre| ==> IsSpace(pre[k])
    requires forall k :: 0 <= k < |post| ==> IsSpace(post[k])
    requires t != [] && !IsSpace(t[0]) && !IsSpace(t[|t| - 1])
    ensures PyIntOf(PStr(pre + t + post)) == PyIntOf(PStr(t))
  {
    StripPadded(pre, t, post);
    StripBare(t);
  }

  lemma MagnitudeDigits(d: string, neg: bool)
    requires d != [] && forall k :: 0 <= k < |d| ==> '0' <= d[k] <= '9'
    ensures Magnitude(d, neg) == Ok(if neg then -(DigitsValue(d) as int) else DigitsValue(d))
  {
    DigitsGrouped(d);
    UnscoredNone(d);
    MagnitudeGrouped(d, d, neg);
  }

  /** Grouped digits read as the number their digits spell, once the underscores are dropped. */
  lemma MagnitudeGrouped(s: string, u: string, neg: bool)
    requires Grouped(s) && u == Unscored(s)
    requires forall k :: 0 <= k < |u| ==> '0' <= u[k] <= '9'
    ensures Magnitude(s, neg) == Ok(if neg then -(DigitsValue(u) as int) else DigitsValue(u))
  {
  }

  lemma DigitsGrouped(d: string)
    requires d != [] && forall k :: 0 <= k < |d| ==> '0' <= d[k] <= '9'
    ensures Grouped(d)
  {
  }

  /** An underscore between two runs of digits changes nothing: `int("1_000")` is `int("1000")`. */
  lemma PyIntOfUnderscore(p: string, q: string)
    requires p != [] && q != []
    requires forall k :: 0 <= k < |p| ==> IsDigit(p[k])
    requires forall k :: 0 <= k < |q| ==> IsDigit(q[k])
    ensures PyIntOf(PStr(p + "_" + q)) == PyIntOf(PStr(p + q))
    ensures forall k :: 0 <= k < |p + q| ==> '0' <= (p + q)[k] <= '9'
    ensures PyIntOf(PStr(p + q)) == Ok(DigitsValue(p + q))
  {
    UnderscoreValue(p, q);
    PyIntOfDigits(p + q, DigitsValue(p + q), NoSign);
    assert SignText(NoSign) + (p + q) == p + q;
  }

  lemma UnderscoreValue(p: string, q: string)
    requires p != [] && q != []
    requires forall k :: 0 <= k < |p| ==> IsDigit(p[k])
    requires forall k :: 0 <= k < |q| ==> IsDigit(q[k])
    ensures forall k :: 0 <= k < |p + q| ==> '0' <= (p + q)[k] <= '9'
    ensures PyIntOf(PStr(p + "_" + q)) == Ok(DigitsValue(p + q))
  {
    var s := p + "_" + q;
    assert s[0] == p[0] && s[|s| - 1] == q[|q| - 1];
    DigitNotSpace(p[0]);
    DigitNotSpace(q[|q| - 1]);
    PyIntOfBare(s);
    SignedValueUnsigned(s);
    UnderscoreGrouped(p, q);
    UnscoredSplit(p, q);
  }

  lemma UnderscoreGrouped(p: string, q: string)
    requires p != [] && q != []
    requires forall k :: 0 <= k < |p| ==> IsDigit(p[k])
    requires forall k :: 0 <= k < |q| ==> IsDigit(q[k])
    ensures Grouped(p + "_" + q)
  {
    var s := p + "_" + q;
    assert s[0] == p[0] && s[|s| - 1] == q[|q| - 1];
    assert forall k :: 0 <= k < |s| ==> s[k] == if k < |p| then p[k] else if k == |p| then '_' else q[k - |p| - 1];
  }

  /** A string without a digit is a ValueError, whatever it holds: `int("")`, `int(" ")`, `int("-")`, `int("abc")`. */
  lemma PyIntOfNoDigits(s: string)
    requires forall k :: 0 <= k < |s| ==> !IsDigit(s[k])
    ensures PyIntOf(PStr(s)) == Err(ValueError)
  {
    StripLeftNoDigits(s);
    StripRightNoDigits(StripLeft(s));
  }

  lemma {:induction false} StripLeftNoDigits(s: string)
    requires forall k :: 0 <= k < |s| ==> !IsDigit(s[k])
    ensures forall k :: 0 <= k < |StripLeft(s)| ==> !IsDigit(StripLeft(s)[k])
  {
    if s != [] && IsSpace(s[0]) {
      StripLeftNoDigits(s[1..]);
    }
  }

  lemma {:induction false} StripRightNoDigits(s: string)
    requires forall k :: 0 <= k < |s| ==> !IsDigit(s[k])
    ensures forall k :: 0 <= k < |StripRight(s)| ==> !IsDigit(StripRight(s)[k])
  {
    if s != [] && IsSpace(s[|s| - 1]) {
      StripRightNoDigits(s[..|s| - 1]);
    }
  }

  /** A doubled, leading or trailing underscore is a ValueError: `int("1__0")`, `int("_1")`, `int("1_")`. */
  lemma PyIntOfBadUnderscore(p: string, q: string)
    requires forall k :: 0 <= k < |p| ==> IsDigit(p[k])
    requires forall k :: 0 <= k < |q| ==> IsDigit(q[k])
    ensures PyIntOf(PStr(p + "__" + q)) == Err(ValueError)
    ensures PyIntOf(PStr("_" + p)) == Err(ValueError)
    ensures PyIntOf(PStr(p + "_")) == Err(ValueError)
  {
    var s := p + "__" + q;
    assert s[|p| + 1] == '_' && s[|p|] == '_';
    assert s[0] == if p == [] then '_' else p[0];
    assert s[|s| - 1] == if q == [] then '_' else q[|q| - 1];
    PyIntOfUngrouped(s);
    var u := "_" + p;
    assert u[|u| - 1] == if p == [] then '_' else p[|p| - 1];
    PyIntOfUngrouped(u);
    var w := p + "_";
    assert w[0] == if p == [] then '_' else p[0];
    PyIntOfUngrouped(w);
  }

  /** An ASCII separator 0x1C to 0x1F is not whitespace to `int()`: `int("\x1c5")` is a ValueError. */
  lemma PyIntOfSeparator(c: char, d: string)
    requires 0x1C <= c as int <= 0x1F
    requires d != [] && forall k :: 0 <= k < |d| ==> '0' <= d[k] <= '9'
    ensures PyIntOf(PStr([c] + d)) == Err(ValueError)
    ensures PyIntOf(PStr(d + [c])) == Err(ValueError)
  {
    var t := [c] + d;
    assert t[0] == c && t[|t| - 1] == d[|d| - 1];
    DigitNotSpace(d[|d| - 1]);
    PyIntOfUngrouped(t);
    var u := d + [c];
    assert u[0] == d[0] && u[|u| - 1] == c;
    DigitNotSpace(d[0]);
    PyIntOfUngrouped(u);
  }

  /** Any other unsigned text without surrounding whitespace that is not grouped digits is a ValueError. */
  lemma PyIntOfUngrouped(s: string)
    requires s != [] && !IsSpace(s[0]) && !IsSpace(s[|s| - 1]) && s[0] != '+' && s[0] != '-'
    requires !Grouped(s)
    ensures PyIntOf(PStr(s)) == Err(ValueError)
  {
    StripBare(s);
  }

  /** A string that neither starts nor ends with whitespace is its own strip. */
  lemma StripBare(t: string)
    requires t != [] ==> !IsSpace(t[0]) && !IsSpace(t[|t| - 1])
    ensures Strip(t) == t
  {
  }

  /** Stripping whitespace off a padded string that neither starts nor ends with whitespace recovers it. */
  lemma StripPadded(pre: string, t: string, post: string)
    requires forall k :: 0 <= k < |pre| ==> IsSpace(pre[k])
    requires forall k :: 0 <= k < |post| ==> IsSpace(post[k])
    requires t != [] && !IsSpace(t[0]) && !IsSpace(t[|t| - 1])
    ensures Strip(pre + t + post) == t
  {
    assert pre + t + post == pre + (t + post);
    StripLeftPadded(pre, t + post);
    StripRightPadded(t, post);
  }

  lemma {:induction false} StripLeftPadded(pre: string, u: string)
    requires forall k :: 0 <= k < |pre| ==> IsSpace(pre[k])
    requires u != [] && !IsSpace(u[0])
    ensures StripLeft(pre + u) == u
    decreases |pre|
  {
    if pre != [] {
      assert (pre + u)[1..] == pre[1..] + u;
      StripLeftPadded(pre[1..], u);
    } else {
      assert pre + u == u;
    }
  }

  lemma {:induction false} StripRightPadded(u: string, post: string)
    requires forall k :: 0 <= k < |post| ==> IsSpace(post[k])
    requires u != [] && !IsSpace(u[|u| - 1])
    ensures StripRight(u + post) == u
    decreases |post|
  {
    if post != [] {
      assert (u + post)[..|u + post| - 1] == u + post[..|post| - 1];
      StripRightPadded(u, post[..|post| - 1]);
    } else {
      assert u + post == u;
    }
  }

  /** Dropping the underscore of `p + "_" + q` gives `p + q`. */
  lemma {:induction false} UnscoredSplit(p: string, q: string)
    requires forall k :: 0 <= k < |p| ==> IsDigit(p[k])
    requires forall k :: 0 <= k < |q| ==> IsDigit(q[k])
    ensures Unscored(p + "_" + q) == p + q
    decreases |p|
  {
    var s := p + "_" + q;
    if p == [] {
      assert s[1..] == q;
      UnscoredNone(q);
    } else {
      assert s[0] == p[0] && s[1..] == p[1..] + "_" + q;
      UnscoredSplit(p[1..], q);
      assert p + q == [p[0]] + (p[1..] + q);
    }
  }

  // ---------------------------------------------------------------------------
  // Diagram values
  // ---------------------------------------------------------------------------

  /** A `BlockDiagramNode`; the sub-diagram is held by value. */
  datatype Node = Node(x: PyObj, y: PyObj, tpe: PyObj, deviceUid: PyObj, stateIns: PyObj, stateOuts: PyObj,
                       algebIns: PyObj, algebOuts: PyObj, sub: Option<Diagram>)

  /** A `BlockDiagramConnection`. */
  datatype Connection = Connection(fromUid: PyObj, toUid: PyObj, portFrom: PyObj, portTo: PyObj, color: PyObj)

  /** A `BlockDiagram`: the node dict as its entries in insertion order, and the connection list. */
  datatype Diagram = Diagram(nodes: seq<(int, Node)>, cons: seq<Connection>)

  function Keys<V>(e: seq<(int, V)>): (ks: seq<int>)
    ensures |ks| == |e| && forall i :: 0 <= i < |e| ==> ks[i] == e[i].0
  {
    if e == [] then [] else [e[0].0] + Keys(e[1..])
  }

  /** `d.get(k)` on a dict given by its entries. */
  function Lookup<V>(e: seq<(int, V)>, k: int): (r: Option<V>)
    ensures r.None? <==> k !in Keys(e)
  {
    if e == [] then None else if e[0].0 == k then Some(e[0].1) else Lookup(e[1..], k)
  }

  ghost predicate DistinctKeys<V>(e: seq<(int, V)>)
  {
    forall i, j :: 0 <= i < j < |e| ==> e[i].0 != e[j].0
  }

  /**
   * `d[k] = v`: a present key keeps its place and gets the new value, a new
   * key is appended.
   */
  function Upsert<V>(e: seq<(int, V)>, k: int, v: V): (r: seq<(int, V)>)
    ensures k !in Keys(e) ==> r == e + [(k, v)]
    ensures k in Keys(e) ==> Keys(r) == Keys(e)
  {
    if e == [] then [(k, v)]
    else if e[0].0 == k then
      assert Keys([(k, v)] + e[1..]) == [k] + Keys(e[1..]);
      [(k, v)] + e[1..]
    else
      var rest := Upsert(e[1..], k, v);
      assert Keys([e[0]] + rest) == [e[0].0] + Keys(rest);
      assert Keys(e) == [e[0].0] + Keys(e[1..]);
      [e[0]] + rest
  }

  /** After `d[k] = v`, k holds v and every other key keeps its value. */
  lemma {:induction false} UpsertLookup<V>(e: seq<(int, V)>, k: int, v: V, k': int)
    ensures Lookup(Upsert(e, k, v), k) == Some(v)
    ensures k' != k ==> Lookup(Upsert(e, k, v), k') == Lookup(e, k')
  {
    if e != [] && e[0].0 != k {
      UpsertLookup(e[1..], k, v, k');
    }
  }

  /** `d[k] = v` keeps the keys distinct. */
  lemma UpsertDistinct<V>(e: seq<(int, V)>, k: int, v: V)
    requires DistinctKeys(e)
    ensures DistinctKeys(Upsert(e, k, v))
  {
    var r := Upsert(e, k, v);
    if k in Keys(e) {
      assert Keys(r) == Keys(e);
      assert forall i :: 0 <= i < |r| ==> r[i].0 == Keys(e)[i];
    }
  }

  /** Every node dict of the diagram, nested ones included, has distinct keys. */
  ghost predicate WellKeyed(d: Diagram)
    decreases d
  {
    DistinctKeys(d.nodes) &&
    forall i :: 0 <= i < |d.nodes| && d.nodes[i].1.sub.Some? ==> WellKeyed(d.nodes[i].1.sub.value)
  }

  /** `d[k] = v` keeps a diagram well keyed when v's own sub-diagram is. */
  lemma UpsertWellKeyed(e: seq<(int, Node)>, cs: seq<Connection>, k: int, v: Node)
    requires WellKeyed(Diagram(e, cs)) && (v.sub.Some? ==> WellKeyed(v.sub.value))
    ensures WellKeyed(Diagram(Upsert(e, k, v), cs))
  {
    var r := Upsert(e, k, v);
    UpsertDistinct(e, k, v);
    forall i | 0 <= i < |r| && r[i].1.sub.Some? ensures WellKeyed(r[i].1.sub.value) {
      var k' := r[i].0;
      LookupDistinct(r, i);
      UpsertLookup(e, k, v, k');
      if k' != k {
        var j := KeyIndex(e, k');
      }
    }
  }

  // ---------------------------------------------------------------------------
  // Serialisation: get_node_dict, get_node_data_dict, get_con_data_dict
  // ---------------------------------------------------------------------------

  /** The key `parse_nodes` reads the state outputs from. */
  const OutsKey: string := "state_outs"

  /** The key `get_node_dict` writes the state outputs under. */
  const AsWrittenOutsKey: string := "state_uots"

  /** The keys of a node dict, in the order `get_node_dict` writes them, the state outputs under outsKey. */
  function NodeKeysWith(outsKey: string): seq<string>
  {
    ["x", "y", "tpe", "device_uid", "state_ins", outsKey, "algeb_ins", "algeb_outs"]
  }

  /** The keys of a node dict, in the order `parse_nodes` reads them. */
  const NodeKeys: seq<string> := NodeKeysWith(OutsKey)

  const ConnKeys: seq<string> := ["from_uid", "to_uid", "port_number_from", "port_number_to", "color"]

  /** The values of a node's eight plain fields, in key order. */
  function NodeVals(n: Node): seq<PyObj>
  {
    [n.x, n.y, n.tpe, n.deviceUid, n.stateIns, n.stateOuts, n.algebIns, n.algebOuts]
  }

  /** Dict entries pairing each key, as a string, with its value. */
  function Entries(keys: seq<string>, vals: seq<PyObj>): (r: seq<(PyObj, PyObj)>)
    requires |keys| == |vals|
    ensures |r| == |keys| && forall i :: 0 <= i < |keys| ==> r[i] == (PStr(keys[i]), vals[i])
  {
    seq(|keys|, i requires 0 <= i < |keys| => (PStr(keys[i]), vals[i]))
  }

  /** `get_node_dict`, writing the state outputs under outsKey. */
  function NodeDictWith(n: Node, outsKey: string): PyObj
    decreases n, 1
  {
    PDict(Entries(NodeKeysWith(outsKey), NodeVals(n)) + SubEntry(n, outsKey))
  }

  /** The "sub_diagram" entry `get_node_dict` adds when the node has a sub-diagram. */
  function SubEntry(n: Node, outsKey: string): seq<(PyObj, PyObj)>
    decreases n, 0
  {
    if n.sub.Some? then
      [(PStr("sub_diagram"), PDict([(PStr("nodes"), NodeDataDictWith(n.sub.value, outsKey)),
                                    (PStr("connections"), ConsDict(n.sub.value.cons))]))]
    else []
  }

  /** `get_node_data_dict`: the node dicts keyed by device uid, in the node map's order. */
  function NodeDataDictWith(d: Diagram, outsKey: string): (r: PyObj)
    decreases d
    ensures r.PDict? && |r.items| == |d.nodes|
    ensures forall i :: 0 <= i < |d.nodes| ==> r.items[i].0 == PInt(d.nodes[i].0)
  {
    PDict(seq(|d.nodes|, i requires 0 <= i < |d.nodes| => (PInt(d.nodes[i].0), NodeDictWith(d.nodes[i].1, outsKey))))
  }

  function ConnectionDict(c: Connection): PyObj
  {
    PDict([(PStr("from_uid"), c.fromUid), (PStr("to_uid"), c.toUid), (PStr("port_number_from"), c.portFrom),
           (PStr("port_number_to"), c.portTo), (PStr("color"), c.color)])
  }

  /** `get_con_data_dict`: the connections keyed 0..n-1 in list order. */
  function ConsDict(cons: seq<Connection>): (r: PyObj)
    ensures r.PDict? && |r.items| == |cons|
    ensures forall i :: 0 <= i < |cons| ==> r.items[i] == (PInt(i), ConnectionDict(cons[i]))
  {
    PDict(seq(|cons|, i requires 0 <= i < |cons| => (PInt(i), ConnectionDict(cons[i]))))
  }

  // ---------------------------------------------------------------------------
  // Parsing: parse_nodes, parse_branches
  // ---------------------------------------------------------------------------

  /** One entry of `parse_branches`: TypeError for a non-dict, KeyError for a missing field. */
  function ParseConnection(o: PyObj): (r: Result<Connection>)
    ensures !o.PDict? ==> r == Err(TypeError)
    ensures o.PDict? ==> (r.Ok? <==> Fields(o, ConnKeys).Ok?)
  {
    if !o.PDict? then Err(TypeError)
    else
      var fs := Fields(o, ConnKeys);
      if fs.Err? then Err(fs.error) else Ok(Connection(fs.value[0], fs.value[1], fs.value[2], fs.value[3], fs.value[4]))
  }

  /** The connection list after the first n entries of `parse_branches`, and the exception raised, if any. */
  function BranchesUpTo(data: PyObj, n: nat): (r: (seq<Connection>, Option<PyError>))
    requires data.PDict? && n <= |data.items|
    ensures |r.0| <= n
  {
    if n == 0 then ([], None)
    else
      var prev := BranchesUpTo(data, n - 1);
      if prev.1.Some? then prev
      else
        var c := ParseConnection(data.items[n - 1].1);
        if c.Err? then (prev.0, Some(c.error)) else (prev.0 + [c.value], None)
  }

  /** `parse_branches` on values: AttributeError when the argument is not a dict. */
  function ParseBranchesVal(data: PyObj): (r: Result<seq<Connection>>)
    ensures !data.PDict? ==> r == Err(AttributeError)
    ensures data.PDict? && r.Ok? ==> |r.value| == |data.items|
  {
    if !data.PDict? then Err(AttributeError)
    else
      var (cs, raised) := BranchesUpTo(data, |data.items|);
      if raised.Some? then Err(raised.value)
      else
        BranchesUpToOk(data, |data.items|);
        Ok(cs)
  }

  lemma {:induction false} BranchesUpToOk(data: PyObj, n: nat)
    requires data.PDict? && n <= |data.items|
    ensures BranchesUpTo(data, n).1.None? ==> |BranchesUpTo(data, n).0| == n
  {
    if n > 0 {
      BranchesUpToOk(data, n - 1);
    }
  }

  /**
   * The sub-diagram of one `parse_nodes` entry: None when the key is absent
   * or holds None; otherwise its "nodes" are parsed, then its "connections".
   */
  function ParseSubDiagram(o: PyObj): (r: Result<Option<Diagram>>)
    requires o.PDict?
    decreases o, 3
    ensures Find(o.items, PStr("sub_diagram")) < 0 ==> r == Ok(None)
  {
    var si := Find(o.items, PStr("sub_diagram"));
    if si < 0 || o.items[si].1 == PNone then Ok(None)
    else if !o.items[si].1.PDict? then Err(TypeError)
    else
      var s := o.items[si].1;
      var ni := Find(s.items, PStr("nodes"));
      if ni < 0 then Err(KeyError("nodes"))
      else
        var ns := ParseNodesVal(s.items[ni].1);
        if ns.Err? then Err(ns.error)
        else
          var ci := Find(s.items, PStr("connections"));
          if ci < 0 then Err(KeyError("connections"))
          else
            var cs := ParseBranchesVal(s.items[ci].1);
            if cs.Err? then Err(cs.error) else Ok(Some(Diagram(ns.value, cs.value)))
  }

  /** One entry of `parse_nodes`: TypeError for a non-dict; the sub-diagram first, then the eight fields in order. */
  function ParseNodeObj(o: PyObj): (r: Result<Node>)
    decreases o, 4
    ensures !o.PDict? ==> r == Err(TypeError)
  {
    if !o.PDict? then Err(TypeError)
    else
      var sd := ParseSubDiagram(o);
      if sd.Err? then Err(sd.error)
      else
        var fs := Fields(o, NodeKeys);
        if fs.Err? then Err(fs.error)
        else Ok(Node(fs.value[0], fs.value[1], fs.value[2], fs.value[3], fs.value[4], fs.value[5], fs.value[6],
                     fs.value[7], sd.value))
  }

  /**
   * One entry of `parse_nodes`: the node is built before `int(uid)` is taken,
   * as Python evaluates the right-hand side of `d[k] = v` first.
   */
  function ParseEntry(e: (PyObj, PyObj)): (r: Result<(int, Node)>)
    decreases e, 0
    ensures ParseNodeObj(e.1).Err? ==> r == Err(ParseNodeObj(e.1).error)
  {
    var node := ParseNodeObj(e.1);
    if node.Err? then Err(node.error)
    else
      var uid := PyIntOf(e.0);
      if uid.Err? then Err(uid.error) else Ok((uid.value, node.value))
  }

  /** What each entry of a dict parses to, in order. */
  function EntryResults(data: PyObj): (rs: seq<Result<(int, Node)>>)
    requires data.PDict?
    decreases data, 1
    ensures |rs| == |data.items|
  {
    seq(|data.items|, i requires 0 <= i < |data.items| => ParseEntry(data.items[i]))
  }

  /**
   * The map after storing the first n parse results in order, `d[k] = v`
   * for each, and the exception raised, if any: the first error ends the loop.
   */
  function StoreUpTo<V>(rs: seq<Result<(int, V)>>, n: nat): (r: (seq<(int, V)>, Option<PyError>))
    requires n <= |rs|
  {
    if n == 0 then ([], None)
    else
      var prev := StoreUpTo(rs, n - 1);
      if prev.1.Some? then prev
      else if rs[n - 1].Err? then (prev.0, Some(rs[n - 1].error))
      else (Upsert(prev.0, rs[n - 1].value.0, rs[n - 1].value.1), None)
  }

  /** `parse_nodes` on values: AttributeError when the argument is not a dict. */
  function ParseNodesVal(data: PyObj): (r: Result<seq<(int, Node)>>)
    decreases data, 2
    ensures !data.PDict? ==> r == Err(AttributeError)
  {
    if !data.PDict? then Err(AttributeError)
    else
      var (ns, raised) := StoreUpTo(EntryResults(data), |data.items|);
      if raised.Some? then Err(raised.value) else Ok(ns)
  }

  // ---------------------------------------------------------------------------
  // Round trips
  // ---------------------------------------------------------------------------

  /** The entry at position p is the first with its key. */
  lemma {:induction false} FindAt(items: seq<(PyObj, PyObj)>, key: PyObj, p: nat)
    requires p < |items| && items[p].0 == key && forall j :: 0 <= j < p ==> items[j].0 != key
    ensures Find(items, key) == p
  {
    if p > 0 {
      FindAt(items[1..], key, p - 1);
    }
  }

  /** When every lookup yields the given value, the lookups in order yield the values in order. */
  lemma {:induction false} FieldsOk(d: PyObj, keys: seq<string>, vals: seq<PyObj>)
    requires d.PDict? && |vals| == |keys| && forall i :: 0 <= i < |keys| ==> Get(d, keys[i]) == Ok(vals[i])
    ensures Fields(d, keys) == Ok(vals)
  {
    if keys != [] {
      FieldsOk(d, keys[1..], vals[1..]);
      assert vals == [vals[0]] + vals[1..];
    }
  }

  /** The first missing key of the lookups is the one reported. */
  lemma {:induction false} FieldsMissing(d: PyObj, keys: seq<string>, p: nat)
    requires d.PDict? && p < |keys| && Get(d, keys[p]).Err? && forall i :: 0 <= i < p ==> Get(d, keys[i]).Ok?
    ensures Fields(d, keys) == Err(KeyError(keys[p]))
  {
    if p > 0 {
      FieldsMissing(d, keys[1..], p - 1);
    }
  }

  lemma ConnectionFields(c: Connection)
    ensures Fields(ConnectionDict(c), ConnKeys) == Ok([c.fromUid, c.toUid, c.portFrom, c.portTo, c.color])
  {
    var o := ConnectionDict(c);
    FindAt(o.items, PStr("from_uid"), 0);
    FindAt(o.items, PStr("to_uid"), 1);
    FindAt(o.items, PStr("port_number_from"), 2);
    FindAt(o.items, PStr("port_number_to"), 3);
    FindAt(o.items, PStr("color"), 4);
    FieldsOk(o, ConnKeys, [c.fromUid, c.toUid, c.portFrom, c.portTo, c.color]);
  }

  ghost predicate DistinctStrs(keys: seq<string>)
  {
    forall i, j :: 0 <= i < j < |keys| ==> keys[i] != keys[j]
  }

  /** The node keys differ from each other, from "sub_diagram", and the keys as written lack 'state_outs'. */
  lemma NodeKeysDistinct(outsKey: string)
    requires outsKey == OutsKey || outsKey == AsWrittenOutsKey
    ensures DistinctStrs(NodeKeysWith(outsKey))
    ensures "sub_diagram" !in NodeKeysWith(outsKey)
    ensures outsKey == AsWrittenOutsKey ==> OutsKey !in NodeKeysWith(outsKey)
  {
    var ks := NodeKeysWith(outsKey);
    forall i, j | 0 <= i < j < |ks|
      ensures ks[i] != ks[j]
    {
      assert |ks[i]| != |ks[j]| || ks[i][0] != ks[j][0];
    }
    assert OutsKey[6] != AsWrittenOutsKey[6];
  }

  /** A lookup past entries that lack the key continues in the entries after them. */
  lemma {:induction false} FindAppend(a: seq<(PyObj, PyObj)>, b: seq<(PyObj, PyObj)>, key: PyObj)
    requires forall j :: 0 <= j < |a| ==> a[j].0 != key
    ensures Find(a + b, key) == if Find(b, key) < 0 then -1 else |a| + Find(b, key)
  {
    if a == [] {
      assert a + b == b;
    } else {
      assert (a + b)[0] == a[0];
      assert (a + b)[1..] == a[1..] + b;
      FindAppend(a[1..], b, key);
    }
  }

  /** With distinct keys, looking up key p of the entries finds entry p, whatever follows. */
  lemma FindEntry(keys: seq<string>, vals: seq<PyObj>, extra: seq<(PyObj, PyObj)>, p: nat)
    requires |keys| == |vals| && p < |keys| && forall j :: 0 <= j < p ==> keys[j] != keys[p]
    ensures Find(Entries(keys, vals) + extra, PStr(keys[p])) == p
  {
    var items := Entries(keys, vals) + extra;
    forall j | 0 <= j < p
      ensures items[j].0 != PStr(keys[p])
    {
      assert items[j] == (PStr(keys[j]), vals[j]);
    }
    FindAt(items, PStr(keys[p]), p);
  }

  /** Field p of a node dict holds the node's field p. */
  lemma NodeDictGet(n: Node, outsKey: string, p: nat)
    requires (outsKey == OutsKey || outsKey == AsWrittenOutsKey) && p < 8
    ensures Get(NodeDictWith(n, outsKey), NodeKeysWith(outsKey)[p]) == Ok(NodeVals(n)[p])
  {
    NodeKeysDistinct(outsKey);
    FindEntry(NodeKeysWith(outsKey), NodeVals(n), SubEntry(n, outsKey), p);
  }

  /** A node dict has a "sub_diagram" entry, after the eight fields, exactly when the node has a sub-diagram. */
  lemma NodeSubFind(n: Node, outsKey: string)
    requires outsKey == OutsKey || outsKey == AsWrittenOutsKey
    ensures Find(NodeDictWith(n, outsKey).items, PStr("sub_diagram")) == if n.sub.Some? then 8 else -1
  {
    var e := Entries(NodeKeysWith(outsKey), NodeVals(n));
    NodeKeysDistinct(outsKey);
    forall j | 0 <= j < |e|
      ensures e[j].0 != PStr("sub_diagram")
    {
      assert NodeKeysWith(outsKey)[j] in NodeKeysWith(outsKey);
    }
    FindAppend(e, SubEntry(n, outsKey), PStr("sub_diagram"));
  }

  /** The sub-diagram entry of a node dict holds the dicts of the nested nodes and connections. */
  lemma SubDictFind(n: Node, outsKey: string)
    requires n.sub.Some?
    ensures |NodeDictWith(n, outsKey).items| == 9 && NodeDictWith(n, outsKey).items[8] == SubEntry(n, outsKey)[0]
    ensures SubEntry(n, outsKey)[0].1.PDict?
    ensures Find(SubEntry(n, outsKey)[0].1.items, PStr("nodes")) == 0
    ensures Find(SubEntry(n, outsKey)[0].1.items, PStr("connections")) == 1
    ensures SubEntry(n, outsKey)[0].1.items[0].1 == NodeDataDictWith(n.sub.value, outsKey)
    ensures SubEntry(n, outsKey)[0].1.items[1].1 == ConsDict(n.sub.value.cons)
  {
    var s := SubEntry(n, outsKey)[0].1;
    FindAt(s.items, PStr("nodes"), 0);
    FindAt(s.items, PStr("connections"), 1);
  }

  lemma {:induction false} BranchesUpToOfDict(cons: seq<Connection>, n: nat)
    requires n <= |cons|
    ensures BranchesUpTo(ConsDict(cons), n) == (cons[..n], None)
  {
    if n > 0 {
      BranchesUpToOfDict(cons, n - 1);
      ConnectionFields(cons[n - 1]);
      assert cons[..n] == cons[..n - 1] + [cons[n - 1]];
    }
  }

  /** `parse_branches(get_con_data_dict())` rebuilds the same connections in the same order. */
  lemma ConnectionsRoundTrip(cons: seq<Connection>)
    ensures ParseBranchesVal(ConsDict(cons)) == Ok(cons)
  {
    BranchesUpToOfDict(cons, |cons|);
    assert cons[..|cons|] == cons;
  }

  /** The sub-diagram entry of a node's dict parses back to the node's sub-diagram. */
  lemma {:induction false} SubRoundTrip(n: Node)
    requires n.sub.Some? ==> WellKeyed(n.sub.value)
    ensures ParseSubDiagram(NodeDictWith(n, OutsKey)) == Ok(n.sub)
    decreases n, 0
  {
    NodeSubFind(n, OutsKey);
    if n.sub.Some? {
      SubDictFind(n, OutsKey);
      NodesRoundTrip(n.sub.value);
      ConnectionsRoundTrip(n.sub.value.cons);
    }
  }

  /** Parsing the dict of one node gives that node back. */
  lemma {:induction false} NodeRoundTrip(n: Node)
    requires n.sub.Some? ==> WellKeyed(n.sub.value)
    ensures ParseNodeObj(NodeDictWith(n, OutsKey)) == Ok(n)
    decreases n, 1
  {
    var o := NodeDictWith(n, OutsKey);
    SubRoundTrip(n);
    forall p | 0 <= p < 8
      ensures Get(o, NodeKeys[p]) == Ok(NodeVals(n)[p])
    {
      NodeDictGet(n, OutsKey, p);
    }
    FieldsOk(o, NodeKeys, NodeVals(n));
  }

  /** Entry i of the node data dict parses to node i under its uid. */
  lemma NodeEntryRoundTrip(d: Diagram, i: nat)
    requires WellKeyed(d) && i < |d.nodes|
    ensures EntryResults(NodeDataDictWith(d, OutsKey))[i] == Ok(d.nodes[i])
    decreases d, 0
  {
    var data := NodeDataDictWith(d, OutsKey);
    NodeRoundTrip(d.nodes[i].1);
    assert data.items[i] == (PInt(d.nodes[i].0), NodeDictWith(d.nodes[i].1, OutsKey));
  }

  lemma SliceSnoc<T>(s: seq<T>, k: nat)
    requires 0 < k <= |s|
    ensures s[..k] == s[..k - 1] + [s[k - 1]]
  {
  }

  /** With distinct keys, the key at position i is not among the keys before it. */
  lemma KeyFresh<V>(e: seq<(int, V)>, i: nat)
    requires DistinctKeys(e) && i < |e|
    ensures e[i].0 !in Keys(e[..i])
  {
  }

  /** When the results are the entries of a map with distinct keys, storing them rebuilds the map. */
  lemma {:induction false} StoreUpToAll<V>(rs: seq<Result<(int, V)>>, e: seq<(int, V)>, k: nat)
    requires DistinctKeys(e) && |rs| == |e| && k <= |e| && forall i :: 0 <= i < |e| ==> rs[i] == Ok(e[i])
    ensures StoreUpTo(rs, k) == (e[..k], None)
  {
    if k > 0 {
      StoreUpToAll(rs, e, k - 1);
      KeyFresh(e, k - 1);
      SliceSnoc(e, k);
    }
  }

  /**
   * `parse_nodes(get_node_data_dict())` with the key `parse_nodes` expects
   * rebuilds the same node map, nested diagrams included.
   */
  lemma {:induction false} NodesRoundTrip(d: Diagram)
    requires WellKeyed(d)
    ensures ParseNodesVal(NodeDataDictWith(d, OutsKey)) == Ok(d.nodes)
    decreases d, 2
  {
    var rs := EntryResults(NodeDataDictWith(d, OutsKey));
    forall i | 0 <= i < |d.nodes|
      ensures rs[i] == Ok(d.nodes[i])
    {
      NodeEntryRoundTrip(d, i);
    }
    StoreUpToAll(rs, d.nodes, |d.nodes|);
    assert d.nodes[..|d.nodes|] == d.nodes;
  }

  /** The dict `get_node_dict` writes lacks 'state_outs', so parsing it raises KeyError('state_outs'). */
  lemma {:induction false} AsWrittenNodeFails(n: Node)
    ensures ParseNodeObj(NodeDictWith(n, AsWrittenOutsKey)) == Err(KeyError(OutsKey))
    decreases n, 1
  {
    var o := NodeDictWith(n, AsWrittenOutsKey);
    AsWrittenSubDiagram(n);
    forall p | 0 <= p < 5
      ensures Get(o, NodeKeys[p]).Ok?
    {
      NodeDictGet(n, AsWrittenOutsKey, p);
    }
    AsWrittenLacksOuts(n);
    FieldsMissing(o, NodeKeys, 5);
  }

  /** The sub-diagram of a node dict as written parses, or raises the same KeyError. */
  lemma {:induction false} AsWrittenSubDiagram(n: Node)
    ensures ParseSubDiagram(NodeDictWith(n, AsWrittenOutsKey)).Ok? ||
            ParseSubDiagram(NodeDictWith(n, AsWrittenOutsKey)) == Err(KeyError(OutsKey))
    decreases n, 0
  {
    NodeSubFind(n, AsWrittenOutsKey);
    if n.sub.Some? {
      SubDictFind(n, AsWrittenOutsKey);
      AsWrittenNodesFail(n.sub.value);
      if |n.sub.value.nodes| == 0 {
        ConnectionsRoundTrip(n.sub.value.cons);
      }
    }
  }

  lemma AsWrittenLacksOuts(n: Node)
    ensures Find(NodeDictWith(n, AsWrittenOutsKey).items, PStr(OutsKey)) < 0
  {
    var e := Entries(NodeKeysWith(AsWrittenOutsKey), NodeVals(n));
    NodeKeysDistinct(AsWrittenOutsKey);
    forall j | 0 <= j < |e|
      ensures e[j].0 != PStr(OutsKey)
    {
      assert NodeKeysWith(AsWrittenOutsKey)[j] in NodeKeysWith(AsWrittenOutsKey);
    }
    FindAppend(e, SubEntry(n, AsWrittenOutsKey), PStr(OutsKey));
    if n.sub.Some? {
      assert |"sub_diagram"| != |OutsKey|;
    }
  }

  /** Once the first result is an error, storing stops there with that error. */
  lemma {:induction false} StoreUpToFirstErr<V>(rs: seq<Result<(int, V)>>, k: nat)
    requires 0 < k <= |rs| && rs[0].Err?
    ensures StoreUpTo(rs, k) == ([], Some(rs[0].error))
  {
    if k > 1 {
      StoreUpToFirstErr(rs, k - 1);
    }
  }

  /**
   * Parsing the output of `get_node_data_dict` as written succeeds only on an
   * empty node map, and raises KeyError('state_outs') otherwise.
   */
  lemma {:induction false} AsWrittenNodesFail(d: Diagram)
    ensures |d.nodes| == 0 ==> ParseNodesVal(NodeDataDictWith(d, AsWrittenOutsKey)) == Ok([])
    ensures |d.nodes| > 0 ==> ParseNodesVal(NodeDataDictWith(d, AsWrittenOutsKey)) == Err(KeyError(OutsKey))
    decreases d, 2
  {
    if |d.nodes| > 0 {
      var data := NodeDataDictWith(d, AsWrittenOutsKey);
      AsWrittenNodeFails(d.nodes[0].1);
      assert data.items[0] == (PInt(d.nodes[0].0), NodeDictWith(d.nodes[0].1, AsWrittenOutsKey));
      StoreUpToFirstErr(EntryResults(data), |d.nodes|);
    }
  }

  // ---------------------------------------------------------------------------
  // BlockDiagram
  // ---------------------------------------------------------------------------

  function StrList(ss: seq<string>): (r: PyObj)
    ensures r.PList? && |r.elems| == |ss| && forall i :: 0 <= i < |ss| ==> r.elems[i] == PStr(ss[i])
  {
    PList(seq(|ss|, i requires 0 <= i < |ss| => PStr(ss[i])))
  }

  /** A diagram: a node dict keyed by device uid and a list of connections. */
  class BlockDiagram {
    var nodeData: seq<(int, Node)>
    var conData: seq<Connection>

    ghost predicate Valid()
      reads this
    {
      WellKeyed(Value())
    }

    function Value(): Diagram
      reads this
    {
      Diagram(nodeData, conData)
    }

    constructor ()
      ensures Valid() && nodeData == [] && conData == []
    {
      nodeData, conData := [], [];
    }

    /** `add_node`: stores the node under its device uid, replacing any node with that uid. */
    method AddNode(x: real, y: real, tpe: string, deviceUid: int, stateIns: int, stateOuts: seq<string>,
                   algebIns: int, algebOuts: seq<string>, sub: Option<BlockDiagram>)
      requires Valid() && (sub.Some? ==> sub.value.Valid())
      modifies this
      ensures Valid()
      ensures nodeData == Upsert(old(nodeData), deviceUid,
                                 Node(PReal(x), PReal(y), PStr(tpe), PInt(deviceUid), PInt(stateIns), StrList(stateOuts),
                                      PInt(algebIns), StrList(algebOuts), old(if sub.Some? then Some(sub.value.Value()) else None)))
      ensures conData == old(conData)
    {
      var sd := if sub.Some? then Some(sub.value.Value()) else None;
      var node := Node(PReal(x), PReal(y), PStr(tpe), PInt(deviceUid), PInt(stateIns), StrList(stateOuts),
                       PInt(algebIns), StrList(algebOuts), sd);
      UpsertWellKeyed(nodeData, conData, deviceUid, node);
      nodeData := Upsert(nodeData, deviceUid, node);
    }

    /** `add_branch`: appends the connection, so connections are kept in insertion order. */
    method AddBranch(fromUid: int, toUid: int, portFrom: int, portTo: int, color: string)
      requires Valid()
      modifies this
      ensures Valid()
      ensures conData == old(conData) + [Connection(PInt(fromUid), PInt(toUid), PInt(portFrom), PInt(portTo), PStr(color))]
      ensures nodeData == old(nodeData)
    {
      conData := conData + [Connection(PInt(fromUid), PInt(toUid), PInt(portFrom), PInt(portTo), PStr(color))];
    }

    /** `get_node_data_dict`, writing the key `parse_nodes` reads. */
    function NodeDataDict(): (r: PyObj)
      reads this
      ensures r.PDict? && |r.items| == |nodeData|
      ensures forall i :: 0 <= i < |nodeData| ==> r.items[i].0 == PInt(nodeData[i].0)
    {
      NodeDataDictWith(Value(), OutsKey)
    }

    /** `get_con_data_dict`. */
    function ConDataDict(): (r: PyObj)
      reads this
      ensures r.PDict? && |r.items| == |conData|
      ensures forall i :: 0 <= i < |conData| ==> r.items[i] == (PInt(i), ConnectionDict(conData[i]))
    {
      ConsDict(conData)
    }

    /**
     * `parse_nodes`: empties the node dict, then parses the entries in order
     * until one raises; the entries parsed before the exception stay.
     */
    method ParseNodes(data: PyObj) returns (raised: Option<PyError>)
      modifies this
      ensures !data.PDict? ==> nodeData == [] && raised == Some(AttributeError)
      ensures data.PDict? ==> (nodeData, raised) == StoreUpTo(EntryResults(data), |data.items|)
      ensures raised.None? <==> ParseNodesVal(data).Ok?
      ensures raised.None? ==> nodeData == ParseNodesVal(data).value
      ensures raised.Some? ==> raised.value == ParseNodesVal(data).error
      ensures conData == old(conData)
      ensures Valid()
    {
      nodeData := [];
      if !data.PDict? {
        return Some(AttributeError);
      }
      raised := StoreEntries(data);
      ParsedNodesWellKeyed(data, conData);
    }

    /** The loop of `parse_nodes`: stores the entries in order, `d[int(uid)] = node`, until one raises. */
    method StoreEntries(data: PyObj) returns (raised: Option<PyError>)
      requires data.PDict? && nodeData == []
      modifies this
      ensures (nodeData, raised) == StoreUpTo(EntryResults(data), |data.items|)
      ensures conData == old(conData)
    {
      ghost var rs := EntryResults(data);
      var i := 0;
      while i < |data.items|
        invariant i <= |data.items| && StoreUpTo(rs, i) == (nodeData, None)
        invariant conData == old(conData)
      {
        var next;
        next, raised := ParseNodeEntry(data, i, nodeData);
        nodeData := next;
        if raised.Some? {
          StoreUpToStops(rs, i + 1);
          return;
        }
        i := i + 1;
      }
      return None;
    }

    /** `parse_branches`: empties the connection list, then appends the parsed entries in order until one raises. */
    method ParseBranches(data: PyObj) returns (raised: Option<PyError>)
      modifies this
      ensures !data.PDict? ==> conData == [] && raised == Some(AttributeError)
      ensures data.PDict? ==> (conData, raised) == BranchesUpTo(data, |data.items|)
      ensures raised.None? <==> ParseBranchesVal(data).Ok?
      ensures raised.None? ==> conData == ParseBranchesVal(data).value
      ensures raised.Some? ==> raised.value == ParseBranchesVal(data).error
      ensures nodeData == old(nodeData)
      ensures old(Valid()) ==> Valid()
    {
      conData := [];
      if !data.PDict? {
        return Some(AttributeError);
      }
      var i := 0;
      while i < |data.items|
        invariant i <= |data.items| && BranchesUpTo(data, i) == (conData, None)
        invariant nodeData == old(nodeData)
        invariant old(Valid()) ==> Valid()
      {
        var c := ParseConnection(data.items[i].1);
        if c.Err? {
          BranchesUpToStops(data, i + 1);
          return Some(c.error);
        }
        conData := conData + [c.value];
        i := i + 1;
      }
      return None;
    }
  }

  /**
   * One pass of the `parse_nodes` loop: the node is built, then `int(uid)`
   * taken, then the node stored under it.
   */
  method ParseNodeEntry(data: PyObj, i: nat, e: seq<(int, Node)>) returns (e': seq<(int, Node)>, raised: Option<PyError>)
    requires data.PDict? && i < |data.items| && StoreUpTo(EntryResults(data), i) == (e, None)
    ensures StoreUpTo(EntryResults(data), i + 1) == (e', raised)
  {
    assert EntryResults(data)[i] == ParseEntry(data.items[i]);
    var node := ParseNodeObj(data.items[i].1);
    if node.Err? {
      return e, Some(node.error);
    }
    var uid := PyIntOf(data.items[i].0);
    if uid.Err? {
      return e, Some(uid.error);
    }
    return Upsert(e, uid.value, node.value), None;
  }

  /** Once an entry raised, the later entries are not parsed. */
  lemma {:induction false} StoreUpToStops<V>(rs: seq<Result<(int, V)>>, k: nat)
    requires k <= |rs| && StoreUpTo(rs, k).1.Some?
    ensures StoreUpTo(rs, |rs|) == StoreUpTo(rs, k)
    decreases |rs| - k
  {
    if k < |rs| {
      StoreUpToStops(rs, k + 1);
    }
  }

  /** What the `parse_nodes` loop leaves behind, complete or cut short by an exception, is well keyed. */
  lemma ParsedNodesWellKeyed(data: PyObj, cs: seq<Connection>)
    requires data.PDict?
    ensures WellKeyed(Diagram(StoreUpTo(EntryResults(data), |data.items|).0, cs))
  {
    EntriesWellKeyed(data);
    StoreUpToWellKeyed(EntryResults(data), |data.items|, cs);
  }

  /** Every parsed node whose sub-diagram is present holds a well-keyed one. */
  ghost predicate SubsWellKeyed(rs: seq<Result<(int, Node)>>)
  {
    forall j :: 0 <= j < |rs| && rs[j].Ok? && rs[j].value.1.sub.Some? ==> WellKeyed(rs[j].value.1.sub.value)
  }

  /** Storing parse results whose sub-diagrams are well keyed yields a well-keyed diagram, whatever its connections. */
  lemma {:induction false} StoreUpToWellKeyed(rs: seq<Result<(int, Node)>>, n: nat, cs: seq<Connection>)
    requires n <= |rs| && SubsWellKeyed(rs)
    ensures WellKeyed(Diagram(StoreUpTo(rs, n).0, cs))
  {
    if n > 0 {
      StoreUpToWellKeyed(rs, n - 1, cs);
      StoreStepWellKeyed(rs, n, cs);
    }
  }

  lemma StoreStepWellKeyed(rs: seq<Result<(int, Node)>>, n: nat, cs: seq<Connection>)
    requires 0 < n <= |rs| && SubsWellKeyed(rs)
    requires WellKeyed(Diagram(StoreUpTo(rs, n - 1).0, cs))
    ensures WellKeyed(Diagram(StoreUpTo(rs, n).0, cs))
  {
    var prev := StoreUpTo(rs, n - 1);
    if prev.1.None? && rs[n - 1].Ok? {
      var e := rs[n - 1].value;
      assert e.1.sub.Some? ==> WellKeyed(e.1.sub.value);
      UpsertWellKeyed(prev.0, cs, e.0, e.1);
    }
  }

  /** `parse_nodes` only ever builds well-keyed diagrams: its result has distinct uids, at every depth. */
  lemma {:induction false} NodesValWellKeyed(data: PyObj, cs: seq<Connection>)
    decreases data, 2
    ensures ParseNodesVal(data).Ok? ==> WellKeyed(Diagram(ParseNodesVal(data).value, cs))
  {
    if data.PDict? {
      EntriesWellKeyed(data);
      StoreUpToWellKeyed(EntryResults(data), |data.items|, cs);
    }
  }

  lemma {:induction false} EntriesWellKeyed(data: PyObj)
    requires data.PDict?
    decreases data, 1
    ensures SubsWellKeyed(EntryResults(data))
  {
    var rs := EntryResults(data);
    forall j | 0 <= j < |rs| && rs[j].Ok? && rs[j].value.1.sub.Some? ensures WellKeyed(rs[j].value.1.sub.value) {
      assert rs[j] == ParseEntry(data.items[j]);
      EntryWellKeyed(data.items[j].1);
    }
  }

  lemma {:induction false} EntryWellKeyed(o: PyObj)
    decreases o, 4
    ensures ParseNodeObj(o).Ok? && ParseNodeObj(o).value.sub.Some? ==> WellKeyed(ParseNodeObj(o).value.sub.value)
  {
    if o.PDict? {
      var si := Find(o.items, PStr("sub_diagram"));
      if si >= 0 && o.items[si].1.PDict? {
        var sub := o.items[si].1;
        var ni := Find(sub.items, PStr("nodes"));
        var ci := Find(sub.items, PStr("connections"));
        if ni >= 0 && ci >= 0 && ParseBranchesVal(sub.items[ci].1).Ok? {
          NodesValWellKeyed(sub.items[ni].1, ParseBranchesVal(sub.items[ci].1).value);
        }
      }
    }
  }

  lemma {:induction false} BranchesUpToStops(data: PyObj, k: nat)
    requires data.PDict? && k <= |data.items| && BranchesUpTo(data, k).1.Some?
    ensures BranchesUpTo(data, |data.items|) == BranchesUpTo(data, k)
    decreases |data.items| - k
  {
    if k < |data.items| {
      BranchesUpToStops(data, k + 1);
    }
  }

  /** The position of a present key. */
  lemma KeyIndex(e: seq<(int, Node)>, k: int) returns (j: nat)
    requires k in Keys(e)
    ensures j < |e| && e[j].0 == k && Lookup(e, k) == Some(e[j].1)
  {
    if e[0].0 == k {
      j := 0;
    } else {
      assert Keys(e) == [e[0].0] + Keys(e[1..]);
      var j' := KeyIndex(e[1..], k);
      j := j' + 1;
    }
  }

  /** With distinct keys, looking up the key at position i finds the entry at position i. */
  lemma LookupDistinct(e: seq<(int, Node)>, i: nat)
    requires DistinctKeys(e) && i < |e|
    ensures Lookup(e, e[i].0) == Some(e[i].1)
  {
    if i > 0 {
      assert e[0].0 != e[i].0;
      LookupDistinct(e[1..], i - 1);
    }
  }

  /** A parsed diagram in turn round-trips: `parse_nodes` of a dictionary the class wrote rebuilds its node map. */
  lemma DiagramRoundTrip(b: Diagram)
    requires WellKeyed(b)
    ensures ParseNodesVal(NodeDataDictWith(b, OutsKey)) == Ok(b.nodes)
    ensures ParseBranchesVal(ConsDict(b.cons)) == Ok(b.cons)
  {
    NodesRoundTrip(b);
    ConnectionsRoundTrip(b.cons);
  }

  // ---------------------------------------------------------------------------
  // DynamicModelHost
  // ---------------------------------------------------------------------------

  /** A symbolic `Block`, known by its uid; its contents belong to the symbolic layer. */
  datatype SymBlock = SymBlock(uid: int, content: nat)

  /** What a setter can be given: an RmsModelTemplate (wrapping a block), a Block, or any other value. */
  datatype ModelArg = TemplateArg(block: SymBlock) | BlockArg(b: SymBlock) | OtherArg

  /** The right operand of `==`: another host or any other value. */
  datatype HostArg = Host(h: DynamicModelHost) | NotHost

  /** Access to either a template or a custom model. */
  class DynamicModelHost {
    var template: Option<SymBlock>
    var customModel: SymBlock
    var diagram: BlockDiagram

    /** A host without template whose custom model is the given empty block. */
    constructor (emptyBlock: SymBlock)
      ensures template == None && customModel == emptyBlock
      ensures fresh(diagram) && diagram.nodeData == [] && diagram.conData == []
    {
      template := None;
      customModel := emptyBlock;
      diagram := new BlockDiagram();
    }

    /** The `model` property: the template when one is set, else the custom model. */
    function Model(): (m: SymBlock)
      reads this
      ensures template.Some? ==> m == template.value
      ensures template.None? ==> m == customModel
    {
      if template.None? then customModel else template.value
    }

    /** The `template` setter: a template's block or a block becomes the template; anything else raises ValueError. */
    method SetTemplate(val: ModelArg) returns (raised: Option<PyError>)
      modifies this
      ensures val.TemplateArg? ==> raised.None? && template == Some(val.block)
      ensures val.BlockArg? ==> raised.None? && template == Some(val.b)
      ensures val.OtherArg? ==> raised == Some(ValueError) && template == old(template)
      ensures customModel == old(customModel) && diagram == old(diagram)
    {
      match val
      case TemplateArg(block) =>
        template := Some(block);
        raised := None;
      case BlockArg(b) =>
        template := Some(b);
        raised := None;
      case OtherArg =>
        raised := Some(ValueError);
    }

    /**
     * The `model` setter: a template goes through the template setter, a
     * block replaces only the custom model, anything else raises ValueError.
     */
    method SetModel(val: ModelArg) returns (raised: Option<PyError>)
      modifies this
      ensures raised.Some? <==> val.OtherArg?
      ensures raised.Some? ==> raised.value == ValueError
      ensures val.TemplateArg? ==> template == Some(val.block) && customModel == old(customModel)
      ensures val.BlockArg? ==> customModel == val.b && template == old(template)
      ensures val.OtherArg? ==> template == old(template) && customModel == old(customModel)
      ensures val.BlockArg? && old(template).Some? ==> Model() == old(Model())
      ensures diagram == old(diagram)
    {
      match val
      case TemplateArg(block) =>
        raised := SetTemplate(BlockArg(block));
      case BlockArg(b) =>
        customModel := b;
        raised := None;
      case OtherArg =>
        raised := Some(ValueError);
    }

    /**
     * `__eq__`: two hosts without template are equal when their custom
     * models are; two hosts with templates when the templates' uids are; a
     * host never equals a non-host.
     */
    predicate Equals(other: HostArg)
      reads this, if other.Host? then {other.h} else {}
      ensures other.NotHost? ==> !Equals(other)
      ensures other.Host? && template.None? != other.h.template.None? ==> !Equals(other)
      ensures other.Host? && template.None? && other.h.template.None? ==>
        (Equals(other) <==> customModel == other.h.customModel)
      ensures other.Host? && template.Some? && other.h.template.Some? ==>
        (Equals(other) <==> template.value.uid == other.h.template.value.uid)
    {
      match other
      case NotHost => false
      case Host(h) =>
        if template.None? then h.template.None? && customModel == h.customModel
        else h.template.Some? && template.value.uid == h.template.value.uid
    }

    /** Equal hosts expose models with the same uid. */
    lemma EqualsModelUid(o: DynamicModelHost)
      requires Equals(Host(o))
      ensures Model().uid == o.Model().uid
    {
    }

    /** Host equality is reflexive and symmetric. */
    lemma EqualsSymmetric(o: DynamicModelHost)
      ensures Equals(Host(this))
      ensures Equals(Host(o)) <==> o.Equals(Host(this))
    {
    }
  }
}
