/**
 * `ProceduralGrid`: counting, over a breadth-first walk of a grid, how often
 * a bus of one device type is joined by a branch of another, as the start of
 * a transition-probability matrix for generating grids.
 *
 * A bus is a `Node` (compared by identity in Python, here by its id), a
 * branch an `Edge`, and `get_bus_branch_dict` is given as the map `d` from a
 * bus to its branches.
 */
module Procedural {

  datatype DeviceType =
    | BusDevice
    | LineDevice
    | DCLineDevice
    | Transformer2WDevice
    | SeriesReactanceDevice
    | HVDCLineDevice
    | VscDevice
    | SwitchDevice
    | LoadDevice
    | GeneratorDevice
    | ShuntDevice
    | OtherDevice

  /** The states of the chain: buses and the branch types, in this order. */
  const States: seq<DeviceType> :=
    [BusDevice, LineDevice, DCLineDevice, Transformer2WDevice, SeriesReactanceDevice, HVDCLineDevice, VscDevice, SwitchDevice]

  datatype Node = Node(id: nat, kind: DeviceType)

  datatype Edge = Edge(from: Node, to: Node, kind: DeviceType)

  /** How `train` ends: it can only end by raising, unless normalisation is repaired. */
  datatype Outcome = Counted | Trained | IndexError | KeyError | TypeError

  predicate Distinct<T(==)>(s: seq<T>)
  {
    forall i, j :: 0 <= i < j < |s| ==> s[i] != s[j]
  }

  /** `{s: i for i, s in enumerate(states)}`: a later duplicate would overwrite an earlier one. */
  function Enumerate(states: seq<DeviceType>): (m: map<DeviceType, nat>)
    ensures forall t :: t in m ==> m[t] < |states|
    ensures forall t :: t in m <==> t in states
    decreases |states|
  {
    if states == [] then map[]
    else
      var init := states[..|states| - 1];
      assert states == init + [states[|states| - 1]];
      Enumerate(init)[states[|states| - 1] := |states| - 1]
  }

  /** For distinct states the index map is a bijection onto `0 .. |states| - 1`. */
  lemma {:induction false} EnumerateIndex(states: seq<DeviceType>)
    requires Distinct(states)
    ensures forall i :: 0 <= i < |states| ==> Enumerate(states)[states[i]] == i
    ensures forall t :: t in Enumerate(states) ==> states[Enumerate(states)[t]] == t
    decreases |states|
  {
    if states != [] {
      var init := states[..|states| - 1];
      EnumerateIndex(init);
      forall i | 0 <= i < |states|
        ensures Enumerate(states)[states[i]] == i
      {
        if i < |states| - 1 {
          assert states[i] == init[i] != states[|states| - 1];
        }
      }
      forall t | t in Enumerate(states)
        ensures states[Enumerate(states)[t]] == t
      {
        var i :| 0 <= i < |states| && states[i] == t;
      }
    }
  }

  /** The eight states are distinct, so `state_index` numbers them 0 .. 7 one to one. */
  lemma StatesIndexed()
    ensures forall i :: 0 <= i < |States| ==> Enumerate(States)[States[i]] == i
    ensures forall t :: t in Enumerate(States) ==> States[Enumerate(States)[t]] == t
  {
    EnumerateIndex(States);
  }

  // ------------------------------------------------------------- the walk

  /** `d.get(bus, list())`. */
  function Branches(d: map<Node, seq<Edge>>, bus: Node): seq<Edge>
  {
    if bus in d then d[bus] else []
  }

  /** Every end of every listed branch lies in `u`. */
  ghost predicate Closed(d: map<Node, seq<Edge>>, u: set<Node>)
  {
    forall k, i :: k in d && 0 <= i < |d[k]| ==> d[k][i].from in u && d[k][i].to in u
  }

  /** The buses the walk can ever reach: the grid's buses and the ends of the listed branches. */
  ghost function Universe(buses: seq<Node>, d: map<Node, seq<Edge>>): (u: set<Node>)
    ensures Closed(d, u)
    ensures forall i :: 0 <= i < |buses| ==> buses[i] in u
  {
    (set i | 0 <= i < |buses| :: buses[i]) +
    (set k, i | k in d && 0 <= i < |d[k]| :: d[k][i].from) +
    (set k, i | k in d && 0 <= i < |d[k]| :: d[k][i].to)
  }

  /** Every pool entry lies in `u`. */
  ghost predicate Within(pool: seq<Node>, u: set<Node>)
  {
    forall i :: 0 <= i < |pool| ==> pool[i] in u
  }

  /** The ends of `es` appended to the pool, in order, skipping those already used. */
  function Enq(es: seq<Edge>, used: set<Node>): (r: seq<Node>)
    ensures forall n :: n in r ==> n !in used
    decreases |es|
  {
    if es == [] then []
    else
      var e := es[|es| - 1];
      Enq(es[..|es| - 1], used) + (if e.from !in used then [e.from] else []) + (if e.to !in used then [e.to] else [])
  }

  /** After a pop, the pool stays within `u` when the popped bus's branches end in `u`. */
  lemma {:induction false} EnqWithin(pool: seq<Node>, es: seq<Edge>, used: set<Node>, u: set<Node>)
    requires pool != [] && Within(pool, u)
    requires forall i :: 0 <= i < |es| ==> es[i].from in u && es[i].to in u
    ensures Within(pool[1..] + Enq(es, used), u)
    decreases |es|
  {
    if es != [] {
      var init := es[..|es| - 1];
      EnqWithin(pool, init, used, u);
      var e := es[|es| - 1];
      var a := pool[1..] + Enq(init, used);
      var b := (if e.from !in used then [e.from] else []) + (if e.to !in used then [e.to] else []);
      assert pool[1..] + Enq(es, used) == a + b;
      forall i | 0 <= i < |a + b|
        ensures (a + b)[i] in u
      {
        if i < |a| {
          assert (a + b)[i] == a[i];
        } else {
          assert (a + b)[i] == b[i - |a|];
        }
      }
    } else {
      forall i | 0 <= i < |pool[1..] + Enq(es, used)|
        ensures (pool[1..] + Enq(es, used))[i] in u
      {
        assert (pool[1..] + Enq(es, used))[i] == pool[i + 1];
      }
    }
  }

  /** How many pool entries are buses already used: popping one of them only re-counts. */
  function Stale(pool: seq<Node>, used: set<Node>): nat
    decreases |pool|
  {
    if pool == [] then 0 else (if pool[0] in used then 1 else 0) + Stale(pool[1..], used)
  }

  lemma {:induction false} StaleAppend(a: seq<Node>, b: seq<Node>, used: set<Node>)
    ensures Stale(a + b, used) == Stale(a, used) + Stale(b, used)
    decreases |a|
  {
    if a == [] {
      assert a + b == b;
    } else {
      assert (a + b)[1..] == a[1..] + b;
      StaleAppend(a[1..], b, used);
    }
  }

  lemma {:induction false} StaleFresh(p: seq<Node>, used: set<Node>)
    requires forall n :: n in p ==> n !in used
    ensures Stale(p, used) == 0
    decreases |p|
  {
    if p != [] {
      StaleFresh(p[1..], used);
    }
  }

  /**
   * Each pop either uses a new bus of `u` or re-pops a used one, whose
   * branches only enqueue unused buses: the walk always ends.
   */
  lemma WalkMeasure(pool: seq<Node>, used: set<Node>, es: seq<Edge>, u: set<Node>)
    requires pool != [] && pool[0] in u
    ensures var used' := used + {pool[0]};
            var pool' := pool[1..] + Enq(es, used');
            |u - used'| < |u - used| || (|u - used'| == |u - used| && Stale(pool', used') < Stale(pool, used))
  {
    var bus := pool[0];
    var used' := used + {bus};
    if bus in used {
      assert used' == used;
      StaleAppend(pool[1..], Enq(es, used'), used');
      StaleFresh(Enq(es, used'), used');
    } else {
      assert u - used == (u - used') + {bus};
    }
  }

  /** What a stretch of the walk did: the (bus, branch) pairs counted, and whether it stopped on a `KeyError`. */
  datatype Walked = Walked(visits: seq<(Node, Edge)>, keyError: bool)

  function Then(before: seq<(Node, Edge)>, w: Walked): Walked
  {
    Walked(before + w.visits, w.keyError)
  }

  /** The inner loop over a bus's branches: each is counted, until one whose type has no state. */
  function Scan(bus: Node, es: seq<Edge>, idx: map<DeviceType, nat>): (w: Walked)
    ensures |w.visits| <= |es|
    decreases |es|
  {
    if es == [] then Walked([], false)
    else
      var p := Scan(bus, es[..|es| - 1], idx);
      var e := es[|es| - 1];
      if p.keyError then p
      else if e.kind !in idx then Walked(p.visits, true)
      else Walked(p.visits + [(bus, e)], false)
  }

  /** Once the inner loop has stopped, later branches change nothing. */
  lemma {:induction false} ScanStops(bus: Node, es: seq<Edge>, idx: map<DeviceType, nat>, j: nat)
    requires j <= |es| && Scan(bus, es[..j], idx).keyError
    ensures Scan(bus, es, idx) == Scan(bus, es[..j], idx)
    decreases |es|
  {
    if j < |es| {
      assert es[..|es| - 1][..j] == es[..j];
      ScanStops(bus, es[..|es| - 1], idx, j);
    } else {
      assert es[..j] == es;
    }
  }

  /**
   * The `while len(pool) > 0` loop from `pool` with `used` already used:
   * pop the first bus, count each of its branches and enqueue the ends not
   * yet used. A bus is only checked against `used` when enqueued, so one
   * enqueued twice before its first pop is counted twice.
   */
  ghost function Walk(pool: seq<Node>, used: set<Node>, d: map<Node, seq<Edge>>, idx: map<DeviceType, nat>, u: set<Node>): Walked
    requires Closed(d, u) && Within(pool, u)
    decreases |u - used|, Stale(pool, used)
  {
    if pool == [] then Walked([], false)
    else
      var bus := pool[0];
      if bus.kind !in idx then Walked([], true)
      else
        var used' := used + {bus};
        var es := Branches(d, bus);
        var sc := Scan(bus, es, idx);
        if sc.keyError then sc
        else
          EnqWithin(pool, es, used', u);
          WalkMeasure(pool, used, es, u);
          Then(sc.visits, Walk(pool[1..] + Enq(es, used'), used', d, idx, u))
  }

  /** `train`'s walk from `grid.buses[0]`. */
  ghost function Run(buses: seq<Node>, d: map<Node, seq<Edge>>, idx: map<DeviceType, nat>): Walked
    requires buses != []
  {
    Walk([buses[0]], {}, d, idx, Universe(buses, d))
  }

  /** One pop of the walk, for a bus whose type has a state. */
  lemma WalkStep(pool: seq<Node>, used: set<Node>, d: map<Node, seq<Edge>>, idx: map<DeviceType, nat>, u: set<Node>)
    requires Closed(d, u) && Within(pool, u) && pool != [] && pool[0].kind in idx
    ensures Within(pool[1..] + Enq(Branches(d, pool[0]), used + {pool[0]}), u)
    ensures var sc := Scan(pool[0], Branches(d, pool[0]), idx);
            Walk(pool, used, d, idx, u) ==
              if sc.keyError then sc
              else Then(sc.visits, Walk(pool[1..] + Enq(Branches(d, pool[0]), used + {pool[0]}), used + {pool[0]}, d, idx, u))
  {
    EnqWithin(pool, Branches(d, pool[0]), used + {pool[0]}, u);
  }

  lemma ThenThen(a: seq<(Node, Edge)>, b: seq<(Node, Edge)>, w: Walked)
    ensures Then(a, Then(b, w)) == Then(a + b, w)
  {
  }

  // ------------------------------------------------------------- the counts

  /** What one counted pair adds at `[r, c]`: one for `[row, col]`, one for `[col, row]`. */
  function Bumps(v: (Node, Edge), idx: map<DeviceType, nat>, r: nat, c: nat): nat
  {
    if v.0.kind in idx && v.1.kind in idx then
      (if idx[v.0.kind] == r && idx[v.1.kind] == c then 1 else 0) +
      (if idx[v.1.kind] == r && idx[v.0.kind] == c then 1 else 0)
    else 0
  }

  /** The count at `[r, c]` after the pairs `vs`. */
  function Hits(vs: seq<(Node, Edge)>, idx: map<DeviceType, nat>, r: nat, c: nat): nat
    decreases |vs|
  {
    if vs == [] then 0 else Hits(vs[..|vs| - 1], idx, r, c) + Bumps(vs[|vs| - 1], idx, r, c)
  }

  /** The counts are symmetric. */
  lemma {:induction false} HitsSymmetric(vs: seq<(Node, Edge)>, idx: map<DeviceType, nat>, r: nat, c: nat)
    ensures Hits(vs, idx, r, c) == Hits(vs, idx, c, r)
    decreases |vs|
  {
    if vs != [] {
      HitsSymmetric(vs[..|vs| - 1], idx, r, c);
    }
  }

  lemma HitsAppend(vs: seq<(Node, Edge)>, v: (Node, Edge), idx: map<DeviceType, nat>, r: nat, c: nat)
    ensures Hits(vs + [v], idx, r, c) == Hits(vs, idx, r, c) + Bumps(v, idx, r, c)
  {
    assert (vs + [v])[..|vs|] == vs;
  }

  /** `[row, col] += 1` then `[col, row] += 1`. */
  method Bump(m: array2<real>, row: nat, col: nat)
    requires row < m.Length0 && col < m.Length0 && m.Length0 == m.Length1
    modifies m
    ensures forall r, c :: 0 <= r < m.Length0 && 0 <= c < m.Length1 ==>
              m[r, c] == old(m[r, c]) + (if r == row && c == col then 1.0 else 0.0) + (if r == col && c == row then 1.0 else 0.0)
  {
    m[row, col] := m[row, col] + 1.0;
    m[col, row] := m[col, row] + 1.0;
  }

  /** When every pair joins a bus of row `r` to a branch of column `c != r`, the count at `[r, c]` is the number of pairs. */
  lemma {:induction false} HitsUniform(vs: seq<(Node, Edge)>, idx: map<DeviceType, nat>, r: nat, c: nat)
    requires r != c
    requires forall v :: v in vs ==> v.0.kind in idx && v.1.kind in idx && idx[v.0.kind] == r && idx[v.1.kind] == c
    ensures Hits(vs, idx, r, c) == |vs|
    decreases |vs|
  {
    if vs != [] {
      var init := vs[..|vs| - 1];
      assert forall v :: v in init ==> v in vs;
      assert vs[|vs| - 1] in vs;
      HitsUniform(init, idx, r, c);
    }
  }

  // ---------------------------------------------------------- an example

  /** The inner loop over two branches whose types have states counts both. */
  lemma ScanPair(bus: Node, e1: Edge, e2: Edge, idx: map<DeviceType, nat>)
    requires e1.kind in idx && e2.kind in idx
    ensures Scan(bus, [e1, e2], idx) == Walked([(bus, e1), (bus, e2)], false)
  {
    assert [e1, e2][..1] == [e1] && [e1][..0] == [];
    assert Scan(bus, [e1], idx) == Walked([(bus, e1)], false);
  }

  /** The ends two branches enqueue. */
  lemma EnqPair(e1: Edge, e2: Edge, used: set<Node>)
    ensures Enq([e1, e2], used) ==
              (if e1.from !in used then [e1.from] else []) + (if e1.to !in used then [e1.to] else []) +
              (if e2.from !in used then [e2.from] else []) + (if e2.to !in used then [e2.to] else [])
  {
    assert [e1, e2][..1] == [e1] && [e1][..0] == [];
    assert Enq([e1], used) == (if e1.from !in used then [e1.from] else []) + (if e1.to !in used then [e1.to] else []);
  }

  /** `d` lists a triangle of branches of type `k` between three distinct buses `a`, `b`, `c`, all with states. */
  predicate Triangle(a: Node, b: Node, c: Node, k: DeviceType, d: map<Node, seq<Edge>>, idx: map<DeviceType, nat>)
  {
    a != b && b != c && a != c &&
    a.kind in idx && b.kind in idx && c.kind in idx && k in idx &&
    d == map[a := [Edge(a, b, k), Edge(a, c, k)], b := [Edge(a, b, k), Edge(b, c, k)], c := [Edge(a, c, k), Edge(b, c, k)]]
  }

  /** The last pop of `c`: its branches are counted again and nothing is enqueued. */
  lemma TriangleLast(a: Node, b: Node, c: Node, k: DeviceType, d: map<Node, seq<Edge>>, idx: map<DeviceType, nat>, u: set<Node>)
    requires Triangle(a, b, c, k, d, idx) && Closed(d, u) && c in u
    ensures Within([c], u) && Walk([c], {a, b, c}, d, idx, u) == Walked([(c, Edge(a, c, k)), (c, Edge(b, c, k))], false)
  {
    var ac, bc := Edge(a, c, k), Edge(b, c, k);
    assert Branches(d, c) == [ac, bc];
    ScanPair(c, ac, bc, idx);
    assert {a, b, c} + {c} == {a, b, c};
    assert Within([c], u);
    WalkStep([c], {a, b, c}, d, idx, u);
    EnqPair(ac, bc, {a, b, c});
    assert [c][1..] + Enq([ac, bc], {a, b, c}) == [];
  }

  /** The first pop of `c`: it enqueues nothing, but `c` is still queued once more. */
  lemma TriangleC(a: Node, b: Node, c: Node, k: DeviceType, d: map<Node, seq<Edge>>, idx: map<DeviceType, nat>, u: set<Node>)
    requires Triangle(a, b, c, k, d, idx) && Closed(d, u) && c in u
    ensures Within([c, c], u) &&
            Walk([c, c], {a, b}, d, idx, u) ==
              Walked([(c, Edge(a, c, k)), (c, Edge(b, c, k)), (c, Edge(a, c, k)), (c, Edge(b, c, k))], false)
  {
    var ac, bc := Edge(a, c, k), Edge(b, c, k);
    assert Branches(d, c) == [ac, bc];
    ScanPair(c, ac, bc, idx);
    assert {a, b} + {c} == {a, b, c};
    assert Within([c, c], u);
    WalkStep([c, c], {a, b}, d, idx, u);
    EnqPair(ac, bc, {a, b, c});
    assert [c, c][1..] + Enq([ac, bc], {a, b, c}) == [c];
    TriangleLast(a, b, c, k, d, idx, u);
  }

  /** The pop of `b`: it enqueues `c` a second time. */
  lemma TriangleB(a: Node, b: Node, c: Node, k: DeviceType, d: map<Node, seq<Edge>>, idx: map<DeviceType, nat>, u: set<Node>)
    requires Triangle(a, b, c, k, d, idx) && Closed(d, u) && b in u && c in u
    ensures Within([b, c], u) &&
            Walk([b, c], {a}, d, idx, u) ==
              Walked([(b, Edge(a, b, k)), (b, Edge(b, c, k)),
                      (c, Edge(a, c, k)), (c, Edge(b, c, k)), (c, Edge(a, c, k)), (c, Edge(b, c, k))], false)
  {
    var ab, bc := Edge(a, b, k), Edge(b, c, k);
    assert Branches(d, b) == [ab, bc];
    ScanPair(b, ab, bc, idx);
    assert {a} + {b} == {a, b};
    assert Within([b, c], u);
    WalkStep([b, c], {a}, d, idx, u);
    EnqPair(ab, bc, {a, b});
    assert [b, c][1..] + Enq([ab, bc], {a, b}) == [c, c];
    TriangleC(a, b, c, k, d, idx, u);
    var rest := Walk([c, c], {a, b}, d, idx, u);
    assert Walk([b, c], {a}, d, idx, u) == Walked([(b, ab), (b, bc)] + rest.visits, false);
  }

  /** The pop of `a`: its two branches are counted and both `b` and `c` are enqueued. */
  lemma TriangleA(a: Node, b: Node, c: Node, k: DeviceType, d: map<Node, seq<Edge>>, idx: map<DeviceType, nat>, u: set<Node>)
    requires Triangle(a, b, c, k, d, idx) && Closed(d, u) && a in u
    ensures b in u && c in u
    ensures Walk([a], {}, d, idx, u) == Then([(a, Edge(a, b, k)), (a, Edge(a, c, k))], Walk([b, c], {a}, d, idx, u))
  {
    var ab, ac := Edge(a, b, k), Edge(a, c, k);
    assert Branches(d, a) == [ab, ac];
    assert b in u && c in u by {
      assert d[a][0].to == b && d[a][1].to == c;
    }
    ScanPair(a, ab, ac, idx);
    var none: set<Node> := {};
    assert none + {a} == {a};
    assert Within([a], u);
    WalkStep([a], none, d, idx, u);
    EnqPair(ab, ac, {a});
    assert [a][1..] + Enq([ab, ac], {a}) == [b, c];
  }

  /**
   * The walk over the triangle from `a`. Bus `c` is enqueued by `a` and
   * again by `b` before it is first popped, so its two branches are
   * counted twice: the six bus-branch ends become eight counted pairs.
   */
  lemma TriangleWalk(a: Node, b: Node, c: Node, k: DeviceType, d: map<Node, seq<Edge>>, idx: map<DeviceType, nat>, u: set<Node>)
    requires Triangle(a, b, c, k, d, idx) && Closed(d, u) && a in u
    ensures Walk([a], {}, d, idx, u) ==
              Walked([(a, Edge(a, b, k)), (a, Edge(a, c, k)), (b, Edge(a, b, k)), (b, Edge(b, c, k)),
                      (c, Edge(a, c, k)), (c, Edge(b, c, k)), (c, Edge(a, c, k)), (c, Edge(b, c, k))], false)
  {
    TriangleA(a, b, c, k, d, idx, u);
    TriangleB(a, b, c, k, d, idx, u);
    var ab, ac, bc := Edge(a, b, k), Edge(a, c, k), Edge(b, c, k);
    var six := [(b, ab), (b, bc), (c, ac), (c, bc), (c, ac), (c, bc)];
    assert Walk([b, c], {a}, d, idx, u) == Walked(six, false);
    assert [(a, ab), (a, ac)] + six == [(a, ab), (a, ac), (b, ab), (b, bc), (c, ac), (c, bc), (c, ac), (c, bc)];
  }

  /** The triangle walk, started from the first of three buses, as `train` does it. */
  lemma TriangleCountsTwice(a: Node, b: Node, c: Node, k: DeviceType, d: map<Node, seq<Edge>>, idx: map<DeviceType, nat>)
    requires Triangle(a, b, c, k, d, idx)
    requires idx[a.kind] == idx[b.kind] == idx[c.kind] != idx[k]
    ensures !Run([a, b, c], d, idx).keyError
    ensures Hits(Run([a, b, c], d, idx).visits, idx, idx[a.kind], idx[k]) == 8
  {
    var u := Universe([a, b, c], d);
    assert [a, b, c][0] == a;
    TriangleWalk(a, b, c, k, d, idx, u);
    var vs := Run([a, b, c], d, idx).visits;
    assert forall v :: v in vs ==> v.0 in {a, b, c} && v.1.kind == k;
    HitsUniform(vs, idx, idx[a.kind], idx[k]);
  }

  // ------------------------------------------------------- normalisation

  /** `np.sum` of a row. */
  function Sum(row: seq<real>): real
    decreases |row|
  {
    if row == [] then 0.0 else Sum(row[..|row| - 1]) + row[|row| - 1]
  }

  /**
   * `transition_probabilities[i, :] /= s` with `s` the row's sum, where
   * the sum is not zero; a zero row is left as it is.
   */
  function Normalised(row: seq<real>): (r: seq<real>)
    ensures |r| == |row|
  {
    var s := Sum(row);
    if s == 0.0 then row else seq(|row|, j requires 0 <= j < |row| => row[j] / s)
  }

  /** Row `r` of the counts after the pairs `vs`, over `n` columns. */
  function Counts(vs: seq<(Node, Edge)>, idx: map<DeviceType, nat>, r: nat, n: nat): (row: seq<real>)
    ensures |row| == n
    ensures forall c :: 0 <= c < n ==> row[c] >= 0.0
  {
    seq(n, c requires 0 <= c < n => Hits(vs, idx, r, c) as real)
  }

  /** Row `r` of the matrix `m`, as a sequence. */
  function Row(m: array2<real>, r: nat): (row: seq<real>)
    requires r < m.Length0
    reads m
    ensures |row| == m.Length1
  {
    seq(m.Length1, c requires 0 <= c < m.Length1 reads m => m[r, c])
  }

  /** Dividing every entry by `k` divides the sum by `k`. */
  lemma {:induction false} SumScale(row: seq<real>, k: real)
    requires k != 0.0
    ensures Sum(seq(|row|, j requires 0 <= j < |row| => row[j] / k)) == Sum(row) / k
    decreases |row|
  {
    if row != [] {
      var n := |row| - 1;
      var scaled := seq(|row|, j requires 0 <= j < |row| => row[j] / k);
      var init := row[..n];
      SumScale(init, k);
      assert scaled[..n] == seq(|init|, j requires 0 <= j < |init| => init[j] / k);
      assert Sum(init) / k + row[n] / k == (Sum(init) + row[n]) / k;
    }
  }

  /** A sum of entries that are not negative bounds each of them. */
  lemma {:induction false} SumBounds(row: seq<real>, j: nat)
    requires forall c :: 0 <= c < |row| ==> row[c] >= 0.0
    requires j < |row|
    ensures 0.0 <= row[j] <= Sum(row)
    decreases |row|
  {
    var n := |row| - 1;
    SumNonNegative(row[..n]);
    if j < n {
      assert row[..n][j] == row[j];
      SumBounds(row[..n], j);
    }
  }

  lemma {:induction false} SumNonNegative(row: seq<real>)
    requires forall c :: 0 <= c < |row| ==> row[c] >= 0.0
    ensures Sum(row) >= 0.0
    decreases |row|
  {
    if row != [] {
      SumNonNegative(row[..|row| - 1]);
    }
  }

  /** A normalised row whose sum was not zero sums to one. */
  lemma NormalisedSum(row: seq<real>)
    requires Sum(row) != 0.0
    ensures Sum(Normalised(row)) == 1.0
  {
    var s := Sum(row);
    SumScale(row, s);
    assert Normalised(row) == seq(|row|, j requires 0 <= j < |row| => row[j] / s);
    assert s / s == 1.0;
  }

  /** A normalised row of counts holds probabilities. */
  lemma NormalisedBounds(row: seq<real>, j: nat)
    requires forall c :: 0 <= c < |row| ==> row[c] >= 0.0
    requires j < |row|
    ensures 0.0 <= Normalised(row)[j] <= 1.0
  {
    SumBounds(row, j);
    var s := Sum(row);
    if s != 0.0 {
      assert Normalised(row)[j] == row[j] / s;
    }
  }

  /** Counting the pair `(bus, br)` into a matrix that holds the counts of `before`. */
  method Tally(m: array2<real>, row: nat, col: nat, ghost bus: Node, ghost br: Edge, ghost before: seq<(Node, Edge)>, ghost idx: map<DeviceType, nat>)
    requires bus.kind in idx && br.kind in idx && idx[bus.kind] == row && idx[br.kind] == col
    requires row < m.Length0 && col < m.Length0
    requires m.Length0 == m.Length1
    requires forall r, c :: 0 <= r < m.Length0 && 0 <= c < m.Length1 ==> m[r, c] == Hits(before, idx, r, c) as real
    modifies m
    ensures forall r, c :: 0 <= r < m.Length0 && 0 <= c < m.Length1 ==> m[r, c] == Hits(before + [(bus, br)], idx, r, c) as real
  {
    Bump(m, row, col);
    forall r, c | 0 <= r < m.Length0 && 0 <= c < m.Length1
      ensures m[r, c] == Hits(before + [(bus, br)], idx, r, c) as real
    {
      HitsAppend(before, (bus, br), idx, r, c);
    }
  }

  class ProceduralGrid {
    var states: seq<DeviceType>
    var stateIndex: map<DeviceType, nat>
    var transitions: array2<real>

    ghost predicate Valid()
      reads this
    {
      stateIndex == Enumerate(states) && transitions.Length0 == |states| && transitions.Length1 == |states|
    }

    /** The states, their index map, and an all-zero square matrix. */
    constructor()
      ensures states == States && Valid()
      ensures forall i :: 0 <= i < |states| ==> stateIndex[states[i]] == i
      ensures forall t :: t in stateIndex ==> states[stateIndex[t]] == t
      ensures forall r, c :: 0 <= r < |states| && 0 <= c < |states| ==> transitions[r, c] == 0.0
    {
      states := States;
      stateIndex := Enumerate(States);
      transitions := new real[|States|, |States|]((r, c) => 0.0);
      StatesIndexed();
    }

    /**
     * The inner `for branch in br_list` loop for a bus whose row is `row`:
     * counts each branch and enqueues its unused ends, until a branch type
     * has no state.
     */
    method CountBranches(m: array2<real>, row: nat, bus: Node, es: seq<Edge>, used: set<Node>, pool: seq<Node>,
                         ghost walked: seq<(Node, Edge)>)
      returns (pool': seq<Node>, ok: bool)
      requires m.Length0 == |states| == m.Length1 && stateIndex == Enumerate(states)
      requires bus.kind in stateIndex && stateIndex[bus.kind] == row
      requires forall r, c :: 0 <= r < |states| && 0 <= c < |states| ==> m[r, c] == Hits(walked, stateIndex, r, c) as real
      modifies m
      ensures ok == !Scan(bus, es, stateIndex).keyError
      ensures ok ==> pool' == pool + Enq(es, used)
      ensures forall r, c :: 0 <= r < |states| && 0 <= c < |states| ==>
                m[r, c] == Hits(walked + Scan(bus, es, stateIndex).visits, stateIndex, r, c) as real
    {
      pool' := pool;
      var j := 0;
      assert es[..0] == [] && walked + [] == walked && pool + [] == pool;
      while j < |es|
        invariant 0 <= j <= |es|
        invariant !Scan(bus, es[..j], stateIndex).keyError
        invariant pool' == pool + Enq(es[..j], used)
        invariant forall r, c :: 0 <= r < |states| && 0 <= c < |states| ==>
                    m[r, c] == Hits(walked + Scan(bus, es[..j], stateIndex).visits, stateIndex, r, c) as real
      {
        var br := es[j];
        assert es[..j + 1][..j] == es[..j];
        if br.from !in used {
          pool' := pool' + [br.from];
        }
        if br.to !in used {
          pool' := pool' + [br.to];
        }
        if br.kind !in stateIndex {
          ScanStops(bus, es, stateIndex, j + 1);
          return pool', false;
        }
        var col := stateIndex[br.kind];
        assert Scan(bus, es[..j + 1], stateIndex) == Walked(Scan(bus, es[..j], stateIndex).visits + [(bus, br)], false);
        ghost var before := walked + Scan(bus, es[..j], stateIndex).visits;
        Tally(m, row, col, bus, br, before, stateIndex);
        assert before + [(bus, br)] == walked + Scan(bus, es[..j + 1], stateIndex).visits;
        j := j + 1;
      }
      assert es[..j] == es;
      ok := true;
    }

    /**
     * One turn of the `while len(pool) > 0` loop: pop a bus, look up its
     * row, mark it used and count its branches; `failed` when a lookup
     * raises `KeyError`. `run` is the whole walk, `walked` its part so far.
     */
    method Pop(m: array2<real>, pool: seq<Node>, used: set<Node>, d: map<Node, seq<Edge>>,
               ghost u: set<Node>, ghost walked: seq<(Node, Edge)>, ghost run: Walked)
      returns (next: seq<Node>, used': set<Node>, ghost visits: seq<(Node, Edge)>, failed: bool)
      requires m.Length0 == |states| == m.Length1 && stateIndex == Enumerate(states)
      requires Closed(d, u) && Within(pool, u) && pool != []
      requires run == Then(walked, Walk(pool, used, d, stateIndex, u))
      requires forall r, c :: 0 <= r < |states| && 0 <= c < |states| ==> m[r, c] == Hits(walked, stateIndex, r, c) as real
      modifies m
      ensures forall r, c :: 0 <= r < |states| && 0 <= c < |states| ==> m[r, c] == Hits(walked + visits, stateIndex, r, c) as real
      ensures failed ==> run == Walked(walked + visits, true)
      ensures !failed ==> used' == used + {pool[0]} && next == pool[1..] + Enq(Branches(d, pool[0]), used')
      ensures !failed ==> Within(next, u) && run == Then(walked + visits, Walk(next, used', d, stateIndex, u))
      ensures !failed ==> |u - used'| < |u - used| || (|u - used'| == |u - used| && Stale(next, used') < Stale(pool, used))
    {
      var bus := pool[0];
      if bus.kind !in stateIndex {
        assert walked + [] == walked;
        return [], used, [], true;
      }
      var row := stateIndex[bus.kind];
      used' := used + {bus};
      var es := Branches(d, bus);
      WalkStep(pool, used, d, stateIndex, u);
      WalkMeasure(pool, used, es, u);
      var sc := Scan(bus, es, stateIndex);
      visits := sc.visits;
      var ok;
      next, ok := CountBranches(m, row, bus, es, used', pool[1..], walked);
      failed := !ok;
      if ok {
        ThenThen(walked, visits, Walk(next, used', d, stateIndex, u));
      }
    }

    /**
     * The `while len(pool) > 0` loop of `train` on the matrix `m`, from
     * `buses[0]`; `failed` when it stops on a `KeyError`.
     */
    method Traverse(m: array2<real>, buses: seq<Node>, d: map<Node, seq<Edge>>) returns (failed: bool)
      requires m.Length0 == |states| == m.Length1 && stateIndex == Enumerate(states)
      requires buses != []
      requires forall r, c :: 0 <= r < |states| && 0 <= c < |states| ==> m[r, c] == 0.0
      modifies m
      ensures failed == Run(buses, d, stateIndex).keyError
      ensures forall r, c :: 0 <= r < |states| && 0 <= c < |states| ==>
                m[r, c] == Hits(Run(buses, d, stateIndex).visits, stateIndex, r, c) as real
    {
      ghost var u := Universe(buses, d);
      ghost var run := Run(buses, d, stateIndex);
      var pool := [buses[0]];
      var used: set<Node> := {};
      ghost var walked: seq<(Node, Edge)> := [];
      assert run == Then(walked, Walk(pool, used, d, stateIndex, u));
      failed := false;
      while |pool| > 0 && !failed
        invariant Closed(d, u) && Within(pool, u)
        invariant failed ==> run == Walked(walked, true)
        invariant !failed ==> run == Then(walked, Walk(pool, used, d, stateIndex, u))
        invariant forall r, c :: 0 <= r < |states| && 0 <= c < |states| ==> m[r, c] == Hits(walked, stateIndex, r, c) as real
        decreases |u - used| + (if failed then 0 else 1), Stale(pool, used)
      {
        var next, used', visits, f := Pop(m, pool, used, d, u, walked, run);
        walked := walked + visits;
        if f {
          failed := true;
        } else {
          pool, used := next, used';
        }
      }
      if !failed {
        assert walked + [] == walked;
      }
    }

    /**
     * `train` up to the normalisation: a fresh zero matrix, then the walk
     * from `buses[0]` counting every (bus, branch) pair into both
     * `[row, col]` and `[col, row]`.
     */
    method Count(buses: seq<Node>, d: map<Node, seq<Edge>>) returns (outcome: Outcome)
      requires Valid()
      modifies this
      ensures Valid()
      ensures states == old(states) && stateIndex == old(stateIndex)
      ensures fresh(transitions)
      ensures buses == [] ==>
                (outcome == IndexError &&
                 forall r, c :: 0 <= r < |states| && 0 <= c < |states| ==> transitions[r, c] == 0.0)
      ensures buses != [] ==>
                (outcome == (if Run(buses, d, stateIndex).keyError then KeyError else Counted) &&
                 forall r, c :: 0 <= r < |states| && 0 <= c < |states| ==>
                   transitions[r, c] == Hits(Run(buses, d, stateIndex).visits, stateIndex, r, c) as real)
    {
      var m := new real[|states|, |states|]((r, c) => 0.0);
      transitions := m;
      if |buses| == 0 {
        return IndexError;
      }
      var failed := Traverse(m, buses, d);
      outcome := if failed then KeyError else Counted;
    }

    /**
     * The normalisation loop with `range(len(self.states))`: each row with
     * a non-zero sum is divided by its sum.
     */
    method Normalise()
      requires Valid()
      modifies transitions
      ensures forall r, c :: 0 <= r < |states| && 0 <= c < |states| ==> transitions[r, c] == Normalised(old(Row(transitions, r)))[c]
    {
      var n := |states|;
      var m := transitions;
      ghost var rows := seq(n, r requires 0 <= r < n reads m => Row(m, r));
      for i := 0 to n
        invariant forall r, c :: 0 <= r < n && 0 <= c < n ==>
                    transitions[r, c] == if r < i then Normalised(rows[r])[c] else rows[r][c]
      {
        var s := 0.0;
        for j := 0 to n
          invariant s == Sum(rows[i][..j])
        {
          assert rows[i][..j + 1][..j] == rows[i][..j];
          s := s + transitions[i, j];
        }
        assert rows[i][..n] == rows[i];
        if s != 0.0 {
          for j := 0 to n
            invariant forall r, c :: 0 <= r < n && 0 <= c < n ==>
                        transitions[r, c] == if r < i || (r == i && c < j) then Normalised(rows[r])[c] else rows[r][c]
          {
            transitions[i, j] := transitions[i, j] / s;
          }
        }
      }
    }

    /**
     * `train` as written: the counting, then `for i in len(self.states)`,
     * which raises `TypeError` because an `int` is not iterable. The
     * matrix keeps the raw counts and training never completes.
     */
    method Train(buses: seq<Node>, d: map<Node, seq<Edge>>) returns (outcome: Outcome)
      requires Valid()
      modifies this
      ensures Valid() && states == old(states) && stateIndex == old(stateIndex)
      ensures outcome != Trained
      ensures outcome == if buses == [] then IndexError
                         else if Run(buses, d, stateIndex).keyError then KeyError
                         else TypeError
      ensures buses != [] ==>
                forall r, c :: 0 <= r < |states| && 0 <= c < |states| ==>
                  transitions[r, c] == Hits(Run(buses, d, stateIndex).visits, stateIndex, r, c) as real
    {
      outcome := Count(buses, d);
      if outcome == Counted {
        outcome := TypeError;
      }
    }

    /**
     * `train` with the normalisation loop over `range(len(self.states))`:
     * a walk that does not raise leaves each row of counts normalised.
     */
    method TrainNormalised(buses: seq<Node>, d: map<Node, seq<Edge>>) returns (outcome: Outcome)
      requires Valid()
      modifies this
      ensures Valid() && states == old(states) && stateIndex == old(stateIndex)
      ensures outcome == if buses == [] then IndexError
                         else if Run(buses, d, stateIndex).keyError then KeyError
                         else Trained
      ensures outcome == Trained ==>
                forall r, c :: 0 <= r < |states| && 0 <= c < |states| ==>
                  transitions[r, c] == Normalised(Counts(Run(buses, d, stateIndex).visits, stateIndex, r, |states|))[c]
    {
      outcome := Count(buses, d);
      if outcome == Counted {
        ghost var vs := Run(buses, d, stateIndex).visits;
        forall r | 0 <= r < |states|
          ensures Row(transitions, r) == Counts(vs, stateIndex, r, |states|)
        {
        }
        Normalise();
        outcome := Trained;
      }
    }
  }
}
