/**
 * Reliability state machines: the on/off availability schedule of one
 * component, the states matrix of many components, the rows where two state
 * matrices differ, the contiguous failure blocks and the energy not supplied.
 *
 * The random durations `int(-mttf * log(rand()))` are not computed here: the
 * routines read them, already truncated to whole hours, from a draw stream
 * given as input. A routine whose stream runs out reports `DrawsExhausted`,
 * which stands for "the model cannot say" rather than for a Python outcome.
 */
module Reliability {
  import opened Common

  datatype Outcome<T> = Done(value: T) | Raised(error: PyError) | DrawsExhausted

  /** One component's schedule: availability per hour, failures counted, draws consumed. */
  datatype Schedule = Schedule(active: seq<bool>, failures: nat, used: nat)

  function Fill(v: bool, n: nat): (s: seq<bool>)
    ensures |s| == n && forall i :: 0 <= i < n ==> s[i] == v
  {
    seq(n, _ => v)
  }

  /**
   * The scheduling loop entered with `a == b` (hour `a`), draw cursor `pos` and
   * `fails` failures so far. The schedule returned covers the hours [a, horizon).
   */
  function Run(horizon: nat, draws: seq<nat>, a: nat, pos: nat, fails: nat): (r: Option<Schedule>)
    requires a <= horizon && pos <= |draws|
    ensures r.Some? ==> |r.value.active| == horizon - a && pos <= r.value.used <= |draws|
    decreases |draws| - pos
  {
    if a >= horizon then Some(Schedule([], fails, pos))
    else if pos >= |draws| then None
    else
      var b := a + draws[pos];
      if b > horizon then Some(Schedule(Fill(true, horizon - a), fails, pos + 1))
      else if pos + 1 >= |draws| then None
      else
        var b2 := b + draws[pos + 1];
        if b2 > horizon then Some(Schedule(Fill(true, b - a) + Fill(false, horizon - b), fails + 1, pos + 2))
        else
          match Run(horizon, draws, b2, pos + 2, fails + 1)
          case None => None
          case Some(rest) =>
            Some(Schedule(Fill(true, b - a) + Fill(false, b2 - b) + rest.active, rest.failures, rest.used))
  }

  /** What `compose_states` returns, reading its durations from `draws`. */
  function Compose(mttf: real, mttr: real, horizon: nat, draws: seq<nat>): (r: Option<Schedule>)
    ensures r.Some? ==> |r.value.active| == horizon && r.value.used <= |draws|
  {
    if mttf == 0.0 || mttr == 0.0 then Some(Schedule(Fill(true, horizon), 0, 0))
    else Run(horizon, draws, 0, 0, 0)
  }

  /** Number of the running sums acc+ds[0], acc+ds[0]+ds[1], … that do not exceed t. */
  function Crossings(ds: seq<nat>, acc: nat, t: nat): nat
  {
    if ds == [] then 0
    else (if acc + ds[0] <= t then 1 else 0) + Crossings(ds[1..], acc + ds[0], t)
  }

  /** Every draw ends a block; one failure is counted per recovery draw. */
  lemma {:induction false} RunFailures(horizon: nat, draws: seq<nat>, a: nat, pos: nat, fails: nat)
    requires a <= horizon && pos <= |draws|
    requires Run(horizon, draws, a, pos, fails).Some?
    ensures Run(horizon, draws, a, pos, fails).value.failures == fails + (Run(horizon, draws, a, pos, fails).value.used - pos) / 2
    decreases |draws| - pos
  {
    if a < horizon && pos < |draws| && a + draws[pos] <= horizon && pos + 1 < |draws| {
      var b2 := a + draws[pos] + draws[pos + 1];
      if b2 <= horizon {
        RunFailures(horizon, draws, b2, pos + 2, fails + 1);
      }
    }
  }

  /**
   * Hour t of the schedule is on exactly when an even number of blocks has
   * ended by t: the schedule is an on-block, then off, on, … in draw order.
   */
  lemma {:induction false} RunAlternates(horizon: nat, draws: seq<nat>, a: nat, pos: nat, fails: nat, t: nat)
    requires a <= t < horizon && pos <= |draws|
    requires Run(horizon, draws, a, pos, fails).Some?
    ensures Run(horizon, draws, a, pos, fails).value.active[t - a]
            == (Crossings(draws[pos..Run(horizon, draws, a, pos, fails).value.used], a, t) % 2 == 0)
    decreases |draws| - pos
  {
    var s := Run(horizon, draws, a, pos, fails).value;
    var ds := draws[pos..s.used];
    var d1 := draws[pos];
    var b := a + d1;
    assert ds[0] == d1 && ds[1..] == draws[pos + 1..s.used];
    if b > horizon {
      assert s.active == Fill(true, horizon - a);
      assert ds[1..] == [];
      assert Crossings(ds, a, t) == 0;
    } else {
      var d2 := draws[pos + 1];
      var b2 := b + d2;
      var on, off := Fill(true, b - a), Fill(false, b2 - b);
      assert ds[1..][0] == d2 && ds[1..][1..] == draws[pos + 2..s.used];
      assert Crossings(ds, a, t) == (if b <= t then 1 else 0) + Crossings(ds[1..], b, t);
      assert Crossings(ds[1..], b, t) == (if b2 <= t then 1 else 0) + Crossings(ds[1..][1..], b2, t);
      if b2 > horizon {
        assert s.active == on + Fill(false, horizon - b);
        assert ds[1..][1..] == [];
      } else {
        var rest := Run(horizon, draws, b2, pos + 2, fails + 1).value;
        assert s.active == on + off + rest.active;
        if t >= b2 {
          RunAlternates(horizon, draws, b2, pos + 2, fails + 1, t);
          assert s.active[t - a] == rest.active[t - b2];
        } else {
          CrossingsAbove(draws[pos + 2..s.used], b2, t);
          assert s.active[t - a] == (t < b);
        }
      }
    }
  }

  lemma {:induction false} CrossingsAbove(ds: seq<nat>, acc: nat, t: nat)
    requires t < acc
    ensures Crossings(ds, acc, t) == 0
    decreases |ds|
  {
    if ds != [] {
      CrossingsAbove(ds[1..], acc + ds[0], t);
    }
  }

  /** The schedule of `compose_states`: length horizon, alternating blocks, one failure per recovery draw. */
  lemma ComposeSchedule(mttf: real, mttr: real, horizon: nat, draws: seq<nat>)
    requires mttf != 0.0 && mttr != 0.0
    requires Compose(mttf, mttr, horizon, draws).Some?
    ensures var s := Compose(mttf, mttr, horizon, draws).value;
            s.failures == s.used / 2 &&
            forall t :: 0 <= t < horizon ==> s.active[t] == (Crossings(draws[..s.used], 0, t) % 2 == 0)
  {
    RunFailures(horizon, draws, 0, 0, 0);
    var s := Compose(mttf, mttr, horizon, draws).value;
    forall t | 0 <= t < horizon
      ensures s.active[t] == (Crossings(draws[..s.used], 0, t) % 2 == 0)
    {
      RunAlternates(horizon, draws, 0, 0, 0, t);
      assert draws[0..s.used] == draws[..s.used];
    }
  }

  function Prepend(prefix: seq<bool>, r: Option<Schedule>): Option<Schedule>
  {
    match r
    case None => None
    case Some(s) => Some(Schedule(prefix + s.active, s.failures, s.used))
  }

  /** Writes `v` into active[lo..hi), the numpy slice assignment `active[lo:hi] = v`. */
  method FillRange(active: array<bool>, lo: nat, hi: nat, v: bool)
    requires lo <= hi <= active.Length
    modifies active
    ensures active[..hi] == old(active[..lo]) + Fill(v, hi - lo)
    ensures active[hi..] == old(active[hi..])
  {
    var i := lo;
    while i < hi
      invariant lo <= i <= hi
      invariant forall j :: 0 <= j < active.Length && !(lo <= j < i) ==> active[j] == old(active[j])
      invariant forall j :: lo <= j < i ==> active[j] == v
    {
      active[i] := v;
      i := i + 1;
    }
    assert forall j :: 0 <= j < hi ==> active[..hi][j] == (old(active[..lo]) + Fill(v, hi - lo))[j];
  }

  lemma PrependEmpty(r: Option<Schedule>)
    ensures Prepend([], r) == r
  {
    match r
    case None =>
    case Some(s) => assert [] + s.active == s.active;
  }

  /** A full on/off cycle inside the horizon moves its two blocks into the prefix. */
  lemma PrependCycle(horizon: nat, draws: seq<nat>, a: nat, pos: nat, fails: nat, prefix: seq<bool>)
    requires a < horizon && pos + 1 < |draws|
    requires a + draws[pos] + draws[pos + 1] <= horizon
    ensures Prepend(prefix, Run(horizon, draws, a, pos, fails))
            == Prepend(prefix + Fill(true, draws[pos]) + Fill(false, draws[pos + 1]),
                       Run(horizon, draws, a + draws[pos] + draws[pos + 1], pos + 2, fails + 1))
  {
    var b := a + draws[pos];
    var b2 := b + draws[pos + 1];
    var on, off := Fill(true, b - a), Fill(false, b2 - b);
    match Run(horizon, draws, b2, pos + 2, fails + 1)
    case None =>
    case Some(rest) =>
      assert prefix + (on + off + rest.active) == prefix + on + off + rest.active;
  }

  /** The last on-block reaches past the horizon. */
  lemma PrependLastOn(horizon: nat, draws: seq<nat>, a: nat, pos: nat, fails: nat, prefix: seq<bool>)
    requires a < horizon && pos < |draws| && a + draws[pos] > horizon
    ensures Prepend(prefix, Run(horizon, draws, a, pos, fails))
            == Some(Schedule(prefix + Fill(true, horizon - a), fails, pos + 1))
  {
  }

  /** The last off-block reaches past the horizon. */
  lemma PrependLastOff(horizon: nat, draws: seq<nat>, a: nat, pos: nat, fails: nat, prefix: seq<bool>)
    requires a < horizon && pos + 1 < |draws|
    requires a + draws[pos] <= horizon < a + draws[pos] + draws[pos + 1]
    ensures Prepend(prefix, Run(horizon, draws, a, pos, fails))
            == Some(Schedule(prefix + Fill(true, draws[pos]) + Fill(false, horizon - a - draws[pos]), fails + 1, pos + 2))
  {
    var b := a + draws[pos];
    assert prefix + (Fill(true, b - a) + Fill(false, horizon - b))
           == prefix + Fill(true, b - a) + Fill(false, horizon - b);
  }

  /**
   * `compose_states`. `initiallyWorking` selects two factors that are never
   * read, so the schedule does not depend on it.
   */
  method ComposeStates(mttf: real, mttr: real, horizon: nat, initiallyWorking: bool, draws: seq<nat>)
    returns (r: Option<Schedule>)
    ensures r == Compose(mttf, mttr, horizon, draws)
    ensures mttf == 0.0 || mttr == 0.0 ==> r == Some(Schedule(Fill(true, horizon), 0, 0))
  {
    var nFailures: nat := 0;
    var active := new bool[horizon];
    if mttf == 0.0 {
      return Some(Schedule(Fill(true, horizon), nFailures, 0));
    }
    if mttr == 0.0 {
      return Some(Schedule(Fill(true, horizon), nFailures, 0));
    }
    // the two factors of the source, never read afterwards
    var factor1, factor2 := mttf, mttr;
    if !initiallyWorking {
      factor1, factor2 := mttr, mttf;
    }
    var a: nat := 0;
    var pos: nat := 0;
    PrependEmpty(Run(horizon, draws, 0, 0, 0));
    while a < horizon
      invariant a <= horizon && pos <= |draws| && active.Length == horizon
      invariant Compose(mttf, mttr, horizon, draws) == Prepend(active[..a], Run(horizon, draws, a, pos, nFailures))
      decreases |draws| - pos
    {
      ghost var prefix := active[..a];
      ghost var a0, pos0, fails0 := a, pos, nFailures;
      // simulate failure
      if pos >= |draws| { return None; }
      var b := a + draws[pos];
      pos := pos + 1;
      if b > horizon {
        FillRange(active, a, horizon, true);
        PrependLastOn(horizon, draws, a0, pos0, fails0, prefix);
        assert active[..] == active[..horizon];
        return Some(Schedule(active[..], nFailures, pos));
      }
      FillRange(active, a, b, true);
      a := b;
      // simulate recovery
      if pos >= |draws| { return None; }
      b := a + draws[pos];
      pos := pos + 1;
      FillRange(active, a, if b > horizon then horizon else b, false);
      nFailures := nFailures + 1;
      if b > horizon {
        PrependLastOff(horizon, draws, a0, pos0, fails0, prefix);
        assert active[..] == active[..horizon];
        return Some(Schedule(active[..], nFailures, pos));
      }
      PrependCycle(horizon, draws, a0, pos0, fails0, prefix);
      a := b;
    }
    assert active[..a] + [] == active[..];
    return Some(Schedule(active[..], nFailures, pos));
  }

  /** The schedules of elements k.. of `generate_states_matrix`, the stream read from `pos`. */
  function StatesFrom(mttf: seq<real>, mttr: seq<real>, horizon: nat, draws: seq<nat>, k: nat, pos: nat)
    : (r: Option<seq<Schedule>>)
    requires |mttf| == |mttr| && k <= |mttf| && pos <= |draws|
    ensures r.Some? ==> |r.value| == |mttf| - k && forall j :: 0 <= j < |r.value| ==> |r.value[j].active| == horizon
    decreases |mttf| - k
  {
    if k == |mttf| then Some([])
    else
      match Compose(mttf[k], mttr[k], horizon, draws[pos..])
      case None => None
      case Some(s) =>
        match StatesFrom(mttf, mttr, horizon, draws, k + 1, pos + s.used)
        case None => None
        case Some(rest) => Some([s] + rest)
  }

  function TotalFailures(ss: seq<Schedule>): nat
  {
    if ss == [] then 0 else TotalFailures(ss[..|ss| - 1]) + ss[|ss| - 1].failures
  }

  function PrependAll(done: seq<Schedule>, r: Option<seq<Schedule>>): Option<seq<Schedule>>
  {
    match r
    case None => None
    case Some(rest) => Some(done + rest)
  }

  /** One iteration of the element loop keeps the remaining-schedules invariant. */
  lemma StatesStep(mttf: seq<real>, mttr: seq<real>, horizon: nat, draws: seq<nat>, k: nat, pos: nat,
                   done: seq<Schedule>, col: Schedule)
    requires |mttf| == |mttr| && k < |mttf| && pos <= |draws|
    requires Compose(mttf[k], mttr[k], horizon, draws[pos..]) == Some(col)
    ensures pos + col.used <= |draws|
    ensures PrependAll(done, StatesFrom(mttf, mttr, horizon, draws, k, pos))
            == PrependAll(done + [col], StatesFrom(mttf, mttr, horizon, draws, k + 1, pos + col.used))
    ensures TotalFailures(done + [col]) == TotalFailures(done) + col.failures
  {
    assert (done + [col])[..|done|] == done;
    var tail := StatesFrom(mttf, mttr, horizon, draws, k + 1, pos + col.used);
    assert tail.Some? ==> done + ([col] + tail.value) == (done + [col]) + tail.value;
  }

  /** The numpy column assignment `states[:, k] = col`. */
  method WriteColumn(states: array2<bool>, k: nat, col: seq<bool>)
    requires k < states.Length1 && |col| == states.Length0
    modifies states
    ensures forall t, j :: 0 <= t < states.Length0 && 0 <= j < states.Length1 ==>
              states[t, j] == if j == k then col[t] else old(states[t, j])
  {
    var t := 0;
    while t < states.Length0
      invariant t <= states.Length0
      invariant forall t', j :: 0 <= t' < states.Length0 && 0 <= j < states.Length1 ==>
                  states[t', j] == if j == k && t' < t then col[t'] else old(states[t', j])
    {
      states[t, k] := col[t];
      t := t + 1;
    }
  }

  lemma PrependAllEmpty(r: Option<seq<Schedule>>)
    ensures PrependAll([], r) == r
  {
    match r
    case None =>
    case Some(x) => assert [] + x == x;
  }

  /**
   * `generate_states_matrix`: column k of the horizon × n matrix is element k's
   * schedule, the elements reading the one random stream in turn, and the
   * failures are summed over the columns.
   */
  method GenerateStatesMatrix(mttf: seq<real>, mttr: seq<real>, horizon: nat, initiallyWorking: bool, draws: seq<nat>)
    returns (r: Outcome<(Mat<bool>, nat)>)
    ensures |mttf| != |mttr| <==> r == Raised(AssertionError)
    ensures |mttf| == |mttr| ==> (r.DrawsExhausted? <==> StatesFrom(mttf, mttr, horizon, draws, 0, 0).None?)
    ensures |mttf| == |mttr| && r.Done? ==>
              StatesFrom(mttf, mttr, horizon, draws, 0, 0).Some? &&
              var ss := StatesFrom(mttf, mttr, horizon, draws, 0, 0).value;
              var m := r.value.0;
              m.Valid() && m.rows == horizon && m.cols == |mttf| &&
              (forall t, k :: 0 <= t < horizon && 0 <= k < |mttf| ==> m.at[t][k] == ss[k].active[t]) &&
              r.value.1 == TotalFailures(ss)
  {
    if |mttf| != |mttr| {
      return Raised(AssertionError);
    }
    var n := |mttf|;
    var nFailures: nat := 0;
    var states := new bool[horizon, n];
    var k := 0;
    var pos: nat := 0;
    ghost var done: seq<Schedule> := [];
    PrependAllEmpty(StatesFrom(mttf, mttr, horizon, draws, 0, 0));
    while k < n
      invariant k <= n && pos <= |draws| && |done| == k
      invariant StatesFrom(mttf, mttr, horizon, draws, 0, 0) == PrependAll(done, StatesFrom(mttf, mttr, horizon, draws, k, pos))
      invariant forall j :: 0 <= j < k ==> |done[j].active| == horizon
      invariant forall t, j :: 0 <= t < horizon && 0 <= j < k ==> states[t, j] == done[j].active[t]
      invariant nFailures == TotalFailures(done)
    {
      var s := ComposeStates(mttf[k], mttr[k], horizon, initiallyWorking, draws[pos..]);
      if s.None? {
        return DrawsExhausted;
      }
      var col := s.value;
      WriteColumn(states, k, col.active);
      nFailures := nFailures + col.failures;
      StatesStep(mttf, mttr, horizon, draws, k, pos, done, col);
      done := done + [col];
      pos := pos + col.used;
      k := k + 1;
    }
    assert StatesFrom(mttf, mttr, horizon, draws, n, pos) == Some([]);
    assert done + [] == done;
    return Done((MatOf(states), nFailures));
  }

  /** Whether row t of the two matrices differs in some column. */
  ghost predicate Differs(m1: Mat<int>, m2: Mat<int>, t: nat)
    requires m1.Valid() && m2.Valid() && m1.rows == m2.rows && m1.cols == m2.cols && t < m1.rows
  {
    exists k :: 0 <= k < m1.cols && m1.at[t][k] != m2.at[t][k]
  }

  /** The positions of the `true` entries, increasing. */
  function TrueIndices(s: seq<bool>): (r: seq<nat>)
    ensures |r| == CountTrue(s)
    ensures forall i, j :: 0 <= i < j < |r| ==> r[i] < r[j]
    ensures forall i :: 0 <= i < |r| ==> r[i] < |s| && s[r[i]]
    ensures forall x :: 0 <= x < |s| && s[x] ==> x in r
  {
    if s == [] then []
    else
      var r0 := TrueIndices(s[..|s| - 1]);
      assert forall x :: 0 <= x < |s| - 1 ==> s[..|s| - 1][x] == s[x];
      r0 + (if s[|s| - 1] then [|s| - 1] else [])
  }

  /**
   * `find_different_states`: the row indices where the two matrices differ,
   * strictly increasing.
   */
  method FindDifferentStates(m1: Mat<int>, m2: Mat<int>) returns (r: Result<seq<nat>>)
    requires m1.Valid() && m2.Valid()
    ensures (m1.rows != m2.rows || m1.cols != m2.cols) <==> r == Err(AssertionError)
    ensures r.Ok? ==> forall i, j :: 0 <= i < j < |r.value| ==> r.value[i] < r.value[j]
    ensures r.Ok? ==> forall t: nat :: t in r.value <==> t < m1.rows && Differs(m1, m2, t)
  {
    if m1.rows != m2.rows || m1.cols != m2.cols {
      return Err(AssertionError);
    }
    var keep := new bool[m1.rows];
    var count := 0;
    var t := 0;
    while t < m1.rows
      invariant t <= m1.rows
      invariant forall t' :: 0 <= t' < t ==> keep[t'] == Differs(m1, m2, t')
      invariant count == CountTrue(keep[..t])
    {
      var diff := RowDiffers(m1, m2, t);
      assert keep[..t + 1][..t] == keep[..t];
      if diff {
        keep[t] := true;
        count := count + 1;
      } else {
        keep[t] := false;
      }
      assert keep[..t + 1][..t] == keep[..t];
      t := t + 1;
    }
    assert keep[..] == keep[..m1.rows];
    var states := KeptIndices(keep, count);
    r := Ok(states);
  }

  /** The inner loop of `find_different_states`: does row t differ, stopping at the first difference. */
  method RowDiffers(m1: Mat<int>, m2: Mat<int>, t: nat) returns (diff: bool)
    requires m1.Valid() && m2.Valid() && m1.rows == m2.rows && m1.cols == m2.cols && t < m1.rows
    ensures diff == Differs(m1, m2, t)
  {
    diff := false;
    var k := 0;
    while k < m1.cols && !diff
      invariant k <= m1.cols
      invariant diff <==> exists k' :: 0 <= k' < k && m1.at[t][k'] != m2.at[t][k']
    {
      if m1.at[t][k] != m2.at[t][k] {
        diff := true;
      }
      k := k + 1;
    }
  }

  /** The second loop of `find_different_states`: the flagged positions, written in order. */
  method KeptIndices(keep: array<bool>, count: nat) returns (states: seq<nat>)
    requires count == CountTrue(keep[..])
    ensures states == TrueIndices(keep[..])
  {
    var out := new nat[count];
    var n := 0;
    var i := 0;
    while i < keep.Length
      invariant i <= keep.Length
      invariant n == CountTrue(keep[..i]) && n <= count
      invariant out[..n] == TrueIndices(keep[..i])
    {
      CountTruePrefix(keep[..], i);
      assert keep[..i + 1][..i] == keep[..i];
      if keep[i] {
        out[n] := i;
        n := n + 1;
      }
      i := i + 1;
    }
    assert keep[..i] == keep[..];
    assert out[..] == out[..n];
    states := out[..];
  }

  lemma {:induction false} CountTruePrefix(s: seq<bool>, i: nat)
    requires i < |s|
    ensures CountTrue(s[..i + 1]) <= CountTrue(s) && CountTrue(s[..i + 1]) == CountTrue(s[..i]) + (if s[i] then 1 else 0)
    decreases |s| - i
  {
    assert s[..i + 1][..i] == s[..i];
    if i + 1 < |s| {
      CountTruePrefix(s, i + 1);
    } else {
      assert s[..i + 1] == s;
    }
  }

  /** Row t of the availability matrix exists and lacks at least one active device. */
  ghost predicate FailingRow(m: Mat<int>, t: int)
  {
    m.Valid() && 0 <= t < m.rows && SumInt(m.at[t]) != m.cols
  }

  /** Row t exists and has every device active. */
  ghost predicate ActiveRow(m: Mat<int>, t: int)
  {
    m.Valid() && 0 <= t < m.rows && SumInt(m.at[t]) == m.cols
  }

  ghost function Last(b: seq<nat>): nat
    requires |b| > 0
  {
    b[|b| - 1]
  }

  /** A run of consecutive failing rows that starts at row 0 or just after an active row. */
  ghost predicate RunFromStart(m: Mat<int>, b: seq<nat>)
  {
    |b| > 0 &&
    (forall i :: 0 <= i < |b| - 1 ==> b[i + 1] == b[i] + 1) &&
    (forall j :: 0 <= j < |b| ==> FailingRow(m, b[j])) &&
    (b[0] == 0 || ActiveRow(m, b[0] - 1))
  }

  ghost predicate InSomeBlock(blocks: seq<seq<nat>>, t: nat)
  {
    exists i, j :: 0 <= i < |blocks| && 0 <= j < |blocks[i]| && blocks[i][j] == t
  }

  /** The blocks emitted and the open run after the first n rows of `find_time_blocks`. */
  function Scan(m: Mat<int>, n: nat): (seq<seq<nat>>, seq<nat>)
    requires m.Valid() && n <= m.rows
  {
    if n == 0 then ([], [])
    else
      var (blocks, open) := Scan(m, n - 1);
      if SumInt(m.at[n - 1]) != m.cols then (blocks, open + [n - 1])
      else if |open| > 0 then (blocks + [open], [])
      else (blocks, [])
  }

  /** Every block is a failing run followed, before row n, by an active row. */
  ghost predicate ClosedRuns(m: Mat<int>, blocks: seq<seq<nat>>, n: nat)
  {
    forall i :: 0 <= i < |blocks| ==>
      RunFromStart(m, blocks[i]) && Last(blocks[i]) + 1 < n && ActiveRow(m, Last(blocks[i]) + 1)
  }

  /** The open run reaches row n - 1; with no open run, row n - 1 is active. */
  ghost predicate OpenRun(m: Mat<int>, open: seq<nat>, n: nat)
  {
    (open != [] ==> RunFromStart(m, open) && Last(open) == n - 1) &&
    (open == [] && n > 0 ==> ActiveRow(m, n - 1))
  }

  /** Blocks come in increasing order. */
  ghost predicate Ordered(blocks: seq<seq<nat>>)
  {
    forall i, j :: 0 <= i < j < |blocks| ==> |blocks[i]| > 0 && |blocks[j]| > 0 && Last(blocks[i]) < blocks[j][0]
  }

  /** The open run starts after every block. */
  ghost predicate OpenAfter(blocks: seq<seq<nat>>, open: seq<nat>)
  {
    open != [] ==> forall i :: 0 <= i < |blocks| ==> |blocks[i]| > 0 && Last(blocks[i]) < open[0]
  }

  /** Each failing row before n is in a block or in the open run. */
  ghost predicate Collected(m: Mat<int>, blocks: seq<seq<nat>>, open: seq<nat>, n: nat)
  {
    forall t :: 0 <= t < n && FailingRow(m, t) ==> InSomeBlock(blocks, t) || t in open
  }

  /** A failing row before n with an active row after it, still before n, is in a block. */
  ghost predicate Covered(m: Mat<int>, blocks: seq<seq<nat>>, n: nat)
  {
    forall t, t' :: 0 <= t < t' < n && FailingRow(m, t) && ActiveRow(m, t') ==> InSomeBlock(blocks, t)
  }

  /** The open run is a failing run reaching the last row scanned. */
  lemma {:induction false} ScanOpen(m: Mat<int>, n: nat)
    requires m.Valid() && n <= m.rows
    ensures OpenRun(m, Scan(m, n).1, n)
  {
    if n > 0 {
      ScanOpen(m, n - 1);
      var o := Scan(m, n - 1).1;
      if SumInt(m.at[n - 1]) != m.cols {
        var o2 := o + [n - 1];
        assert forall j :: 0 <= j < |o| ==> o2[j] == o[j];
        assert RunFromStart(m, o2);
      }
    }
  }

  /** Each emitted block is a maximal failing run with an active row right after it. */
  lemma {:induction false} ScanRuns(m: Mat<int>, n: nat)
    requires m.Valid() && n <= m.rows
    ensures ClosedRuns(m, Scan(m, n).0, n)
  {
    if n > 0 {
      ScanRuns(m, n - 1);
      var (b, o) := Scan(m, n - 1);
      if SumInt(m.at[n - 1]) == m.cols && |o| > 0 {
        ScanOpen(m, n - 1);
        var b2 := b + [o];
        assert forall i :: 0 <= i < |b| ==> b2[i] == b[i];
        assert b2[|b|] == o;
      }
    }
  }

  /** Blocks come in increasing order, and the open run starts after all of them. */
  lemma {:induction false} ScanOrdered(m: Mat<int>, n: nat)
    requires m.Valid() && n <= m.rows
    ensures Ordered(Scan(m, n).0) && OpenAfter(Scan(m, n).0, Scan(m, n).1)
  {
    if n > 0 {
      ScanOrdered(m, n - 1);
      ScanRuns(m, n - 1);
      ScanOpen(m, n - 1);
      var (b, o) := Scan(m, n - 1);
      if SumInt(m.at[n - 1]) != m.cols {
        if o == [] {
          assert ClosedRuns(m, b, n - 1);
        }
      } else if |o| > 0 {
        var b2 := b + [o];
        assert forall i :: 0 <= i < |b| ==> b2[i] == b[i];
        assert b2[|b|] == o;
      }
    }
  }

  /** A failing row is in an emitted block once an active row follows it. */
  lemma {:induction false} ScanComplete(m: Mat<int>, n: nat)
    requires m.Valid() && n <= m.rows
    ensures Collected(m, Scan(m, n).0, Scan(m, n).1, n) && Covered(m, Scan(m, n).0, n)
  {
    if n > 0 {
      ScanComplete(m, n - 1);
      var (b, o) := Scan(m, n - 1);
      if SumInt(m.at[n - 1]) == m.cols && |o| > 0 {
        var b2 := b + [o];
        forall t | InSomeBlock(b, t) ensures InSomeBlock(b2, t) {
          var i, j :| 0 <= i < |b| && 0 <= j < |b[i]| && b[i][j] == t;
          assert b2[i][j] == t;
        }
        forall t | t in o ensures InSomeBlock(b2, t) {
          var j :| 0 <= j < |o| && o[j] == t;
          assert b2[|b|][j] == t;
        }
      }
    }
  }

  /**
   * `find_time_blocks`: the maximal runs of consecutive failing rows among the
   * first `horizon` rows, in order, keeping only those followed by an
   * all-active row; a run reaching the horizon is dropped. numba does not check
   * bounds, so the model requires every row read to exist.
   */
  method FindTimeBlocks(horizon: nat, m: Mat<int>) returns (blocks: seq<seq<nat>>)
    requires m.Valid() && horizon <= m.rows
    ensures ClosedRuns(m, blocks, horizon)
    ensures Ordered(blocks)
    ensures Covered(m, blocks, horizon)
  {
    blocks := [];
    var idxList: seq<nat> := [];
    var tidx := 0;
    while tidx < horizon
      invariant tidx <= horizon
      invariant (blocks, idxList) == Scan(m, tidx)
    {
      var val := SumInt(m.at[tidx]);
      if val != m.cols {
        // there is at least one failure
        idxList := idxList + [tidx];
      } else if |idxList| > 0 {
        blocks := blocks + [idxList];
        idxList := [];
      }
      tidx := tidx + 1;
    }
    ScanRuns(m, horizon);
    ScanOrdered(m, horizon);
    ScanComplete(m, horizon);
  }

  /** Lost load up to hour n: dt[t] times the shortfall of generation, when there is one. */
  function LossUpTo(gen: Mat<real>, load: Mat<real>, dt: seq<real>, n: nat): real
    requires gen.Valid() && load.Valid() && n <= gen.rows == load.rows
    requires forall t :: 0 <= t < n && SumReal(load.at[t]) > SumReal(gen.at[t]) ==> t < |dt|
  {
    if n == 0 then 0.0
    else
      var t := n - 1;
      var shortfall := SumReal(load.at[t]) - SumReal(gen.at[t]);
      LossUpTo(gen, load, dt, t) + (if shortfall > 0.0 then dt[t] * shortfall else 0.0)
  }

  /** Σ dt[t]·max(0, load_t − gen_t) over the first n hours. */
  function ShortfallSum(gen: Mat<real>, load: Mat<real>, dt: seq<real>, n: nat): real
    requires gen.Valid() && load.Valid() && n <= gen.rows == load.rows && n <= |dt|
  {
    if n == 0 then 0.0
    else
      var s := SumReal(load.at[n - 1]) - SumReal(gen.at[n - 1]);
      ShortfallSum(gen, load, dt, n - 1) + dt[n - 1] * (if s > 0.0 then s else 0.0)
  }

  lemma {:induction false} LossIsShortfallSum(gen: Mat<real>, load: Mat<real>, dt: seq<real>, n: nat)
    requires gen.Valid() && load.Valid() && n <= gen.rows == load.rows && n <= |dt|
    ensures LossUpTo(gen, load, dt, n) == ShortfallSum(gen, load, dt, n)
  {
    if n > 0 {
      LossIsShortfallSum(gen, load, dt, n - 1);
    }
  }

  lemma {:induction false} LossNonNegative(gen: Mat<real>, load: Mat<real>, dt: seq<real>, n: nat)
    requires gen.Valid() && load.Valid() && n <= gen.rows == load.rows
    requires forall t :: 0 <= t < n && SumReal(load.at[t]) > SumReal(gen.at[t]) ==> t < |dt|
    requires forall t :: 0 <= t < |dt| ==> dt[t] >= 0.0
    ensures LossUpTo(gen, load, dt, n) >= 0.0
  {
    if n > 0 {
      LossNonNegative(gen, load, dt, n - 1);
    }
  }

  lemma {:induction false} LossZeroWhenCovered(gen: Mat<real>, load: Mat<real>, dt: seq<real>, n: nat)
    requires gen.Valid() && load.Valid() && n <= gen.rows == load.rows
    requires forall t :: 0 <= t < n ==> SumReal(load.at[t]) <= SumReal(gen.at[t])
    ensures LossUpTo(gen, load, dt, n) == 0.0
  {
    if n > 0 {
      LossZeroWhenCovered(gen, load, dt, n - 1);
    }
  }

  /**
   * `compute_loss_of_load_because_of_lack_of_generation`. numba does not check
   * bounds, so the model requires dt[t] to exist wherever it is read.
   */
  method ComputeLossOfLoad(gen: Mat<real>, load: Mat<real>, dt: seq<real>) returns (r: Result<real>)
    requires gen.Valid() && load.Valid()
    requires gen.rows == load.rows ==>
               forall t :: 0 <= t < gen.rows && SumReal(load.at[t]) > SumReal(gen.at[t]) ==> t < |dt|
    ensures gen.rows != load.rows <==> r == Err(AssertionError)
    ensures r.Ok? ==> r.value == LossUpTo(gen, load, dt, gen.rows)
  {
    if gen.rows != load.rows {
      return Err(AssertionError);
    }
    var nt := gen.rows;
    var loadLost := 0.0;
    var t := 0;
    while t < nt
      invariant t <= nt
      invariant loadLost == LossUpTo(gen, load, dt, t)
    {
      var maxGen := SumReal(gen.at[t]);
      var totalLoad := SumReal(load.at[t]);
      if totalLoad > maxGen {
        loadLost := loadLost + dt[t] * (totalLoad - maxGen);
      }
      t := t + 1;
    }
    return Ok(loadLost);
  }
}
