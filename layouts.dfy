/**
 * The shape shared by the single-bar, double-bar and breaker-and-a-half
 * builders. Each one
 *   1. adds its voltage level,
 *   2. adds its busbars first when the bar is not split into segments,
 *   3. runs a loop over the bays (every bay, or every second one), which adds
 *      that bay's segment buses when segmented, then the bay's own buses, then
 *      its switches, and records the bay's connection buses,
 *   4. adds a coupling (buses, then switches) between the bars in force after
 *      the loop, and
 *   5. chains every segment list longer than one with section lines
 *      (`connect_bar_segments`).
 * A builder is described by a `Layout`: the bar names, a `Pattern` for one
 * bay and a `Pattern` for the coupling. `Build` is the specification of what
 * a builder adds to the grid and `BuildLevel` the imperative builder proved
 * against it.
 */
module Layouts {
  import opened Common
  import opened Grid

  /**
   * How a bus or switch name is formed from the voltage level's name `name`
   * and the loop index `i`: a fixed text, the level name and a fixed text,
   * `{prefix}{i}`, or `{prefix}{i + offset}{suffix}`, where `own` puts the
   * level name in front of the prefix.
   */
  datatype NamePat =
    | Lit(s: string)
    | Own(s: string)
    | Num(own: bool, prefix: string)
    | Wrapped(own: bool, prefix: string, offset: nat, suffix: string)

  function Lead(name: string, own: bool, prefix: string): string
  {
    if own then name + prefix else prefix
  }

  function NameAt(name: string, p: NamePat, i: nat): string
  {
    match p
    case Lit(s) => s
    case Own(s) => name + s
    case Num(own, prefix) => Lead(name, own, prefix) + NatStr(i)
    case Wrapped(own, prefix, offset, suffix) => Lead(name, own, prefix) + NatStr(i + offset) + suffix
  }

  function Names(name: string, ps: seq<NamePat>, i: nat): (r: seq<string>)
    ensures |r| == |ps|
  {
    seq(|ps|, k requires 0 <= k < |ps| => NameAt(name, ps[k], i))
  }

  /**
   * Where a switch end attaches: bar `k` in force (the busbar, or this bay's
   * segment when segmented), the `k`-th bus of this bay, or, for the splitter,
   * bar 0 for the first `split` bays and bar 1 for the rest; `Unset` is a bar
   * variable that was never assigned and is still `None`.
   */
  datatype Ref = Bar(k: nat) | Local(k: nat) | Side | Unset

  datatype SwitchPat = SwitchPat(name: NamePat, from: Ref, to: Ref, kind: SwitchKind)

  /**
   * One loop iteration: segment bus names (used only when segmented), the bay's
   * bus names in the order they are added, its switches in the order they are
   * added, and which of its buses are connection buses.
   */
  datatype Pattern = Pattern(segs: seq<NamePat>, buses: seq<NamePat>, switches: seq<SwitchPat>, conn: seq<nat>)

  function SegCount(p: Pattern, seg: bool): nat
  {
    if seg then |p.segs| else 0
  }

  /** Buses one iteration adds. */
  function Width(p: Pattern, seg: bool): nat
  {
    SegCount(p, seg) + |p.buses|
  }

  function IterNames(name: string, p: Pattern, i: nat, seg: bool): (r: seq<string>)
    ensures |r| == Width(p, seg)
  {
    (if seg then Names(name, p.segs, i) else []) + Names(name, p.buses, i)
  }

  /** The buses iteration `i` adds, with ids from `base`: segments first, then the bay's buses. */
  function IterBuses(name: string, p: Pattern, i: nat, seg: bool, base: Id): (r: seq<Bus>)
    ensures |r| == Width(p, seg)
  {
    NewBuses(IterNames(name, p, i, seg), Connectivity, base)
  }

  /** The bars in force during an iteration whose first new id is `base`. */
  function Current(p: Pattern, seg: bool, bars: seq<Option<Id>>, base: Id): seq<Option<Id>>
  {
    if seg then seq(|p.segs|, k => Some(base + k)) else bars
  }

  function Pick(cur: seq<Option<Id>>, k: nat): Option<Id>
  {
    if k < |cur| then cur[k] else None
  }

  function Resolve(r: Ref, i: nat, split: nat, cur: seq<Option<Id>>, local: Id): Option<Id>
  {
    match r
    case Bar(k) => Pick(cur, k)
    case Local(k) => Some(local + k)
    case Side => Pick(cur, if i < split then 0 else 1)
    case Unset => None
  }

  function MakeSwitch(name: string, sp: SwitchPat, i: nat, split: nat, cur: seq<Option<Id>>, local: Id): Switch
  {
    Switch(NameAt(name, sp.name, i), Resolve(sp.from, i, split, cur, local), Resolve(sp.to, i, split, cur, local), sp.kind)
  }

  /** The switches iteration `i` adds when its first new bus id is `base`. */
  function IterSwitches(name: string, p: Pattern, i: nat, seg: bool, bars: seq<Option<Id>>, split: nat, base: Id): (r: seq<Switch>)
    ensures |r| == |p.switches|
  {
    var cur := Current(p, seg, bars, base);
    var local := base + SegCount(p, seg);
    seq(|p.switches|, k requires 0 <= k < |p.switches| => MakeSwitch(name, p.switches[k], i, split, cur, local))
  }

  function IterConn(p: Pattern, seg: bool, base: Id): (r: seq<Id>)
    ensures |r| == |p.conn|
  {
    seq(|p.conn|, c requires 0 <= c < |p.conn| => ConnAt(p, seg, base, c))
  }

  function ConnAt(p: Pattern, seg: bool, base: Id, c: nat): Id
    requires c < |p.conn|
  {
    base + SegCount(p, seg) + p.conn[c]
  }

  /** Python's `len(range(0, n, step))` for the steps the builders use. */
  function Iterations(n: nat, step: nat): (m: nat)
    requires step == 1 || step == 2
  {
    if step == 1 then n else (n + 1) / 2
  }

  /** The loop index of iteration `j`: `step * j`. */
  function LoopIndex(step: nat, j: nat): nat
  {
    step * j
  }

  /** First new bus id of iteration `j` when the loop starts at id `base`. */
  function Start(p: Pattern, seg: bool, j: nat, base: Id): Id
  {
    if j == 0 then base else Start(p, seg, j - 1, base) + Width(p, seg)
  }

  /** Buses added by the first `m` iterations; iteration `j` has loop index `step * j`. */
  function RunBuses(name: string, p: Pattern, step: nat, m: nat, seg: bool, base: Id): seq<Bus>
  {
    if m == 0 then []
    else RunBuses(name, p, step, m - 1, seg, base) + IterBuses(name, p, LoopIndex(step, m - 1), seg, Start(p, seg, m - 1, base))
  }

  function RunSwitches(name: string, p: Pattern, step: nat, m: nat, seg: bool, bars: seq<Option<Id>>, split: nat, base: Id): seq<Switch>
  {
    if m == 0 then []
    else RunSwitches(name, p, step, m - 1, seg, bars, split, base)
         + IterSwitches(name, p, LoopIndex(step, m - 1), seg, bars, split, Start(p, seg, m - 1, base))
  }

  function RunConn(p: Pattern, m: nat, seg: bool, base: Id): seq<Id>
  {
    if m == 0 then [] else RunConn(p, m - 1, seg, base) + IterConn(p, seg, Start(p, seg, m - 1, base))
  }

  /** The list of segment buses number `c` (`bar1_buses`, `bar2_buses`, ...) after `m` iterations. */
  function RunSegs(p: Pattern, m: nat, seg: bool, base: Id, c: nat): seq<Id>
  {
    if m == 0 || !seg then [] else RunSegs(p, m - 1, seg, base, c) + [Start(p, seg, m - 1, base) + c]
  }

  function SegLists(p: Pattern, m: nat, seg: bool, base: Id): (r: seq<seq<Id>>)
    ensures |r| == |p.segs|
  {
    seq(|p.segs|, c requires 0 <= c < |p.segs| => RunSegs(p, m, seg, base, c))
  }

  /** The bars in force after `m` iterations: the last segments, or none when no segment was made. */
  function LastBars(p: Pattern, m: nat, seg: bool, bars: seq<Option<Id>>, base: Id): seq<Option<Id>>
  {
    if !seg then bars else if m == 0 then [] else Current(p, true, bars, Start(p, seg, m - 1, base))
  }

  /** The lines `connect_bar_segments` adds: line `i` joins bus `i` to bus `i + 1`. */
  function Sections(name: string, bs: seq<Id>): (r: seq<Branch>)
    ensures |r| == if |bs| == 0 then 0 else |bs| - 1
  {
    seq(if |bs| == 0 then 0 else |bs| - 1, i requires 0 <= i < |bs| - 1 => Section(name, i, bs[i], bs[i + 1]))
  }

  /** Section line `i`, from bus `a` to bus `b`. */
  function Section(name: string, i: nat, a: Id, b: Id): Branch
  {
    Branch(name + "_section_" + NatStr(i), Some(a), Some(b))
  }

  /** A segment list is chained only when it holds more than one bus. */
  function Chain(name: string, bs: seq<Id>): seq<Branch>
  {
    if |bs| > 1 then Sections(name, bs) else []
  }

  function ChainAll(name: string, lists: seq<seq<Id>>): seq<Branch>
  {
    if lists == [] then [] else ChainAll(name, lists[..|lists| - 1]) + Chain(name, lists[|lists| - 1])
  }

  /** What a builder appends to the grid, and the connection buses it returns. */
  datatype Level = Level(buses: seq<Bus>, switches: seq<Switch>, lines: seq<Branch>, conn: seq<Id>)

  /** The grid after adding voltage level `vl` and everything in `lv`. */
  function Extend(s: GridState, vl: string, lv: Level): GridState
  {
    s.(voltageLevels := s.voltageLevels + [vl],
       buses := s.buses + lv.buses,
       switches := s.switches + lv.switches,
       branches := s.branches + lv.lines,
       nextId := s.nextId + |lv.buses|)
  }

  /** The grid after appending everything in `lv`, without a voltage level. */
  function Grow(s: GridState, lv: Level): GridState
  {
    s.(buses := s.buses + lv.buses,
       switches := s.switches + lv.switches,
       branches := s.branches + lv.lines,
       nextId := s.nextId + |lv.buses|)
  }

  /** Two levels, one after the other. */
  function Join(a: Level, b: Level): Level
  {
    Level(a.buses + b.buses, a.switches + b.switches, a.lines + b.lines, a.conn + b.conn)
  }

  /** Two segmented builds in a row: the second's ids start after the first's buses. */
  function Pair(l1: Layout, l2: Layout, name: string, m1: nat, m2: nat, base: Id): Level
  {
    Join(Build(l1, name, m1, true, 0, base), Build(l2, name, m2, true, 0, base + |LevelBuses(l1, name, m1, true, base)|))
  }

  /** Growing by two levels in turn is growing by the two joined. */
  lemma GrowJoin(s: GridState, a: Level, b: Level)
    ensures Grow(Grow(s, a), b) == Grow(s, Join(a, b))
  {
    AppendAssoc(s.buses, a.buses, b.buses);
    AppendAssoc(s.switches, a.switches, b.switches);
    AppendAssoc(s.branches, a.lines, b.lines);
  }

  /** Extending is adding the voltage level, then growing. */
  lemma ExtendGrow(s: GridState, vl: string, lv: Level)
    ensures Extend(s, vl, lv) == Grow(s.(voltageLevels := s.voltageLevels + [vl]), lv)
  {
  }

  datatype Layout = Layout(bars: seq<NamePat>, bay: Pattern, step: nat, coupling: Pattern)

  /** The busbars added before the loop when unsegmented. */
  function PreBars(name: string, l: Layout, seg: bool, base: Id): seq<Bus>
  {
    if seg then [] else NewBuses(Names(name, l.bars, 0), BusBar, base)
  }

  /** References to `count` buses with ids from `base`. */
  function Refs(base: Id, count: nat): seq<Option<Id>>
  {
    seq(count, k => Some(base + k))
  }

  function BarIds(l: Layout, seg: bool, base: Id): seq<Option<Id>>
  {
    if seg then [] else Refs(base, |l.bars|)
  }

  /** First new id after the busbars: where the bay loop starts. */
  function LoopBase(l: Layout, seg: bool, base: Id): Id
  {
    base + (if seg then 0 else |l.bars|)
  }

  /** Buses of `m` bay iterations from id `b1`, then the coupling's. */
  function BodyBuses(l: Layout, name: string, m: nat, seg: bool, b1: Id): seq<Bus>
  {
    RunBuses(name, l.bay, l.step, m, seg, b1) + IterBuses(name, l.coupling, 0, false, Start(l.bay, seg, m, b1))
  }

  /** Switches of `m` bay iterations over the bars `bars`, then the coupling's over the bars in force after the loop. */
  function BodySwitches(l: Layout, name: string, m: nat, seg: bool, bars: seq<Option<Id>>, split: nat, b1: Id): seq<Switch>
  {
    RunSwitches(name, l.bay, l.step, m, seg, bars, split, b1)
    + IterSwitches(name, l.coupling, 0, false, LastBars(l.bay, m, seg, bars, b1), split, Start(l.bay, seg, m, b1))
  }

  /** The buses a builder adds: the busbars when unsegmented, the bays', then the coupling's. */
  function LevelBuses(l: Layout, name: string, m: nat, seg: bool, base: Id): seq<Bus>
  {
    PreBars(name, l, seg, base) + BodyBuses(l, name, m, seg, LoopBase(l, seg, base))
  }

  /** The switches a builder adds. */
  function LevelSwitches(l: Layout, name: string, m: nat, seg: bool, split: nat, base: Id): seq<Switch>
  {
    BodySwitches(l, name, m, seg, BarIds(l, seg, base), split, LoopBase(l, seg, base))
  }

  /** The section lines a builder adds. */
  function LevelLines(l: Layout, name: string, m: nat, seg: bool, base: Id): seq<Branch>
  {
    ChainAll(name, SegLists(l.bay, m, seg, LoopBase(l, seg, base)))
  }

  /** The connection buses a builder returns. */
  function LevelConn(l: Layout, m: nat, seg: bool, base: Id): seq<Id>
  {
    RunConn(l.bay, m, seg, LoopBase(l, seg, base))
  }

  /** Specification of a builder with layout `l` whose loop runs `m` times, new ids starting at `base`. */
  function Build(l: Layout, name: string, m: nat, seg: bool, split: nat, base: Id): Level
  {
    Level(LevelBuses(l, name, m, seg, base), LevelSwitches(l, name, m, seg, split, base),
          LevelLines(l, name, m, seg, base), LevelConn(l, m, seg, base))
  }

  /** One more iteration appends that iteration's buses, switches and connection buses. */
  lemma RunStep(name: string, p: Pattern, step: nat, j: nat, seg: bool, bars: seq<Option<Id>>, split: nat, base: Id)
    ensures RunBuses(name, p, step, j + 1, seg, base)
            == RunBuses(name, p, step, j, seg, base) + IterBuses(name, p, LoopIndex(step, j), seg, Start(p, seg, j, base))
    ensures RunSwitches(name, p, step, j + 1, seg, bars, split, base)
            == RunSwitches(name, p, step, j, seg, bars, split, base) + IterSwitches(name, p, LoopIndex(step, j), seg, bars, split, Start(p, seg, j, base))
    ensures RunConn(p, j + 1, seg, base) == RunConn(p, j, seg, base) + IterConn(p, seg, Start(p, seg, j, base))
    ensures LastBars(p, j + 1, seg, bars, base) == if seg then Current(p, true, bars, Start(p, seg, j, base)) else bars
  {
  }

  /** When segmented, one more iteration appends its segment `c` to list `c`. */
  lemma SegListsStep(p: Pattern, j: nat, seg: bool, base: Id)
    ensures SegLists(p, j + 1, seg, base)
            == if seg then seq(|p.segs|, c requires 0 <= c < |p.segs| => SegLists(p, j, seg, base)[c] + [Start(p, seg, j, base) + c])
               else SegLists(p, j, seg, base)
  {
    if seg {
      var a := SegLists(p, j + 1, seg, base);
      var b := seq(|p.segs|, c requires 0 <= c < |p.segs| => SegLists(p, j, seg, base)[c] + [Start(p, seg, j, base) + c]);
      forall c | 0 <= c < |p.segs|
        ensures a[c] == b[c]
      {
        assert a[c] == RunSegs(p, j + 1, seg, base, c);
        assert SegLists(p, j, seg, base)[c] == RunSegs(p, j, seg, base, c);
        assert RunSegs(p, j + 1, seg, base, c) == RunSegs(p, j, seg, base, c) + [Start(p, seg, j, base) + c];
      }
    } else {
      forall c | 0 <= c < |p.segs|
        ensures SegLists(p, j + 1, seg, base)[c] == SegLists(p, j, seg, base)[c]
      {
      }
    }
  }

  lemma AppendAssoc<T>(a: seq<T>, b: seq<T>, c: seq<T>)
    ensures (a + b) + c == a + (b + c)
  {
  }

  /** Indexing into a concatenation, in a context small enough to stay cheap. */
  lemma AppendAt<T>(a: seq<T>, b: seq<T>, i: nat)
    requires i < |a| + |b|
    ensures i < |a| ==> (a + b)[i] == a[i]
    ensures |a| <= i ==> (a + b)[i] == b[i - |a|]
  {
  }

  // ---------------------------------------------------------- where things land

  /** Every iteration adds the same number of buses. */
  lemma {:induction false} StartIs(p: Pattern, seg: bool, j: nat, base: Id)
    ensures Start(p, seg, j, base) == base + Off(j, Width(p, seg))
    decreases j
  {
    if j > 0 {
      StartIs(p, seg, j - 1, base);
    }
  }

  lemma {:induction false} StartMono(p: Pattern, seg: bool, i: nat, j: nat, base: Id)
    requires i <= j
    ensures Start(p, seg, i, base) <= Start(p, seg, j, base)
    decreases j
  {
    if i < j {
      StartMono(p, seg, i, j - 1, base);
    }
  }

  lemma {:induction false} RunBusesLen(name: string, p: Pattern, step: nat, m: nat, seg: bool, base: Id)
    ensures |RunBuses(name, p, step, m, seg, base)| == Off(m, Width(p, seg))
    decreases m
  {
    if m > 0 {
      RunBusesLen(name, p, step, m - 1, seg, base);
    }
  }

  /** The run ends where iteration `m` would start. */
  lemma RunBusesEnd(name: string, p: Pattern, step: nat, m: nat, seg: bool, base: Id)
    ensures base + |RunBuses(name, p, step, m, seg, base)| == Start(p, seg, m, base)
  {
    RunBusesLen(name, p, step, m, seg, base);
    StartIs(p, seg, m, base);
  }

  /** Iteration `m - 1` appends to the buses of the earlier ones and leaves them in place. */
  lemma RunBusesStep(name: string, p: Pattern, step: nat, m: nat, seg: bool, base: Id, i: nat)
    requires 0 < m && i < Off(m, Width(p, seg))
    ensures |RunBuses(name, p, step, m, seg, base)| == Off(m, Width(p, seg))
    ensures i < Off(m - 1, Width(p, seg)) ==> RunBuses(name, p, step, m, seg, base)[i] == RunBuses(name, p, step, m - 1, seg, base)[i]
    ensures Off(m - 1, Width(p, seg)) <= i ==>
              RunBuses(name, p, step, m, seg, base)[i]
              == IterBuses(name, p, LoopIndex(step, m - 1), seg, Start(p, seg, m - 1, base))[i - Off(m - 1, Width(p, seg))]
  {
    var prev := RunBuses(name, p, step, m - 1, seg, base);
    var last := IterBuses(name, p, LoopIndex(step, m - 1), seg, Start(p, seg, m - 1, base));
    assert RunBuses(name, p, step, m, seg, base) == prev + last;
    RunBusesLen(name, p, step, m - 1, seg, base);
    AppendAt(prev, last, i);
  }

  /** Bus `q` of iteration `j` sits at offset `Off(j, Width(p, seg)) + q` of the run. */
  lemma {:induction false} RunBusesAt(name: string, p: Pattern, step: nat, m: nat, seg: bool, base: Id, j: nat, q: nat)
    requires j < m && q < Width(p, seg)
    ensures |RunBuses(name, p, step, m, seg, base)| == Off(m, Width(p, seg))
    ensures Off(j, Width(p, seg)) + q < Off(m, Width(p, seg))
    ensures RunBuses(name, p, step, m, seg, base)[Off(j, Width(p, seg)) + q]
            == IterBuses(name, p, LoopIndex(step, j), seg, Start(p, seg, j, base))[q]
    decreases m
  {
    var w := Width(p, seg);
    RunBusesLen(name, p, step, m, seg, base);
    OffMono(j, m, w);
    if j < m - 1 {
      OffMono(j, m - 1, w);
      RunBusesAt(name, p, step, m - 1, seg, base, j, q);
      RunBusesStep(name, p, step, m, seg, base, Off(j, w) + q);
    } else {
      RunBusesStep(name, p, step, m, seg, base, Off(m - 1, w) + q);
    }
  }

  /** `Off(j, w) == j * w`, written as a recursion so that the lemmas above stay linear. */
  function Off(j: nat, w: nat): nat
  {
    if j == 0 then 0 else Off(j - 1, w) + w
  }

  lemma {:induction false} OffIs(j: nat, w: nat)
    ensures Off(j, w) == j * w
  {
    if j > 0 {
      OffIs(j - 1, w);
    }
  }

  lemma {:induction false} OffMono(i: nat, j: nat, w: nat)
    requires i < j
    ensures Off(i, w) + w <= Off(j, w)
  {
    if i < j - 1 {
      OffMono(i, j - 1, w);
    }
  }

  /** Switch `k` of iteration `j` sits at offset `Off(j, |p.switches|) + k` of the run. */
  lemma {:induction false} RunSwitchesAt(name: string, p: Pattern, step: nat, m: nat, seg: bool, bars: seq<Option<Id>>, split: nat, base: Id,
                                         j: nat, k: nat)
    requires j < m && k < |p.switches|
    ensures |RunSwitches(name, p, step, m, seg, bars, split, base)| == Off(m, |p.switches|)
    ensures Off(j, |p.switches|) + k < Off(m, |p.switches|)
    ensures RunSwitches(name, p, step, m, seg, bars, split, base)[Off(j, |p.switches|) + k]
            == IterSwitches(name, p, LoopIndex(step, j), seg, bars, split, Start(p, seg, j, base))[k]
    decreases m
  {
    var w := |p.switches|;
    var prev := RunSwitches(name, p, step, m - 1, seg, bars, split, base);
    var last := IterSwitches(name, p, LoopIndex(step, m - 1), seg, bars, split, Start(p, seg, m - 1, base));
    assert RunSwitches(name, p, step, m, seg, bars, split, base) == prev + last;
    RunSwitchesLen(name, p, step, m - 1, seg, bars, split, base);
    OffMono(j, m, w);
    if j < m - 1 {
      OffMono(j, m - 1, w);
      RunSwitchesAt(name, p, step, m - 1, seg, bars, split, base, j, k);
    } else {
      assert (prev + last)[Off(j, w) + k] == last[k];
    }
  }

  lemma {:induction false} RunSwitchesLen(name: string, p: Pattern, step: nat, m: nat, seg: bool, bars: seq<Option<Id>>, split: nat, base: Id)
    ensures |RunSwitches(name, p, step, m, seg, bars, split, base)| == Off(m, |p.switches|)
    decreases m
  {
    if m > 0 {
      RunSwitchesLen(name, p, step, m - 1, seg, bars, split, base);
    }
  }

  lemma {:induction false} RunConnLen(p: Pattern, m: nat, seg: bool, base: Id)
    ensures |RunConn(p, m, seg, base)| == Off(m, |p.conn|)
    decreases m
  {
    if m > 0 {
      RunConnLen(p, m - 1, seg, base);
    }
  }

  /** Connection bus `c` of iteration `j` is entry `Off(j, |p.conn|) + c`. */
  lemma {:induction false} RunConnAt(p: Pattern, m: nat, seg: bool, base: Id, j: nat, c: nat)
    requires j < m && c < |p.conn|
    ensures |RunConn(p, m, seg, base)| == Off(m, |p.conn|)
    ensures Off(j, |p.conn|) + c < Off(m, |p.conn|)
    ensures RunConn(p, m, seg, base)[Off(j, |p.conn|) + c] == Start(p, seg, j, base) + SegCount(p, seg) + p.conn[c]
    decreases m
  {
    var w := |p.conn|;
    var prev := RunConn(p, m - 1, seg, base);
    var last := IterConn(p, seg, Start(p, seg, m - 1, base));
    assert RunConn(p, m, seg, base) == prev + last;
    RunConnLen(p, m - 1, seg, base);
    if j < m - 1 {
      OffMono(j, m - 1, w);
      RunConnAt(p, m - 1, seg, base, j, c);
    } else {
      assert (prev + last)[Off(j, w) + c] == last[c];
    }
  }

  /** When segmented, list `c` holds segment `c` of every iteration, in order. */
  lemma {:induction false} RunSegsAt(p: Pattern, m: nat, base: Id, c: nat)
    ensures |RunSegs(p, m, true, base, c)| == m
    ensures forall j :: 0 <= j < m ==> RunSegs(p, m, true, base, c)[j] == Start(p, true, j, base) + c
    decreases m
  {
    if m > 0 {
      RunSegsAt(p, m - 1, base, c);
    }
  }

  /** Unsegmented builds keep no segment lists. */
  lemma UnsegmentedLists(p: Pattern, m: nat, base: Id, c: nat)
    ensures RunSegs(p, m, false, base, c) == []
  {
  }

  lemma {:induction false} ConsecutiveAppend(a: seq<Bus>, b: seq<Bus>, base: Id)
    requires Consecutive(a, base) && Consecutive(b, base + |a|)
    ensures Consecutive(a + b, base)
  {
    forall q | 0 <= q < |a + b|
      ensures (a + b)[q].id == base + q
    {
      if q >= |a| {
        assert (a + b)[q] == b[q - |a|];
      } else {
        assert (a + b)[q] == a[q];
      }
    }
  }

  lemma {:induction false} RunBusesConsecutive(name: string, p: Pattern, step: nat, m: nat, seg: bool, base: Id)
    ensures Consecutive(RunBuses(name, p, step, m, seg, base), base)
    decreases m
  {
    if m > 0 {
      RunBusesConsecutive(name, p, step, m - 1, seg, base);
      RunBusesEnd(name, p, step, m - 1, seg, base);
      NewBusesConsecutive(IterNames(name, p, LoopIndex(step, m - 1), seg), Connectivity, Start(p, seg, m - 1, base));
      ConsecutiveAppend(RunBuses(name, p, step, m - 1, seg, base),
                        IterBuses(name, p, LoopIndex(step, m - 1), seg, Start(p, seg, m - 1, base)), base);
    }
  }

  /** A builder's buses get consecutive fresh ids, in the order they are added. */
  lemma BuildConsecutive(l: Layout, name: string, m: nat, seg: bool, split: nat, base: Id)
    ensures Consecutive(LevelBuses(l, name, m, seg, base), base)
  {
    var pre := PreBars(name, l, seg, base);
    var b1 := LoopBase(l, seg, base);
    var run := RunBuses(name, l.bay, l.step, m, seg, b1);
    var cpl := IterBuses(name, l.coupling, 0, false, Start(l.bay, seg, m, b1));
    NewBusesConsecutive(Names(name, l.bars, 0), BusBar, base);
    RunBusesConsecutive(name, l.bay, l.step, m, seg, b1);
    RunBusesEnd(name, l.bay, l.step, m, seg, b1);
    NewBusesConsecutive(IterNames(name, l.coupling, 0, false), Connectivity, Start(l.bay, seg, m, b1));
    ConsecutiveAppend(run, cpl, b1);
    ConsecutiveAppend(pre, run + cpl, base);
  }

  /** Extending a grid whose ids are unique with consecutive fresh ids keeps them unique. */
  lemma BuildFresh(s: GridState, l: Layout, name: string, m: nat, seg: bool, split: nat)
    requires FreshBelow(s.buses, s.nextId)
    ensures FreshBelow(Extend(s, name, Build(l, name, m, seg, split, s.nextId)).buses,
                       Extend(s, name, Build(l, name, m, seg, split, s.nextId)).nextId)
  {
    BuildConsecutive(l, name, m, seg, split, s.nextId);
    FreshBelowAppend(s.buses, s.nextId, LevelBuses(l, name, m, seg, s.nextId));
  }

  // ------------------------------------------------- a build, entry by entry

  /** Position in the level's bus list of the first bus bay iteration `j` adds; for `j == m`, of the coupling's first bus. */
  function BayOffset(l: Layout, seg: bool, j: nat): nat
  {
    (if seg then 0 else |l.bars|) + Off(j, Width(l.bay, seg))
  }

  /** Bay iteration `j` starts at the bus list position `BayOffset`. */
  lemma BayStart(l: Layout, seg: bool, base: Id, j: nat)
    ensures Start(l.bay, seg, j, LoopBase(l, seg, base)) == base + BayOffset(l, seg, j)
  {
    StartIs(l.bay, seg, j, LoopBase(l, seg, base));
  }

  /** Switch `k` of bay iteration `j`, for a level whose new ids start at `base`. */
  function BaySwitch(name: string, l: Layout, seg: bool, split: nat, base: Id, j: nat, k: nat): Switch
    requires k < |l.bay.switches|
  {
    IterSwitches(name, l.bay, LoopIndex(l.step, j), seg, BarIds(l, seg, base), split, base + BayOffset(l, seg, j))[k]
  }

  /** Switch `k` of bay iteration `j` is its pattern resolved against the bars in force and the bay's own buses. */
  lemma BaySwitchIs(name: string, l: Layout, seg: bool, split: nat, base: Id, j: nat, k: nat)
    requires k < |l.bay.switches|
    ensures BaySwitch(name, l, seg, split, base, j, k)
            == MakeSwitch(name, l.bay.switches[k], LoopIndex(l.step, j), split,
                          Current(l.bay, seg, BarIds(l, seg, base), base + BayOffset(l, seg, j)),
                          base + BayOffset(l, seg, j) + SegCount(l.bay, seg))
  {
  }

  /** Switch `k` of the coupling, attached to the bars in force after `m` bay iterations. */
  function CouplingSwitch(name: string, l: Layout, m: nat, seg: bool, split: nat, base: Id, k: nat): Switch
    requires k < |l.coupling.switches|
  {
    IterSwitches(name, l.coupling, 0, false, LastBars(l.bay, m, seg, BarIds(l, seg, base), LoopBase(l, seg, base)),
                 split, base + BayOffset(l, seg, m))[k]
  }

  /** Bus `q` of bay iteration `j`. */
  lemma BuildBusAt(l: Layout, name: string, m: nat, seg: bool, split: nat, base: Id, j: nat, q: nat)
    requires j < m && q < Width(l.bay, seg)
    ensures BayOffset(l, seg, j) + q < |LevelBuses(l, name, m, seg, base)|
    ensures LevelBuses(l, name, m, seg, base)[BayOffset(l, seg, j) + q]
            == Bus(base + BayOffset(l, seg, j) + q, IterNames(name, l.bay, LoopIndex(l.step, j), seg)[q], Connectivity)
  {
    var pre := PreBars(name, l, seg, base);
    var b1 := LoopBase(l, seg, base);
    var body := BodyBuses(l, name, m, seg, b1);
    var at := Off(j, Width(l.bay, seg)) + q;
    BodyBusAt(l, name, m, seg, b1, j, q);
    BayStart(l, seg, base, j);
    assert |pre| + at == BayOffset(l, seg, j) + q;
    assert (pre + body)[|pre| + at] == body[at];
  }

  /** Bus `q` of bay iteration `j`, counted from the start of the loop. */
  lemma BodyBusAt(l: Layout, name: string, m: nat, seg: bool, b1: Id, j: nat, q: nat)
    requires j < m && q < Width(l.bay, seg)
    ensures Off(j, Width(l.bay, seg)) + q < |BodyBuses(l, name, m, seg, b1)|
    ensures BodyBuses(l, name, m, seg, b1)[Off(j, Width(l.bay, seg)) + q]
            == Bus(Start(l.bay, seg, j, b1) + q, IterNames(name, l.bay, LoopIndex(l.step, j), seg)[q], Connectivity)
  {
    var run := RunBuses(name, l.bay, l.step, m, seg, b1);
    var at := Off(j, Width(l.bay, seg)) + q;
    RunBusesAt(name, l.bay, l.step, m, seg, b1, j, q);
    assert (run + IterBuses(name, l.coupling, 0, false, Start(l.bay, seg, m, b1)))[at] == run[at];
  }

  /** Switch `k` of bay iteration `j`. */
  lemma BuildSwitchAt(l: Layout, name: string, m: nat, seg: bool, split: nat, base: Id, j: nat, k: nat)
    requires j < m && k < |l.bay.switches|
    ensures Off(j, |l.bay.switches|) + k < |LevelSwitches(l, name, m, seg, split, base)|
    ensures LevelSwitches(l, name, m, seg, split, base)[Off(j, |l.bay.switches|) + k] == BaySwitch(name, l, seg, split, base, j, k)
  {
    var b1 := LoopBase(l, seg, base);
    var bars := BarIds(l, seg, base);
    var run := RunSwitches(name, l.bay, l.step, m, seg, bars, split, b1);
    var at := Off(j, |l.bay.switches|) + k;
    RunSwitchesAt(name, l.bay, l.step, m, seg, bars, split, b1, j, k);
    BayStart(l, seg, base, j);
    assert (run + IterSwitches(name, l.coupling, 0, false, LastBars(l.bay, m, seg, bars, b1), split, Start(l.bay, seg, m, b1)))[at]
           == run[at];
  }

  /** Connection bus `c` of bay iteration `j`. */
  lemma BuildConnAt(l: Layout, name: string, m: nat, seg: bool, split: nat, base: Id, j: nat, c: nat)
    requires j < m && c < |l.bay.conn|
    ensures Off(j, |l.bay.conn|) + c < |LevelConn(l, m, seg, base)|
    ensures LevelConn(l, m, seg, base)[Off(j, |l.bay.conn|) + c]
            == base + BayOffset(l, seg, j) + SegCount(l.bay, seg) + l.bay.conn[c]
  {
    RunConnAt(l.bay, m, seg, LoopBase(l, seg, base), j, c);
    BayStart(l, seg, base, j);
  }

  /** Bus `q` of the coupling, added after every bay. */
  lemma BuildCouplingBusAt(l: Layout, name: string, m: nat, seg: bool, split: nat, base: Id, q: nat)
    requires q < |l.coupling.buses|
    ensures BayOffset(l, seg, m) + q < |LevelBuses(l, name, m, seg, base)|
    ensures LevelBuses(l, name, m, seg, base)[BayOffset(l, seg, m) + q]
            == Bus(base + BayOffset(l, seg, m) + q, NameAt(name, l.coupling.buses[q], 0), Connectivity)
  {
    var pre := PreBars(name, l, seg, base);
    var b1 := LoopBase(l, seg, base);
    var run := RunBuses(name, l.bay, l.step, m, seg, b1);
    var cpl := IterBuses(name, l.coupling, 0, false, Start(l.bay, seg, m, b1));
    BayStart(l, seg, base, m);
    RunBusesLen(name, l.bay, l.step, m, seg, b1);
    assert (run + cpl)[Off(m, Width(l.bay, seg)) + q] == cpl[q];
  }

  /** Switch `k` of the coupling. */
  lemma BuildCouplingSwitchAt(l: Layout, name: string, m: nat, seg: bool, split: nat, base: Id, k: nat)
    requires k < |l.coupling.switches|
    ensures Off(m, |l.bay.switches|) + k < |LevelSwitches(l, name, m, seg, split, base)|
    ensures LevelSwitches(l, name, m, seg, split, base)[Off(m, |l.bay.switches|) + k] == CouplingSwitch(name, l, m, seg, split, base, k)
  {
    var b1 := LoopBase(l, seg, base);
    var bars := BarIds(l, seg, base);
    var run := RunSwitches(name, l.bay, l.step, m, seg, bars, split, b1);
    var cpl := IterSwitches(name, l.coupling, 0, false, LastBars(l.bay, m, seg, bars, b1), split, Start(l.bay, seg, m, b1));
    RunSwitchesLen(name, l.bay, l.step, m, seg, bars, split, b1);
    BayStart(l, seg, base, m);
    AppendAt(run, cpl, Off(m, |l.bay.switches|) + k);
  }

  /** The bars added before the loop, unsegmented. */
  lemma BuildBarAt(l: Layout, name: string, m: nat, split: nat, base: Id, q: nat)
    requires q < |l.bars|
    ensures q < |LevelBuses(l, name, m, false, base)|
    ensures LevelBuses(l, name, m, false, base)[q] == Bus(base + q, NameAt(name, l.bars[q], 0), BusBar)
  {
    var pre := PreBars(name, l, false, base);
    var rest := BodyBuses(l, name, m, false, LoopBase(l, false, base));
    assert (pre + rest)[q] == pre[q];
  }

  /** An unsegmented build adds no section lines. */
  lemma BuildUnsegmentedLines(l: Layout, name: string, m: nat, split: nat, base: Id)
    ensures LevelLines(l, name, m, false, base) == []
  {
    var lists := SegLists(l.bay, m, false, LoopBase(l, false, base));
    forall c | 0 <= c < |lists|
      ensures lists[c] == []
    {
      UnsegmentedLists(l.bay, m, LoopBase(l, false, base), c);
    }
    ChainAllEmpty(name, lists);
  }

  /** Segment list `c` holds segment `c` of every iteration, in order. */
  lemma SegListAt(p: Pattern, m: nat, base: Id, c: nat, j: nat)
    requires c < |p.segs| && j < m
    ensures |SegLists(p, m, true, base)[c]| == m
    ensures SegLists(p, m, true, base)[c][j] == base + Off(j, Width(p, true)) + c
  {
    RunSegsAt(p, m, base, c);
    StartIs(p, true, j, base);
  }

  /** Empty segment lists give no lines. */
  lemma {:induction false} ChainAllEmpty(name: string, lists: seq<seq<Id>>)
    requires forall c :: 0 <= c < |lists| ==> lists[c] == []
    ensures ChainAll(name, lists) == []
  {
    if lists != [] {
      ChainAllEmpty(name, lists[..|lists| - 1]);
    }
  }

  /** Number of section lines `connect_bar_segments` adds to a list of `m` buses when it is called. */
  function Links(m: nat): nat
  {
    if m > 1 then m - 1 else 0
  }

  /** Lists of equal length `m` give `Links(m)` lines each. */
  lemma {:induction false} ChainAllLen(name: string, lists: seq<seq<Id>>, m: nat)
    requires forall c :: 0 <= c < |lists| ==> |lists[c]| == m
    ensures |ChainAll(name, lists)| == Off(|lists|, Links(m))
  {
    if lists != [] {
      var pre := lists[..|lists| - 1];
      assert forall c :: 0 <= c < |pre| ==> pre[c] == lists[c];
      ChainAllLen(name, pre, m);
      assert ChainAll(name, lists) == ChainAll(name, pre) + Chain(name, lists[|lists| - 1]);
    }
  }

  /** Ids `base + c`, `base + w + c`, `base + 2 * w + c`, ...: entry `c` of each of `m` blocks of width `w`. */
  function SegIds(base: Id, m: nat, w: nat, c: nat): (r: seq<Id>)
    ensures |r| == m
  {
    seq(m, j requires 0 <= j < m => base + j * w + c)
  }

  /** Segment list `c` holds segment `c` of every iteration. */
  lemma SegListIs(p: Pattern, m: nat, base: Id, c: nat)
    requires c < |p.segs|
    ensures SegLists(p, m, true, base)[c] == SegIds(base, m, Width(p, true), c)
  {
    var lists := SegLists(p, m, true, base);
    RunSegsAt(p, m, base, c);
    forall j | 0 <= j < m
      ensures lists[c][j] == SegIds(base, m, Width(p, true), c)[j]
    {
      SegListAt(p, m, base, c, j);
      OffIs(j, Width(p, true));
    }
  }

  /** Segmented, list `c` holds segment `c` of every iteration, for every `c`. */
  lemma SegListsIs(p: Pattern, m: nat, base: Id)
    ensures SegLists(p, m, true, base) == seq(|p.segs|, c requires 0 <= c < |p.segs| => SegIds(base, m, Width(p, true), c))
  {
    forall c | 0 <= c < |p.segs|
      ensures SegLists(p, m, true, base)[c] == SegIds(base, m, Width(p, true), c)
    {
      SegListIs(p, m, base, c);
    }
  }

  /** A segmented build of `m` iterations chains each of its segment lists into `Links(m)` lines. */
  lemma SegLinesCount(name: string, p: Pattern, m: nat, base: Id)
    ensures |ChainAll(name, SegLists(p, m, true, base))| == |p.segs| * Links(m)
  {
    var lists := SegLists(p, m, true, base);
    forall c | 0 <= c < |lists|
      ensures |lists[c]| == m
    {
      RunSegsAt(p, m, base, c);
    }
    ChainAllLen(name, lists, m);
    OffIs(|lists|, Links(m));
  }

  /** How many buses a build adds: the busbars, `Width` per iteration and the coupling's. */
  lemma BuildBusCount(l: Layout, name: string, m: nat, seg: bool, split: nat, base: Id)
    ensures |LevelBuses(l, name, m, seg, base)| == (if seg then 0 else |l.bars|) + m * Width(l.bay, seg) + |l.coupling.buses|
  {
    RunBusesLen(name, l.bay, l.step, m, seg, LoopBase(l, seg, base));
    OffIs(m, Width(l.bay, seg));
  }

  /** After the bays' switches come exactly the coupling's. */
  lemma BuildSwitchTail(l: Layout, name: string, m: nat, seg: bool, split: nat, base: Id)
    ensures Off(m, |l.bay.switches|) <= |LevelSwitches(l, name, m, seg, split, base)|
    ensures LevelSwitches(l, name, m, seg, split, base)[Off(m, |l.bay.switches|)..]
            == seq(|l.coupling.switches|, k requires 0 <= k < |l.coupling.switches| => CouplingSwitch(name, l, m, seg, split, base, k))
  {
    var ss := LevelSwitches(l, name, m, seg, split, base);
    BuildSwitchCount(l, name, m, seg, split, base);
    OffIs(m, |l.bay.switches|);
    forall k | 0 <= k < |l.coupling.switches|
      ensures ss[Off(m, |l.bay.switches|) + k] == CouplingSwitch(name, l, m, seg, split, base, k)
    {
      BuildCouplingSwitchAt(l, name, m, seg, split, base, k);
    }
    assert |ss[Off(m, |l.bay.switches|)..]| == |l.coupling.switches|;
  }

  /** How many switches a build adds: the bay's per iteration and the coupling's. */
  lemma BuildSwitchCount(l: Layout, name: string, m: nat, seg: bool, split: nat, base: Id)
    ensures |LevelSwitches(l, name, m, seg, split, base)| == m * |l.bay.switches| + |l.coupling.switches|
  {
    RunSwitchesLen(name, l.bay, l.step, m, seg, BarIds(l, seg, base), split, LoopBase(l, seg, base));
    OffIs(m, |l.bay.switches|);
  }

  /** How many connection buses a build returns. */
  lemma BuildConnCount(l: Layout, name: string, m: nat, seg: bool, split: nat, base: Id)
    ensures |LevelConn(l, m, seg, base)| == m * |l.bay.conn|
  {
    RunConnLen(l.bay, m, seg, LoopBase(l, seg, base));
    OffIs(m, |l.bay.conn|);
  }

  /** Every connection bus of the first `m` iterations is one of the ids minted from `base` on. */
  lemma {:induction false} RunConnAbove(p: Pattern, m: nat, seg: bool, base: Id)
    ensures forall i :: 0 <= i < |RunConn(p, m, seg, base)| ==> base <= RunConn(p, m, seg, base)[i]
    decreases m
  {
    if m > 0 {
      RunConnAbove(p, m - 1, seg, base);
      StartMono(p, seg, 0, m - 1, base);
      var prev := RunConn(p, m - 1, seg, base);
      var last := IterConn(p, seg, Start(p, seg, m - 1, base));
      assert RunConn(p, m, seg, base) == prev + last;
      forall i | 0 <= i < |prev + last|
        ensures base <= (prev + last)[i]
      {
        if i >= |prev| {
          assert (prev + last)[i] == last[i - |prev|];
        }
      }
    }
  }

  /** A build's connection buses all carry ids minted by the build. */
  lemma BuildConnAbove(l: Layout, name: string, m: nat, seg: bool, split: nat, base: Id)
    ensures forall i :: 0 <= i < |Build(l, name, m, seg, split, base).conn| ==> base <= Build(l, name, m, seg, split, base).conn[i]
  {
    RunConnAbove(l.bay, m, seg, LoopBase(l, seg, base));
  }

  /** How many section lines a build adds: `Links(m)` per segment list when segmented, none otherwise. */
  lemma BuildLineCount(l: Layout, name: string, m: nat, seg: bool, split: nat, base: Id)
    ensures |LevelLines(l, name, m, seg, base)| == if seg then |l.bay.segs| * Links(m) else 0
  {
    if seg {
      SegLinesCount(name, l.bay, m, base);
      assert LoopBase(l, seg, base) == base;
    } else {
      BuildUnsegmentedLines(l, name, m, split, base);
    }
  }

  /** A segmented build's lines chain its segment lists, which start right at `base`. */
  lemma BuildSegLines(l: Layout, name: string, m: nat, split: nat, base: Id)
    ensures LevelLines(l, name, m, true, base) == ChainAll(name, SegLists(l.bay, m, true, base))
  {
    assert LoopBase(l, true, base) == base;
  }

  // ------------------------------------- builders with one segment per busbar

  /** A layout with as many segments per bay as busbars. */
  predicate Uniform(l: Layout)
  {
    |l.bars| == |l.bay.segs|
  }

  /** Id of the first bus iteration `j` adds (the coupling's for `j == m`), with `nb` bars and `w` bay buses per iteration. */
  function FirstId(seg: bool, nb: nat, w: nat, base: Id, j: nat): Id
  {
    if seg then base + j * (w + nb) else base + nb + j * w
  }

  /** Id of bar `c` in force during iteration `j`: busbar `c`, or the iteration's own segment `c`. */
  function BarId(seg: bool, nb: nat, w: nat, base: Id, j: nat, c: nat): Id
  {
    if seg then FirstId(seg, nb, w, base, j) + c else base + c
  }

  /** Id of the first bay bus of iteration `j`, after its segments. */
  function LocalId(seg: bool, nb: nat, w: nat, base: Id, j: nat): Id
  {
    FirstId(seg, nb, w, base, j) + (if seg then nb else 0)
  }

  /** The bars in force during iteration `j`. */
  function BarRefs(seg: bool, nb: nat, w: nat, base: Id, j: nat): (r: seq<Option<Id>>)
    ensures |r| == nb
  {
    seq(nb, c requires 0 <= c < nb => Some(BarId(seg, nb, w, base, j, c)))
  }

  /** The bars the coupling sees after `m` iterations: the busbars, the last segments, or none. */
  function LastRefs(seg: bool, nb: nat, w: nat, base: Id, m: nat): seq<Option<Id>>
  {
    if !seg then BarRefs(false, nb, w, base, 0) else if m == 0 then [] else BarRefs(true, nb, w, base, m - 1)
  }

  /** Bar `c` as the coupling sees it: the busbar, the last bay's segment, or `None` when no segment was made. */
  function LastBar(seg: bool, nb: nat, w: nat, base: Id, m: nat, c: nat): Option<Id>
  {
    if !seg then Some(base + c) else if m == 0 then None else Some(BarId(true, nb, w, base, m - 1, c))
  }

  lemma LastBarIs(seg: bool, nb: nat, w: nat, base: Id, m: nat, c: nat)
    requires c < nb
    ensures Pick(LastRefs(seg, nb, w, base, m), c) == LastBar(seg, nb, w, base, m, c)
  {
  }

  /** Iteration `j` starts at `FirstId`; its own buses start at `LocalId`. */
  lemma UniformOffset(l: Layout, seg: bool, base: Id, j: nat)
    requires Uniform(l)
    ensures base + BayOffset(l, seg, j) == FirstId(seg, |l.bars|, |l.bay.buses|, base, j)
    ensures base + BayOffset(l, seg, j) + SegCount(l.bay, seg) == LocalId(seg, |l.bars|, |l.bay.buses|, base, j)
  {
    OffIs(j, Width(l.bay, seg));
  }

  /** Switch `k` of iteration `j`: its pattern resolved against the bars in force and the iteration's own buses. */
  lemma UniformSwitch(name: string, l: Layout, seg: bool, split: nat, base: Id, j: nat, k: nat)
    requires Uniform(l) && k < |l.bay.switches|
    ensures BaySwitch(name, l, seg, split, base, j, k)
            == MakeSwitch(name, l.bay.switches[k], LoopIndex(l.step, j), split,
                          BarRefs(seg, |l.bars|, |l.bay.buses|, base, j), LocalId(seg, |l.bars|, |l.bay.buses|, base, j))
  {
    BaySwitchIs(name, l, seg, split, base, j, k);
    UniformOffset(l, seg, base, j);
    assert Current(l.bay, seg, BarIds(l, seg, base), base + BayOffset(l, seg, j)) == BarRefs(seg, |l.bars|, |l.bay.buses|, base, j);
  }

  /** Switch `k` of the coupling: its pattern resolved against the bars in force after the loop and the coupling's own buses. */
  lemma UniformCouplingSwitch(name: string, l: Layout, m: nat, seg: bool, split: nat, base: Id, k: nat)
    requires Uniform(l) && k < |l.coupling.switches|
    ensures CouplingSwitch(name, l, m, seg, split, base, k)
            == MakeSwitch(name, l.coupling.switches[k], 0, split,
                          LastRefs(seg, |l.bars|, |l.bay.buses|, base, m), FirstId(seg, |l.bars|, |l.bay.buses|, base, m))
  {
    UniformOffset(l, seg, base, m);
    var b1 := LoopBase(l, seg, base);
    if seg && m > 0 {
      StartIs(l.bay, seg, m - 1, b1);
      OffIs(m - 1, Width(l.bay, seg));
      assert Current(l.bay, true, BarIds(l, seg, base), Start(l.bay, seg, m - 1, b1))
             == BarRefs(true, |l.bars|, |l.bay.buses|, base, m - 1);
    }
    assert LastBars(l.bay, m, seg, BarIds(l, seg, base), b1) == LastRefs(seg, |l.bars|, |l.bay.buses|, base, m);
  }

  /** Connection bus `c` of iteration `j`. */
  lemma UniformConnAt(l: Layout, name: string, m: nat, seg: bool, base: Id, j: nat, c: nat)
    requires Uniform(l) && j < m && c < |l.bay.conn|
    ensures Off(j, |l.bay.conn|) + c < |LevelConn(l, m, seg, base)|
    ensures LevelConn(l, m, seg, base)[Off(j, |l.bay.conn|) + c] == LocalId(seg, |l.bars|, |l.bay.buses|, base, j) + l.bay.conn[c]
  {
    BuildConnAt(l, name, m, seg, 0, base, j, c);
    UniformOffset(l, seg, base, j);
  }

  /** Bus, switch, connection and line counts of a build of `m` iterations. */
  lemma UniformCounts(l: Layout, name: string, m: nat, seg: bool, split: nat, base: Id)
    requires Uniform(l)
    ensures |LevelBuses(l, name, m, seg, base)|
            == (if seg then m * (|l.bay.buses| + |l.bars|) else |l.bars| + m * |l.bay.buses|) + |l.coupling.buses|
    ensures |LevelSwitches(l, name, m, seg, split, base)| == m * |l.bay.switches| + |l.coupling.switches|
    ensures |LevelConn(l, m, seg, base)| == m * |l.bay.conn|
    ensures |LevelLines(l, name, m, seg, base)| == if seg then |l.bars| * Links(m) else 0
  {
    assert Width(l.bay, seg) == if seg then |l.bay.buses| + |l.bars| else |l.bay.buses|;
    BuildBusCount(l, name, m, seg, split, base);
    BuildSwitchCount(l, name, m, seg, split, base);
    BuildConnCount(l, name, m, seg, split, base);
    BuildLineCount(l, name, m, seg, split, base);
  }

  // ---------------------------------------------------------------- methods

  /** `connect_bar_segments`. */
  method ConnectBarSegments(grid: MultiCircuit, bs: seq<Id>, name: string)
    modifies grid
    ensures grid.State() == old(grid.State()).(branches := old(grid.branches) + Sections(name, bs))
  {
    var i := 0;
    var n := if |bs| == 0 then 0 else |bs| - 1;
    while i < n
      invariant 0 <= i <= n
      invariant grid.State() == old(grid.State()).(branches := old(grid.branches) + Sections(name, bs)[..i])
    {
      grid.AddLine(Section(name, i, bs[i], bs[i + 1]));
      assert Sections(name, bs)[..i + 1] == Sections(name, bs)[..i] + [Sections(name, bs)[i]];
      i := i + 1;
    }
    assert Sections(name, bs)[..i] == Sections(name, bs);
  }

  /** One loop iteration: its buses, then its switches. */
  method AddIteration(name: string, grid: MultiCircuit, p: Pattern, i: nat, seg: bool, bars: seq<Option<Id>>, split: nat)
    modifies grid
    ensures grid.buses == old(grid.buses) + IterBuses(name, p, i, seg, old(grid.nextId))
    ensures grid.switches == old(grid.switches) + IterSwitches(name, p, i, seg, bars, split, old(grid.nextId))
    ensures grid.nextId == old(grid.nextId) + Width(p, seg)
    ensures grid.State() == old(grid.State()).(buses := grid.buses, switches := grid.switches, nextId := grid.nextId)
  {
    var base := grid.nextId;
    var ids := grid.AddBuses(IterNames(name, p, i, seg), Connectivity);
    grid.AddSwitches(IterSwitches(name, p, i, seg, bars, split, base));
  }

  /** The bay loop: `m` iterations with loop indices 0, step, 2 * step, ... */
  method RunBays(name: string, grid: MultiCircuit, p: Pattern, step: nat, m: nat, seg: bool, bars: seq<Option<Id>>, split: nat)
    returns (conn: seq<Id>, segLists: seq<seq<Id>>, cur: seq<Option<Id>>)
    modifies grid
    ensures grid.buses == old(grid.buses) + RunBuses(name, p, step, m, seg, old(grid.nextId))
    ensures grid.switches == old(grid.switches) + RunSwitches(name, p, step, m, seg, bars, split, old(grid.nextId))
    ensures grid.nextId == Start(p, seg, m, old(grid.nextId))
    ensures grid.State() == old(grid.State()).(buses := grid.buses, switches := grid.switches, nextId := grid.nextId)
    ensures conn == RunConn(p, m, seg, old(grid.nextId))
    ensures segLists == SegLists(p, m, seg, old(grid.nextId))
    ensures cur == LastBars(p, m, seg, bars, old(grid.nextId))
  {
    var base := grid.nextId;
    conn := [];
    segLists := SegLists(p, 0, seg, base);
    cur := LastBars(p, 0, seg, bars, base);
    var j := 0;
    while j < m
      invariant 0 <= j <= m
      invariant grid.buses == old(grid.buses) + RunBuses(name, p, step, j, seg, base)
      invariant grid.switches == old(grid.switches) + RunSwitches(name, p, step, j, seg, bars, split, base)
      invariant grid.nextId == Start(p, seg, j, base)
      invariant grid.State() == old(grid.State()).(buses := grid.buses, switches := grid.switches, nextId := grid.nextId)
      invariant conn == RunConn(p, j, seg, base)
      invariant segLists == SegLists(p, j, seg, base)
      invariant cur == LastBars(p, j, seg, bars, base)
    {
      var b := grid.nextId;
      RunStep(name, p, step, j, seg, bars, split, base);
      SegListsStep(p, j, seg, base);
      AddIteration(name, grid, p, LoopIndex(step, j), seg, bars, split);
      AppendAssoc(old(grid.buses), RunBuses(name, p, step, j, seg, base), IterBuses(name, p, LoopIndex(step, j), seg, b));
      AppendAssoc(old(grid.switches), RunSwitches(name, p, step, j, seg, bars, split, base), IterSwitches(name, p, LoopIndex(step, j), seg, bars, split, b));
      conn := conn + IterConn(p, seg, b);
      if seg {
        segLists := seq(|p.segs|, c requires 0 <= c < |p.segs| => segLists[c] + [b + c]);
        cur := Current(p, true, bars, b);
      }
      j := j + 1;
    }
  }

  /** One turn of the chaining loop: list `c` is chained when it is longer than one. */
  method ChainStep(grid: MultiCircuit, lists: seq<seq<Id>>, c: nat, name: string)
    requires c < |lists|
    modifies grid
    ensures grid.State() == old(grid.State()).(branches := old(grid.branches) + Chain(name, lists[c]))
  {
    if |lists[c]| > 1 {
      ConnectBarSegments(grid, lists[c], name);
    }
  }

  /** Chains every segment list longer than one, in list order. */
  method ChainSegments(grid: MultiCircuit, lists: seq<seq<Id>>, name: string)
    modifies grid
    ensures grid.State() == old(grid.State()).(branches := old(grid.branches) + ChainAll(name, lists))
  {
    var c := 0;
    while c < |lists|
      invariant 0 <= c <= |lists|
      invariant grid.State() == old(grid.State()).(branches := old(grid.branches) + ChainAll(name, lists[..c]))
    {
      assert lists[..c + 1][..c] == lists[..c];
      ChainStep(grid, lists, c, name);
      AppendAssoc(old(grid.branches), ChainAll(name, lists[..c]), Chain(name, lists[c]));
      c := c + 1;
    }
    assert lists[..c] == lists;
  }

  /** The busbars added before the loop; returns references to them. */
  method AddBars(grid: MultiCircuit, names: seq<string>) returns (bars: seq<Option<Id>>)
    modifies grid
    ensures grid.buses == old(grid.buses) + NewBuses(names, BusBar, old(grid.nextId))
    ensures grid.nextId == old(grid.nextId) + |names|
    ensures grid.State() == old(grid.State()).(buses := grid.buses, nextId := grid.nextId)
    ensures bars == Refs(old(grid.nextId), |names|)
  {
    var ids := grid.AddBuses(names, BusBar);
    bars := seq(|ids|, k requires 0 <= k < |ids| => Some(ids[k]));
  }

  /** The bay loop, the coupling and the section lines. */
  method AddBody(grid: MultiCircuit, l: Layout, name: string, m: nat, seg: bool, bars: seq<Option<Id>>, split: nat)
    returns (conn: seq<Id>)
    modifies grid
    ensures grid.buses == old(grid.buses) + BodyBuses(l, name, m, seg, old(grid.nextId))
    ensures grid.switches == old(grid.switches) + BodySwitches(l, name, m, seg, bars, split, old(grid.nextId))
    ensures grid.branches == old(grid.branches) + ChainAll(name, SegLists(l.bay, m, seg, old(grid.nextId)))
    ensures grid.nextId == old(grid.nextId) + |BodyBuses(l, name, m, seg, old(grid.nextId))|
    ensures grid.State() == old(grid.State()).(buses := grid.buses, switches := grid.switches,
                                                branches := grid.branches, nextId := grid.nextId)
    ensures conn == RunConn(l.bay, m, seg, old(grid.nextId))
  {
    var b1 := grid.nextId;
    var segLists, cur;
    conn, segLists, cur := RunBays(name, grid, l.bay, l.step, m, seg, bars, split);
    ghost var run := RunBuses(name, l.bay, l.step, m, seg, b1);
    ghost var runSw := RunSwitches(name, l.bay, l.step, m, seg, bars, split, b1);
    ghost var b2 := grid.nextId;
    RunBusesEnd(name, l.bay, l.step, m, seg, b1);
    AddIteration(name, grid, l.coupling, 0, false, cur, split);
    AppendAssoc(old(grid.buses), run, IterBuses(name, l.coupling, 0, false, b2));
    AppendAssoc(old(grid.switches), runSw, IterSwitches(name, l.coupling, 0, false, cur, split, b2));
    ChainSegments(grid, segLists, name);
  }

  /** A whole builder with layout `l`. */
  method BuildLevel(grid: MultiCircuit, l: Layout, name: string, m: nat, seg: bool, split: nat) returns (conn: seq<Id>)
    modifies grid
    ensures conn == Build(l, name, m, seg, split, old(grid.nextId)).conn
    ensures grid.State() == Extend(old(grid.State()), name, Build(l, name, m, seg, split, old(grid.nextId)))
  {
    var base := grid.nextId;
    grid.AddVoltageLevel(name);
    var bars: seq<Option<Id>> := [];
    if !seg {
      bars := AddBars(grid, Names(name, l.bars, 0));
    }
    ghost var pre := PreBars(name, l, seg, base);
    assert bars == BarIds(l, seg, base);
    assert grid.nextId == LoopBase(l, seg, base);
    assert grid.buses == old(grid.buses) + pre;
    ghost var mid := grid.buses;
    conn := AddBody(grid, l, name, m, seg, bars, split);
    AppendAssoc(old(grid.buses), pre, grid.buses[|mid|..]);
  }

  /** `BuildLevel`, which also keeps bus ids unique. */
  method AddLevel(grid: MultiCircuit, l: Layout, name: string, m: nat, seg: bool, split: nat) returns (conn: seq<Id>)
    modifies grid
    ensures conn == Build(l, name, m, seg, split, old(grid.nextId)).conn
    ensures grid.State() == Extend(old(grid.State()), name, Build(l, name, m, seg, split, old(grid.nextId)))
    ensures old(grid.Valid()) ==> grid.Valid()
  {
    conn := BuildLevel(grid, l, name, m, seg, split);
    if old(grid.Valid()) {
      BuildFresh(old(grid.State()), l, name, m, seg, split);
    }
  }

  /** A segmented build without its voltage level: the bays on their own segments, then the section lines. */
  method AddSegmented(grid: MultiCircuit, l: Layout, name: string, m: nat) returns (conn: seq<Id>)
    modifies grid
    ensures grid.State() == Grow(old(grid.State()), Build(l, name, m, true, 0, old(grid.nextId)))
    ensures conn == Build(l, name, m, true, 0, old(grid.nextId)).conn
    ensures old(grid.Valid()) ==> grid.Valid()
  {
    ghost var base := grid.nextId;
    conn := AddBody(grid, l, name, m, true, [], 0);
    assert LevelBuses(l, name, m, true, base) == BodyBuses(l, name, m, true, base);
    if old(grid.Valid()) {
      BuildConsecutive(l, name, m, true, 0, base);
      FreshBelowAppend(old(grid.buses), base, LevelBuses(l, name, m, true, base));
    }
  }

  /** Two segmented builds, one after the other, each with its own section lines. */
  method AddPair(grid: MultiCircuit, name: string, l1: Layout, m1: nat, l2: Layout, m2: nat) returns (conn: seq<Id>)
    modifies grid
    ensures grid.State() == Grow(old(grid.State()), Pair(l1, l2, name, m1, m2, old(grid.nextId)))
    ensures conn == Pair(l1, l2, name, m1, m2, old(grid.nextId)).conn
    ensures old(grid.Valid()) ==> grid.Valid()
  {
    ghost var s0 := grid.State();
    var c1 := AddSegmented(grid, l1, name, m1);
    ghost var s1 := grid.State();
    var c2 := AddSegmented(grid, l2, name, m2);
    conn := c1 + c2;
    GrowPair(s0, s1, grid.State(), l1, l2, name, m1, m2, c1, c2);
  }

  /** Growing by the first build and then by the second, started where the first ended, is growing by the pair. */
  lemma GrowPair(s0: GridState, s1: GridState, s2: GridState, l1: Layout, l2: Layout, name: string, m1: nat, m2: nat,
                 c1: seq<Id>, c2: seq<Id>)
    requires s1 == Grow(s0, Build(l1, name, m1, true, 0, s0.nextId))
    requires s2 == Grow(s1, Build(l2, name, m2, true, 0, s1.nextId))
    requires c1 == Build(l1, name, m1, true, 0, s0.nextId).conn
    requires c2 == Build(l2, name, m2, true, 0, s1.nextId).conn
    ensures s2 == Grow(s0, Pair(l1, l2, name, m1, m2, s0.nextId))
    ensures c1 + c2 == Pair(l1, l2, name, m1, m2, s0.nextId).conn
  {
    var b1 := Build(l1, name, m1, true, 0, s0.nextId);
    assert s1.nextId == s0.nextId + |LevelBuses(l1, name, m1, true, s0.nextId)|;
    GrowJoin(s0, b1, Build(l2, name, m2, true, 0, s1.nextId));
  }

  /** A voltage level made of two segmented builds, one after the other, each with its own section lines. */
  method AddTwoSegmented(grid: MultiCircuit, name: string, l1: Layout, m1: nat, l2: Layout, m2: nat) returns (conn: seq<Id>)
    modifies grid
    ensures grid.State() == Extend(old(grid.State()), name, Pair(l1, l2, name, m1, m2, old(grid.nextId)))
    ensures conn == Pair(l1, l2, name, m1, m2, old(grid.nextId)).conn
    ensures old(grid.Valid()) ==> grid.Valid()
  {
    grid.AddVoltageLevel(name);
    conn := AddPair(grid, name, l1, m1, l2, m2);
    ExtendGrow(old(grid.State()), name, Pair(l1, l2, name, m1, m2, old(grid.nextId)));
  }
}
