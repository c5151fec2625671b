/**
 * The part of a `MultiCircuit` the topology builders touch: the lists of
 * substations, voltage levels, buses, switches, branches and injections, and
 * the operations that append to them, rewire devices and delete a bus.
 *
 * A Python bus is an object compared by identity; here a bus carries an `Id`
 * minted by the grid when the bus is added, and devices refer to buses by
 * that id (`None` stands for a device whose bus is unset).
 */
module Grid {
  import opened Common

  type Id = nat

  datatype BusKind = BusBar | Connectivity

  datatype Bus = Bus(id: Id, name: string, kind: BusKind)

  datatype SwitchKind = Disconnector | CircuitBreaker

  datatype Switch = Switch(name: string, from: Option<Id>, to: Option<Id>, kind: SwitchKind)

  /** A two-terminal branch device (a line, a transformer, ...). */
  datatype Branch = Branch(name: string, from: Option<Id>, to: Option<Id>)

  /** A one-terminal device (a load, a generator, ...). */
  datatype Injection = Injection(name: string, bus: Option<Id>)

  /** The whole observable content of a `MultiCircuit`. */
  datatype GridState = GridState(
    substations: seq<string>,
    voltageLevels: seq<string>,
    buses: seq<Bus>,
    switches: seq<Switch>,
    branches: seq<Branch>,
    injections: seq<Injection>,
    nextId: Id)

  /** Buses with ids `base`, `base + 1`, ... named `names`. */
  function NewBuses(names: seq<string>, kind: BusKind, base: Id): (r: seq<Bus>)
    ensures |r| == |names|
  {
    seq(|names|, q requires 0 <= q < |names| => Bus(base + q, names[q], kind))
  }

  /** The ids of `bs` are `base`, `base + 1`, ... in list order. */
  ghost predicate Consecutive(bs: seq<Bus>, base: Id)
  {
    forall q :: 0 <= q < |bs| ==> bs[q].id == base + q
  }

  lemma NewBusesConsecutive(names: seq<string>, kind: BusKind, base: Id)
    ensures Consecutive(NewBuses(names, kind, base), base)
  {
  }

  /** Every id in `bs` is below `next` and no id occurs twice. */
  ghost predicate FreshBelow(bs: seq<Bus>, next: Id)
  {
    (forall q :: 0 <= q < |bs| ==> bs[q].id < next) &&
    (forall p, q :: 0 <= p < q < |bs| ==> bs[p].id != bs[q].id)
  }

  /** Appending buses with consecutive ids from `next` keeps ids distinct and below the new counter. */
  lemma FreshBelowAppend(bs: seq<Bus>, next: Id, added: seq<Bus>)
    requires FreshBelow(bs, next)
    requires Consecutive(added, next)
    ensures FreshBelow(bs + added, next + |added|)
  {
    var r := bs + added;
    forall p, q | 0 <= p < q < |r|
      ensures r[p].id != r[q].id
    {
      if q >= |bs| {
        assert r[q] == added[q - |bs|];
        if p >= |bs| {
          assert r[p] == added[p - |bs|];
        } else {
          assert r[p] == bs[p];
        }
      }
    }
  }

  /** `bs` without the bus whose id is `id`. */
  function WithoutBus(bs: seq<Bus>, id: Id): (r: seq<Bus>)
    ensures |r| <= |bs|
    ensures forall b :: b in r <==> b in bs && b.id != id
  {
    if bs == [] then []
    else if bs[0].id == id then WithoutBus(bs[1..], id)
    else [bs[0]] + WithoutBus(bs[1..], id)
  }

  /** A bus whose id is fresh for a list of unique ids may go in front of it. */
  lemma ConsFresh(b: Bus, rest: seq<Bus>, next: Id)
    requires b.id < next && FreshBelow(rest, next)
    requires forall c :: c in rest ==> c.id != b.id
    ensures FreshBelow([b] + rest, next)
  {
    var r := [b] + rest;
    forall p, q | 0 <= p < q < |r|
      ensures r[p].id != r[q].id
    {
      assert r[q] == rest[q - 1];
      if p > 0 {
        assert r[p] == rest[p - 1];
      }
    }
  }

  /** Deleting a bus keeps the remaining ids unique and below the counter. */
  lemma {:induction false} WithoutBusFresh(bs: seq<Bus>, next: Id, id: Id)
    requires FreshBelow(bs, next)
    ensures FreshBelow(WithoutBus(bs, id), next)
    decreases |bs|
  {
    if bs != [] {
      var tail := bs[1..];
      assert forall q :: 0 <= q < |tail| ==> tail[q] == bs[q + 1];
      WithoutBusFresh(tail, next, id);
      if bs[0].id != id {
        forall c | c in tail
          ensures c.id != bs[0].id
        {
          var q :| 0 <= q < |tail| && tail[q] == c;
        }
        ConsFresh(bs[0], WithoutBus(tail, id), next);
      }
    }
  }

  class MultiCircuit {
    var substations: seq<string>
    var voltageLevels: seq<string>
    var buses: seq<Bus>
    var switches: seq<Switch>
    var branches: seq<Branch>
    var injections: seq<Injection>
    var nextId: Id

    function State(): (s: GridState)
      reads this
      ensures s.buses == buses && s.switches == switches && s.branches == branches
      ensures s.injections == injections && s.nextId == nextId
    {
      GridState(substations, voltageLevels, buses, switches, branches, injections, nextId)
    }

    /** Bus ids are unique and were all minted by this grid. */
    ghost predicate Valid()
      reads this
    {
      FreshBelow(buses, nextId)
    }

    constructor()
      ensures State() == GridState([], [], [], [], [], [], 0)
      ensures Valid()
    {
      substations, voltageLevels, buses, switches, branches, injections := [], [], [], [], [], [];
      nextId := 0;
    }

    method AddSubstation(name: string)
      modifies this
      ensures State() == old(State()).(substations := old(substations) + [name])
    {
      substations := substations + [name];
    }

    method AddVoltageLevel(name: string)
      modifies this
      ensures State() == old(State()).(voltageLevels := old(voltageLevels) + [name])
    {
      voltageLevels := voltageLevels + [name];
    }

    /** `add_bus`: the new bus gets a fresh id. */
    method AddBus(name: string, kind: BusKind) returns (id: Id)
      modifies this
      ensures id == old(nextId)
      ensures State() == old(State()).(buses := old(buses) + [Bus(id, name, kind)], nextId := id + 1)
      ensures old(Valid()) ==> Valid()
    {
      id := nextId;
      buses := buses + [Bus(id, name, kind)];
      nextId := nextId + 1;
      if old(Valid()) {
        FreshBelowAppend(old(buses), id, [Bus(id, name, kind)]);
      }
    }

    /** Adds one bus per name, in order; returns their ids. */
    method AddBuses(names: seq<string>, kind: BusKind) returns (ids: seq<Id>)
      modifies this
      ensures State() == old(State()).(buses := old(buses) + NewBuses(names, kind, old(nextId)),
                                        nextId := old(nextId) + |names|)
      ensures ids == seq(|names|, q => old(nextId) + q)
    {
      ids := [];
      var q := 0;
      while q < |names|
        invariant 0 <= q <= |names|
        invariant State() == old(State()).(buses := old(buses) + NewBuses(names[..q], kind, old(nextId)),
                                            nextId := old(nextId) + q)
        invariant ids == seq(q, k => old(nextId) + k)
      {
        var id := AddBus(names[q], kind);
        assert NewBuses(names[..q + 1], kind, old(nextId)) == NewBuses(names[..q], kind, old(nextId)) + [Bus(id, names[q], kind)];
        ids := ids + [id];
        q := q + 1;
      }
      assert names[..q] == names;
    }

    method AddSwitch(s: Switch)
      modifies this
      ensures State() == old(State()).(switches := old(switches) + [s])
    {
      switches := switches + [s];
    }

    /** Adds the switches in order. */
    method AddSwitches(ss: seq<Switch>)
      modifies this
      ensures State() == old(State()).(switches := old(switches) + ss)
    {
      var q := 0;
      while q < |ss|
        invariant 0 <= q <= |ss|
        invariant State() == old(State()).(switches := old(switches) + ss[..q])
      {
        AddSwitch(ss[q]);
        assert ss[..q + 1] == ss[..q] + [ss[q]];
        q := q + 1;
      }
      assert ss[..q] == ss;
    }

    /** `add_line`. */
    method AddLine(b: Branch)
      modifies this
      ensures State() == old(State()).(branches := old(branches) + [b])
    {
      branches := branches + [b];
    }

    /** `delete_bus`: only the bus itself is removed; devices keep their references. */
    method DeleteBus(id: Id)
      modifies this
      ensures State() == old(State()).(buses := WithoutBus(old(buses), id))
      ensures old(Valid()) ==> Valid()
    {
      buses := WithoutBus(buses, id);
      if old(Valid()) {
        WithoutBusFresh(old(buses), nextId, id);
      }
    }

    method SetBranchFrom(k: nat, id: Id)
      requires k < |branches|
      modifies this
      ensures State() == old(State()).(branches := old(branches)[k := old(branches)[k].(from := Some(id))])
    {
      branches := branches[k := branches[k].(from := Some(id))];
    }

    method SetBranchTo(k: nat, id: Id)
      requires k < |branches|
      modifies this
      ensures State() == old(State()).(branches := old(branches)[k := old(branches)[k].(to := Some(id))])
    {
      branches := branches[k := branches[k].(to := Some(id))];
    }

    method SetInjectionBus(k: nat, id: Id)
      requires k < |injections|
      modifies this
      ensures State() == old(State()).(injections := old(injections)[k := old(injections)[k].(bus := Some(id))])
    {
      injections := injections[k := injections[k].(bus := Some(id))];
    }
  }
}
