/**
 * `create_substation`: a substation and, in template order, one voltage
 * level per template whose type has a builder.
 */
module Substation {
  import opened Common
  import opened Grid
  import opened Layouts
  import opened VoltageLevels

  /**
   * A `VoltageLevelTemplate`, reduced to the fields `create_substation`
   * reads. The voltage is kept as the text it is printed as.
   */
  datatype Template = Template(name: string, voltage: string, vlType: VoltageLevelType, nBays: nat, addDisconnectors: bool)

  /** The name of the level made from template `tp` in substation `se`. */
  function LevelName(se: string, tp: Template): string
  {
    se + "-@" + tp.name + " @" + tp.voltage + " kV VL"
  }

  /** The level template `tp` adds once the id counter is at `base`; the builders are never asked to segment the bar. */
  function TemplateLevel(se: string, tp: Template, base: Id): Option<Level>
  {
    LevelOf(tp.vlType, tp.addDisconnectors, LevelName(se, tp), tp.nBays, false, base)
  }

  /** The grid after the templates are built one after the other. */
  function Stacked(s: GridState, se: string, tps: seq<Template>): GridState
    decreases |tps|
  {
    if tps == [] then s
    else
      var prev := Stacked(s, se, tps[..|tps| - 1]);
      var tp := tps[|tps| - 1];
      WithLevel(prev, LevelName(se, tp), TemplateLevel(se, tp, prev.nextId))
  }

  /** The templates that have a builder, in order. */
  function Supported(tps: seq<Template>): (r: seq<Template>)
    ensures |r| <= |tps|
    ensures forall i :: 0 <= i < |r| ==> Implemented(r[i].vlType) && r[i] in tps
    ensures forall tp :: tp in tps && Implemented(tp.vlType) ==> tp in r
    decreases |tps|
  {
    if tps == [] then []
    else
      var init := tps[..|tps| - 1];
      var tp := tps[|tps| - 1];
      assert forall x :: x in tps ==> x in init || x == tp;
      Supported(init) + (if Implemented(tp.vlType) then [tp] else [])
  }

  /** The names of the levels `create_substation` returns, in the order it appends them. */
  function LevelNames(se: string, tps: seq<Template>): seq<string>
    decreases |tps|
  {
    if tps == [] then []
    else
      var tp := tps[|tps| - 1];
      LevelNames(se, tps[..|tps| - 1]) + (if Implemented(tp.vlType) then [LevelName(se, tp)] else [])
  }

  /** `create_substation`: adds the substation, then one level per template, skipping the types without a builder. */
  method CreateSubstation(grid: MultiCircuit, se: string, tps: seq<Template>) returns (levels: seq<string>)
    modifies grid
    ensures grid.State() == Stacked(old(grid.State()).(substations := old(grid.substations) + [se]), se, tps)
    ensures levels == LevelNames(se, tps)
    ensures old(grid.Valid()) ==> grid.Valid()
  {
    grid.AddSubstation(se);
    ghost var s0 := grid.State();
    levels := [];
    for i := 0 to |tps|
      invariant grid.State() == Stacked(s0, se, tps[..i])
      invariant levels == LevelNames(se, tps[..i])
      invariant old(grid.Valid()) ==> grid.Valid()
    {
      var tp := tps[i];
      assert tps[..i + 1][..i] == tps[..i];
      var conn := CreateLevel(grid, tp.vlType, tp.addDisconnectors, LevelName(se, tp), tp.nBays, false);
      if conn.Some? {
        levels := levels + [LevelName(se, tp)];
      }
    }
    assert tps[..|tps|] == tps;
  }

  // ------------------------------------------------------------- properties

  /** One returned level per template with a builder, in template order. */
  lemma {:induction false} LevelNamesSupported(se: string, tps: seq<Template>)
    ensures var sup := Supported(tps);
            LevelNames(se, tps) == seq(|sup|, i requires 0 <= i < |sup| => LevelName(se, sup[i]))
    decreases |tps|
  {
    if tps != [] {
      LevelNamesSupported(se, tps[..|tps| - 1]);
    }
  }

  /** A template adds a level exactly when its type has a builder. */
  lemma TemplateLevelSome(se: string, tp: Template, base: Id)
    ensures TemplateLevel(se, tp, base).Some? <==> Implemented(tp.vlType)
  {
    if Implemented(tp.vlType) {
      LevelConnCount(tp.vlType, tp.addDisconnectors, LevelName(se, tp), tp.nBays, false, base);
    }
  }

  /** Templates without a builder leave no trace: building only the supported ones gives the same grid. */
  lemma {:induction false} StackedSupported(s: GridState, se: string, tps: seq<Template>)
    ensures Stacked(s, se, tps) == Stacked(s, se, Supported(tps))
    decreases |tps|
  {
    if tps != [] {
      var init := tps[..|tps| - 1];
      var tp := tps[|tps| - 1];
      StackedSupported(s, se, init);
      var prev := Stacked(s, se, init);
      TemplateLevelSome(se, tp, prev.nextId);
      if Implemented(tp.vlType) {
        var sup := Supported(init) + [tp];
        assert Supported(tps) == sup;
        assert sup[..|sup| - 1] == Supported(init);
      } else {
        assert Supported(tps) == Supported(init);
        assert Stacked(s, se, tps) == prev;
      }
    }
  }

  /** The grid's voltage levels grow by exactly the returned names. */
  lemma {:induction false} StackedLevels(s: GridState, se: string, tps: seq<Template>)
    ensures Stacked(s, se, tps).voltageLevels == s.voltageLevels + LevelNames(se, tps)
    decreases |tps|
  {
    if tps != [] {
      var init := tps[..|tps| - 1];
      var tp := tps[|tps| - 1];
      StackedLevels(s, se, init);
      var prev := Stacked(s, se, init);
      TemplateLevelSome(se, tp, prev.nextId);
    }
  }
}
