/**
 * The scenarios route: stored scenarios are kept in a compact form of their own, which is
 * translated into the army specs of the first-generation simulate route; a scenario is run
 * with the caller's patches merged over those specs.
 */
module Scenarios {
  import opened Js
  import opened Resolve
  import opened Request
  import SimulateV1
  import Outcome

  /** The stat fields of a scenario side that are copied into `overrides` when defined. */
  const StatFields: seq<string> := ["name", "hp", "matk", "patk", "marm", "parm", "reload", "range", "f", "w", "g"]

  /** The army-level fields of a spec: the spec's name, the scenario field it is read from, and its default. */
  const Defaulted: seq<(string, string, real)> := [
    ("count", "count", 1.0), ("delay", "delay", 0.0), ("tech_delay", "tech", 0.0),
    ("units_before", "pre", 0.0), ("buildings", "buildings", 1.0),
    ("engagement_pct", "eng", 100.0), ("micro", "micro", 0.0)]

  /** The defined stat fields of `side` among `fs`, each with the side's value, collected in order. */
  function StatsIn(side: Json, fs: seq<string>): Record
  {
    if fs == [] then map[] else Put(StatsIn(side, fs[..|fs| - 1]), fs[|fs| - 1], Get(side, fs[|fs| - 1]))
  }

  /** A field is collected exactly when it is listed and the side defines it, and then with the side's value. */
  lemma {:induction false} StatsInExact(side: Json, fs: seq<string>, k: string)
    ensures k in StatsIn(side, fs) <==> k in fs && Get(side, k).Some?
    ensures k in StatsIn(side, fs) ==> StatsIn(side, fs)[k] == Get(side, k).value
  {
    if fs != [] {
      var init := fs[..|fs| - 1];
      assert fs == init + [fs[|fs| - 1]];
      StatsInExact(side, init, k);
    }
  }

  /**
   * The overrides a scenario side gives: its defined stat fields, `bbn` as `bonus_atk`, and
   * `abr`, which is on a 0 to 100 scale, divided by 100 as `bonus_reduction`.
   */
  function Overrides(side: Json): Record
  {
    var o := Put(StatsIn(side, StatFields), "bonus_atk", Get(side, "bbn"));
    if Get(side, "abr").Some? then o["bonus_reduction" := Over(Get(side, "abr"), 100.0)] else o
  }

  /**
   * `scenarioToArmySpec(side)`: the unit is the side's truthy `preset`, else its `unit`; the
   * army-level fields fall back to their defaults when absent or `null`; `overrides` is set
   * only when there is at least one.
   */
  function ArmySpec(side: Json): Record
  {
    var o := Overrides(side);
    if |o| > 0 then Fixed(side)["overrides" := JObj(o)] else Fixed(side)
  }

  /** The object literal `scenarioToArmySpec` starts from: the unit and the army-level fields. */
  function Fixed(side: Json): Record
  {
    var preset := Get(side, "preset");
    Put(map[], "unit", if Truthy(preset) then preset else Get(side, "unit"))
      ["count" := Nullish(Get(side, "count"), JNum(1.0))]
      ["delay" := Nullish(Get(side, "delay"), JNum(0.0))]
      ["tech_delay" := Nullish(Get(side, "tech"), JNum(0.0))]
      ["units_before" := Nullish(Get(side, "pre"), JNum(0.0))]
      ["buildings" := Nullish(Get(side, "buildings"), JNum(1.0))]
      ["engagement_pct" := Nullish(Get(side, "eng"), JNum(100.0))]
      ["micro" := Nullish(Get(side, "micro"), JNum(0.0))]
  }

  /** `scenarioToArmySpec`: the spec's fixed fields, then its overrides when there are any. */
  method ScenarioToArmySpec(side: Json) returns (spec: Record)
    requires side != JNull
    ensures spec == ArmySpec(side)
  {
    spec := Fixed(side);
    var overrides := CollectOverrides(side);
    if |overrides| > 0 {
      spec := spec["overrides" := JObj(overrides)];
    }
  }

  /** The overrides of a side, collected field by field: the stat fields in order, then `bbn` and `abr`. */
  method CollectOverrides(side: Json) returns (overrides: Record)
    ensures overrides == Overrides(side)
  {
    overrides := map[];
    for i := 0 to |StatFields|
      invariant overrides == StatsIn(side, StatFields[..i])
    {
      var f := StatFields[i];
      assert StatFields[..i + 1][..i] == StatFields[..i];
      if Get(side, f).Some? {
        overrides := overrides[f := Get(side, f).value];
      }
    }
    assert StatFields[..|StatFields|] == StatFields;
    if Get(side, "bbn").Some? {
      overrides := overrides["bonus_atk" := Get(side, "bbn").value];
    }
    if Get(side, "abr").Some? {
      overrides := overrides["bonus_reduction" := Over(Get(side, "abr"), 100.0)];
    }
  }

  /** Each army-level field is the side's value when it gives one other than `null`, and its default otherwise. */
  lemma DefaultsApplied(side: Json, j: nat)
    requires j < |Defaulted|
    ensures var (dst, src, d) := Defaulted[j];
      var spec, x := ArmySpec(side), Get(side, src);
      dst in spec
      && (x.None? || x == Some(JNull) ==> spec[dst] == JNum(d))
      && (x.Some? && x.value != JNull ==> spec[dst] == x.value)
  {
    FixedAt(side, j);
  }

  /** The object literal holds each army-level field with its `??` default. */
  lemma FixedAt(side: Json, j: nat)
    requires j < |Defaulted|
    ensures Defaulted[j].0 in Fixed(side) && Defaulted[j].0 != "overrides"
    ensures Fixed(side)[Defaulted[j].0] == Nullish(Get(side, Defaulted[j].1), JNum(Defaulted[j].2))
  {
    var f := Fixed(side);
    if j == 0 {
      assert f["count"] == Nullish(Get(side, "count"), JNum(1.0));
    } else if j == 1 {
      assert f["delay"] == Nullish(Get(side, "delay"), JNum(0.0));
    } else if j == 2 {
      assert f["tech_delay"] == Nullish(Get(side, "tech"), JNum(0.0));
    } else if j == 3 {
      assert f["units_before"] == Nullish(Get(side, "pre"), JNum(0.0));
    } else if j == 4 {
      assert f["buildings"] == Nullish(Get(side, "buildings"), JNum(1.0));
    } else if j == 5 {
      assert f["engagement_pct"] == Nullish(Get(side, "eng"), JNum(100.0));
    }
  }

  /** The spec names the side's truthy `preset`, else its `unit`, and has no unit when neither gives one. */
  lemma UnitChosen(side: Json)
    ensures var spec, preset, unit := ArmySpec(side), Get(side, "preset"), Get(side, "unit");
      (Truthy(preset) ==> "unit" in spec && spec["unit"] == preset.value)
      && (!Truthy(preset) && unit.Some? ==> "unit" in spec && spec["unit"] == unit.value)
      && (!Truthy(preset) && unit.None? ==> "unit" !in spec)
  {
    FixedUnit(side);
    assert "unit" in ArmySpec(side) <==> "unit" in Fixed(side);
  }

  /** The object literal holds the side's truthy `preset`, else its `unit`, when there is one. */
  lemma FixedUnit(side: Json)
    ensures var f, preset, unit := Fixed(side), Get(side, "preset"), Get(side, "unit");
      ("unit" in f <==> Truthy(preset) || unit.Some?)
      && (Truthy(preset) ==> f["unit"] == preset.value)
      && (!Truthy(preset) && unit.Some? ==> f["unit"] == unit.value)
  {
  }

  /** The spec carries `overrides` exactly when the side gives at least one, and then all of them. */
  lemma OverridesPresent(side: Json)
    ensures var spec, o := ArmySpec(side), Overrides(side);
      ("overrides" in spec <==> |o| > 0) && ("overrides" in spec ==> spec["overrides"] == JObj(o))
  {
    assert "overrides" !in Fixed(side);
  }

  /**
   * The overrides hold exactly the defined stat fields, with their values, `bbn` as
   * `bonus_atk` and `abr / 100` as `bonus_reduction`, and nothing else.
   */
  lemma OverridesExact(side: Json, k: string)
    ensures var o, bbn, abr := Overrides(side), Get(side, "bbn"), Get(side, "abr");
      (k in StatFields ==> (k in o <==> Get(side, k).Some?) && (k in o ==> o[k] == Get(side, k).value))
      && (k == "bonus_atk" ==> (k in o <==> bbn.Some?) && (k in o ==> o[k] == bbn.value))
      && (k == "bonus_reduction" ==> (k in o <==> abr.Some?))
      && (k == "bonus_reduction" && abr.Some? && abr.value.JNum? ==> k in o && o[k] == JNum(abr.value.n / 100.0))
      && (k in o ==> k in StatFields || k == "bonus_atk" || k == "bonus_reduction")
  {
    StatsInExact(side, StatFields, k);
    var abr := Get(side, "abr");
    if abr.Some? && abr.value.JNum? {
      var q := Div(ToNumber(abr), Fin(100.0));
      assert q.r * 100.0 == abr.value.n;
    }
  }

  /** The spec has the seven army-level fields, and a unit and overrides only when there are any. */
  lemma SpecKeys(side: Json)
    ensures var spec, preset := ArmySpec(side), Get(side, "preset");
      spec.Keys == {"count", "delay", "tech_delay", "units_before", "buildings", "engagement_pct", "micro"}
        + (if Truthy(preset) || Get(side, "unit").Some? then {"unit"} else {})
        + (if |Overrides(side)| > 0 then {"overrides"} else {})
  {
  }

  /**
   * `mergeArmySpec(base, patch)`: a falsy patch leaves the base as it is; otherwise the
   * patch's properties are written over the base's, and when either has `overrides` the two
   * `overrides` objects are merged, the patch's entries winning. `{...(x || {})}` copies
   * nothing from a falsy value, as `Spread` does.
   */
  function MergeArmySpec(base: Record, patch: Option<Json>): (m: Record)
    ensures !Truthy(patch) ==> m == base
  {
    if !Truthy(patch) then base
    else
      var merged := base + Spread(patch);
      var bo, po := Get(JObj(base), "overrides"), Get(patch.value, "overrides");
      if bo.Some? || po.Some? then merged["overrides" := JObj(Spread(bo) + Spread(po))]
      else merged
  }

  /** Outside `overrides`, a property of the patch wins and any other keeps the base's value. */
  lemma PatchWins(base: Record, patch: Json, k: string)
    requires Truthy(Some(patch)) && k != "overrides"
    ensures var m, p := MergeArmySpec(base, Some(patch)), Spread(Some(patch));
      (k in p ==> k in m && m[k] == p[k])
      && (k !in p ==> Unchanged(base, m, k))
  {
  }

  /**
   * `overrides` are merged key by key: absent from the merge when neither side has one, and
   * otherwise an object in which each entry of the patch's overrides wins and every other
   * entry of the base's overrides survives.
   */
  lemma OverridesMerged(base: Record, patch: Json, c: string)
    requires Truthy(Some(patch))
    ensures var m := MergeArmySpec(base, Some(patch));
      var bo, po := Get(JObj(base), "overrides"), Get(patch, "overrides");
      (bo.None? && po.None? ==> "overrides" !in m)
      && (bo.Some? || po.Some? ==>
            "overrides" in m && m["overrides"].JObj?
            && (c in Spread(po) ==> c in m["overrides"].fields && m["overrides"].fields[c] == Spread(po)[c])
            && (c !in Spread(po) ==> Unchanged(Spread(bo), m["overrides"].fields, c)))
  {
  }

  /** A stored scenario: both its sides are given and neither is `null`. */
  predicate Stored(s: Json)
  {
    Get(s, "a").Some? && Get(s, "a").value != JNull && Get(s, "b").Some? && Get(s, "b").value != JNull
  }

  /** Every stored scenario has both its sides. */
  predicate AllStored(scenarios: seq<(string, Json)>)
  {
    forall i :: 0 <= i < |scenarios| ==> Stored(scenarios[i].1)
  }

  /** `SCENARIOS[id]`: the scenario stored under `id`, the stored entries taken in order. */
  function Scenario(scenarios: seq<(string, Json)>, id: string): (s: Option<Json>)
    ensures s.None? <==> forall i :: 0 <= i < |scenarios| ==> scenarios[i].0 != id
    ensures s.Some? ==> exists i :: 0 <= i < |scenarios| && scenarios[i] == (id, s.value)
  {
    if |scenarios| == 0 then None
    else if scenarios[0].0 == id then Some(scenarios[0].1)
    else
      var s := Scenario(scenarios[1..], id);
      assert forall i :: 1 <= i < |scenarios| ==> scenarios[i] == scenarios[1..][i - 1];
      s
  }

  /** The scenario found under `id` is that of the first entry with this id. */
  lemma {:induction false} ScenarioFirst(scenarios: seq<(string, Json)>, id: string, i: nat)
    requires i < |scenarios| && scenarios[i].0 == id
    requires forall j :: 0 <= j < i ==> scenarios[j].0 != id
    ensures Scenario(scenarios, id) == Some(scenarios[i].1)
  {
    if i > 0 {
      assert scenarios[1..][i - 1] == scenarios[i];
      assert forall j :: 0 <= j < i - 1 ==> scenarios[1..][j] == scenarios[j + 1];
      ScenarioFirst(scenarios[1..], id, i - 1);
    }
  }

  /** One entry of `listScenariosLogic`. */
  datatype Listing = Listing(id: string, name: Option<Json>, desc: Option<Json>, sideA: Record, sideB: Record)

  /** `listScenariosLogic()`: one entry per stored scenario, in order, with its id, name, description and both specs. */
  function ListScenarios(scenarios: seq<(string, Json)>): (ls: seq<Listing>)
    requires AllStored(scenarios)
    ensures |ls| == |scenarios|
    ensures forall i :: 0 <= i < |scenarios| ==>
      var s := scenarios[i].1;
      ls[i].id == scenarios[i].0 && ls[i].name == Get(s, "name") && ls[i].desc == Get(s, "desc")
      && ls[i].sideA == ArmySpec(Get(s, "a").value) && ls[i].sideB == ArmySpec(Get(s, "b").value)
  {
    seq(|scenarios|, i requires 0 <= i < |scenarios| =>
      var (id, s) := scenarios[i];
      Listing(id, Get(s, "name"), Get(s, "desc"), ArmySpec(Get(s, "a").value), ArmySpec(Get(s, "b").value)))
  }

  const NotFound: string := "Scenario not found: "

  /** The two sides `runScenarioLogic` passes on: each scenario spec with the caller's patch for it merged in. */
  function Sides(scenarios: seq<(string, Json)>, id: string, overrides: Option<Json>): (Option<Json>, Option<Json>)
    requires AllStored(scenarios)
    requires Scenario(scenarios, id).Some?
  {
    var s := Scenario(scenarios, id).value;
    var o := OptionsOf(overrides);
    (Some(JObj(MergeArmySpec(ArmySpec(Get(s, "a").value), Get(o, "side_a")))),
     Some(JObj(MergeArmySpec(ArmySpec(Get(s, "b").value), Get(o, "side_b")))))
  }

  /** The options `runScenarioLogic` passes on: `overrides.options`. */
  function RunOptions(overrides: Option<Json>): Option<Json>
  {
    Get(OptionsOf(overrides), "options")
  }

  /** The error `runScenarioLogic` throws: an unknown scenario, then whatever `simulateLogic` throws. */
  function RunError(all: map<string, Json>, scenarios: seq<(string, Json)>, id: string, overrides: Option<Json>): Option<string>
    requires AllStored(scenarios)
  {
    if Scenario(scenarios, id).None? then Some(NotFound + id)
    else var (a, b) := Sides(scenarios, id, overrides); SimulateV1.SimulateError(all, a, b)
  }

  /** The merged sides of the scenario, when there is one, are sides the simulate route can run. */
  predicate Playable(all: map<string, Json>, scenarios: seq<(string, Json)>, id: string, overrides: Option<Json>)
    requires AllStored(scenarios)
  {
    Scenario(scenarios, id).Some? ==>
      var (a, b) := Sides(scenarios, id, overrides);
      SimulateV1.Simulable(all, a) && SimulateV1.Simulable(all, b)
  }

  /**
   * `runScenarioLogic(id, overrides = {})`: an unknown id fails naming it; otherwise the
   * first-generation `simulateLogic` runs on the merged sides with `overrides.options`.
   */
  method RunScenarioLogic(all: map<string, Json>, scenarios: seq<(string, Json)>, id: string, overrides: Option<Json>)
    returns (r: Result<Outcome.Outcome>)
    requires AllStored(scenarios)
    requires overrides != Some(JNull) && RunOptions(overrides) != Some(JNull)
    requires NumericOptions(OptionsOf(RunOptions(overrides)))
    requires Playable(all, scenarios, id, overrides)
    ensures r.Err? <==> RunError(all, scenarios, id, overrides).Some?
    ensures r.Err? ==> r.error == RunError(all, scenarios, id, overrides).value
    ensures r.Ok? ==> var (a, b) := Sides(scenarios, id, overrides);
      SimulateV1.Answers(all, a, b, OptionsOf(RunOptions(overrides)), r.value)
  {
    var scenario := Scenario(scenarios, id);
    if !Truthy(scenario) {
      return Err(NotFound + id);
    }
    var specA := ScenarioToArmySpec(Get(scenario.value, "a").value);
    var specB := ScenarioToArmySpec(Get(scenario.value, "b").value);
    var o := OptionsOf(overrides);
    r := SimulateV1.SimulateLogic(all, Some(JObj(MergeArmySpec(specA, Get(o, "side_a")))),
      Some(JObj(MergeArmySpec(specB, Get(o, "side_b")))), RunOptions(overrides));
  }

  /**
   * Run without patches, a scenario fights exactly the two specs its listing shows, and an
   * id that is not stored fails naming it.
   */
  lemma ListedIsRun(all: map<string, Json>, scenarios: seq<(string, Json)>, id: string, i: nat)
    requires AllStored(scenarios)
    requires i < |scenarios| && scenarios[i].0 == id
    requires forall j :: 0 <= j < i ==> scenarios[j].0 != id
    ensures var l := ListScenarios(scenarios)[i];
      Scenario(scenarios, id).Some? && Sides(scenarios, id, None) == (Some(JObj(l.sideA)), Some(JObj(l.sideB)))
  {
    ScenarioFirst(scenarios, id, i);
  }

  /** An id no stored scenario has fails before anything is simulated. */
  lemma UnknownScenario(all: map<string, Json>, scenarios: seq<(string, Json)>, id: string, overrides: Option<Json>)
    requires AllStored(scenarios)
    requires forall i :: 0 <= i < |scenarios| ==> scenarios[i].0 != id
    ensures RunError(all, scenarios, id, overrides) == Some(NotFound + id)
  {
  }
}
