/**
 * `resolveUnit` of the second generation: as the first, but an inline object is taken as
 * it is, the snake_case bonuses are not renamed, and overrides of the `attacks`, `armors`
 * and `cost` tables are merged into the base's tables key by key.
 */
module DataV2 {
  import opened Js
  import opened Resolve

  /** The override properties that are merged into the base's table of the same name rather than replacing it. */
  const Tables: set<string> := {"attacks", "armors", "cost"}

  /** The base stat object: a deep copy of the catalog entry, or a shallow copy of an inline object. */
  function BaseOf(all: map<string, Json>, spec: Json): Result<Record>
  {
    var unit := Get(spec, "unit");
    if unit.Some? && unit.value.JStr? then
      var key := unit.value.s;
      if key in all && Truthy(Some(all[key])) then Ok(Spread(Some(all[key])))
      else Err("Unknown unit key: " + key)
    else if unit.Some? && (unit.value.JObj? || unit.value.JArr?) then Ok(Spread(unit))
    else Err("spec.unit must be a string key or an inline stat object")
  }

  /** `{ ...r[name], ...patch }`: the base's table with the patch's entries written over it. */
  function MergedTable(r: Record, name: string, patch: Option<Json>): Json
  {
    JObj(Spread(if name in r then Some(r[name]) else None) + Spread(patch))
  }

  /** `if (patch) r[name] = { ...r[name], ...patch }`. */
  function MergeTable(r: Record, name: string, patch: Option<Json>): Record
  {
    if Truthy(patch) then r[name := MergedTable(r, name, patch)] else r
  }

  /**
   * The overrides of a truthy `overrides` object: every property but the three tables is
   * copied as it is, and each truthy table override is merged into the base's table.
   */
  function WithOverrides(base: Record, overrides: Option<Json>): Record
  {
    if Truthy(overrides) then
      var r := base + (Spread(overrides) - Tables);
      var r := MergeTable(r, "attacks", Get(overrides.value, "attacks"));
      var r := MergeTable(r, "armors", Get(overrides.value, "armors"));
      MergeTable(r, "cost", Get(overrides.value, "cost"))
    else base
  }

  /**
   * What `resolveUnit` returns, or the message of the error it throws: it fails only at the
   * unit check, and the later steps never drop a property of the base.
   */
  function Resolved(all: map<string, Json>, spec: Json): (r: Result<Record>)
    ensures r.Err? <==> BaseOf(all, spec).Err?
    ensures r.Err? ==> r.error == BaseOf(all, spec).error
    ensures r.Ok? ==> BaseOf(all, spec).value.Keys <= r.value.Keys
  {
    match BaseOf(all, spec)
    case Err(e) => Err(e)
    case Ok(base) => Ok(WithDiscounts(WithArmy(WithOverrides(base, Get(spec, "overrides")), spec), spec))
  }

  /** `resolveUnit`: checks the unit, copies its base and writes the overrides, army-level fields and discounts onto the copy. */
  method ResolveUnit(all: map<string, Json>, spec: Json) returns (r: Result<Record>)
    requires spec != JNull
    ensures r == Resolved(all, spec)
  {
    var base: Record;
    var unit := Get(spec, "unit");
    if unit.Some? && unit.value.JStr? {
      var key := unit.value.s;
      if !(key in all && Truthy(Some(all[key]))) {
        return Err("Unknown unit key: " + key);
      }
      base := Spread(Some(all[key]));
    } else if unit.Some? && (unit.value.JObj? || unit.value.JArr?) {
      base := Spread(unit);
    } else {
      return Err("spec.unit must be a string key or an inline stat object");
    }
    assert BaseOf(all, spec) == Ok(base);
    base := ApplyOverrides(base, Get(spec, "overrides"));
    base := MergeArmyFields(base, spec);
    base := MergeDiscounts(base, spec);
    r := Ok(base);
  }

  /** The override step of `resolveUnit`: plain properties first, then each truthy table override merged in turn. */
  method ApplyOverrides(base: Record, overrides: Option<Json>) returns (r: Record)
    ensures r == WithOverrides(base, overrides)
  {
    r := base;
    if Truthy(overrides) {
      r := r + (Spread(overrides) - Tables);
      var attacks := Get(overrides.value, "attacks");
      if Truthy(attacks) {
        r := r["attacks" := MergedTable(r, "attacks", attacks)];
      }
      var armors := Get(overrides.value, "armors");
      if Truthy(armors) {
        r := r["armors" := MergedTable(r, "armors", armors)];
      }
      var cost := Get(overrides.value, "cost");
      if Truthy(cost) {
        r := r["cost" := MergedTable(r, "cost", cost)];
      }
    }
  }

  /** A string key resolves exactly when the catalog has a truthy entry for it, else the error names the key. */
  lemma UnknownKey(all: map<string, Json>, spec: Json, key: string)
    requires Get(spec, "unit") == Some(JStr(key))
    ensures Resolved(all, spec).Ok? <==> key in all && Truthy(Some(all[key]))
    ensures Resolved(all, spec).Err? ==> Resolved(all, spec).error == "Unknown unit key: " + key
  {
  }

  /** An inline object always resolves: there is no required-field check, and its own properties are the base. */
  lemma InlineAccepted(all: map<string, Json>, spec: Json)
    requires Get(spec, "unit").Some? && Get(spec, "unit").value.JObj?
    ensures BaseOf(all, spec) == Ok(Get(spec, "unit").value.fields)
    ensures Resolved(all, spec).Ok?
  {
  }

  /** A `unit` that is neither a string nor an object is refused. */
  lemma NotAUnit(all: map<string, Json>, spec: Json)
    requires !(Get(spec, "unit").Some? && (Get(spec, "unit").value.JStr? || Get(spec, "unit").value.JObj? || Get(spec, "unit").value.JArr?))
    ensures Resolved(all, spec) == Err("spec.unit must be a string key or an inline stat object")
  {
  }

  /**
   * Merging a table override: the named entries take the override's values, and every other
   * entry of the base's table is kept.
   */
  lemma TableMerge(r: Record, name: string, patch: map<string, Json>, c: string)
    requires name in r ==> r[name].JObj?
    ensures var t := MergedTable(r, name, Some(JObj(patch))).fields;
      (c in patch ==> c in t && t[c] == patch[c])
      && (c !in patch && name in r ==> Unchanged(r[name].fields, t, c))
      && (c !in patch && name !in r ==> c !in t)
  {
  }

  /** The army-level and discount steps keep every property they do not write. */
  lemma LaterStepsKeep(w: Record, spec: Json, k: string)
    requires k !in ArmyTargets && k !in DiscountTargets
    ensures Unchanged(w, WithDiscounts(WithArmy(w, spec), spec), k)
  {
    ArmyFieldsCopied(w, spec);
    DiscountsCopied(WithArmy(w, spec), spec);
  }

  /** Of the resolved unit, every property the army-level and discount steps do not write is as the override step left it. */
  lemma ResolvedKeeps(all: map<string, Json>, spec: Json, k: string)
    requires BaseOf(all, spec).Ok?
    requires k !in ArmyTargets && k !in DiscountTargets
    ensures Unchanged(WithOverrides(BaseOf(all, spec).value, Get(spec, "overrides")), Resolved(all, spec).value, k)
  {
    LaterStepsKeep(WithOverrides(BaseOf(all, spec).value, Get(spec, "overrides")), spec, k);
  }

  /** The override step over a base: non-table overrides are copied as they are, tables are merged, other properties stay. */
  lemma OverrideStep(base: Record, o: map<string, Json>, k: string)
    requires !(k in Tables && k in o && Truthy(Some(o[k])))
    ensures var w := WithOverrides(base, Some(JObj(o)));
      (k in o && k !in Tables ==> k in w && w[k] == o[k])
      && (k !in o ==> Unchanged(base, w, k))
      && (k in Tables && k in o ==> Unchanged(base, w, k))
  {
  }

  /**
   * Overrides of a resolved unit: a property outside the tables keeps the override's value
   * (snake_case names included, unrenamed), properties the overrides do not name keep the
   * base's, unless an army-level field or a discount writes them.
   */
  lemma OverridesApplied(all: map<string, Json>, spec: Json, k: string)
    requires BaseOf(all, spec).Ok?
    requires Get(spec, "overrides").Some? && Get(spec, "overrides").value.JObj?
    requires k !in Tables && k !in ArmyTargets && k !in DiscountTargets
    ensures var r := Resolved(all, spec).value;
      var o := Get(spec, "overrides").value.fields;
      (k in o ==> k in r && r[k] == o[k])
      && (k !in o ==> Unchanged(BaseOf(all, spec).value, r, k))
  {
    var o := Get(spec, "overrides").value.fields;
    var base := BaseOf(all, spec).value;
    OverrideStep(base, o, k);
    ResolvedKeeps(all, spec, k);
  }

  /** A truthy table override leaves that table as the base's table merged with the override. */
  lemma OverriddenTable(base: Record, o: map<string, Json>, name: string)
    requires name in Tables && name in o && o[name].JObj?
    ensures var w := WithOverrides(base, Some(JObj(o)));
      name in w && w[name] == MergedTable(base, name, Some(o[name]))
  {
    var r0 := base + (o - Tables);
    assert Unchanged(base, r0, name);
    var r1 := MergeTable(r0, "attacks", Get(JObj(o), "attacks"));
    var r2 := MergeTable(r1, "armors", Get(JObj(o), "armors"));
    if name == "attacks" {
      assert r1[name] == MergedTable(base, name, Some(o[name]));
    } else if name == "armors" {
      assert Unchanged(r0, r1, name);
      assert r2[name] == MergedTable(base, name, Some(o[name]));
    } else {
      assert Unchanged(r0, r2, name);
    }
  }

  /**
   * A table override on a resolved unit replaces only the entries it names: the others of
   * the base's table survive.
   */
  lemma TableOverrideApplied(all: map<string, Json>, spec: Json, base: Record, o: map<string, Json>, name: string, c: string)
    requires BaseOf(all, spec) == Ok(base) && Get(spec, "overrides") == Some(JObj(o))
    requires name in Tables && name in o && o[name].JObj?
    requires name in base ==> base[name].JObj?
    ensures var r := Resolved(all, spec).value;
      name in r && r[name].JObj?
      && (c in o[name].fields ==> c in r[name].fields && r[name].fields[c] == o[name].fields[c])
      && (c !in o[name].fields && name in base ==> Unchanged(base[name].fields, r[name].fields, c))
  {
    ResolvedKeeps(all, spec, name);
    OverriddenTable(base, o, name);
    TableMerge(base, name, o[name].fields, c);
  }
}
