/**
 * `resolveUnit` of the first generation: an army spec's `unit` (a catalog key or an inline
 * stat object) becomes a stat object, with the spec's overrides, army-level fields and
 * resource discounts written onto a copy of the base.
 */
module DataV1 {
  import opened Js
  import opened Resolve

  /** `{ ...units, ...presets }`: the catalog the first generation resolves keys in. */
  function AllUnits(units: map<string, Json>, presets: map<string, Json>): (all: map<string, Json>)
    ensures all.Keys == units.Keys + presets.Keys
    ensures forall k :: k in presets ==> all[k] == presets[k]
    ensures forall k :: k in units && k !in presets ==> all[k] == units[k]
  {
    units + presets
  }

  /** The fields an inline stat object must define. */
  const Required: seq<string> := ["name", "hp", "reload", "range"]

  /** The first of `fields` that `u` does not define. */
  function FirstMissing(u: Json, fields: seq<string>): Option<string>
  {
    if |fields| == 0 then None
    else if Get(u, fields[0]).None? then Some(fields[0])
    else FirstMissing(u, fields[1..])
  }

  /** `FirstMissing` names `f` exactly when `f` is the first field, in order, that `u` lacks. */
  lemma {:induction false} FirstMissingIff(u: Json, fields: seq<string>, f: string)
    ensures FirstMissing(u, fields) == Some(f) <==>
      exists i :: 0 <= i < |fields| && fields[i] == f && Get(u, f).None?
                  && forall j :: 0 <= j < i ==> Get(u, fields[j]).Some?
    ensures FirstMissing(u, fields).None? <==> forall j :: 0 <= j < |fields| ==> Get(u, fields[j]).Some?
  {
    if |fields| > 0 {
      FirstMissingIff(u, fields[1..], f);
      if Get(u, fields[0]).Some? {
        if FirstMissing(u, fields) == Some(f) {
          var i :| 0 <= i < |fields[1..]| && fields[1..][i] == f && Get(u, f).None?
                   && forall j :: 0 <= j < i ==> Get(u, fields[1..][j]).Some?;
          assert fields[i + 1] == f;
          assert forall j :: 0 <= j < i + 1 ==> Get(u, fields[j]).Some? by {
            forall j | 0 <= j < i + 1 ensures Get(u, fields[j]).Some? {
              if j > 0 { assert fields[j] == fields[1..][j - 1]; }
            }
          }
        }
        if exists i :: 0 <= i < |fields| && fields[i] == f && Get(u, f).None?
                       && forall j :: 0 <= j < i ==> Get(u, fields[j]).Some? {
          var i :| 0 <= i < |fields| && fields[i] == f && Get(u, f).None?
                   && forall j :: 0 <= j < i ==> Get(u, fields[j]).Some?;
          assert i > 0;
          assert fields[1..][i - 1] == f;
          assert forall j :: 0 <= j < i - 1 ==> Get(u, fields[1..][j]).Some? by {
            forall j | 0 <= j < i - 1 ensures Get(u, fields[1..][j]).Some? {
              assert fields[1..][j] == fields[j + 1];
            }
          }
        }
        if FirstMissing(u, fields).None? {
          forall j | 0 <= j < |fields| ensures Get(u, fields[j]).Some? {
            if j > 0 { assert fields[j] == fields[1..][j - 1]; }
          }
        }
        if forall j :: 0 <= j < |fields| ==> Get(u, fields[j]).Some? {
          forall j | 0 <= j < |fields[1..]| ensures Get(u, fields[1..][j]).Some? {
            assert fields[1..][j] == fields[j + 1];
          }
        }
      } else {
        if FirstMissing(u, fields) == Some(f) {
          assert 0 < |fields| && fields[0] == f && Get(u, f).None?;
        }
      }
    }
  }

  /** The base stat object: a copy of the catalog entry, or of an inline object defining every required field. */
  function BaseOf(all: map<string, Json>, spec: Json): Result<Record>
  {
    var unit := Get(spec, "unit");
    if unit.Some? && unit.value.JStr? then
      var key := unit.value.s;
      if key in all && Truthy(Some(all[key])) then Ok(Spread(Some(all[key])))
      else Err("Unknown unit key: " + key)
    else if unit.Some? && (unit.value.JObj? || unit.value.JArr?) then
      match FirstMissing(unit.value, Required)
      case Some(f) => Err("Inline unit missing required field: " + f)
      case None => Ok(Spread(unit))
    else Err("spec.unit must be a string key or an inline stat object")
  }

  /**
   * The overrides of a truthy `overrides` object: every property but `bonus_atk` and
   * `bonus_reduction` is copied as it is; `bonus_atk` becomes `bonusAtk`, and
   * `bonus_reduction`, a fraction, becomes the percentage `bonusReduct`.
   */
  function WithOverrides(base: Record, overrides: Option<Json>): Record
  {
    if Truthy(overrides) then
      var r := base + (Spread(overrides) - {"bonus_atk", "bonus_reduction"});
      var r := Put(r, "bonusAtk", Get(overrides.value, "bonus_atk"));
      var bonusReduction := Get(overrides.value, "bonus_reduction");
      if bonusReduction.Some? then r["bonusReduct" := Times(bonusReduction, 100.0)] else r
    else base
  }

  /**
   * What `resolveUnit` returns, or the message of the error it throws: it fails only at the
   * unit check, and the later steps never drop a property of the base.
   */
  function Resolved(all: map<string, Json>, spec: Json): (r: Result<Record>)
    ensures r.Err? <==> BaseOf(all, spec).Err?
    ensures r.Err? ==> r.error == BaseOf(all, spec).error
    ensures r.Ok? ==> BaseOf(all, spec).value.Keys <= r.value.Keys
  {
    match BaseOf(all, spec)
    case Err(e) => Err(e)
    case Ok(base) => Ok(WithDiscounts(WithArmy(WithOverrides(base, Get(spec, "overrides")), spec), spec))
  }

  /** `resolveUnit`: checks the unit, copies its base and writes the overrides, army-level fields and discounts onto the copy. */
  method ResolveUnit(all: map<string, Json>, spec: Json) returns (r: Result<Record>)
    requires spec != JNull
    ensures r == Resolved(all, spec)
  {
    var base: Record;
    var unit := Get(spec, "unit");
    if unit.Some? && unit.value.JStr? {
      var key := unit.value.s;
      if !(key in all && Truthy(Some(all[key]))) {
        return Err("Unknown unit key: " + key);
      }
      base := Spread(Some(all[key]));
    } else if unit.Some? && (unit.value.JObj? || unit.value.JArr?) {
      for i := 0 to |Required|
        invariant FirstMissing(unit.value, Required) == FirstMissing(unit.value, Required[i..])
      {
        if Get(unit.value, Required[i]).None? {
          return Err("Inline unit missing required field: " + Required[i]);
        }
        assert Required[i..][1..] == Required[i + 1..];
      }
      base := Spread(unit);
    } else {
      return Err("spec.unit must be a string key or an inline stat object");
    }
    assert BaseOf(all, spec) == Ok(base);
    var overrides := Get(spec, "overrides");
    if Truthy(overrides) {
      base := base + (Spread(overrides) - {"bonus_atk", "bonus_reduction"});
      var bonusAtk := Get(overrides.value, "bonus_atk");
      if bonusAtk.Some? {
        base := base["bonusAtk" := bonusAtk.value];
      }
      var bonusReduction := Get(overrides.value, "bonus_reduction");
      if bonusReduction.Some? {
        base := base["bonusReduct" := Times(bonusReduction, 100.0)];
      }
    }
    base := MergeArmyFields(base, spec);
    base := MergeDiscounts(base, spec);
    r := Ok(base);
  }

  /** A string key resolves exactly when the catalog has a truthy entry for it, else the error names the key. */
  lemma UnknownKey(all: map<string, Json>, spec: Json, key: string)
    requires Get(spec, "unit") == Some(JStr(key))
    ensures Resolved(all, spec).Ok? <==> key in all && Truthy(Some(all[key]))
    ensures Resolved(all, spec).Err? ==> Resolved(all, spec).error == "Unknown unit key: " + key
  {
  }

  /**
   * An inline object resolves exactly when it defines every required field; otherwise the
   * error names the first required field, in the order name, hp, reload, range, it lacks.
   */
  lemma InlineMissingField(all: map<string, Json>, spec: Json, f: string)
    requires Get(spec, "unit").Some? && Get(spec, "unit").value.JObj?
    ensures Resolved(all, spec) == Err("Inline unit missing required field: " + f) <==>
      exists i :: 0 <= i < |Required| && Required[i] == f && Get(Get(spec, "unit").value, f).None?
                  && forall j :: 0 <= j < i ==> Get(Get(spec, "unit").value, Required[j]).Some?
    ensures Resolved(all, spec).Ok? <==> forall j :: 0 <= j < |Required| ==> Get(Get(spec, "unit").value, Required[j]).Some?
  {
    var u := Get(spec, "unit").value;
    FirstMissingIff(u, Required, f);
    var prefix := "Inline unit missing required field: ";
    if Resolved(all, spec) == Err(prefix + f) {
      var g := FirstMissing(u, Required).value;
      assert prefix + g == prefix + f;
      assert (prefix + g)[|prefix|..] == g && (prefix + f)[|prefix|..] == f;
    }
  }

  /** A `unit` that is neither a string nor an object is refused. */
  lemma NotAUnit(all: map<string, Json>, spec: Json)
    requires !(Get(spec, "unit").Some? && (Get(spec, "unit").value.JStr? || Get(spec, "unit").value.JObj? || Get(spec, "unit").value.JArr?))
    ensures Resolved(all, spec) == Err("spec.unit must be a string key or an inline stat object")
  {
  }

  /** The army-level and discount steps keep every property they do not write. */
  lemma LaterStepsKeep(w: Record, spec: Json, k: string)
    requires k !in ArmyTargets && k !in DiscountTargets
    ensures Unchanged(w, WithDiscounts(WithArmy(w, spec), spec), k)
  {
    ArmyFieldsCopied(w, spec);
    DiscountsCopied(WithArmy(w, spec), spec);
  }

  /** The override step: renamed bonuses, and every other override property copied as it is over the base. */
  lemma OverrideStep(base: Record, o: map<string, Json>, k: string)
    ensures var w := WithOverrides(base, Some(JObj(o)));
      ("bonus_atk" in o ==> "bonusAtk" in w && w["bonusAtk"] == o["bonus_atk"])
      && ("bonus_reduction" in o ==> "bonusReduct" in w && w["bonusReduct"] == Times(Some(o["bonus_reduction"]), 100.0))
      && (k in o && k !in {"bonus_atk", "bonus_reduction", "bonusAtk", "bonusReduct"} ==> k in w && w[k] == o[k])
      && (k !in o && k !in {"bonusAtk", "bonusReduct"} ==> Unchanged(base, w, k))
  {
  }

  /**
   * Overrides: `bonus_atk` arrives as `bonusAtk`, `bonus_reduction` as `bonusReduct` scaled
   * to a percentage, and every other override survives as it is unless an army-level field
   * or a discount writes the same property.
   */
  lemma OverridesApplied(all: map<string, Json>, spec: Json, k: string)
    requires BaseOf(all, spec).Ok?
    requires Get(spec, "overrides").Some? && Get(spec, "overrides").value.JObj?
    ensures var r := Resolved(all, spec).value;
      var o := Get(spec, "overrides").value.fields;
      ("bonus_atk" in o ==> "bonusAtk" in r && r["bonusAtk"] == o["bonus_atk"])
      && ("bonus_reduction" in o ==> "bonusReduct" in r && r["bonusReduct"] == Times(Some(o["bonus_reduction"]), 100.0))
      && (k in o && k !in {"bonus_atk", "bonus_reduction", "bonusAtk", "bonusReduct"} && k !in ArmyTargets && k !in DiscountTargets
          ==> k in r && r[k] == o[k])
  {
    var o := Get(spec, "overrides").value.fields;
    var base := BaseOf(all, spec).value;
    var w := WithOverrides(base, Some(JObj(o)));
    assert Resolved(all, spec).value == WithDiscounts(WithArmy(w, spec), spec);
    OverrideStep(base, o, k);
    LaterStepsKeep(w, spec, "bonusAtk");
    LaterStepsKeep(w, spec, "bonusReduct");
    if k !in ArmyTargets && k !in DiscountTargets {
      LaterStepsKeep(w, spec, k);
    }
  }

  /** A resolved stat object keeps every base property that no override, army-level field or discount writes. */
  lemma BaseKept(all: map<string, Json>, spec: Json, k: string)
    requires BaseOf(all, spec).Ok?
    requires Truthy(Get(spec, "overrides")) ==> k !in Spread(Get(spec, "overrides")) && k !in {"bonusAtk", "bonusReduct"}
    requires k !in ArmyTargets && k !in DiscountTargets
    ensures Unchanged(BaseOf(all, spec).value, Resolved(all, spec).value, k)
  {
    var base := BaseOf(all, spec).value;
    var w := WithOverrides(base, Get(spec, "overrides"));
    assert Unchanged(base, w, k);
    LaterStepsKeep(w, spec, k);
  }
}
