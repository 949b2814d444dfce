/**
 * The steps `resolveUnit` takes in both generations once it has a base stat object:
 * the army-level fields of the spec and its resource discounts are written onto the
 * stat object, each only when the spec defines it.
 */
module Resolve {
  import opened Js

  /** A plain JavaScript object: its own properties. */
  type Record = map<string, Json>

  /** `if (x !== undefined) r[key] = x`. */
  function Put(r: Record, key: string, x: Option<Json>): Record
  {
    if x.Some? then r[key := x.value] else r
  }

  /** `r` and `r'` agree on `k`: both lack it, or both hold the same value. */
  predicate Unchanged(r: Record, r': Record, k: string)
  {
    (k in r' <==> k in r) && (k in r ==> r'[k] == r[k])
  }

  /** Field `dst` of `r'` holds `src` when `src` is defined, and is as in `r` otherwise. */
  predicate CopiedWhenDefined(r: Record, r': Record, src: Option<Json>, dst: string)
  {
    (src.Some? ==> dst in r' && r'[dst] == src.value)
    && (src.None? ==> Unchanged(r, r', dst))
  }

  /** The properties the army-level step may write. */
  const ArmyTargets: set<string> := {"count", "delay", "techDelay", "unitsBefore", "buildings"}

  /** The properties the discount step may write. */
  const DiscountTargets: set<string> := {"discAll", "discF", "discW", "discG"}

  /** The army-level fields, renamed from the spec's snake_case where needed. */
  function WithArmy(base: Record, spec: Json): Record
  {
    var r := Put(base, "count", Get(spec, "count"));
    var r := Put(r, "delay", Get(spec, "delay"));
    var r := Put(r, "techDelay", Get(spec, "tech_delay"));
    var r := Put(r, "unitsBefore", Get(spec, "units_before"));
    Put(r, "buildings", Get(spec, "buildings"))
  }

  /** `resource_discounts.{all, food, wood, gold}` become `discAll/discF/discW/discG` when the object is truthy. */
  function WithDiscounts(base: Record, spec: Json): Record
  {
    var d := Get(spec, "resource_discounts");
    if Truthy(d) then
      var r := Put(base, "discAll", Get(d.value, "all"));
      var r := Put(r, "discF", Get(d.value, "food"));
      var r := Put(r, "discW", Get(d.value, "wood"));
      Put(r, "discG", Get(d.value, "gold"))
    else base
  }

  /**
   * The army-level step copies `count`, `delay`, `tech_delay` as `techDelay`, `units_before`
   * as `unitsBefore` and `buildings`, each only when the spec defines it, and touches nothing else.
   */
  lemma ArmyFieldsCopied(base: Record, spec: Json)
    ensures var r := WithArmy(base, spec);
      CopiedWhenDefined(base, r, Get(spec, "count"), "count")
      && CopiedWhenDefined(base, r, Get(spec, "delay"), "delay")
      && CopiedWhenDefined(base, r, Get(spec, "tech_delay"), "techDelay")
      && CopiedWhenDefined(base, r, Get(spec, "units_before"), "unitsBefore")
      && CopiedWhenDefined(base, r, Get(spec, "buildings"), "buildings")
      && forall k :: k !in ArmyTargets ==> Unchanged(base, r, k)
  {
  }

  /**
   * The discount step maps each defined discount of a truthy `resource_discounts` onto its
   * field, and leaves every other property, and everything when the discounts are falsy, alone.
   */
  lemma DiscountsCopied(base: Record, spec: Json)
    ensures var r := WithDiscounts(base, spec);
      var d := Get(spec, "resource_discounts");
      (Truthy(d) ==>
        CopiedWhenDefined(base, r, Get(d.value, "all"), "discAll")
        && CopiedWhenDefined(base, r, Get(d.value, "food"), "discF")
        && CopiedWhenDefined(base, r, Get(d.value, "wood"), "discW")
        && CopiedWhenDefined(base, r, Get(d.value, "gold"), "discG"))
      && (!Truthy(d) ==> r == base)
      && forall k :: k !in DiscountTargets ==> Unchanged(base, r, k)
  {
  }

  /** The army-level step of `resolveUnit`, written out field by field. */
  method MergeArmyFields(base: Record, spec: Json) returns (r: Record)
    ensures r == WithArmy(base, spec)
  {
    r := base;
    if Get(spec, "count").Some? { r := r["count" := Get(spec, "count").value]; }
    if Get(spec, "delay").Some? { r := r["delay" := Get(spec, "delay").value]; }
    if Get(spec, "tech_delay").Some? { r := r["techDelay" := Get(spec, "tech_delay").value]; }
    if Get(spec, "units_before").Some? { r := r["unitsBefore" := Get(spec, "units_before").value]; }
    if Get(spec, "buildings").Some? { r := r["buildings" := Get(spec, "buildings").value]; }
  }

  /** The discount step of `resolveUnit`, written out field by field. */
  method MergeDiscounts(base: Record, spec: Json) returns (r: Record)
    ensures r == WithDiscounts(base, spec)
  {
    r := base;
    var d := Get(spec, "resource_discounts");
    if Truthy(d) {
      if Get(d.value, "all").Some? { r := r["discAll" := Get(d.value, "all").value]; }
      if Get(d.value, "food").Some? { r := r["discF" := Get(d.value, "food").value]; }
      if Get(d.value, "wood").Some? { r := r["discW" := Get(d.value, "wood").value]; }
      if Get(d.value, "gold").Some? { r := r["discG" := Get(d.value, "gold").value]; }
    }
  }
}
