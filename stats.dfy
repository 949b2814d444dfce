/**
 * How a unit's statistics are read from its data object: each field is `parseFloat`ed and
 * a zero, missing or unparsable value takes the field's default.
 */
module Stats {
  import opened Js

  /** The count of a unit whose data has none. Both simulator generations default to 0. */
  const CountDefault: real := 0.0

  function NameOf(d: Json): Json
  {
    if Truthy(Get(d, "name")) then Get(d, "name").value else JStr("Unit")
  }

  function CountOf(d: Json): real { NumOr(Get(d, "count"), CountDefault) }
  function HpOf(d: Json): real { NumOr(Get(d, "hp"), 1.0) }
  function MatkOf(d: Json): real { NumOr(Get(d, "matk"), 0.0) }
  function PatkOf(d: Json): real { NumOr(Get(d, "patk"), 0.0) }
  function MarmOf(d: Json): real { NumOr(Get(d, "marm"), 0.0) }
  function ParmOf(d: Json): real { NumOr(Get(d, "parm"), 0.0) }
  function ReloadBaseOf(d: Json): real { NumOr(Get(d, "reload"), 2.0) }
  function RangeOf(d: Json): real { NumOr(Get(d, "range"), 0.0) }
  function BonusAtkOf(d: Json): real { NumOr(Get(d, "bonusAtk"), 0.0) }
  /** Bonus reduction is stored as a percentage and used as a fraction. */
  function BonusReductionOf(d: Json): real { NumOr(Get(d, "bonusReduct"), 0.0) / 100.0 }
  /** Attack-speed bonus is stored as a percentage and used as a fraction. */
  function AtkSpeedBonusOf(d: Json): real { NumOr(Get(d, "atkSpeed"), 0.0) / 100.0 }
  function TrainTimeOf(d: Json): real { NumOr(Get(d, "trainTime"), 30.0) }
  function BuildingsOf(d: Json): real { NumOr(Get(d, "buildings"), 1.0) }
  function DelayOf(d: Json): real { NumOr(Get(d, "delay"), 0.0) }
  function TechDelayOf(d: Json): real { NumOr(Get(d, "techDelay"), 0.0) }
  function UnitsBeforeOf(d: Json): real { NumOr(Get(d, "unitsBefore"), 0.0) }
  function FOf(d: Json): real { NumOr(Get(d, "f"), 0.0) }
  function WOf(d: Json): real { NumOr(Get(d, "w"), 0.0) }
  function GOf(d: Json): real { NumOr(Get(d, "g"), 0.0) }
  function DiscAllOf(d: Json): real { NumOr(Get(d, "discAll"), 0.0) / 100.0 }
  function DiscFOf(d: Json): real { NumOr(Get(d, "discF"), 0.0) / 100.0 }
  function DiscWOf(d: Json): real { NumOr(Get(d, "discW"), 0.0) / 100.0 }
  function DiscGOf(d: Json): real { NumOr(Get(d, "discG"), 0.0) / 100.0 }

  /** The reload time is defined: an attack-speed bonus of -100% would divide by zero. */
  predicate ReloadDefined(d: Json)
  {
    1.0 + AtkSpeedBonusOf(d) != 0.0
  }

  /** `data.attacks || {}` is an object of numbers: a missing or falsy table is empty. */
  predicate NumericTable(v: Option<Json>)
  {
    Truthy(v) ==> v.value.JObj? && forall k :: k in v.value.fields ==> v.value.fields[k].JNum?
  }

  /** `data.attacks || {}` read as a table from class ids to amounts. */
  function TableOf(v: Option<Json>): (t: map<string, real>)
    ensures v.Some? && v.value.JObj? ==> t.Keys <= v.value.fields.Keys
    ensures NumericTable(v) && v.Some? && v.value.JObj? ==> t.Keys == v.value.fields.Keys
    ensures forall k :: k in t ==> v.Some? && v.value.JObj? && v.value.fields[k] == JNum(t[k])
  {
    if v.Some? && v.value.JObj? then
      var m := v.value.fields;
      map k | k in m && m[k].JNum? :: m[k].n
    else map[]
  }

  function AttacksOf(d: Json): map<string, real> { TableOf(Get(d, "attacks")) }
  function ArmorsOf(d: Json): map<string, real> { TableOf(Get(d, "armors")) }
  function BlastWidthOf(d: Json): real { NumOr(Get(d, "blastWidth"), 0.0) }
  function BlastDamageOf(d: Json): real { NumOr(Get(d, "blastDamage"), 0.0) }
  function BlastLevelOf(d: Json): real { NumOr(Get(d, "blastLevel"), 0.0) }

  /** The accuracy is a number whenever it is given. */
  predicate AccuracyNumeric(d: Json)
  {
    Get(d, "accuracy").None? || Get(d, "accuracy").value.JNum?
  }

  /** Accuracy in percent: 100 when the field is absent (a zero is kept, unlike other fields). */
  function AccuracyOf(d: Json): real
    requires AccuracyNumeric(d)
  {
    if Get(d, "accuracy").None? then 100.0 else Get(d, "accuracy").value.n
  }

  /**
   * The second-generation unit reads `data` without producing `NaN` or dividing by zero:
   * the reload is defined, the accuracy is a number when given, and the class tables hold numbers.
   */
  predicate Readable(d: Json)
  {
    ReloadDefined(d) && AccuracyNumeric(d) && NumericTable(Get(d, "attacks")) && NumericTable(Get(d, "armors"))
  }

  /** The second generation reads food, wood and gold from a `cost` object when there is one. */
  function CostFOf(d: Json): real
  {
    if Truthy(Get(d, "cost")) then NumOr(Get(Get(d, "cost").value, "food"), 0.0) else FOf(d)
  }
  function CostWOf(d: Json): real
  {
    if Truthy(Get(d, "cost")) then NumOr(Get(Get(d, "cost").value, "wood"), 0.0) else WOf(d)
  }
  function CostGOf(d: Json): real
  {
    if Truthy(Get(d, "cost")) then NumOr(Get(Get(d, "cost").value, "gold"), 0.0) else GOf(d)
  }

  /** An army whose starting HP `count * hp` reads as 0 has no units under `parseFloat(count) || 0`. */
  lemma ZeroStartingHpIsNoUnits(d: Json)
    requires Mul(ToNumber(Get(d, "count")), Fin(HpOf(d))) == Fin(0.0)
    ensures CountOf(d) == 0.0
  {
    var c := ToNumber(Get(d, "count")).r;
    assert c * HpOf(d) == 0.0;
    assert c == 0.0;
  }
}
