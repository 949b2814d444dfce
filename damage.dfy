/**
 * The damage one attacker unit deals to one defender unit per hit, and the factors that
 * scale a volley: how many units engage, ranged accuracy, trample, and the reload time.
 */
module Damage {
  import opened Arith

  /**
   * First-generation formula: melee or pierce attack minus the matching armor, floored at 1,
   * plus the bonus attack reduced by the defender's bonus reduction. Only the base part is
   * floored, so a negative bonus can take the total below 1.
   */
  function FlatDamage(atk: real, armor: real, bonusAtk: real, bonusReduction: real): (d: real)
    ensures d - bonusAtk * (1.0 - bonusReduction) >= 1.0
    ensures d - bonusAtk * (1.0 - bonusReduction) >= atk - armor
    ensures bonusAtk * (1.0 - bonusReduction) >= 0.0 ==> d >= 1.0
  {
    Max(1.0, atk - armor) + bonusAtk * (1.0 - bonusReduction)
  }

  /**
   * Second-generation fallback for units without armor classes: the base difference is
   * clamped at 0, the bonus added, and the whole total floored at 1.
   */
  function LegacyDamage(base: real, bonusAtk: real, bonusReduction: real): (d: real)
    ensures d >= 1.0
    ensures d >= bonusAtk * (1.0 - bonusReduction)
    ensures d >= base + bonusAtk * (1.0 - bonusReduction)
  {
    Max(1.0, Max(0.0, base) + bonusAtk * (1.0 - bonusReduction))
  }

  /** A negative bonus takes the first formula below 1, while the fallback keeps its floor. */
  lemma FloorPlacementDiffers()
    ensures FlatDamage(0.0, 5.0, -1.0, 0.0) == 0.0
    ensures LegacyDamage(0.0 - 5.0, -1.0, 0.0) == 1.0
  {
  }

  /** The contribution of one attack class: attack minus armor when the defender has that class. */
  function ClassTerm(attacks: map<string, real>, armors: map<string, real>, k: string): real
    requires k in attacks
  {
    if k in armors then attacks[k] - armors[k] else 0.0
  }

  /** The sum of `ClassTerm` over the attack classes `keys`, in no particular order. */
  ghost function ClassTotal(attacks: map<string, real>, armors: map<string, real>, keys: set<string>): real
    requires keys <= attacks.Keys
    decreases keys
  {
    if keys == {} then 0.0
    else
      var k :| k in keys;
      ClassTerm(attacks, armors, k) + ClassTotal(attacks, armors, keys - {k})
  }

  /** Any class can be taken out of the sum first: the order of the classes does not matter. */
  lemma {:induction false} ClassTotalRemove(attacks: map<string, real>, armors: map<string, real>, keys: set<string>, k: string)
    requires keys <= attacks.Keys && k in keys
    ensures ClassTotal(attacks, armors, keys)
         == ClassTerm(attacks, armors, k) + ClassTotal(attacks, armors, keys - {k})
    decreases keys
  {
    var j :| j in keys && ClassTotal(attacks, armors, keys)
                        == ClassTerm(attacks, armors, j) + ClassTotal(attacks, armors, keys - {j});
    if j != k {
      ClassTotalRemove(attacks, armors, keys - {j}, k);
      ClassTotalRemove(attacks, armors, keys - {k}, j);
      assert keys - {j} - {k} == keys - {k} - {j};
    }
  }

  /** The armor-class formula: the sum over all attack classes, floored at 1. */
  ghost function ArmorClassDamage(attacks: map<string, real>, armors: map<string, real>): (d: real)
    ensures d >= 1.0 && d >= ClassTotal(attacks, armors, attacks.Keys)
    ensures d == 1.0 || d == ClassTotal(attacks, armors, attacks.Keys)
  {
    Max(1.0, ClassTotal(attacks, armors, attacks.Keys))
  }

  /** Classes the defender has no armor for add nothing to the sum. */
  lemma {:induction false} UnsharedClassesAddNothing(attacks: map<string, real>, armors: map<string, real>, keys: set<string>)
    requires keys <= attacks.Keys
    requires forall k :: k in keys ==> k !in armors
    ensures ClassTotal(attacks, armors, keys) == 0.0
    decreases keys
  {
    if keys != {} {
      var k :| k in keys;
      ClassTotalRemove(attacks, armors, keys, k);
      UnsharedClassesAddNothing(attacks, armors, keys - {k});
    }
  }

  /** Against a defender with no armor for any of the attack classes, a hit does the floor damage of 1. */
  lemma NoSharedClassFloor(attacks: map<string, real>, armors: map<string, real>)
    requires forall k :: k in attacks ==> k !in armors
    ensures ArmorClassDamage(attacks, armors) == 1.0
  {
    UnsharedClassesAddNothing(attacks, armors, attacks.Keys);
  }

  /** The sum depends only on the attack values of the classes summed. */
  lemma {:induction false} ClassTotalCongruent(a1: map<string, real>, a2: map<string, real>, armors: map<string, real>, keys: set<string>)
    requires keys <= a1.Keys && keys <= a2.Keys
    requires forall k :: k in keys ==> a1[k] == a2[k]
    ensures ClassTotal(a1, armors, keys) == ClassTotal(a2, armors, keys)
    decreases keys
  {
    if keys != {} {
      var k :| k in keys;
      ClassTotalRemove(a1, armors, keys, k);
      ClassTotalRemove(a2, armors, keys, k);
      ClassTotalCongruent(a1, a2, armors, keys - {k});
    }
  }

  /** An attack class the defender has no armor entry for adds nothing, whatever its value. */
  lemma UnmatchedClassIgnored(attacks: map<string, real>, armors: map<string, real>, k: string, x: real)
    requires k !in attacks && k !in armors
    ensures ArmorClassDamage(attacks[k := x], armors) == ArmorClassDamage(attacks, armors)
  {
    var bigger := attacks[k := x];
    assert bigger.Keys - {k} == attacks.Keys;
    ClassTotalRemove(bigger, armors, bigger.Keys, k);
    ClassTotalCongruent(bigger, attacks, armors, attacks.Keys);
  }

  /** Matched classes are summed and unmatched ones skipped: 10-5 + 32-0 = 37. */
  lemma HalberdierOnCavalier()
    ensures ArmorClassDamage(map["4" := 10.0, "8" := 32.0, "5" := 28.0, "27" := 0.0, "1" := 0.0],
                             map["4" := 5.0, "3" := 6.0, "8" := 0.0]) == 37.0
  {
    var a := map["4" := 10.0, "8" := 32.0, "5" := 28.0, "27" := 0.0, "1" := 0.0];
    var d := map["4" := 5.0, "3" := 6.0, "8" := 0.0];
    assert a.Keys == {"4", "8", "5", "27", "1"};
    ClassTotalRemove(a, d, {"4", "8", "5", "27", "1"}, "4");
    assert {"4", "8", "5", "27", "1"} - {"4"} == {"8", "5", "27", "1"};
    ClassTotalRemove(a, d, {"8", "5", "27", "1"}, "8");
    assert {"8", "5", "27", "1"} - {"8"} == {"5", "27", "1"};
    ClassTotalRemove(a, d, {"5", "27", "1"}, "5");
    assert {"5", "27", "1"} - {"5"} == {"27", "1"};
    ClassTotalRemove(a, d, {"27", "1"}, "27");
    assert {"27", "1"} - {"27"} == {"1"};
    ClassTotalRemove(a, d, {"1"}, "1");
    assert {"1"} - {"1"} == {};
  }

  /** A negative class contribution lowers the total: 10-2 + (-3-0) = 5. */
  lemma NegativeClassContribution()
    ensures ArmorClassDamage(map["4" := 10.0, "39" := -3.0], map["4" := 2.0, "39" := 0.0]) == 5.0
  {
    var a := map["4" := 10.0, "39" := -3.0];
    var d := map["4" := 2.0, "39" := 0.0];
    assert a.Keys == {"4", "39"};
    ClassTotalRemove(a, d, {"4", "39"}, "4");
    assert {"4", "39"} - {"4"} == {"39"};
    ClassTotalRemove(a, d, {"39"}, "39");
    assert {"39"} - {"39"} == {};
  }

  /** Armor above attack on every class still leaves the floor of 1. */
  lemma ArmorClassFloor()
    ensures ArmorClassDamage(map["4" := 2.0], map["4" := 10.0]) == 1.0
  {
    var a := map["4" := 2.0];
    assert a.Keys == {"4"};
    ClassTotalRemove(a, map["4" := 10.0], {"4"}, "4");
    assert {"4"} - {"4"} == {};
  }

  /**
   * The units that take part in a volley: a share `engagement` percent of the starting
   * count, at least one, and never more than are left.
   */
  function EngagedUnits(currentCount: real, initialCount: real, engagement: real): (e: real)
    ensures e <= currentCount
    ensures e == currentCount || e >= 1.0
    ensures e == currentCount || e >= initialCount * (engagement / 100.0)
    ensures currentCount > 0.0 ==> e > 0.0
  {
    Min(currentCount, Max(1.0, initialCount * (engagement / 100.0)))
  }

  /** Accuracy scales the volleys of ranged units when accuracy mode is on; melee always hits. */
  function AccuracyFactor(accuracyMode: bool, melee: bool, accuracy: real): (f: real)
    ensures !accuracyMode || melee ==> f == 1.0
    ensures accuracyMode && !melee ==> f * 100.0 == accuracy
  {
    if accuracyMode && !melee then accuracy / 100.0 else 1.0
  }

  /** A unit tramples when its blast level is 2 and it has a positive blast damage and width. */
  predicate Tramples(blastLevel: real, blastDamage: real, blastWidth: real)
  {
    blastLevel == 2.0 && blastDamage > 0.0 && blastWidth > 0.0
  }

  /** The splash of a trampling unit: its blast damage is a fraction of the volley, so never more than the volley. */
  function TrampleDamage(volley: real, blastDamage: real): (s: real)
    ensures volley >= 0.0 && 0.0 <= blastDamage <= 1.0 ==> 0.0 <= s <= volley
    ensures blastDamage == 1.0 ==> s == volley
  {
    volley * blastDamage
  }

  /**
   * The reload time after an attack-speed bonus: a bonus of `b` makes attacks `1 + b` times
   * as fast, so no bonus keeps the base time and a positive bonus shortens it.
   */
  function Reload(reloadBase: real, atkSpeedBonus: real): (r: real)
    requires 1.0 + atkSpeedBonus != 0.0
    ensures atkSpeedBonus == 0.0 ==> r == reloadBase
    ensures reloadBase > 0.0 && atkSpeedBonus > 0.0 ==> 0.0 < r < reloadBase
  {
    reloadBase / (1.0 + atkSpeedBonus)
  }

  /** Reloading `1 + b` times as fast: the reload time times `1 + b` is the base reload time. */
  lemma ReloadScales(reloadBase: real, atkSpeedBonus: real)
    requires 1.0 + atkSpeedBonus != 0.0
    ensures Reload(reloadBase, atkSpeedBonus) * (1.0 + atkSpeedBonus) == reloadBase
  {
  }
}
