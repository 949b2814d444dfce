/** An army of the second generation: its statistics as read from its data, and its state in a battle. */
module ArmyV2 {
  import opened Arith
  import opened Js
  import opened Pool
  import opened Damage
  import Production
  import opened Stats
  import opened Combat

  /** The statistics a battle reads of an army; none of them changes during the battle. */
  datatype Profile = Profile(initialCount: real, hp: real, matk: real, patk: real, marm: real, parm: real,
                             attacks: map<string, real>, armors: map<string, real>, range: real,
                             blastWidth: real, blastDamage: real, blastLevel: real, accuracy: real,
                             bonusAtk: real, bonusReduction: real, reload: real)
  {
    /** `isMelee`: units with a range of at most 1 fight in melee. */
    predicate IsMelee()
    {
      range <= 1.0
    }
  }

  /** The statistics of an army built from `data`, each read with its default; the unit HP is never 0. */
  function ProfileOf(data: Json): (p: Profile)
    requires Readable(data)
    ensures p.hp != 0.0
    ensures p.accuracy == AccuracyOf(data)
  {
    Profile(CountOf(data), HpOf(data), MatkOf(data), PatkOf(data), MarmOf(data), ParmOf(data),
            AttacksOf(data), ArmorsOf(data), RangeOf(data),
            BlastWidthOf(data), BlastDamageOf(data), BlastLevelOf(data), AccuracyOf(data),
            BonusAtkOf(data), BonusReductionOf(data), Reload(ReloadBaseOf(data), AtkSpeedBonusOf(data)))
  }

  /** A fresh army's standing: every unit at full HP and ready to attack. */
  function Fresh(data: Json): Squad
  {
    Squad(CountOf(data), HpOf(data), 0.0)
  }

  /** One army during a battle: its statistics, and the state that changes as it takes hits. */
  class Unit {
    const name: Json
    const initialCount: real
    var currentCount: real
    const hpPerUnit: real
    var currentUnitHp: real
    const matk: real
    const patk: real
    const marm: real
    const parm: real
    const attacks: map<string, real>
    const armors: map<string, real>
    const reloadBase: real
    const range: real
    const blastWidth: real
    const blastDamage: real
    const blastLevel: real
    const accuracy: real
    const bonusAtk: real
    const bonusReduction: real
    const atkSpeedBonus: real
    const reload: real
    var attackCooldown: real
    const trainTime: real
    const buildings: real
    const startDelay: real
    const techDelay: real
    const unitsBefore: real
    const baseF: real
    const baseW: real
    const baseG: real
    const discAll: real
    const discF: real
    const discW: real
    const discG: real

    /** The statistics are those of `data`, with each field's default. */
    ghost predicate ReadFrom(data: Json)
      requires AccuracyNumeric(data)
    {
      name == NameOf(data) && initialCount == CountOf(data) && hpPerUnit == HpOf(data)
      && matk == MatkOf(data) && patk == PatkOf(data) && marm == MarmOf(data) && parm == ParmOf(data)
      && attacks == AttacksOf(data) && armors == ArmorsOf(data)
      && reloadBase == ReloadBaseOf(data) && range == RangeOf(data)
      && blastWidth == BlastWidthOf(data) && blastDamage == BlastDamageOf(data) && blastLevel == BlastLevelOf(data)
      && accuracy == AccuracyOf(data)
      && bonusAtk == BonusAtkOf(data) && bonusReduction == BonusReductionOf(data)
      && atkSpeedBonus == AtkSpeedBonusOf(data) && 1.0 + atkSpeedBonus != 0.0
      && reload == Reload(reloadBase, atkSpeedBonus)
      && trainTime == TrainTimeOf(data) && buildings == BuildingsOf(data)
      && startDelay == DelayOf(data) && techDelay == TechDelayOf(data) && unitsBefore == UnitsBeforeOf(data)
      && baseF == CostFOf(data) && baseW == CostWOf(data) && baseG == CostGOf(data)
      && discAll == DiscAllOf(data) && discF == DiscFOf(data) && discW == DiscWOf(data) && discG == DiscGOf(data)
    }

    /** A fresh army: every unit at full HP and ready to attack. */
    constructor (data: Json)
      requires Readable(data)
      ensures ReadFrom(data)
      ensures currentCount == initialCount && currentUnitHp == hpPerUnit && attackCooldown == 0.0
    {
      name := NameOf(data);
      initialCount := CountOf(data);
      currentCount := CountOf(data);
      hpPerUnit := HpOf(data);
      currentUnitHp := HpOf(data);
      matk := MatkOf(data);
      patk := PatkOf(data);
      marm := MarmOf(data);
      parm := ParmOf(data);
      attacks := AttacksOf(data);
      armors := ArmorsOf(data);
      reloadBase := ReloadBaseOf(data);
      range := RangeOf(data);
      blastWidth := BlastWidthOf(data);
      blastDamage := BlastDamageOf(data);
      blastLevel := BlastLevelOf(data);
      accuracy := AccuracyOf(data);
      bonusAtk := BonusAtkOf(data);
      bonusReduction := BonusReductionOf(data);
      atkSpeedBonus := AtkSpeedBonusOf(data);
      reload := Reload(ReloadBaseOf(data), AtkSpeedBonusOf(data));
      attackCooldown := 0.0;
      trainTime := TrainTimeOf(data);
      buildings := BuildingsOf(data);
      startDelay := DelayOf(data);
      techDelay := TechDelayOf(data);
      unitsBefore := UnitsBeforeOf(data);
      baseF := CostFOf(data);
      baseW := CostWOf(data);
      baseG := CostGOf(data);
      discAll := DiscAllOf(data);
      discF := DiscFOf(data);
      discW := DiscWOf(data);
      discG := DiscGOf(data);
    }

    /** The statistics this army fights with. */
    function Traits(): Profile
    {
      Profile(initialCount, hpPerUnit, matk, patk, marm, parm, attacks, armors, range,
              blastWidth, blastDamage, blastLevel, accuracy, bonusAtk, bonusReduction, reload)
    }

    /** What the battle has made of this army so far. */
    function Standing(): Squad
      reads this`currentCount, this`currentUnitHp, this`attackCooldown
    {
      Squad(currentCount, currentUnitHp, attackCooldown)
    }

    /** `isMelee`: units with a range of at most 1 fight in melee. */
    predicate IsMelee()
    {
      Traits().IsMelee()
    }

    /** `getTotalHp`: the HP of the whole army, never negative. */
    function TotalHp(): (h: real)
      reads this`currentCount, this`currentUnitHp
      ensures h >= 0.0
    {
      PoolHp(currentCount, currentUnitHp, hpPerUnit)
    }

    /**
     * `getParsedCost`: the three resources after their discounts, and their sum; with no
     * discount at all it is the base cost.
     */
    function ParsedCost(): (c: Production.Cost)
      ensures c.total == c.f + c.w + c.g
      ensures discAll == 0.0 && discF == 0.0 && discW == 0.0 && discG == 0.0 ==> c.total == baseF + baseW + baseG
    {
      Production.ParsedCost(baseF, baseW, baseG, discAll, discF, discW, discG)
    }
  }

  /** `new Unit(data).getParsedCost().total`: the discounted cost, from `cost` when it is set and from `f`, `w`, `g` otherwise. */
  function UnitCost(data: Json): real
  {
    Production.ParsedCost(CostFOf(data), CostWOf(data), CostGOf(data),
                          DiscAllOf(data), DiscFOf(data), DiscWOf(data), DiscGOf(data)).total
  }
}

/**
 * The second-generation battle simulator: as the first generation, but damage sums the
 * attack-minus-armor of every armor class both sides have (falling back to melee/pierce
 * attack without classes), ranged volleys can be scaled by accuracy, and trampling units
 * deal a second, splash hit.
 */
module SimV2 {
  import opened Arith
  import opened Js
  import opened Pool
  import opened Damage
  import Production
  import opened Stats
  import opened Combat

  import opened ArmyV2

  /**
   * Both sides have unit HP above 0, a non-negative count and micro, and, when accuracy
   * counts, a non-negative accuracy. Damage is always at least 1, so bonuses need no condition.
   */
  predicate Regular(dataA: Json, configA: Config, dataB: Json, configB: Config, accuracyMode: bool)
    requires AccuracyNumeric(dataA) && AccuracyNumeric(dataB)
  {
    HpOf(dataA) > 0.0 && HpOf(dataB) > 0.0 && CountOf(dataA) >= 0.0 && CountOf(dataB) >= 0.0
    && configA.targetMicro >= 0.0 && configB.targetMicro >= 0.0
    && (accuracyMode ==> AccuracyOf(dataA) >= 0.0 && AccuracyOf(dataB) >= 0.0)
  }

  /**
   * The damage per hit, at least 1: with armor classes, the sum over the attacker's classes
   * of attack minus armor where the defender has that class, floored at 1; without, the
   * melee or pierce difference clamped at 0 plus the bonus, floored at 1.
   */
  ghost function DamagePerHit(attacker: Profile, defender: Profile): (d: real)
    ensures d >= 1.0
    ensures |attacker.attacks| == 0 ==> d >= attacker.bonusAtk * (1.0 - defender.bonusReduction)
  {
    if |attacker.attacks| > 0 then ArmorClassDamage(attacker.attacks, defender.armors)
    else if attacker.IsMelee() then LegacyDamage(attacker.matk - defender.marm, attacker.bonusAtk, defender.bonusReduction)
    else LegacyDamage(attacker.patk - defender.parm, attacker.bonusAtk, defender.bonusReduction)
  }

  /**
   * The damage of one volley from `count` units: per-hit damage times the engaged units times
   * the accuracy factor. A side with no units deals nothing.
   */
  ghost function HitDamage(attacker: Profile, defender: Profile, config: Config, accuracyMode: bool, count: real): (h: real)
    ensures count == 0.0 ==> h == 0.0
  {
    DamagePerHit(attacker, defender) * EngagedUnits(count, attacker.initialCount, config.engagement)
    * AccuracyFactor(accuracyMode, attacker.IsMelee(), attacker.accuracy)
  }

  /** At full accuracy or less, no volley deals more than one hit per unit left. */
  lemma HitDamageAtMostOneHitEach(attacker: Profile, defender: Profile, config: Config, accuracyMode: bool, count: real)
    requires count >= 0.0 && 0.0 <= AccuracyFactor(accuracyMode, attacker.IsMelee(), attacker.accuracy) <= 1.0
    ensures HitDamage(attacker, defender, config, accuracyMode, count) <= DamagePerHit(attacker, defender) * count
  {
    var d := DamagePerHit(attacker, defender);
    var e := EngagedUnits(count, attacker.initialCount, config.engagement);
    var f := AccuracyFactor(accuracyMode, attacker.IsMelee(), attacker.accuracy);
    MulNonNegative(d, e);
    MulMonotone(d * e, f, 1.0);
    MulMonotone(d, e, count);
    calc {
      HitDamage(attacker, defender, config, accuracyMode, count);
    ==
      d * e * f;
    <=
      d * e;
    <=
      d * count;
    }
  }

  /** A volley of a non-negative count of units, with a non-negative accuracy when it counts, does not heal. */
  lemma HitDamageNonNegative(attacker: Profile, defender: Profile, config: Config, accuracyMode: bool, count: real)
    requires count >= 0.0 && (accuracyMode ==> attacker.accuracy >= 0.0)
    ensures HitDamage(attacker, defender, config, accuracyMode, count) >= 0.0
  {
    var d := DamagePerHit(attacker, defender);
    var e := EngagedUnits(count, attacker.initialCount, config.engagement);
    var f := AccuracyFactor(accuracyMode, attacker.IsMelee(), attacker.accuracy);
    MulNonNegative(d, e);
    MulNonNegative(d * e, f);
  }

  /**
   * A melee attacker's volley is the same with accuracy mode on and off: accuracy only
   * scales ranged volleys.
   */
  lemma MeleeVolleyIgnoresAccuracy(attacker: Profile, defender: Profile, config: Config, count: real)
    requires attacker.IsMelee()
    ensures HitDamage(attacker, defender, config, true, count) == HitDamage(attacker, defender, config, false, count)
  {
  }

  /**
   * The defender's standing after a volley of `hit`: the volley lands with the side's micro,
   * and when the attacker tramples, a splash of `hit * blastDamage` lands after it without
   * micro, so that the pool loses exactly the splash (down to 0) on top of the volley.
   */
  ghost function Struck(attacker: Profile, defender: Profile, config: Config, y: Squad, hit: real): (t: Squad)
    requires defender.hp != 0.0
    ensures t.cooldown == y.cooldown
    ensures !Tramples(attacker.blastLevel, attacker.blastDamage, attacker.blastWidth)
            ==> t == Hit(defender.hp, y, hit, config.targetMicro)
    ensures defender.hp > 0.0 && Tramples(attacker.blastLevel, attacker.blastDamage, attacker.blastWidth)
            ==> PoolHp(t.count, t.unitHp, defender.hp)
                == Max(0.0, PoolAfter(y.count, y.unitHp, defender.hp, hit, config.targetMicro)
                            - TrampleDamage(hit, attacker.blastDamage))
  {
    var y1 := Hit(defender.hp, y, hit, config.targetMicro);
    if Tramples(attacker.blastLevel, attacker.blastDamage, attacker.blastWidth) then
      Hit(defender.hp, y1, TrampleDamage(hit, attacker.blastDamage), 0.0)
    else y1
  }

  /**
   * One side's turn in a tick, giving the attacker's and the defender's new standing: when
   * its cooldown has run out the attacker hits (and tramples) with its current count and
   * reloads, else its cooldown runs down by a tick and the defender is untouched. The
   * attacker's own count and front unit do not change.
   */
  ghost function Turn(attacker: Profile, defender: Profile, config: Config, accuracyMode: bool, tick: real,
                      x: Squad, y: Squad): (r: (Squad, Squad))
    requires defender.hp != 0.0
    ensures r.0.count == x.count && r.0.unitHp == x.unitHp
    ensures x.cooldown <= 0.0 ==> r.0.cooldown == attacker.reload
    ensures x.cooldown > 0.0 ==> r.0.cooldown == x.cooldown - tick && r.1 == y
  {
    if x.cooldown <= 0.0 then
      (x.(cooldown := attacker.reload),
       Struck(attacker, defender, config, y, HitDamage(attacker, defender, config, accuracyMode, x.count)))
    else (x.(cooldown := x.cooldown - tick), y)
  }

  /**
   * One pass of the battle loop: side A's turn, then side B's turn against side A as A's
   * turn left it, with B's count as A's turn left it; then the clock moves on a tick.
   */
  ghost function Tick(pA: Profile, pB: Profile, configA: Config, configB: Config, accuracyMode: bool, tick: real,
                      s: BattleState): (t: BattleState)
    requires pA.hp != 0.0 && pB.hp != 0.0
    ensures t.time == s.time + tick
  {
    var (a1, b1) := Turn(pA, pB, configA, accuracyMode, tick, s.a, s.b);
    var (b2, a2) := Turn(pB, pA, configB, accuracyMode, tick, b1, a1);
    BattleState(a2, b2, s.time + tick)
  }

  /**
   * The battle loop of `run` from state `s`: it ticks while both sides have units left and
   * the time limit is not reached. It ends with a side destroyed or the limit reached, less
   * than a tick past the limit.
   */
  ghost function Battle(pA: Profile, pB: Profile, configA: Config, configB: Config, accuracyMode: bool, tick: real,
                        limit: real, s: BattleState): (f: BattleState)
    requires pA.hp != 0.0 && pB.hp != 0.0 && tick > 0.0
    ensures !Continues(f, limit)
    ensures f.time >= s.time && (f.time == s.time || f.time < limit + tick)
    ensures !Continues(s, limit) ==> f == s
    decreases TicksLeft(tick, limit, s)
  {
    if Continues(s, limit) then
      ShareBounds(limit - s.time, tick, 0.0);
      FloorStepDown(limit - s.time, tick);
      Battle(pA, pB, configA, configB, accuracyMode, tick, limit, Tick(pA, pB, configA, configB, accuracyMode, tick, s))
    else s
  }

  /** Both sides' micro is not negative and, when accuracy counts, neither is their accuracy. */
  predicate Fair(pA: Profile, pB: Profile, configA: Config, configB: Config, accuracyMode: bool)
  {
    configA.targetMicro >= 0.0 && configB.targetMicro >= 0.0
    && (accuracyMode ==> pA.accuracy >= 0.0 && pB.accuracy >= 0.0)
  }

  /** A turn of a sound attacker with non-negative micro and accuracy keeps both armies sound. */
  lemma TurnKeepsSound(attacker: Profile, defender: Profile, config: Config, accuracyMode: bool, tick: real,
                       x: Squad, y: Squad, capX: real, capY: real)
    requires Sound(attacker.hp, x, capX) && Sound(defender.hp, y, capY)
    requires config.targetMicro >= 0.0 && (accuracyMode ==> attacker.accuracy >= 0.0)
    ensures var r := Turn(attacker, defender, config, accuracyMode, tick, x, y);
      Sound(attacker.hp, r.0, capX) && Sound(defender.hp, r.1, capY)
  {
    if x.cooldown <= 0.0 {
      var hit := HitDamage(attacker, defender, config, accuracyMode, x.count);
      HitDamageNonNegative(attacker, defender, config, accuracyMode, x.count);
      HitSound(defender.hp, y, hit, config.targetMicro, capY);
      if Tramples(attacker.blastLevel, attacker.blastDamage, attacker.blastWidth) {
        MulNonNegative(hit, attacker.blastDamage);
        HitSound(defender.hp, Hit(defender.hp, y, hit, config.targetMicro), TrampleDamage(hit, attacker.blastDamage), 0.0, capY);
      }
    }
  }

  /** A tick of a fair battle keeps both armies sound. */
  lemma TickKeepsSound(pA: Profile, pB: Profile, configA: Config, configB: Config, accuracyMode: bool, tick: real,
                       s: BattleState, capA: real, capB: real)
    requires Sound(pA.hp, s.a, capA) && Sound(pB.hp, s.b, capB) && Fair(pA, pB, configA, configB, accuracyMode)
    ensures var t := Tick(pA, pB, configA, configB, accuracyMode, tick, s);
      Sound(pA.hp, t.a, capA) && Sound(pB.hp, t.b, capB)
  {
    var (a1, b1) := Turn(pA, pB, configA, accuracyMode, tick, s.a, s.b);
    TurnKeepsSound(pA, pB, configA, accuracyMode, tick, s.a, s.b, capA, capB);
    TurnKeepsSound(pB, pA, configB, accuracyMode, tick, b1, a1, capB, capA);
  }

  /** A fair battle keeps both armies sound to its end. */
  lemma {:induction false} BattleKeepsSound(pA: Profile, pB: Profile, configA: Config, configB: Config,
                                            accuracyMode: bool, tick: real, limit: real, s: BattleState,
                                            capA: real, capB: real)
    requires tick > 0.0
    requires Sound(pA.hp, s.a, capA) && Sound(pB.hp, s.b, capB) && Fair(pA, pB, configA, configB, accuracyMode)
    ensures var f := Battle(pA, pB, configA, configB, accuracyMode, tick, limit, s);
      Sound(pA.hp, f.a, capA) && Sound(pB.hp, f.b, capB)
    decreases TicksLeft(tick, limit, s)
  {
    if Continues(s, limit) {
      ShareBounds(limit - s.time, tick, 0.0);
      FloorStepDown(limit - s.time, tick);
      TickKeepsSound(pA, pB, configA, configB, accuracyMode, tick, s, capA, capB);
      BattleKeepsSound(pA, pB, configA, configB, accuracyMode, tick, limit,
                       Tick(pA, pB, configA, configB, accuracyMode, tick, s), capA, capB);
    }
  }

  /**
   * Between two melee armies, a tick is the same with accuracy mode on and off, and so is
   * the whole battle.
   */
  lemma {:induction false} MeleeBattleIgnoresAccuracy(pA: Profile, pB: Profile, configA: Config, configB: Config,
                                                      tick: real, limit: real, s: BattleState)
    requires pA.IsMelee() && pB.IsMelee() && pA.hp != 0.0 && pB.hp != 0.0 && tick > 0.0
    ensures Tick(pA, pB, configA, configB, true, tick, s) == Tick(pA, pB, configA, configB, false, tick, s)
    ensures Battle(pA, pB, configA, configB, true, tick, limit, s) == Battle(pA, pB, configA, configB, false, tick, limit, s)
    decreases TicksLeft(tick, limit, s)
  {
    MeleeVolleyIgnoresAccuracy(pA, pB, configA, s.a.count);
    var (a1, b1) := Turn(pA, pB, configA, true, tick, s.a, s.b);
    MeleeVolleyIgnoresAccuracy(pB, pA, configB, b1.count);
    if Continues(s, limit) {
      ShareBounds(limit - s.time, tick, 0.0);
      FloorStepDown(limit - s.time, tick);
      MeleeBattleIgnoresAccuracy(pA, pB, configA, configB, tick, limit, Tick(pA, pB, configA, configB, false, tick, s));
    }
  }

  /** Where `run` starts: both armies fresh, at time `time`. */
  function Start(dataA: Json, dataB: Json, time: real): BattleState
  {
    BattleState(Fresh(dataA), Fresh(dataB), time)
  }

  /** What `run` measures the timeline against: each side's `count * hpPerUnit` and `count * cost`, `count` read as a number. */
  function BasisOf(dataA: Json, dataB: Json): Basis
  {
    Basis(Mul(ToNumber(Get(dataA, "count")), Fin(HpOf(dataA))), Mul(ToNumber(Get(dataB, "count")), Fin(HpOf(dataB))),
          Mul(ToNumber(Get(dataA, "count")), Fin(UnitCost(dataA))), Mul(ToNumber(Get(dataB, "count")), Fin(UnitCost(dataB))))
  }

  /** Each army whose starting HP reads as 0 has no units and no HP in `s`. */
  predicate Grounded(hpA: real, hpB: real, s: BattleState, k: Basis)
  {
    (k.initHpA == Fin(0.0) ==> s.a.count == 0.0 && PoolHp(s.a.count, s.a.unitHp, hpA) == 0.0)
    && (k.initHpB == Fin(0.0) ==> s.b.count == 0.0 && PoolHp(s.b.count, s.b.unitHp, hpB) == 0.0)
  }

  /** Fresh armies are grounded: an army whose starting HP reads as 0 starts with no units. */
  lemma StartGrounded(dataA: Json, dataB: Json, time: real)
    ensures Grounded(HpOf(dataA), HpOf(dataB), Start(dataA, dataB, time), BasisOf(dataA, dataB))
  {
    if Mul(ToNumber(Get(dataA, "count")), Fin(HpOf(dataA))) == Fin(0.0) {
      ZeroStartingHpIsNoUnits(dataA);
    }
    if Mul(ToNumber(Get(dataB, "count")), Fin(HpOf(dataB))) == Fin(0.0) {
      ZeroStartingHpIsNoUnits(dataB);
    }
  }

  /**
   * The points the battle loop records from state `s` on: after each tick, the point at the
   * new state when a whole-unit count changed or the clock is on a quarter second. A battle
   * that is over records nothing more.
   */
  ghost function Timeline(pA: Profile, pB: Profile, configA: Config, configB: Config, accuracyMode: bool, tick: real,
                          limit: real, s: BattleState, k: Basis): (h: seq<Snapshot>)
    requires pA.hp != 0.0 && pB.hp != 0.0 && tick > 0.0
    requires Continues(s, limit) ==> k.initHpA != Fin(0.0) && k.initHpB != Fin(0.0)
    ensures !Continues(s, limit) ==> h == []
    decreases TicksLeft(tick, limit, s)
  {
    if Continues(s, limit) then
      ShareBounds(limit - s.time, tick, 0.0);
      FloorStepDown(limit - s.time, tick);
      var t := Tick(pA, pB, configA, configB, accuracyMode, tick, s);
      Entry(pA.hp, pB.hp, s, t, k) + Timeline(pA, pB, configA, configB, accuracyMode, tick, limit, t, k)
    else []
  }

  /**
   * Between two melee armies the timeline is the same with accuracy mode on and off.
   */
  lemma {:induction false} MeleeTimelineIgnoresAccuracy(pA: Profile, pB: Profile, configA: Config, configB: Config,
                                                        tick: real, limit: real, s: BattleState, k: Basis)
    requires pA.IsMelee() && pB.IsMelee() && pA.hp != 0.0 && pB.hp != 0.0 && tick > 0.0
    requires Continues(s, limit) ==> k.initHpA != Fin(0.0) && k.initHpB != Fin(0.0)
    ensures Timeline(pA, pB, configA, configB, true, tick, limit, s, k)
         == Timeline(pA, pB, configA, configB, false, tick, limit, s, k)
    decreases TicksLeft(tick, limit, s)
  {
    if Continues(s, limit) {
      ShareBounds(limit - s.time, tick, 0.0);
      FloorStepDown(limit - s.time, tick);
      MeleeBattleIgnoresAccuracy(pA, pB, configA, configB, tick, limit, s);
      MeleeTimelineIgnoresAccuracy(pA, pB, configA, configB, tick, limit, Tick(pA, pB, configA, configB, false, tick, s), k);
    }
  }

  /**
   * One tick of a battle that goes on: the battle goes on from the next state to the same
   * end, the points it records are those of the tick followed by the rest, and one whole
   * tick fewer is left before the time limit.
   */
  lemma Advance(pA: Profile, pB: Profile, configA: Config, configB: Config, accuracyMode: bool, tick: real, limit: real,
                s: BattleState, k: Basis, h: seq<Snapshot>)
    requires pA.hp != 0.0 && pB.hp != 0.0 && tick > 0.0 && Continues(s, limit)
    requires k.initHpA != Fin(0.0) && k.initHpB != Fin(0.0)
    ensures Battle(pA, pB, configA, configB, accuracyMode, tick, limit, Tick(pA, pB, configA, configB, accuracyMode, tick, s))
         == Battle(pA, pB, configA, configB, accuracyMode, tick, limit, s)
    ensures h + Entry(pA.hp, pB.hp, s, Tick(pA, pB, configA, configB, accuracyMode, tick, s), k)
              + Timeline(pA, pB, configA, configB, accuracyMode, tick, limit, Tick(pA, pB, configA, configB, accuracyMode, tick, s), k)
         == h + Timeline(pA, pB, configA, configB, accuracyMode, tick, limit, s, k)
    ensures 0 <= TicksLeft(tick, limit, s)
    ensures TicksLeft(tick, limit, Tick(pA, pB, configA, configB, accuracyMode, tick, s)) < TicksLeft(tick, limit, s)
  {
    ShareBounds(limit - s.time, tick, 0.0);
    FloorStepDown(limit - s.time, tick);
    assert limit - (s.time + tick) == limit - s.time - tick;
  }

  /**
   * The points the battle loop records come in time order, have non-negative HP, and fall
   * after the state they start from and no later than the end of the battle.
   */
  lemma {:induction false} TimelineInOrder(pA: Profile, pB: Profile, configA: Config, configB: Config,
                                           accuracyMode: bool, tick: real, limit: real, s: BattleState, k: Basis)
    requires pA.hp != 0.0 && pB.hp != 0.0 && tick > 0.0
    requires Continues(s, limit) ==> k.initHpA != Fin(0.0) && k.initHpB != Fin(0.0)
    ensures Between(Timeline(pA, pB, configA, configB, accuracyMode, tick, limit, s, k), s.time,
                    Battle(pA, pB, configA, configB, accuracyMode, tick, limit, s).time)
    decreases TicksLeft(tick, limit, s)
  {
    if Continues(s, limit) {
      ShareBounds(limit - s.time, tick, 0.0);
      FloorStepDown(limit - s.time, tick);
      var t := Tick(pA, pB, configA, configB, accuracyMode, tick, s);
      TimelineInOrder(pA, pB, configA, configB, accuracyMode, tick, limit, t, k);
      var e := Entry(pA.hp, pB.hp, s, t, k);
      var rest := Timeline(pA, pB, configA, configB, accuracyMode, tick, limit, t, k);
      var f := Battle(pA, pB, configA, configB, accuracyMode, tick, limit, t);
      if |e| == 1 {
        assert e == [e[0]];
        PrependBetween(e[0], rest, s.time, f.time);
      } else {
        WidenBetween(rest, s.time, t.time, f.time);
      }
    }
  }

  /**
   * `run` from state `s0` with timeline `history`: each side's count and HP at the end of the
   * battle loop against its starting HP; the timeline gains the point at the start, the
   * points the loop records and the point at the end; the duration is the time the loop
   * ended at, which has a side destroyed or the time limit reached.
   */
  ghost function Played(pA: Profile, pB: Profile, configA: Config, configB: Config, accuracyMode: bool, tick: real,
                        limit: real, s0: BattleState, k: Basis, history: seq<Snapshot>): (r: SimResult)
    requires pA.hp != 0.0 && pB.hp != 0.0 && tick > 0.0 && Grounded(pA.hp, pB.hp, s0, k)
    ensures Consistent(r.armyA.totalHp, r.armyA.initialTotalHp) && Consistent(r.armyB.totalHp, r.armyB.initialTotalHp)
    ensures r.armyA.remaining <= 0.0 || r.armyB.remaining <= 0.0 || r.duration >= limit
    ensures r.duration >= s0.time && (r.duration == s0.time || r.duration < limit + tick)
  {
    var f := Battle(pA, pB, configA, configB, accuracyMode, tick, limit, s0);
    SimResult(Army(f.a.count, PoolHp(f.a.count, f.a.unitHp, pA.hp), k.initHpA),
              Army(f.b.count, PoolHp(f.b.count, f.b.unitHp, pB.hp), k.initHpB),
              history + [Point(pA.hp, pB.hp, s0, k)] + Timeline(pA, pB, configA, configB, accuracyMode, tick, limit, s0, k)
                + [Point(pA.hp, pB.hp, f, k)],
              f.time)
  }

  /**
   * The timeline of a battle keeps what was there, and gains at least a first point for the
   * starting state and a last point at the end; the points it gains come in time order and
   * have non-negative HP.
   */
  lemma PlayedInOrder(pA: Profile, pB: Profile, configA: Config, configB: Config, accuracyMode: bool, tick: real,
                      limit: real, s0: BattleState, k: Basis, history: seq<Snapshot>)
    requires pA.hp != 0.0 && pB.hp != 0.0 && tick > 0.0 && Grounded(pA.hp, pB.hp, s0, k)
    ensures Continued(Played(pA, pB, configA, configB, accuracyMode, tick, limit, s0, k, history).history, history,
                      s0.time, Played(pA, pB, configA, configB, accuracyMode, tick, limit, s0, k, history).duration)
    ensures Played(pA, pB, configA, configB, accuracyMode, tick, limit, s0, k, history).history[|history|]
         == Point(pA.hp, pB.hp, s0, k)
  {
    var f := Battle(pA, pB, configA, configB, accuracyMode, tick, limit, s0);
    TimelineInOrder(pA, pB, configA, configB, accuracyMode, tick, limit, s0, k);
    var p0, p1 := Point(pA.hp, pB.hp, s0, k), Point(pA.hp, pB.hp, f, k);
    var mid := Timeline(pA, pB, configA, configB, accuracyMode, tick, limit, s0, k);
    FramedInOrder(history, p0, mid, p1);
  }

  /**
   * A fair battle between sound armies leaves counts that are not negative, zero exactly
   * when no HP is left, and no more HP than each army started with.
   */
  lemma PlayedSound(pA: Profile, pB: Profile, configA: Config, configB: Config, accuracyMode: bool, tick: real,
                    limit: real, s0: BattleState, k: Basis, history: seq<Snapshot>, capA: real, capB: real)
    requires tick > 0.0 && Grounded(pA.hp, pB.hp, s0, k)
    requires Sound(pA.hp, s0.a, capA) && Sound(pB.hp, s0.b, capB) && Fair(pA, pB, configA, configB, accuracyMode)
    ensures Settled(Played(pA, pB, configA, configB, accuracyMode, tick, limit, s0, k, history), capA, capB)
  {
    BattleKeepsSound(pA, pB, configA, configB, accuracyMode, tick, limit, s0, capA, capB);
  }

  /** `run` on a battle between `dataA` and `dataB` with fresh armies, starting at time `time` with timeline `history`. */
  ghost function Simulated(dataA: Json, dataB: Json, configA: Config, configB: Config, accuracyMode: bool, tick: real,
                           limit: real, time: real, history: seq<Snapshot>): (r: SimResult)
    requires Readable(dataA) && Readable(dataB) && tick > 0.0
    ensures Consistent(r.armyA.totalHp, r.armyA.initialTotalHp) && Consistent(r.armyB.totalHp, r.armyB.initialTotalHp)
    ensures r.armyA.remaining <= 0.0 || r.armyB.remaining <= 0.0 || r.duration >= limit
    ensures r.duration >= time && (r.duration == time || r.duration < limit + tick)
  {
    StartGrounded(dataA, dataB, time);
    Played(ProfileOf(dataA), ProfileOf(dataB), configA, configB, accuracyMode, tick, limit, Start(dataA, dataB, time),
           BasisOf(dataA, dataB), history)
  }

  /**
   * The timeline of `run` keeps what was there, and gains at least a first point at the
   * starting time with both starting counts and a last point at the end; the points it
   * gains come in time order and have non-negative HP.
   */
  lemma SimulatedInOrder(dataA: Json, dataB: Json, configA: Config, configB: Config, accuracyMode: bool, tick: real,
                         limit: real, time: real, history: seq<Snapshot>)
    requires Readable(dataA) && Readable(dataB) && tick > 0.0
    ensures Continued(Simulated(dataA, dataB, configA, configB, accuracyMode, tick, limit, time, history).history, history,
                      time, Simulated(dataA, dataB, configA, configB, accuracyMode, tick, limit, time, history).duration)
    ensures Simulated(dataA, dataB, configA, configB, accuracyMode, tick, limit, time, history).history[|history|].countA
         == CountOf(dataA)
    ensures Simulated(dataA, dataB, configA, configB, accuracyMode, tick, limit, time, history).history[|history|].countB
         == CountOf(dataB)
  {
    StartGrounded(dataA, dataB, time);
    PlayedInOrder(ProfileOf(dataA), ProfileOf(dataB), configA, configB, accuracyMode, tick, limit,
                  Start(dataA, dataB, time), BasisOf(dataA, dataB), history);
  }

  /**
   * Between armies of positive unit HP, a non-negative count and micro, and non-negative
   * accuracy when it counts, the counts left are not negative, a side has no units left
   * exactly when it has no HP left, and no side ends with more HP than it started with.
   */
  lemma SimulatedSound(dataA: Json, dataB: Json, configA: Config, configB: Config, accuracyMode: bool, tick: real,
                       limit: real, time: real, history: seq<Snapshot>)
    requires Readable(dataA) && Readable(dataB) && tick > 0.0
    requires Regular(dataA, configA, dataB, configB, accuracyMode)
    ensures Settled(Simulated(dataA, dataB, configA, configB, accuracyMode, tick, limit, time, history),
                    PoolHp(CountOf(dataA), HpOf(dataA), HpOf(dataA)), PoolHp(CountOf(dataB), HpOf(dataB), HpOf(dataB)))
  {
    var capA, capB := PoolHp(CountOf(dataA), HpOf(dataA), HpOf(dataA)), PoolHp(CountOf(dataB), HpOf(dataB), HpOf(dataB));
    StartGrounded(dataA, dataB, time);
    RegularStart(dataA, configA, dataB, configB, accuracyMode, time);
    PlayedSound(ProfileOf(dataA), ProfileOf(dataB), configA, configB, accuracyMode, tick, limit,
                Start(dataA, dataB, time), BasisOf(dataA, dataB), history, capA, capB);
  }

  /** Regular sides start sound and fight fairly. */
  lemma RegularStart(dataA: Json, configA: Config, dataB: Json, configB: Config, accuracyMode: bool, time: real)
    requires Readable(dataA) && Readable(dataB) && Regular(dataA, configA, dataB, configB, accuracyMode)
    ensures var s0 := Start(dataA, dataB, time);
      Sound(HpOf(dataA), s0.a, PoolHp(CountOf(dataA), HpOf(dataA), HpOf(dataA)))
      && Sound(HpOf(dataB), s0.b, PoolHp(CountOf(dataB), HpOf(dataB), HpOf(dataB)))
      && Fair(ProfileOf(dataA), ProfileOf(dataB), configA, configB, accuracyMode)
  {
    FreshSound(CountOf(dataA), HpOf(dataA));
    FreshSound(CountOf(dataB), HpOf(dataB));
  }

  /**
   * Between two melee armies, `run` gives the same result with accuracy mode on and off:
   * accuracy only scales ranged volleys.
   */
  lemma MeleeRunIgnoresAccuracy(dataA: Json, dataB: Json, configA: Config, configB: Config, tick: real,
                                limit: real, time: real, history: seq<Snapshot>)
    requires Readable(dataA) && Readable(dataB) && tick > 0.0
    requires RangeOf(dataA) <= 1.0 && RangeOf(dataB) <= 1.0
    ensures Simulated(dataA, dataB, configA, configB, true, tick, limit, time, history)
         == Simulated(dataA, dataB, configA, configB, false, tick, limit, time, history)
  {
    StartGrounded(dataA, dataB, time);
    MeleePlayIgnoresAccuracy(ProfileOf(dataA), ProfileOf(dataB), configA, configB, tick, limit,
                             Start(dataA, dataB, time), BasisOf(dataA, dataB), history);
  }

  /** Between two melee sides, the result of a battle is the same whether accuracy counts or not. */
  lemma MeleePlayIgnoresAccuracy(pA: Profile, pB: Profile, configA: Config, configB: Config, tick: real,
                                 limit: real, s0: BattleState, k: Basis, history: seq<Snapshot>)
    requires pA.IsMelee() && pB.IsMelee()
    requires pA.hp != 0.0 && pB.hp != 0.0 && tick > 0.0 && Grounded(pA.hp, pB.hp, s0, k)
    ensures Played(pA, pB, configA, configB, true, tick, limit, s0, k, history)
         == Played(pA, pB, configA, configB, false, tick, limit, s0, k, history)
  {
    MeleeBattleIgnoresAccuracy(pA, pB, configA, configB, tick, limit, s0);
    MeleeTimelineIgnoresAccuracy(pA, pB, configA, configB, tick, limit, s0, k);
  }

  /** One battle between two sides. */
  class CombatSim {
    const dataA: Json
    const dataB: Json
    const configA: Config
    const configB: Config
    var time: real
    const tick: real
    const maxDuration: Option<real>
    const accuracyMode: bool
    var history: seq<Snapshot>

    /**
     * A battle that has not started: the tick and the time limit come from `simConfig` when
     * set, and accuracy counts when `simConfig.accuracy` is truthy.
     */
    constructor (dataA: Json, dataB: Json, configA: Config, configB: Config, simConfig: SimConfig)
      ensures this.dataA == dataA && this.dataB == dataB
      ensures this.configA == configA && this.configB == configB
      ensures time == 0.0 && history == []
      ensures tick == TickOf(simConfig) && maxDuration == MaxDurationOf(simConfig)
      ensures accuracyMode == simConfig.accuracy
    {
      this.dataA := dataA;
      this.dataB := dataB;
      this.configA := configA;
      this.configB := configB;
      time := 0.0;
      tick := TickOf(simConfig);
      maxDuration := MaxDurationOf(simConfig);
      accuracyMode := simConfig.accuracy;
      history := [];
    }

    /** `calculateDamage`: walks the attacker's classes, adding attack minus armor for each class the defender has. */
    method CalculateDamage(attacker: Unit, defender: Unit) returns (dmg: real)
      ensures dmg == DamagePerHit(attacker.Traits(), defender.Traits())
    {
      if |attacker.attacks| > 0 {
        var total := 0.0;
        var todo := attacker.attacks.Keys;
        while todo != {}
          invariant todo <= attacker.attacks.Keys
          invariant total + ClassTotal(attacker.attacks, defender.armors, todo)
                 == ClassTotal(attacker.attacks, defender.armors, attacker.attacks.Keys)
          decreases todo
        {
          var cls :| cls in todo;
          ClassTotalRemove(attacker.attacks, defender.armors, todo, cls);
          if cls in defender.armors {
            total := total + (attacker.attacks[cls] - defender.armors[cls]);
          }
          todo := todo - {cls};
        }
        dmg := Max(1.0, total);
      } else {
        var base := Max(0.0, if attacker.IsMelee() then attacker.matk - defender.marm else attacker.patk - defender.parm);
        var bonus := attacker.bonusAtk * (1.0 - defender.bonusReduction);
        dmg := Max(1.0, base + bonus);
      }
    }

    /**
     * `applyDamage`: the effective damage comes off the army's HP pool, and the pool is split
     * back into a count and a front unit.
     */
    method ApplyDamage(unit: Unit, totalDmg: real, micro: real)
      requires unit.hpPerUnit != 0.0
      modifies unit`currentCount, unit`currentUnitHp
      ensures unit.Standing() == Hit(unit.hpPerUnit, old(unit.Standing()), totalDmg, micro)
    {
      var poolHp := unit.TotalHp();
      var effectiveDmg := Effective(totalDmg, micro, unit.currentCount, unit.currentUnitHp, unit.hpPerUnit);
      var newPool := Max(0.0, poolHp - effectiveDmg);
      unit.currentCount := SplitCount(newPool, unit.hpPerUnit) as real;
      unit.currentUnitHp := SplitUnitHp(newPool, unit.hpPerUnit);
    }

    /** The damage of one volley, from `calculateDamage`, the engaged units and the accuracy factor. */
    method VolleyDamage(attacker: Unit, defender: Unit, config: Config) returns (hit: real)
      ensures hit == HitDamage(attacker.Traits(), defender.Traits(), config, accuracyMode, attacker.currentCount)
    {
      var eff := EngagedUnits(attacker.currentCount, attacker.initialCount, config.engagement);
      var dmg := CalculateDamage(attacker, defender);
      var acc := AccuracyFactor(accuracyMode, attacker.IsMelee(), attacker.accuracy);
      hit := dmg * eff * acc;
    }

    /** The attack of one side whose cooldown has run out: the volley, then the trample splash. */
    method Strike(attacker: Unit, defender: Unit, config: Config)
      requires attacker != defender && defender.hpPerUnit != 0.0
      modifies defender`currentCount, defender`currentUnitHp
      ensures defender.Standing()
           == Struck(attacker.Traits(), defender.Traits(), config, old(defender.Standing()),
                     HitDamage(attacker.Traits(), defender.Traits(), config, accuracyMode, attacker.currentCount))
    {
      var hit := VolleyDamage(attacker, defender, config);
      ApplyDamage(defender, hit, config.targetMicro);
      if Tramples(attacker.blastLevel, attacker.blastDamage, attacker.blastWidth) {
        ApplyDamage(defender, TrampleDamage(hit, attacker.blastDamage), 0.0);
      }
    }

    /** One side's turn in a tick: it attacks when its cooldown has run out, else the cooldown runs down. */
    method Volley(attacker: Unit, defender: Unit, config: Config)
      requires attacker != defender && defender.hpPerUnit != 0.0
      modifies attacker`attackCooldown, defender`currentCount, defender`currentUnitHp
      ensures (attacker.Standing(), defender.Standing())
           == Turn(attacker.Traits(), defender.Traits(), config, accuracyMode, tick,
                   old(attacker.Standing()), old(defender.Standing()))
    {
      if attacker.attackCooldown <= 0.0 {
        Strike(attacker, defender, config);
        attacker.attackCooldown := attacker.reload;
      } else {
        attacker.attackCooldown := attacker.attackCooldown - tick;
      }
    }

    /** The state of the battle between `subA` and `subB`. */
    function Now(subA: Unit, subB: Unit): BattleState
      reads subA`currentCount, subA`currentUnitHp, subA`attackCooldown
      reads subB`currentCount, subB`currentUnitHp, subB`attackCooldown, this`time
    {
      BattleState(subA.Standing(), subB.Standing(), time)
    }

    /** `record`: appends the point of the timeline for the current state. */
    method Record(subA: Unit, subB: Unit, k: Basis)
      requires Consistent(subA.TotalHp(), k.initHpA) && Consistent(subB.TotalHp(), k.initHpB)
      modifies this`history
      ensures history == old(history) + [Point(subA.hpPerUnit, subB.hpPerUnit, Now(subA, subB), k)]
    {
      var s := Snap(time, subA.currentCount, subB.currentCount, subA.TotalHp(), subB.TotalHp(),
                    k.initHpA, k.initHpB, k.initValA, k.initValB);
      history := history + [s];
    }

    /**
     * One pass of the battle loop: side A's turn, side B's turn, the clock moves one tick,
     * and a point is recorded when a whole-unit count changed or the clock is on a quarter second.
     */
    method Step(subA: Unit, subB: Unit, k: Basis)
      requires subA != subB && subA.hpPerUnit != 0.0 && subB.hpPerUnit != 0.0
      requires k.initHpA != Fin(0.0) && k.initHpB != Fin(0.0)
      modifies subA`attackCooldown, subA`currentCount, subA`currentUnitHp
      modifies subB`attackCooldown, subB`currentCount, subB`currentUnitHp
      modifies this`time, this`history
      ensures Now(subA, subB) == Tick(subA.Traits(), subB.Traits(), configA, configB, accuracyMode, tick, old(Now(subA, subB)))
      ensures history == old(history) + Entry(subA.hpPerUnit, subB.hpPerUnit, old(Now(subA, subB)), Now(subA, subB), k)
    {
      var prevA := Ceil(subA.currentCount);
      var prevB := Ceil(subB.currentCount);
      Volley(subA, subB, configA);
      Volley(subB, subA, configB);
      time := time + tick;
      if Ceil(subA.currentCount) != prevA || Ceil(subB.currentCount) != prevB || Round(time * 100.0) % 25 == 0 {
        Record(subA, subB, k);
      }
    }

    /** The battle loop of `run`: steps until a side is destroyed or the time limit is reached. */
    method Fight(subA: Unit, subB: Unit, k: Basis)
      requires subA != subB && subA.hpPerUnit != 0.0 && subB.hpPerUnit != 0.0 && tick > 0.0
      requires Continues(Now(subA, subB), Limit(maxDuration)) ==> k.initHpA != Fin(0.0) && k.initHpB != Fin(0.0)
      modifies subA`attackCooldown, subA`currentCount, subA`currentUnitHp
      modifies subB`attackCooldown, subB`currentCount, subB`currentUnitHp
      modifies this`time, this`history
      ensures Now(subA, subB)
           == Battle(subA.Traits(), subB.Traits(), configA, configB, accuracyMode, tick, Limit(maxDuration),
                     old(Now(subA, subB)))
      ensures history
           == old(history) + Timeline(subA.Traits(), subB.Traits(), configA, configB, accuracyMode, tick,
                                      Limit(maxDuration), old(Now(subA, subB)), k)
    {
      var limit := Limit(maxDuration);
      ghost var pA, pB, s0 := subA.Traits(), subB.Traits(), Now(subA, subB);
      while subA.currentCount > 0.0 && subB.currentCount > 0.0 && time < limit
        invariant Continues(Now(subA, subB), limit) ==> k.initHpA != Fin(0.0) && k.initHpB != Fin(0.0)
        invariant Battle(pA, pB, configA, configB, accuracyMode, tick, limit, Now(subA, subB))
               == Battle(pA, pB, configA, configB, accuracyMode, tick, limit, s0)
        invariant history + Timeline(pA, pB, configA, configB, accuracyMode, tick, limit, Now(subA, subB), k)
               == old(history) + Timeline(pA, pB, configA, configB, accuracyMode, tick, limit, s0, k)
        decreases TicksLeft(tick, limit, Now(subA, subB))
      {
        Advance(pA, pB, configA, configB, accuracyMode, tick, limit, Now(subA, subB), k, history);
        Step(subA, subB, k);
      }
      assert !Continues(Now(subA, subB), limit);
    }

    /**
     * `run`: the battle from the current time, whose result, timeline and clock are those
     * `Simulated` gives for this battle's sides, settings and current timeline.
     */
    method Run() returns (r: SimResult)
      requires tick > 0.0
      requires Readable(dataA) && Readable(dataB)
      modifies this`time, this`history
      ensures r == Simulated(dataA, dataB, configA, configB, accuracyMode, tick, Limit(maxDuration), old(time), old(history))
      ensures r.history == history && r.duration == time
    {
      var subA, initHpA, initialValA := Enlist(dataA);
      var subB, initHpB, initialValB := Enlist(dataB);
      var k := Basis(initHpA, initHpB, initialValA, initialValB);
      StartGrounded(dataA, dataB, old(time));
      Record(subA, subB, k);
      Fight(subA, subB, k);
      Record(subA, subB, k);
      r := SimResult(Army(subA.currentCount, subA.TotalHp(), initHpA),
                     Army(subB.currentCount, subB.TotalHp(), initHpB),
                     history, time);
    }
  }

  /**
   * The set-up of one side in `run`: a fresh army built from a copy of its data, its starting
   * HP `count * hp` and its starting value `count * cost`, both with `count` read as a number.
   */
  method Enlist(data: Json) returns (u: Unit, initHp: Num, initVal: Num)
    requires Readable(data)
    ensures fresh(u)
    ensures u.Traits() == ProfileOf(data) && u.Standing() == Fresh(data)
    ensures initHp == Mul(ToNumber(Get(data, "count")), Fin(HpOf(data)))
    ensures initVal == Mul(ToNumber(Get(data, "count")), Fin(UnitCost(data)))
  {
    u := Recruit(data);
    initVal := Mul(ToNumber(Get(data, "count")), Fin(u.ParsedCost().total));
    initHp := Mul(ToNumber(Get(data, "count")), Fin(u.hpPerUnit));
  }

  /** A fresh army built from a copy of `data`, with the statistics the battle reads of it. */
  method Recruit(data: Json) returns (u: Unit)
    requires Readable(data)
    ensures fresh(u)
    ensures u.Traits() == ProfileOf(data) && u.Standing() == Fresh(data)
    ensures u.ParsedCost().total == UnitCost(data)
  {
    // `{ ...data }` copies the object's own properties, which is the value itself here.
    u := new Unit(data);
  }
}

/** Worked volleys of the second-generation simulator. */
module SimV2Examples {
  import opened Arith
  import opened Damage
  import opened Pool
  import opened Combat
  import opened ArmyV2
  import opened SimV2

  /** A lone melee unit hitting for 10 that tramples: blast level 2, half its volley as splash, width 1. */
  const Trampler := Profile(1.0, 10.0, 10.0, 0.0, 0.0, 0.0, map[], map[], 0.0, 1.0, 0.5, 2.0, 100.0, 0.0, 0.0, 2.0)
  /** A lone archer piercing for 5 at range 4 with an accuracy of 50. */
  const Archer := Profile(1.0, 10.0, 0.0, 5.0, 0.0, 0.0, map[], map[], 4.0, 0.0, 0.0, 0.0, 50.0, 0.0, 0.0, 2.0)
  /** Three unarmored units of 10 HP. */
  const Target := Profile(3.0, 10.0, 0.0, 0.0, 0.0, 0.0, map[], map[], 0.0, 0.0, 0.0, 0.0, 100.0, 0.0, 0.0, 2.0)
  const Head := Config(100.0, 0.0)

  /** The trampler's volley of 10 kills one of three units, and the splash of 5 then wounds the next. */
  lemma TrampleSplash()
    ensures HitDamage(Trampler, Target, Head, false, 1.0) == 10.0
    ensures Struck(Trampler, Target, Head, Squad(3.0, 10.0, 0.0), 10.0) == Squad(2.0, 5.0, 0.0)
  {
    assert EngagedUnits(1.0, 1.0, 100.0) == 1.0;
    assert DamagePerHit(Trampler, Target) == 10.0;
    assert Tramples(2.0, 0.5, 1.0) && TrampleDamage(10.0, 0.5) == 5.0;
    VolleyKillsOne();
    SplashWounds();
  }

  /** A hit of 10 on three units of 10 HP leaves two whole units. */
  lemma VolleyKillsOne()
    ensures Hit(10.0, Squad(3.0, 10.0, 0.0), 10.0, 0.0) == Squad(2.0, 10.0, 0.0)
  {
    assert PoolAfter(3.0, 10.0, 10.0, 10.0, 0.0) == 20.0;
    assert Ceil(20.0 / 10.0) == 2;
    assert JsMod(20.0, 10.0) == 0.0 by {
      JsModNonNegative(20.0, 10.0);
    }
  }

  /** A hit of 5 on two whole units of 10 HP leaves a front unit of 5. */
  lemma SplashWounds()
    ensures Hit(10.0, Squad(2.0, 10.0, 0.0), 5.0, 0.0) == Squad(2.0, 5.0, 0.0)
  {
    assert PoolAfter(2.0, 10.0, 10.0, 5.0, 0.0) == 15.0;
    assert Ceil(15.0 / 10.0) == 2;
    assert JsMod(15.0, 10.0) == 5.0 by {
      JsModNonNegative(15.0, 10.0);
    }
  }

  /** In accuracy mode the archer's volley of 5 lands at half strength; without it, in full. */
  lemma HalfAccuracy()
    ensures HitDamage(Archer, Target, Head, true, 1.0) == 2.5
    ensures HitDamage(Archer, Target, Head, false, 1.0) == 5.0
  {
    assert EngagedUnits(1.0, 1.0, 100.0) == 1.0;
    assert DamagePerHit(Archer, Target) == 5.0;
  }
}
