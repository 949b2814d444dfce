/** An army of the first generation: its statistics as read from its data, and its state in a battle. */
module ArmyV1 {
  import opened Arith
  import opened Js
  import opened Pool
  import opened Damage
  import Production
  import opened Stats
  import opened Combat

  /** The statistics a battle reads of an army; none of them changes during the battle. */
  datatype Profile = Profile(initialCount: real, hp: real, matk: real, patk: real, marm: real, parm: real,
                             range: real, bonusAtk: real, bonusReduction: real, reload: real)
  {
    /** `isMelee`: units with a range of at most 1 fight in melee. */
    predicate IsMelee()
    {
      range <= 1.0
    }
  }

  /** The statistics of an army built from `data`, each read with its default; the unit HP is never 0. */
  function ProfileOf(data: Json): (p: Profile)
    requires ReloadDefined(data)
    ensures p.hp != 0.0
  {
    Profile(CountOf(data), HpOf(data), MatkOf(data), PatkOf(data), MarmOf(data), ParmOf(data),
            RangeOf(data), BonusAtkOf(data), BonusReductionOf(data), Reload(ReloadBaseOf(data), AtkSpeedBonusOf(data)))
  }

  /** A fresh army's standing: every unit at full HP and ready to attack. */
  function Fresh(data: Json): Squad
  {
    Squad(CountOf(data), HpOf(data), 0.0)
  }

  /** One army during a battle: its statistics, and the state that changes as it takes hits. */
  class Unit {
    const name: Json
    const initialCount: real
    var currentCount: real
    const hpPerUnit: real
    var currentUnitHp: real
    const matk: real
    const patk: real
    const marm: real
    const parm: real
    const reloadBase: real
    const range: real
    const bonusAtk: real
    const bonusReduction: real
    const atkSpeedBonus: real
    const reload: real
    var attackCooldown: real
    const trainTime: real
    const buildings: real
    const startDelay: real
    const techDelay: real
    const unitsBefore: real
    const baseF: real
    const baseW: real
    const baseG: real
    const discAll: real
    const discF: real
    const discW: real
    const discG: real

    /** The statistics are those of `data`, with each field's default. */
    ghost predicate ReadFrom(data: Json)
    {
      name == NameOf(data) && initialCount == CountOf(data) && hpPerUnit == HpOf(data)
      && matk == MatkOf(data) && patk == PatkOf(data) && marm == MarmOf(data) && parm == ParmOf(data)
      && reloadBase == ReloadBaseOf(data) && range == RangeOf(data)
      && bonusAtk == BonusAtkOf(data) && bonusReduction == BonusReductionOf(data)
      && atkSpeedBonus == AtkSpeedBonusOf(data) && 1.0 + atkSpeedBonus != 0.0
      && reload == Reload(reloadBase, atkSpeedBonus)
      && trainTime == TrainTimeOf(data) && buildings == BuildingsOf(data)
      && startDelay == DelayOf(data) && techDelay == TechDelayOf(data) && unitsBefore == UnitsBeforeOf(data)
      && baseF == FOf(data) && baseW == WOf(data) && baseG == GOf(data)
      && discAll == DiscAllOf(data) && discF == DiscFOf(data) && discW == DiscWOf(data) && discG == DiscGOf(data)
    }

    /** A fresh army: every unit at full HP and ready to attack. */
    constructor (data: Json)
      requires ReloadDefined(data)
      ensures ReadFrom(data)
      ensures currentCount == initialCount && currentUnitHp == hpPerUnit && attackCooldown == 0.0
    {
      name := NameOf(data);
      initialCount := CountOf(data);
      currentCount := CountOf(data);
      hpPerUnit := HpOf(data);
      currentUnitHp := HpOf(data);
      matk := MatkOf(data);
      patk := PatkOf(data);
      marm := MarmOf(data);
      parm := ParmOf(data);
      reloadBase := ReloadBaseOf(data);
      range := RangeOf(data);
      bonusAtk := BonusAtkOf(data);
      bonusReduction := BonusReductionOf(data);
      atkSpeedBonus := AtkSpeedBonusOf(data);
      reload := Reload(ReloadBaseOf(data), AtkSpeedBonusOf(data));
      attackCooldown := 0.0;
      trainTime := TrainTimeOf(data);
      buildings := BuildingsOf(data);
      startDelay := DelayOf(data);
      techDelay := TechDelayOf(data);
      unitsBefore := UnitsBeforeOf(data);
      baseF := FOf(data);
      baseW := WOf(data);
      baseG := GOf(data);
      discAll := DiscAllOf(data);
      discF := DiscFOf(data);
      discW := DiscWOf(data);
      discG := DiscGOf(data);
    }

    /** The statistics this army fights with. */
    function Traits(): Profile
    {
      Profile(initialCount, hpPerUnit, matk, patk, marm, parm, range, bonusAtk, bonusReduction, reload)
    }

    /** What the battle has made of this army so far. */
    function Standing(): Squad
      reads this`currentCount, this`currentUnitHp, this`attackCooldown
    {
      Squad(currentCount, currentUnitHp, attackCooldown)
    }

    /** `getTotalHp`: the HP of the whole army, never negative. */
    function TotalHp(): (h: real)
      reads this`currentCount, this`currentUnitHp
      ensures h >= 0.0
    {
      PoolHp(currentCount, currentUnitHp, hpPerUnit)
    }

    /**
     * `getParsedCost`: the three resources after their discounts, and their sum; with no
     * discount at all it is the base cost.
     */
    function ParsedCost(): (c: Production.Cost)
      ensures c.total == c.f + c.w + c.g
      ensures discAll == 0.0 && discF == 0.0 && discW == 0.0 && discG == 0.0 ==> c.total == baseF + baseW + baseG
    {
      Production.ParsedCost(baseF, baseW, baseG, discAll, discF, discW, discG)
    }
  }

  /** `new Unit(data).getParsedCost().total`: the discounted cost from `f`, `w` and `g`. */
  function UnitCost(data: Json): real
  {
    Production.ParsedCost(FOf(data), WOf(data), GOf(data), DiscAllOf(data), DiscFOf(data), DiscWOf(data), DiscGOf(data)).total
  }
}

/**
 * The first-generation battle simulator: two armies trade volleys every tick until one is
 * destroyed or the time limit is reached, using the flat attack-minus-armor formula.
 */
module SimV1 {
  import opened Arith
  import opened Js
  import opened Pool
  import opened Damage
  import Production
  import opened Stats
  import opened Combat

  import opened ArmyV1

  /** Both sides have unit HP above 0, a non-negative count and micro, and bonuses that do not heal. */
  predicate Regular(dataA: Json, configA: Config, dataB: Json, configB: Config)
  {
    HpOf(dataA) > 0.0 && HpOf(dataB) > 0.0 && CountOf(dataA) >= 0.0 && CountOf(dataB) >= 0.0
    && configA.targetMicro >= 0.0 && configB.targetMicro >= 0.0
    && BonusAtkOf(dataA) >= 0.0 && BonusAtkOf(dataB) >= 0.0
    && BonusReductionOf(dataA) <= 1.0 && BonusReductionOf(dataB) <= 1.0
  }

  /**
   * `calculateDamage`: melee units use melee attack and armor, ranged units pierce; the
   * difference is floored at 1 before the bonus is added.
   */
  function CalculateDamage(attacker: Profile, defender: Profile): (d: real)
    ensures d - attacker.bonusAtk * (1.0 - defender.bonusReduction) >= 1.0
    ensures attacker.IsMelee() ==> d - attacker.bonusAtk * (1.0 - defender.bonusReduction) >= attacker.matk - defender.marm
    ensures !attacker.IsMelee() ==> d - attacker.bonusAtk * (1.0 - defender.bonusReduction) >= attacker.patk - defender.parm
  {
    if attacker.IsMelee() then FlatDamage(attacker.matk, defender.marm, attacker.bonusAtk, defender.bonusReduction)
    else FlatDamage(attacker.patk, defender.parm, attacker.bonusAtk, defender.bonusReduction)
  }

  /**
   * A melee attacker's damage does not depend on the pierce statistics of either side, and
   * a ranged attacker's does not depend on the melee statistics.
   */
  lemma MeleeUsesMeleeStats(attacker: Profile, defender: Profile, a': Profile, d': Profile)
    requires a'.range == attacker.range && a'.bonusAtk == attacker.bonusAtk && d'.bonusReduction == defender.bonusReduction
    requires attacker.IsMelee() ==> a'.matk == attacker.matk && d'.marm == defender.marm
    requires !attacker.IsMelee() ==> a'.patk == attacker.patk && d'.parm == defender.parm
    ensures CalculateDamage(a', d') == CalculateDamage(attacker, defender)
  {
  }

  /**
   * The damage of one volley: the per-hit damage times the units that engage out of `count`.
   * A side with no units deals nothing.
   */
  function HitDamage(attacker: Profile, defender: Profile, config: Config, count: real): (h: real)
    ensures count == 0.0 ==> h == 0.0
  {
    CalculateDamage(attacker, defender) * EngagedUnits(count, attacker.initialCount, config.engagement)
  }

  /** A volley that does not heal deals at most one hit per unit left. */
  lemma HitDamageAtMostOneHitEach(attacker: Profile, defender: Profile, config: Config, count: real)
    requires CalculateDamage(attacker, defender) >= 0.0
    ensures HitDamage(attacker, defender, config, count) <= CalculateDamage(attacker, defender) * count
  {
    MulMonotone(CalculateDamage(attacker, defender), EngagedUnits(count, attacker.initialCount, config.engagement), count);
  }

  /** A volley of a non-negative count of units with a bonus that does not heal does not heal. */
  lemma HitDamageNonNegative(attacker: Profile, defender: Profile, config: Config, count: real)
    requires count >= 0.0 && attacker.bonusAtk >= 0.0 && defender.bonusReduction <= 1.0
    ensures HitDamage(attacker, defender, config, count) >= 0.0
  {
    MulNonNegative(attacker.bonusAtk, 1.0 - defender.bonusReduction);
    MulNonNegative(CalculateDamage(attacker, defender), EngagedUnits(count, attacker.initialCount, config.engagement));
  }

  /**
   * One side's turn in a tick, giving the attacker's and the defender's new standing: when
   * its cooldown has run out the attacker hits with its current count and reloads, else its
   * cooldown runs down by a tick and the defender is untouched. The attacker's own count and
   * front unit do not change.
   */
  function Turn(attacker: Profile, defender: Profile, config: Config, tick: real, x: Squad, y: Squad): (r: (Squad, Squad))
    requires defender.hp != 0.0
    ensures r.0.count == x.count && r.0.unitHp == x.unitHp
    ensures x.cooldown > 0.0 ==> r.1 == y
  {
    if x.cooldown <= 0.0 then
      (x.(cooldown := attacker.reload), Hit(defender.hp, y, HitDamage(attacker, defender, config, x.count), config.targetMicro))
    else (x.(cooldown := x.cooldown - tick), y)
  }

  /**
   * One pass of the battle loop: side A's turn, then side B's turn against side A as A's
   * turn left it, with B's count as A's turn left it; then the clock moves on a tick.
   */
  function Tick(pA: Profile, pB: Profile, configA: Config, configB: Config, tick: real, s: BattleState): (t: BattleState)
    requires pA.hp != 0.0 && pB.hp != 0.0
    ensures t.time == s.time + tick
  {
    var (a1, b1) := Turn(pA, pB, configA, tick, s.a, s.b);
    var (b2, a2) := Turn(pB, pA, configB, tick, b1, a1);
    BattleState(a2, b2, s.time + tick)
  }

  /**
   * The battle loop of `run` from state `s`: it ticks while both sides have units left and
   * the time limit is not reached. It ends with a side destroyed or the limit reached, less
   * than a tick past the limit.
   */
  function Battle(pA: Profile, pB: Profile, configA: Config, configB: Config, tick: real, limit: real,
                  s: BattleState): (f: BattleState)
    requires pA.hp != 0.0 && pB.hp != 0.0 && tick > 0.0
    ensures !Continues(f, limit)
    ensures f.time >= s.time && (f.time == s.time || f.time < limit + tick)
    ensures !Continues(s, limit) ==> f == s
    decreases ((limit - s.time) / tick).Floor
  {
    if Continues(s, limit) then
      ShareBounds(limit - s.time, tick, 0.0);
      FloorStepDown(limit - s.time, tick);
      Battle(pA, pB, configA, configB, tick, limit, Tick(pA, pB, configA, configB, tick, s))
    else s
  }

  /** Both sides' volleys do not heal and their micro is not negative. */
  predicate Fair(pA: Profile, pB: Profile, configA: Config, configB: Config)
  {
    configA.targetMicro >= 0.0 && configB.targetMicro >= 0.0
    && pA.bonusAtk >= 0.0 && pB.bonusAtk >= 0.0
    && pA.bonusReduction <= 1.0 && pB.bonusReduction <= 1.0
  }

  /** A turn of a non-negative count of units in a fair battle keeps both armies sound. */
  lemma TurnKeepsSound(attacker: Profile, defender: Profile, config: Config, tick: real, x: Squad, y: Squad,
                       capX: real, capY: real)
    requires Sound(attacker.hp, x, capX) && Sound(defender.hp, y, capY)
    requires config.targetMicro >= 0.0 && attacker.bonusAtk >= 0.0 && defender.bonusReduction <= 1.0
    ensures var r := Turn(attacker, defender, config, tick, x, y);
      Sound(attacker.hp, r.0, capX) && Sound(defender.hp, r.1, capY)
  {
    if x.cooldown <= 0.0 {
      HitDamageNonNegative(attacker, defender, config, x.count);
      HitSound(defender.hp, y, HitDamage(attacker, defender, config, x.count), config.targetMicro, capY);
    }
  }

  /** A tick of a fair battle keeps both armies sound. */
  lemma TickKeepsSound(pA: Profile, pB: Profile, configA: Config, configB: Config, tick: real, s: BattleState,
                       capA: real, capB: real)
    requires Sound(pA.hp, s.a, capA) && Sound(pB.hp, s.b, capB) && Fair(pA, pB, configA, configB)
    ensures var t := Tick(pA, pB, configA, configB, tick, s);
      Sound(pA.hp, t.a, capA) && Sound(pB.hp, t.b, capB)
  {
    var (a1, b1) := Turn(pA, pB, configA, tick, s.a, s.b);
    TurnKeepsSound(pA, pB, configA, tick, s.a, s.b, capA, capB);
    TurnKeepsSound(pB, pA, configB, tick, b1, a1, capB, capA);
  }

  /** A fair battle keeps both armies sound to its end. */
  lemma {:induction false} BattleKeepsSound(pA: Profile, pB: Profile, configA: Config, configB: Config,
                                            tick: real, limit: real, s: BattleState, capA: real, capB: real)
    requires tick > 0.0
    requires Sound(pA.hp, s.a, capA) && Sound(pB.hp, s.b, capB) && Fair(pA, pB, configA, configB)
    ensures var f := Battle(pA, pB, configA, configB, tick, limit, s);
      Sound(pA.hp, f.a, capA) && Sound(pB.hp, f.b, capB)
    decreases ((limit - s.time) / tick).Floor
  {
    if Continues(s, limit) {
      ShareBounds(limit - s.time, tick, 0.0);
      FloorStepDown(limit - s.time, tick);
      TickKeepsSound(pA, pB, configA, configB, tick, s, capA, capB);
      BattleKeepsSound(pA, pB, configA, configB, tick, limit, Tick(pA, pB, configA, configB, tick, s), capA, capB);
    }
  }

  /**
   * Side A's turn comes first in a tick, and side B replies with its count as A's turn left
   * it: when A's volley destroys B, the battle ends with that tick, and B's reply engages
   * nobody, so A keeps all its HP.
   */
  lemma FirstStrikeWins(pA: Profile, pB: Profile, configA: Config, configB: Config, tick: real, limit: real,
                        s: BattleState)
    requires pA.hp > 0.0 && pB.hp != 0.0 && tick > 0.0 && Continues(s, limit)
    requires s.a.unitHp >= 0.0 && configB.targetMicro >= 0.0
    requires Turn(pA, pB, configA, tick, s.a, s.b).1.count == 0.0
    ensures var f := Battle(pA, pB, configA, configB, tick, limit, s);
      f == Tick(pA, pB, configA, configB, tick, s) && f.b.count == 0.0
      && PoolHp(f.a.count, f.a.unitHp, pA.hp) == PoolHp(s.a.count, s.a.unitHp, pA.hp)
  {
    var (a1, b1) := Turn(pA, pB, configA, tick, s.a, s.b);
    if b1.cooldown <= 0.0 {
      assert EngagedUnits(b1.count, pB.initialCount, configB.engagement) == 0.0;
      assert HitDamage(pB, pA, configB, b1.count) == 0.0;
      NoDamageNoLoss(configB.targetMicro, a1.count, a1.unitHp, pA.hp);
    }
    var t := Tick(pA, pB, configA, configB, tick, s);
    assert !Continues(t, limit);
    ShareBounds(limit - s.time, tick, 0.0);
    FloorStepDown(limit - s.time, tick);
  }

  /** Where `run` starts: both armies fresh, at time `time`. */
  function Start(dataA: Json, dataB: Json, time: real): BattleState
  {
    BattleState(Fresh(dataA), Fresh(dataB), time)
  }

  /** What `run` measures the timeline against: each side's `count * hpPerUnit` and `count * cost`, `count` read as a number. */
  function BasisOf(dataA: Json, dataB: Json): Basis
  {
    Basis(Mul(ToNumber(Get(dataA, "count")), Fin(HpOf(dataA))), Mul(ToNumber(Get(dataB, "count")), Fin(HpOf(dataB))),
          Mul(ToNumber(Get(dataA, "count")), Fin(UnitCost(dataA))), Mul(ToNumber(Get(dataB, "count")), Fin(UnitCost(dataB))))
  }

  /** Each army whose starting HP reads as 0 has no units and no HP in `s`. */
  predicate Grounded(hpA: real, hpB: real, s: BattleState, k: Basis)
  {
    (k.initHpA == Fin(0.0) ==> s.a.count == 0.0 && PoolHp(s.a.count, s.a.unitHp, hpA) == 0.0)
    && (k.initHpB == Fin(0.0) ==> s.b.count == 0.0 && PoolHp(s.b.count, s.b.unitHp, hpB) == 0.0)
  }

  /** Fresh armies are grounded: an army whose starting HP reads as 0 starts with no units. */
  lemma StartGrounded(dataA: Json, dataB: Json, time: real)
    ensures Grounded(HpOf(dataA), HpOf(dataB), Start(dataA, dataB, time), BasisOf(dataA, dataB))
  {
    if Mul(ToNumber(Get(dataA, "count")), Fin(HpOf(dataA))) == Fin(0.0) {
      ZeroStartingHpIsNoUnits(dataA);
    }
    if Mul(ToNumber(Get(dataB, "count")), Fin(HpOf(dataB))) == Fin(0.0) {
      ZeroStartingHpIsNoUnits(dataB);
    }
  }

  /**
   * The points the battle loop records from state `s` on: after each tick, the point at the
   * new state when a whole-unit count changed or the clock is on a quarter second. A battle
   * that is over records nothing more.
   */
  function Timeline(pA: Profile, pB: Profile, configA: Config, configB: Config, tick: real, limit: real,
                    s: BattleState, k: Basis): (h: seq<Snapshot>)
    requires pA.hp != 0.0 && pB.hp != 0.0 && tick > 0.0
    requires Continues(s, limit) ==> k.initHpA != Fin(0.0) && k.initHpB != Fin(0.0)
    ensures !Continues(s, limit) ==> h == []
    decreases ((limit - s.time) / tick).Floor
  {
    if Continues(s, limit) then
      ShareBounds(limit - s.time, tick, 0.0);
      FloorStepDown(limit - s.time, tick);
      var t := Tick(pA, pB, configA, configB, tick, s);
      Entry(pA.hp, pB.hp, s, t, k) + Timeline(pA, pB, configA, configB, tick, limit, t, k)
    else []
  }

  /**
   * One tick of a battle that goes on: the battle goes on from the next state to the same
   * end, the points it records are those of the tick followed by the rest, and one whole
   * tick fewer is left before the time limit.
   */
  lemma Advance(pA: Profile, pB: Profile, configA: Config, configB: Config, tick: real, limit: real,
                s: BattleState, k: Basis, h: seq<Snapshot>)
    requires pA.hp != 0.0 && pB.hp != 0.0 && tick > 0.0 && Continues(s, limit)
    requires k.initHpA != Fin(0.0) && k.initHpB != Fin(0.0)
    ensures Battle(pA, pB, configA, configB, tick, limit, Tick(pA, pB, configA, configB, tick, s))
         == Battle(pA, pB, configA, configB, tick, limit, s)
    ensures h + Entry(pA.hp, pB.hp, s, Tick(pA, pB, configA, configB, tick, s), k)
              + Timeline(pA, pB, configA, configB, tick, limit, Tick(pA, pB, configA, configB, tick, s), k)
         == h + Timeline(pA, pB, configA, configB, tick, limit, s, k)
    ensures 0 <= TicksLeft(tick, limit, s)
    ensures TicksLeft(tick, limit, Tick(pA, pB, configA, configB, tick, s)) < TicksLeft(tick, limit, s)
  {
    ShareBounds(limit - s.time, tick, 0.0);
    FloorStepDown(limit - s.time, tick);
    assert limit - (s.time + tick) == limit - s.time - tick;
  }

  /**
   * The points the battle loop records come in time order, have non-negative HP, and fall
   * after the state they start from and no later than the end of the battle.
   */
  lemma {:induction false} TimelineInOrder(pA: Profile, pB: Profile, configA: Config, configB: Config,
                                           tick: real, limit: real, s: BattleState, k: Basis)
    requires pA.hp != 0.0 && pB.hp != 0.0 && tick > 0.0
    requires Continues(s, limit) ==> k.initHpA != Fin(0.0) && k.initHpB != Fin(0.0)
    ensures Between(Timeline(pA, pB, configA, configB, tick, limit, s, k), s.time,
                    Battle(pA, pB, configA, configB, tick, limit, s).time)
    decreases ((limit - s.time) / tick).Floor
  {
    if Continues(s, limit) {
      ShareBounds(limit - s.time, tick, 0.0);
      FloorStepDown(limit - s.time, tick);
      var t := Tick(pA, pB, configA, configB, tick, s);
      TimelineInOrder(pA, pB, configA, configB, tick, limit, t, k);
      var e := Entry(pA.hp, pB.hp, s, t, k);
      var rest := Timeline(pA, pB, configA, configB, tick, limit, t, k);
      var f := Battle(pA, pB, configA, configB, tick, limit, t);
      if |e| == 1 {
        assert e == [e[0]];
        PrependBetween(e[0], rest, s.time, f.time);
      } else {
        WidenBetween(rest, s.time, t.time, f.time);
      }
    }
  }

  /**
   * `run` from state `s0` with timeline `history`: each side's count and HP at the end of the
   * battle loop against its starting HP; the timeline gains the point at the start, the
   * points the loop records and the point at the end; the duration is the time the loop
   * ended at, which has a side destroyed or the time limit reached.
   */
  function Played(pA: Profile, pB: Profile, configA: Config, configB: Config, tick: real, limit: real,
                  s0: BattleState, k: Basis, history: seq<Snapshot>): (r: SimResult)
    requires pA.hp != 0.0 && pB.hp != 0.0 && tick > 0.0 && Grounded(pA.hp, pB.hp, s0, k)
    ensures Consistent(r.armyA.totalHp, r.armyA.initialTotalHp) && Consistent(r.armyB.totalHp, r.armyB.initialTotalHp)
    ensures r.armyA.remaining <= 0.0 || r.armyB.remaining <= 0.0 || r.duration >= limit
    ensures r.duration >= s0.time && (r.duration == s0.time || r.duration < limit + tick)
  {
    var f := Battle(pA, pB, configA, configB, tick, limit, s0);
    SimResult(Army(f.a.count, PoolHp(f.a.count, f.a.unitHp, pA.hp), k.initHpA),
              Army(f.b.count, PoolHp(f.b.count, f.b.unitHp, pB.hp), k.initHpB),
              history + [Point(pA.hp, pB.hp, s0, k)] + Timeline(pA, pB, configA, configB, tick, limit, s0, k)
                + [Point(pA.hp, pB.hp, f, k)],
              f.time)
  }

  /**
   * The timeline of a battle keeps what was there, and gains at least a first point for the
   * starting state and a last point at the end; the points it gains come in time order and
   * have non-negative HP.
   */
  lemma PlayedInOrder(pA: Profile, pB: Profile, configA: Config, configB: Config, tick: real, limit: real,
                      s0: BattleState, k: Basis, history: seq<Snapshot>)
    requires pA.hp != 0.0 && pB.hp != 0.0 && tick > 0.0 && Grounded(pA.hp, pB.hp, s0, k)
    ensures Continued(Played(pA, pB, configA, configB, tick, limit, s0, k, history).history, history, s0.time,
                      Played(pA, pB, configA, configB, tick, limit, s0, k, history).duration)
    ensures Played(pA, pB, configA, configB, tick, limit, s0, k, history).history[|history|] == Point(pA.hp, pB.hp, s0, k)
  {
    var f := Battle(pA, pB, configA, configB, tick, limit, s0);
    TimelineInOrder(pA, pB, configA, configB, tick, limit, s0, k);
    var p0, p1 := Point(pA.hp, pB.hp, s0, k), Point(pA.hp, pB.hp, f, k);
    var mid := Timeline(pA, pB, configA, configB, tick, limit, s0, k);
    FramedInOrder(history, p0, mid, p1);
  }

  /**
   * A fair battle between sound armies leaves counts that are not negative, zero exactly
   * when no HP is left, and no more HP than each army started with.
   */
  lemma PlayedSound(pA: Profile, pB: Profile, configA: Config, configB: Config, tick: real, limit: real,
                    s0: BattleState, k: Basis, history: seq<Snapshot>, capA: real, capB: real)
    requires tick > 0.0 && Grounded(pA.hp, pB.hp, s0, k)
    requires Sound(pA.hp, s0.a, capA) && Sound(pB.hp, s0.b, capB) && Fair(pA, pB, configA, configB)
    ensures Settled(Played(pA, pB, configA, configB, tick, limit, s0, k, history), capA, capB)
  {
    BattleKeepsSound(pA, pB, configA, configB, tick, limit, s0, capA, capB);
  }

  /** `run` on a battle between `dataA` and `dataB` with fresh armies, starting at time `time` with timeline `history`. */
  function Simulated(dataA: Json, dataB: Json, configA: Config, configB: Config, tick: real, limit: real,
                     time: real, history: seq<Snapshot>): (r: SimResult)
    requires ReloadDefined(dataA) && ReloadDefined(dataB) && tick > 0.0
    ensures Consistent(r.armyA.totalHp, r.armyA.initialTotalHp) && Consistent(r.armyB.totalHp, r.armyB.initialTotalHp)
    ensures r.armyA.remaining <= 0.0 || r.armyB.remaining <= 0.0 || r.duration >= limit
    ensures r.duration >= time && (r.duration == time || r.duration < limit + tick)
  {
    StartGrounded(dataA, dataB, time);
    Played(ProfileOf(dataA), ProfileOf(dataB), configA, configB, tick, limit, Start(dataA, dataB, time),
           BasisOf(dataA, dataB), history)
  }

  /**
   * The timeline of `run` keeps what was there, and gains at least a first point at the
   * starting time with both starting counts and a last point at the end; the points it
   * gains come in time order and have non-negative HP.
   */
  lemma SimulatedInOrder(dataA: Json, dataB: Json, configA: Config, configB: Config, tick: real, limit: real,
                         time: real, history: seq<Snapshot>)
    requires ReloadDefined(dataA) && ReloadDefined(dataB) && tick > 0.0
    ensures Continued(Simulated(dataA, dataB, configA, configB, tick, limit, time, history).history, history, time,
                      Simulated(dataA, dataB, configA, configB, tick, limit, time, history).duration)
    ensures Simulated(dataA, dataB, configA, configB, tick, limit, time, history).history[|history|].countA == CountOf(dataA)
    ensures Simulated(dataA, dataB, configA, configB, tick, limit, time, history).history[|history|].countB == CountOf(dataB)
  {
    StartGrounded(dataA, dataB, time);
    PlayedInOrder(ProfileOf(dataA), ProfileOf(dataB), configA, configB, tick, limit, Start(dataA, dataB, time),
                  BasisOf(dataA, dataB), history);
  }

  /**
   * Between armies of positive unit HP, a non-negative count, non-negative micro and
   * bonuses that do not heal, the counts left are not negative, a side has no units left
   * exactly when it has no HP left, and no side ends with more HP than it started with.
   */
  lemma SimulatedSound(dataA: Json, dataB: Json, configA: Config, configB: Config, tick: real, limit: real,
                       time: real, history: seq<Snapshot>)
    requires ReloadDefined(dataA) && ReloadDefined(dataB) && tick > 0.0
    requires Regular(dataA, configA, dataB, configB)
    ensures Settled(Simulated(dataA, dataB, configA, configB, tick, limit, time, history),
                    PoolHp(CountOf(dataA), HpOf(dataA), HpOf(dataA)), PoolHp(CountOf(dataB), HpOf(dataB), HpOf(dataB)))
  {
    var capA, capB := PoolHp(CountOf(dataA), HpOf(dataA), HpOf(dataA)), PoolHp(CountOf(dataB), HpOf(dataB), HpOf(dataB));
    StartGrounded(dataA, dataB, time);
    RegularStart(dataA, configA, dataB, configB, time);
    PlayedSound(ProfileOf(dataA), ProfileOf(dataB), configA, configB, tick, limit, Start(dataA, dataB, time),
                BasisOf(dataA, dataB), history, capA, capB);
  }

  /** Regular sides start sound and fight fairly. */
  lemma RegularStart(dataA: Json, configA: Config, dataB: Json, configB: Config, time: real)
    requires ReloadDefined(dataA) && ReloadDefined(dataB) && Regular(dataA, configA, dataB, configB)
    ensures var s0 := Start(dataA, dataB, time);
      Sound(HpOf(dataA), s0.a, PoolHp(CountOf(dataA), HpOf(dataA), HpOf(dataA)))
      && Sound(HpOf(dataB), s0.b, PoolHp(CountOf(dataB), HpOf(dataB), HpOf(dataB)))
      && Fair(ProfileOf(dataA), ProfileOf(dataB), configA, configB)
  {
    FreshSound(CountOf(dataA), HpOf(dataA));
    FreshSound(CountOf(dataB), HpOf(dataB));
  }

  /** One battle between two sides. */
  class CombatSim {
    const dataA: Json
    const dataB: Json
    const configA: Config
    const configB: Config
    var time: real
    const tick: real
    const maxDuration: Option<real>
    var history: seq<Snapshot>

    /** A battle that has not started: the tick and the time limit come from `simConfig` when set. */
    constructor (dataA: Json, dataB: Json, configA: Config, configB: Config, simConfig: SimConfig)
      ensures this.dataA == dataA && this.dataB == dataB
      ensures this.configA == configA && this.configB == configB
      ensures time == 0.0 && history == []
      ensures tick == TickOf(simConfig) && maxDuration == MaxDurationOf(simConfig)
    {
      this.dataA := dataA;
      this.dataB := dataB;
      this.configA := configA;
      this.configB := configB;
      time := 0.0;
      tick := TickOf(simConfig);
      maxDuration := MaxDurationOf(simConfig);
      history := [];
    }

    /**
     * `applyDamage`: the effective damage comes off the army's HP pool, and the pool is split
     * back into a count and a front unit.
     */
    method ApplyDamage(unit: Unit, totalDmg: real, micro: real)
      requires unit.hpPerUnit != 0.0
      modifies unit`currentCount, unit`currentUnitHp
      ensures unit.Standing() == Hit(unit.hpPerUnit, old(unit.Standing()), totalDmg, micro)
    {
      var poolHp := unit.TotalHp();
      var effectiveDmg := Effective(totalDmg, micro, unit.currentCount, unit.currentUnitHp, unit.hpPerUnit);
      var newPool := Max(0.0, poolHp - effectiveDmg);
      unit.currentCount := SplitCount(newPool, unit.hpPerUnit) as real;
      unit.currentUnitHp := SplitUnitHp(newPool, unit.hpPerUnit);
    }

    /** One side's turn in a tick: it attacks when its cooldown has run out, else the cooldown runs down. */
    method Volley(attacker: Unit, defender: Unit, config: Config)
      requires attacker != defender && defender.hpPerUnit != 0.0
      modifies attacker`attackCooldown, defender`currentCount, defender`currentUnitHp
      ensures (attacker.Standing(), defender.Standing())
           == Turn(attacker.Traits(), defender.Traits(), config, tick, old(attacker.Standing()), old(defender.Standing()))
    {
      if attacker.attackCooldown <= 0.0 {
        ghost var x := attacker.Standing();
        var eff := EngagedUnits(attacker.currentCount, attacker.initialCount, config.engagement);
        var dmg := CalculateDamage(attacker.Traits(), defender.Traits());
        var hit := dmg * eff;
        assert hit == HitDamage(attacker.Traits(), defender.Traits(), config, x.count);
        ApplyDamage(defender, hit, config.targetMicro);
        attacker.attackCooldown := attacker.reload;
        assert attacker.Standing() == x.(cooldown := attacker.Traits().reload);
      } else {
        attacker.attackCooldown := attacker.attackCooldown - tick;
      }
    }

    /** The state of the battle between `subA` and `subB`. */
    function Now(subA: Unit, subB: Unit): BattleState
      reads subA`currentCount, subA`currentUnitHp, subA`attackCooldown
      reads subB`currentCount, subB`currentUnitHp, subB`attackCooldown, this`time
    {
      BattleState(subA.Standing(), subB.Standing(), time)
    }

    /** `record`: appends the point of the timeline for the current state. */
    method Record(subA: Unit, subB: Unit, k: Basis)
      requires Consistent(subA.TotalHp(), k.initHpA) && Consistent(subB.TotalHp(), k.initHpB)
      modifies this`history
      ensures history == old(history) + [Point(subA.hpPerUnit, subB.hpPerUnit, Now(subA, subB), k)]
    {
      var s := Snap(time, subA.currentCount, subB.currentCount, subA.TotalHp(), subB.TotalHp(),
                    k.initHpA, k.initHpB, k.initValA, k.initValB);
      history := history + [s];
    }

    /**
     * One pass of the battle loop: side A's turn, side B's turn, the clock moves one tick,
     * and a point is recorded when a whole-unit count changed or the clock is on a quarter second.
     */
    method Step(subA: Unit, subB: Unit, k: Basis)
      requires subA != subB && subA.hpPerUnit != 0.0 && subB.hpPerUnit != 0.0
      requires k.initHpA != Fin(0.0) && k.initHpB != Fin(0.0)
      modifies subA`attackCooldown, subA`currentCount, subA`currentUnitHp
      modifies subB`attackCooldown, subB`currentCount, subB`currentUnitHp
      modifies this`time, this`history
      ensures Now(subA, subB) == Tick(subA.Traits(), subB.Traits(), configA, configB, tick, old(Now(subA, subB)))
      ensures history == old(history) + Entry(subA.hpPerUnit, subB.hpPerUnit, old(Now(subA, subB)), Now(subA, subB), k)
    {
      var prevA := Ceil(subA.currentCount);
      var prevB := Ceil(subB.currentCount);
      Volley(subA, subB, configA);
      Volley(subB, subA, configB);
      time := time + tick;
      if Ceil(subA.currentCount) != prevA || Ceil(subB.currentCount) != prevB || Round(time * 100.0) % 25 == 0 {
        Record(subA, subB, k);
      }
    }

    /** The battle loop of `run`: steps until a side is destroyed or the time limit is reached. */
    method Fight(subA: Unit, subB: Unit, k: Basis)
      requires subA != subB && subA.hpPerUnit != 0.0 && subB.hpPerUnit != 0.0 && tick > 0.0
      requires Continues(Now(subA, subB), Limit(maxDuration)) ==> k.initHpA != Fin(0.0) && k.initHpB != Fin(0.0)
      modifies subA`attackCooldown, subA`currentCount, subA`currentUnitHp
      modifies subB`attackCooldown, subB`currentCount, subB`currentUnitHp
      modifies this`time, this`history
      ensures Now(subA, subB)
           == Battle(subA.Traits(), subB.Traits(), configA, configB, tick, Limit(maxDuration), old(Now(subA, subB)))
      ensures history
           == old(history) + Timeline(subA.Traits(), subB.Traits(), configA, configB, tick, Limit(maxDuration),
                                      old(Now(subA, subB)), k)
    {
      var limit := Limit(maxDuration);
      ghost var pA, pB, s0 := subA.Traits(), subB.Traits(), Now(subA, subB);
      while subA.currentCount > 0.0 && subB.currentCount > 0.0 && time < limit
        invariant Continues(Now(subA, subB), limit) ==> k.initHpA != Fin(0.0) && k.initHpB != Fin(0.0)
        invariant Battle(pA, pB, configA, configB, tick, limit, Now(subA, subB))
               == Battle(pA, pB, configA, configB, tick, limit, s0)
        invariant history + Timeline(pA, pB, configA, configB, tick, limit, Now(subA, subB), k)
               == old(history) + Timeline(pA, pB, configA, configB, tick, limit, s0, k)
        decreases TicksLeft(tick, limit, Now(subA, subB))
      {
        Advance(pA, pB, configA, configB, tick, limit, Now(subA, subB), k, history);
        Step(subA, subB, k);
      }
      assert !Continues(Now(subA, subB), limit);
    }

    /**
     * `run`: the battle from the current time, whose result, timeline and clock are those
     * `Simulated` gives for this battle's sides, settings and current timeline.
     */
    method Run() returns (r: SimResult)
      requires tick > 0.0
      requires ReloadDefined(dataA) && ReloadDefined(dataB)
      modifies this`time, this`history
      ensures r == Simulated(dataA, dataB, configA, configB, tick, Limit(maxDuration), old(time), old(history))
      ensures r.history == history && r.duration == time
    {
      var subA, initHpA, initialValA := Enlist(dataA);
      var subB, initHpB, initialValB := Enlist(dataB);
      var k := Basis(initHpA, initHpB, initialValA, initialValB);
      StartGrounded(dataA, dataB, old(time));
      Record(subA, subB, k);
      Fight(subA, subB, k);
      Record(subA, subB, k);
      r := SimResult(Army(subA.currentCount, subA.TotalHp(), initHpA),
                     Army(subB.currentCount, subB.TotalHp(), initHpB),
                     history, time);
    }
  }

  /**
   * The set-up of one side in `run`: a fresh army built from a copy of its data, its starting
   * HP `count * hp` and its starting value `count * cost`, both with `count` read as a number.
   */
  method Enlist(data: Json) returns (u: Unit, initHp: Num, initVal: Num)
    requires ReloadDefined(data)
    ensures fresh(u)
    ensures u.Traits() == ProfileOf(data) && u.Standing() == Fresh(data)
    ensures initHp == Mul(ToNumber(Get(data, "count")), Fin(HpOf(data)))
    ensures initVal == Mul(ToNumber(Get(data, "count")), Fin(UnitCost(data)))
  {
    u := Recruit(data);
    initVal := Mul(ToNumber(Get(data, "count")), Fin(u.ParsedCost().total));
    initHp := Mul(ToNumber(Get(data, "count")), Fin(u.hpPerUnit));
  }

  /** A fresh army built from a copy of `data`, with the statistics the battle reads of it. */
  method Recruit(data: Json) returns (u: Unit)
    requires ReloadDefined(data)
    ensures fresh(u)
    ensures u.Traits() == ProfileOf(data) && u.Standing() == Fresh(data)
    ensures u.ParsedCost().total == UnitCost(data)
  {
    // `{ ...data }` copies the object's own properties, which is the value itself here.
    u := new Unit(data);
  }
}

/** Worked battles of the first-generation simulator. */
module SimV1Examples {
  import opened Arith
  import opened Damage
  import opened Pool
  import opened Combat
  import opened ArmyV1
  import opened SimV1

  /** A single unit of 1 HP that hits for 1 with a 2-second reload, engaging its whole army without micro. */
  const Duelist := Profile(1.0, 1.0, 1.0, 0.0, 0.0, 0.0, 1.0, 0.0, 0.0, 2.0)
  const Head := Config(100.0, 0.0)

  /**
   * Two fresh duelists: in the first tick A's volley destroys B, and B's reply engages
   * nobody, so A is untouched and the battle is over.
   */
  lemma FirstTick()
    ensures var s := BattleState(Squad(1.0, 1.0, 0.0), Squad(1.0, 1.0, 0.0), 0.0);
      Turn(Duelist, Duelist, Head, 0.05, s.a, s.b).1.count == 0.0
      && Tick(Duelist, Duelist, Head, Head, 0.05, s) == BattleState(Squad(1.0, 1.0, 2.0), Squad(0.0, 0.0, 2.0), 0.05)
  {
    var s := BattleState(Squad(1.0, 1.0, 0.0), Squad(1.0, 1.0, 0.0), 0.0);
    FirstTurnKills();
    assert Turn(Duelist, Duelist, Head, 0.05, s.a, s.b) == (Squad(1.0, 1.0, 2.0), Squad(0.0, 0.0, 0.0));
    ReplyMisses();
  }

  /** A duelist's hit kills a fresh duelist. */
  lemma FirstTurnKills()
    ensures Turn(Duelist, Duelist, Head, 0.05, Squad(1.0, 1.0, 0.0), Squad(1.0, 1.0, 0.0))
         == (Squad(1.0, 1.0, 2.0), Squad(0.0, 0.0, 0.0))
  {
    DuelistDamage();
    KillingHit();
  }

  /** A destroyed duelist that is ready to attack engages nobody and does no damage. */
  lemma ReplyMisses()
    ensures Turn(Duelist, Duelist, Head, 0.05, Squad(0.0, 0.0, 0.0), Squad(1.0, 1.0, 2.0))
         == (Squad(0.0, 0.0, 2.0), Squad(1.0, 1.0, 2.0))
  {
    DestroyedDamage();
    HarmlessHit();
  }

  /** A duelist's volley does 1 damage. */
  lemma DuelistDamage()
    ensures HitDamage(Duelist, Duelist, Head, 1.0) == 1.0
  {
    assert CalculateDamage(Duelist, Duelist) == 1.0;
  }

  /** A destroyed duelist's volley does no damage. */
  lemma DestroyedDamage()
    ensures HitDamage(Duelist, Duelist, Head, 0.0) == 0.0
  {
    assert EngagedUnits(0.0, 1.0, 100.0) == 0.0;
  }

  /** One damage destroys a single unit of 1 HP. */
  lemma KillingHit()
    ensures Hit(1.0, Squad(1.0, 1.0, 0.0), 1.0, 0.0) == Squad(0.0, 0.0, 0.0)
  {
    PoolEmptied();
    EmptySplit();
  }

  /** No damage leaves a single unit of 1 HP as it is. */
  lemma HarmlessHit()
    ensures Hit(1.0, Squad(1.0, 1.0, 2.0), 0.0, 0.0) == Squad(1.0, 1.0, 2.0)
  {
    PoolKept();
    WholeSplit();
  }

  /** One damage takes the only HP of a single unit of 1 HP. */
  lemma PoolEmptied()
    ensures PoolAfter(1.0, 1.0, 1.0, 1.0, 0.0) == 0.0
  {
  }

  /** No damage leaves the single HP of a single unit of 1 HP. */
  lemma PoolKept()
    ensures PoolAfter(1.0, 1.0, 1.0, 0.0, 0.0) == 1.0
  {
  }

  /** An empty pool splits into no units and a front unit of 0 HP. */
  lemma EmptySplit()
    ensures SplitCount(0.0, 1.0) == 0 && SplitUnitHp(0.0, 1.0) == 0.0
  {
  }

  /** A pool of 1 HP with units of 1 HP splits into one whole unit. */
  lemma WholeSplit()
    ensures SplitCount(1.0, 1.0) == 1 && SplitUnitHp(1.0, 1.0) == 1.0
  {
  }
}
