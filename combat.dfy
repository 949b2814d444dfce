/** The values a battle takes and returns, shared by both simulator generations. */
module Combat {
  import opened Arith
  import opened Js
  import opened Pool

  /** How one side fights: the percentage of its starting army that engages, and its micro targets. */
  datatype Config = Config(engagement: real, targetMicro: real)

  /**
   * The optional battle settings: the tick and the time limit are used only when truthy,
   * and `accuracy` switches accuracy mode on.
   */
  datatype SimConfig = SimConfig(tick: Option<real>, maxDuration: Option<real>, accuracy: bool)

  /** The tick length: 0.05 seconds unless a non-zero tick is given. */
  function TickOf(sc: SimConfig): (t: real)
    ensures sc.tick.Some? && sc.tick.value != 0.0 ==> t == sc.tick.value
    ensures !(sc.tick.Some? && sc.tick.value != 0.0) ==> t == 0.05
  {
    if sc.tick.Some? && sc.tick.value != 0.0 then sc.tick.value else 0.05
  }

  /** The time limit the simulator stores: only a non-zero one is kept. */
  function MaxDurationOf(sc: SimConfig): (m: Option<real>)
    ensures m.Some? ==> m.value != 0.0
  {
    if sc.maxDuration.Some? && sc.maxDuration.value != 0.0 then sc.maxDuration else None
  }

  /** The time limit in force: `maxDuration || 300`. */
  function Limit(maxDuration: Option<real>): real
  {
    if maxDuration.Some? && maxDuration.value != 0.0 then maxDuration.value else 300.0
  }

  /** What a battle changes about one army: its count, the HP of its front unit and its attack cooldown. */
  datatype Squad = Squad(count: real, unitHp: real, cooldown: real)

  /** The state of a battle: both armies and the clock. */
  datatype BattleState = BattleState(a: Squad, b: Squad, time: real)

  /** The condition of the battle loop: both sides have units left and the time limit is not reached. */
  predicate Continues(s: BattleState, limit: real)
  {
    s.a.count > 0.0 && s.b.count > 0.0 && s.time < limit
  }

  /** The whole ticks left before the time limit. */
  function TicksLeft(tick: real, limit: real, s: BattleState): int
    requires tick > 0.0
  {
    ((limit - s.time) / tick).Floor
  }

  /**
   * `applyDamage` on an army's standing: the effective damage comes off its HP pool and the
   * pool is split back into a count and a front unit, leaving the cooldown alone. An army of
   * positive unit HP is left holding exactly the pool that remains.
   */
  function Hit(hp: real, s: Squad, totalDmg: real, micro: real): (t: Squad)
    requires hp != 0.0
    ensures t.cooldown == s.cooldown
    ensures hp > 0.0 ==> PoolHp(t.count, t.unitHp, hp) == PoolAfter(s.count, s.unitHp, hp, totalDmg, micro)
  {
    var pool := PoolAfter(s.count, s.unitHp, hp, totalDmg, micro);
    assert hp > 0.0 ==> PoolHp(SplitCount(pool, hp) as real, SplitUnitHp(pool, hp), hp) == pool by {
      if hp > 0.0 {
        SplitRoundTrip(pool, hp);
      }
    }
    Squad(SplitCount(pool, hp) as real, SplitUnitHp(pool, hp), s.cooldown)
  }

  /**
   * An army's standing is one a battle between armies of positive unit HP keeps: a
   * non-negative count that is 0 exactly when no HP is left, a front unit with
   * non-negative HP, and no more HP than `cap`, the pool it started with.
   */
  predicate Sound(hp: real, x: Squad, cap: real)
  {
    hp > 0.0 && x.count >= 0.0 && x.unitHp >= 0.0
    && (x.count == 0.0 <==> PoolHp(x.count, x.unitHp, hp) == 0.0)
    && PoolHp(x.count, x.unitHp, hp) <= cap
  }

  /** A fresh army of positive unit HP and a non-negative count is sound against its own starting pool. */
  lemma FreshSound(count: real, hp: real)
    requires count >= 0.0 && hp > 0.0
    ensures Sound(hp, Squad(count, hp, 0.0), PoolHp(count, hp, hp))
  {
    FreshPool(count, hp);
  }

  /** A hit of non-negative damage with non-negative micro keeps an army sound. */
  lemma HitSound(hp: real, x: Squad, dmg: real, micro: real, cap: real)
    requires Sound(hp, x, cap) && dmg >= 0.0 && micro >= 0.0
    ensures Sound(hp, Hit(hp, x, dmg, micro), cap)
  {
    HitKeepsSound(x.count, x.unitHp, hp, dmg, micro, cap);
  }

  /** One point of the battle's timeline. */
  datatype Snapshot = Snapshot(
    time: real,
    countA: real, countB: real,
    hpA: real, hpB: real,
    valRemainingA: Num, valRemainingB: Num,
    valLostA: Num, valLostB: Num)

  /** One side at the end of a battle. */
  datatype Army = Army(remaining: real, totalHp: real, initialTotalHp: Num)

  /** What a battle returns. */
  datatype SimResult = SimResult(armyA: Army, armyB: Army, history: seq<Snapshot>, duration: real)

  /**
   * A battle left both armies in good order: counts that are not negative and 0 exactly
   * when no HP is left, and no more HP than `capA` and `capB`, what they started with.
   */
  predicate Settled(r: SimResult, capA: real, capB: real)
  {
    r.armyA.remaining >= 0.0 && r.armyB.remaining >= 0.0
    && (r.armyA.remaining == 0.0 <==> r.armyA.totalHp == 0.0)
    && (r.armyB.remaining == 0.0 <==> r.armyB.totalHp == 0.0)
    && r.armyA.totalHp <= capA && r.armyB.totalHp <= capB
  }

  /** The army HP is not negative, and an army that started with no HP has none left. */
  predicate Consistent(totalHp: real, initialTotalHp: Num)
  {
    totalHp >= 0.0 && (initialTotalHp == Fin(0.0) ==> totalHp == 0.0)
  }

  /**
   * `totalHp / initialTotalHp || 0`: the fraction of its HP an army keeps, 0 when the
   * starting HP is not a number.
   */
  function HpFraction(totalHp: real, initialTotalHp: Num): (p: real)
    requires Consistent(totalHp, initialTotalHp)
    ensures initialTotalHp.Fin? && initialTotalHp.r != 0.0 ==> p * initialTotalHp.r == totalHp
    ensures initialTotalHp.NaN? || totalHp == 0.0 ==> p == 0.0
    ensures initialTotalHp.Fin? && initialTotalHp.r > 0.0 && totalHp <= initialTotalHp.r ==> 0.0 <= p <= 1.0
  {
    if initialTotalHp.Fin? && initialTotalHp.r != 0.0 then totalHp / initialTotalHp.r else 0.0
  }

  /**
   * The timeline point `record` pushes: value left is the HP fraction of the starting value,
   * value lost is the rest.
   */
  function Snap(time: real, countA: real, countB: real, hpA: real, hpB: real,
                initHpA: Num, initHpB: Num, initValA: Num, initValB: Num): (s: Snapshot)
    requires Consistent(hpA, initHpA) && Consistent(hpB, initHpB)
    ensures s.time == time && s.countA == countA && s.countB == countB && s.hpA == hpA && s.hpB == hpB
    ensures s.valRemainingA.Fin? <==> initValA.Fin?
    ensures s.valRemainingB.Fin? <==> initValB.Fin?
    ensures s.valLostA.Fin? ==> s.valRemainingA.Fin? && s.valRemainingA.r + s.valLostA.r == initValA.r
    ensures s.valLostB.Fin? ==> s.valRemainingB.Fin? && s.valRemainingB.r + s.valLostB.r == initValB.r
  {
    var pA := HpFraction(hpA, initHpA);
    var pB := HpFraction(hpB, initHpB);
    var remA := Mul(Fin(pA), initValA);
    var remB := Mul(Fin(pB), initValB);
    Snapshot(time, countA, countB, hpA, hpB, remA, remB, Sub(initValA, remA), Sub(initValB, remB))
  }

  /** What every point of a battle's timeline is measured against: each side's starting HP and starting value. */
  datatype Basis = Basis(initHpA: Num, initHpB: Num, initValA: Num, initValB: Num)

  /** The point `record` pushes in state `s`, for armies of unit HP `hpA` and `hpB`. */
  function Point(hpA: real, hpB: real, s: BattleState, k: Basis): (p: Snapshot)
    requires Consistent(PoolHp(s.a.count, s.a.unitHp, hpA), k.initHpA)
    requires Consistent(PoolHp(s.b.count, s.b.unitHp, hpB), k.initHpB)
    ensures p.time == s.time && p.countA == s.a.count && p.countB == s.b.count
    ensures p.hpA >= 0.0 && p.hpB >= 0.0
  {
    Snap(s.time, s.a.count, s.b.count, PoolHp(s.a.count, s.a.unitHp, hpA), PoolHp(s.b.count, s.b.unitHp, hpB),
         k.initHpA, k.initHpB, k.initValA, k.initValB)
  }

  /**
   * `record` runs after a tick from `s` to `t` that changed a side's whole-unit count, or
   * whose clock is on a quarter second.
   */
  predicate Recorded(s: BattleState, t: BattleState)
  {
    Ceil(t.a.count) != Ceil(s.a.count) || Ceil(t.b.count) != Ceil(s.b.count) || Round(t.time * 100.0) % 25 == 0
  }

  /** What a tick from `s` to `t` adds to the timeline: the point at `t` when it is recorded, else nothing. */
  function Entry(hpA: real, hpB: real, s: BattleState, t: BattleState, k: Basis): (e: seq<Snapshot>)
    requires Consistent(PoolHp(t.a.count, t.a.unitHp, hpA), k.initHpA)
    requires Consistent(PoolHp(t.b.count, t.b.unitHp, hpB), k.initHpB)
    ensures |e| <= 1 && (|e| == 1 <==> Recorded(s, t))
    ensures |e| == 1 ==> e[0] == Point(hpA, hpB, t, k)
  {
    if Recorded(s, t) then [Point(hpA, hpB, t, k)] else []
  }

  /** The points of a timeline from position `from` on come in time order. */
  predicate Chronological(h: seq<Snapshot>, from: nat)
  {
    forall i | from < i < |h| :: h[i - 1].time <= h[i].time
  }

  /** The points of a timeline from position `from` on have non-negative army HP. */
  predicate HpNonNegative(h: seq<Snapshot>, from: nat)
  {
    forall i | from <= i < |h| :: h[i].hpA >= 0.0 && h[i].hpB >= 0.0
  }

  /** Appending a point no earlier than the last one, with non-negative HP, keeps a timeline well formed. */
  lemma AppendKeepsTimeline(h: seq<Snapshot>, from: nat, s: Snapshot)
    requires Chronological(h, from) && HpNonNegative(h, from)
    requires from < |h| ==> h[|h| - 1].time <= s.time
    requires s.hpA >= 0.0 && s.hpB >= 0.0
    ensures Chronological(h + [s], from) && HpNonNegative(h + [s], from)
  {
    var h' := h + [s];
    forall i | from < i < |h'|
      ensures h'[i - 1].time <= h'[i].time
    {
      if i < |h| {
        assert h'[i - 1] == h[i - 1] && h'[i] == h[i];
      }
    }
    forall i | from <= i < |h'|
      ensures h'[i].hpA >= 0.0 && h'[i].hpB >= 0.0
    {
      if i < |h| {
        assert h'[i] == h[i];
      }
    }
  }

  /** The points `h` come in time order, have non-negative HP, and fall after `from` and no later than `to`. */
  predicate Between(h: seq<Snapshot>, from: real, to: real)
  {
    Chronological(h, 0) && HpNonNegative(h, 0) && forall i | 0 <= i < |h| :: from < h[i].time <= to
  }

  /** Points after a later time are after an earlier one. */
  lemma WidenBetween(h: seq<Snapshot>, earlier: real, from: real, to: real)
    requires Between(h, from, to) && earlier <= from
    ensures Between(h, earlier, to)
  {
  }

  /** A point in range, no later than the points that follow it, keeps a timeline in range. */
  lemma PrependBetween(p: Snapshot, rest: seq<Snapshot>, from: real, to: real)
    requires Between(rest, p.time, to) && from < p.time <= to && p.hpA >= 0.0 && p.hpB >= 0.0
    ensures Between([p] + rest, from, to)
  {
    var h := [p] + rest;
    assert forall i | 0 <= i < |rest| :: h[i + 1] == rest[i];
  }

  /**
   * The timeline `h` keeps `h0` and gains at least two points, the first at time `start` and
   * the last at time `end`; the points it gains come in time order and have non-negative HP.
   */
  predicate Continued(h: seq<Snapshot>, h0: seq<Snapshot>, start: real, end: real)
  {
    |h| >= |h0| + 2 && h[..|h0|] == h0 && h[|h0|].time == start && h[|h| - 1].time == end
    && Chronological(h, |h0|) && HpNonNegative(h, |h0|)
  }

  /**
   * A timeline that keeps `h0`, then gains a point `p0`, the points `mid` (in time order,
   * after `p0` and not after `p1`) and a last point `p1`, continues `h0` from `p0` to `p1`.
   */
  lemma FramedInOrder(h0: seq<Snapshot>, p0: Snapshot, mid: seq<Snapshot>, p1: Snapshot)
    requires Between(mid, p0.time, p1.time) && p0.time <= p1.time
    requires p0.hpA >= 0.0 && p0.hpB >= 0.0 && p1.hpA >= 0.0 && p1.hpB >= 0.0
    ensures Continued(h0 + [p0] + mid + [p1], h0, p0.time, p1.time)
  {
    var h := h0 + [p0] + mid + [p1];
    assert forall i | 0 <= i < |mid| :: h[|h0| + 1 + i] == mid[i];
    forall i | |h0| < i < |h|
      ensures h[i - 1].time <= h[i].time
    {
      if i == |h| - 1 && |mid| > 0 {
        assert h[i - 1] == mid[|mid| - 1];
      }
    }
    assert h[..|h0|] == h0;
    assert h[|h0|] == p0;
  }
}
