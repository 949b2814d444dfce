/**
 * An army is a pool of hit points: `count - 1` full units plus one partly damaged unit.
 * Damage comes off the pool and the pool is split back into a count and the HP of the
 * front unit. Micro spreads one volley over several targets so that overkill is wasted.
 */
module Pool {
  import opened Arith

  /** `getTotalHp`: the HP of the whole army, never negative. */
  function PoolHp(count: real, unitHp: real, hp: real): (p: real)
    ensures p >= 0.0 && p >= (count - 1.0) * hp + unitHp
    ensures p == 0.0 || p == (count - 1.0) * hp + unitHp
  {
    Max(0.0, (count - 1.0) * hp + unitHp)
  }

  /**
   * The damage a volley of `totalDmg` really removes. With `micro` targets the volley is cut
   * into `micro` chunks; the first chunk hits the front unit, each further chunk (up to the
   * number of units left) hits a fresh unit, and no chunk removes more than its target has.
   */
  function Effective(totalDmg: real, micro: real, count: real, unitHp: real, hp: real): (e: real)
    ensures micro == 0.0 ==> e == totalDmg
  {
    if micro == 0.0 then totalDmg
    else
      var chunk := totalDmg / micro;
      var groups := Min(micro, Ceil(count) as real);
      Min(unitHp, chunk) + (if groups > 1.0 then (groups - 1.0) * Min(hp, chunk) else 0.0)
  }

  /** The number of units a pool holds: `Math.ceil(pool / hp)`. */
  function SplitCount(pool: real, hp: real): int
    requires hp != 0.0
  {
    Ceil(pool / hp)
  }

  /** The HP of the front unit: `pool % hp`, or a whole unit when that is 0 and a unit is left. */
  function SplitUnitHp(pool: real, hp: real): real
    requires hp != 0.0
  {
    var rem := JsMod(pool, hp);
    if rem != 0.0 then rem else if SplitCount(pool, hp) > 0 then hp else 0.0
  }

  /** The pool left after a volley: `Math.max(0, pool - effective)`. */
  function PoolAfter(count: real, unitHp: real, hp: real, totalDmg: real, micro: real): (p: real)
    ensures p >= 0.0
    ensures p <= PoolHp(count, unitHp, hp) || Effective(totalDmg, micro, count, unitHp, hp) < 0.0
  {
    Max(0.0, PoolHp(count, unitHp, hp) - Effective(totalDmg, micro, count, unitHp, hp))
  }

  /**
   * Splitting a pool and adding it back up gives the same pool; the count is the least whole
   * number of units that can hold it; a surviving army has a front unit with HP in (0, hp],
   * an eliminated one has none.
   */
  lemma SplitRoundTrip(pool: real, hp: real)
    requires pool >= 0.0 && hp > 0.0
    ensures PoolHp(SplitCount(pool, hp) as real, SplitUnitHp(pool, hp), hp) == pool
    ensures SplitCount(pool, hp) >= 0
    ensures SplitCount(pool, hp) == 0 <==> pool == 0.0
    ensures SplitCount(pool, hp) > 0 ==> 0.0 < SplitUnitHp(pool, hp) <= hp
    ensures SplitCount(pool, hp) == 0 ==> SplitUnitHp(pool, hp) == 0.0
  {
    JsModNonNegative(pool, hp);
    if JsMod(pool, hp) != 0.0 {
      SplitWithRemainder(pool, hp);
    } else {
      SplitWhole(pool, hp);
    }
  }

  /** A pool that is not a whole number of units: the front unit holds the remainder. */
  lemma SplitWithRemainder(pool: real, hp: real)
    requires pool >= 0.0 && hp > 0.0 && JsMod(pool, hp) != 0.0
    ensures SplitCount(pool, hp) > 0 && SplitUnitHp(pool, hp) == JsMod(pool, hp)
    ensures (SplitCount(pool, hp) as real - 1.0) * hp + JsMod(pool, hp) == pool
  {
    var q := pool / hp;
    DivideBoth(0.0, pool, hp);
    JsModNonNegative(pool, hp);
    var f := q.Floor;
    var rem := JsMod(pool, hp);
    assert rem == pool - hp * (f as real);
    assert q != f as real;
    var n := SplitCount(pool, hp);
    assert n == f + 1;
    assert (n as real - 1.0) * hp == hp * (f as real);
  }

  /** A pool of whole units: the count is the quotient and the front unit is whole. */
  lemma SplitWhole(pool: real, hp: real)
    requires pool >= 0.0 && hp > 0.0 && JsMod(pool, hp) == 0.0
    ensures SplitCount(pool, hp) >= 0 && (SplitCount(pool, hp) == 0 <==> pool == 0.0)
    ensures SplitCount(pool, hp) > 0 ==> SplitUnitHp(pool, hp) == hp
    ensures SplitCount(pool, hp) == 0 ==> SplitUnitHp(pool, hp) == 0.0
    ensures SplitCount(pool, hp) as real * hp == pool
  {
    var q := pool / hp;
    DivideBoth(0.0, pool, hp);
    JsModNonNegative(pool, hp);
    var f := q.Floor;
    assert pool == hp * (f as real);
    assert (f as real) * hp == pool;
    DivUnique(f as real, pool, hp);
    var n := SplitCount(pool, hp);
    assert n == f;
    if n == 0 {
      assert pool == 0.0;
    } else {
      MulPositive(hp, 0.0, n as real);
    }
  }

  /** With micro of one target or more, a volley never removes more than its raw damage. */
  lemma EffectiveAtMostDamage(totalDmg: real, micro: real, count: real, unitHp: real, hp: real)
    requires micro >= 1.0 && totalDmg >= 0.0
    ensures Effective(totalDmg, micro, count, unitHp, hp) <= totalDmg
  {
    var chunk := totalDmg / micro;
    var groups := Min(micro, Ceil(count) as real);
    if groups > 1.0 {
      ShareBounds(totalDmg, micro, groups);
      MulMonotone(groups - 1.0, Min(hp, chunk), chunk);
      assert Min(unitHp, chunk) + (groups - 1.0) * chunk <= groups * chunk;
    } else {
      ShareBounds(totalDmg, micro, 1.0);
      assert 1.0 * chunk == chunk;
    }
  }

  /**
   * With micro, a volley on a whole number of units never removes more than the army has:
   * overkill on a target is wasted rather than carried to the next one.
   */
  lemma EffectiveWithinPool(totalDmg: real, micro: real, count: real, unitHp: real, hp: real)
    requires micro > 0.0 && totalDmg >= 0.0 && hp >= 0.0 && 0.0 <= unitHp
    requires count >= 1.0 && count == Ceil(count) as real
    ensures Effective(totalDmg, micro, count, unitHp, hp) <= PoolHp(count, unitHp, hp)
  {
    var chunk := totalDmg / micro;
    var groups := Min(micro, Ceil(count) as real);
    if groups > 1.0 {
      assert groups <= count;
      ChunksWithinUnits(Min(unitHp, chunk), groups - 1.0, Min(hp, chunk), unitHp, hp, count - 1.0);
    } else {
      assert Effective(totalDmg, micro, count, unitHp, hp) == Min(unitHp, chunk) + 0.0;
      MulNonNegative(count - 1.0, hp);
    }
  }

  /** `k <= n` further chunks of at most `hp` each, after a first one within `unitHp`, fit in `n` units plus the front one. */
  lemma ChunksWithinUnits(first: real, k: real, m: real, unitHp: real, hp: real, n: real)
    requires 0.0 <= k <= n && m <= hp && first <= unitHp && hp >= 0.0
    ensures first + k * m <= n * hp + unitHp
  {
    MulMonotone(k, m, hp);
    MulMonotone(hp, k, n);
    assert k * hp == hp * k && hp * n == n * hp;
  }

  /** A volley of non-negative damage over non-negative targets removes a non-negative amount. */
  lemma EffectiveNonNegative(totalDmg: real, micro: real, count: real, unitHp: real, hp: real)
    requires micro >= 0.0 && totalDmg >= 0.0 && hp >= 0.0 && unitHp >= 0.0
    ensures Effective(totalDmg, micro, count, unitHp, hp) >= 0.0
  {
    if micro > 0.0 {
      DivideBoth(0.0, totalDmg, micro);
      var groups := Min(micro, Ceil(count) as real);
      if groups > 1.0 {
        MulNonNegative(groups - 1.0, Min(hp, totalDmg / micro));
      }
    }
  }

  /** A volley of no damage removes nothing from an army whose units have non-negative HP. */
  lemma NoDamageNoLoss(micro: real, count: real, unitHp: real, hp: real)
    requires micro >= 0.0 && unitHp >= 0.0 && hp >= 0.0
    ensures Effective(0.0, micro, count, unitHp, hp) == 0.0
    ensures PoolAfter(count, unitHp, hp, 0.0, micro) == PoolHp(count, unitHp, hp)
  {
    if micro > 0.0 {
      assert 0.0 / micro == 0.0;
    }
  }

  /** A fresh army of `count` units at full HP holds `count * hp`, which is 0 exactly when `count` is. */
  lemma FreshPool(count: real, hp: real)
    requires count >= 0.0 && hp > 0.0
    ensures PoolHp(count, hp, hp) == count * hp
    ensures PoolHp(count, hp, hp) == 0.0 <==> count == 0.0
  {
    assert (count - 1.0) * hp + hp == count * hp;
    MulNonNegative(count, hp);
    if count > 0.0 {
      MulPositive(hp, 0.0, count);
      assert hp * count == count * hp;
    }
  }

  /**
   * A hit of non-negative damage keeps an army sound: the new count and front unit are not
   * negative, the count is 0 exactly when no HP is left, and the pool does not grow.
   */
  lemma HitKeepsSound(count: real, unitHp: real, hp: real, dmg: real, micro: real, cap: real)
    requires hp > 0.0 && count >= 0.0 && unitHp >= 0.0 && dmg >= 0.0 && micro >= 0.0
    requires PoolHp(count, unitHp, hp) <= cap
    ensures var pool := PoolAfter(count, unitHp, hp, dmg, micro);
      var c := SplitCount(pool, hp) as real;
      var u := SplitUnitHp(pool, hp);
      c >= 0.0 && u >= 0.0 && (c == 0.0 <==> PoolHp(c, u, hp) == 0.0) && PoolHp(c, u, hp) <= cap
  {
    var pool := PoolAfter(count, unitHp, hp, dmg, micro);
    EffectiveNonNegative(dmg, micro, count, unitHp, hp);
    SplitRoundTrip(pool, hp);
  }
}
