/** What an army costs, and how many units a production line has finished by a given time. */
module Production {
  import opened Arith

  /** A parsed cost: food, wood and gold after discounts, and their sum. */
  datatype Cost = Cost(f: real, w: real, g: real, total: real)

  /**
   * `getParsedCost`: each resource takes its own discount and then the discount on all
   * resources; discounts are fractions (a 15% discount is 0.15).
   */
  function ParsedCost(baseF: real, baseW: real, baseG: real,
                      discAll: real, discF: real, discW: real, discG: real): (c: Cost)
    ensures c.total == c.f + c.w + c.g
  {
    var m := 1.0 - discAll;
    var f := Discounted(baseF, discF, m);
    var w := Discounted(baseW, discW, m);
    var g := Discounted(baseG, discG, m);
    Cost(f, w, g, f + w + g)
  }

  /** One resource after its own discount `d` and the overall multiplier `m`. */
  function Discounted(base: real, d: real, m: real): real
  {
    base * (1.0 - d) * m
  }

  /** Without discounts the cost is the base cost. */
  lemma NoDiscountIsBase(baseF: real, baseW: real, baseG: real)
    ensures ParsedCost(baseF, baseW, baseG, 0.0, 0.0, 0.0, 0.0)
         == Cost(baseF, baseW, baseG, baseF + baseW + baseG)
  {
  }

  /** The discount on all resources scales the whole total. */
  lemma AllDiscountScalesTotal(baseF: real, baseW: real, baseG: real,
                               discAll: real, discF: real, discW: real, discG: real)
    ensures ParsedCost(baseF, baseW, baseG, discAll, discF, discW, discG).total
         == (1.0 - discAll) * ParsedCost(baseF, baseW, baseG, 0.0, discF, discW, discG).total
  {
  }

  /** A discount on one resource leaves the other two untouched. */
  lemma ResourceDiscountIsLocal(baseF: real, baseW: real, baseG: real,
                                discAll: real, discF: real, discW: real, discG: real, discG': real)
    ensures ParsedCost(baseF, baseW, baseG, discAll, discF, discW, discG).f
         == ParsedCost(baseF, baseW, baseG, discAll, discF, discW, discG').f
    ensures ParsedCost(baseF, baseW, baseG, discAll, discF, discW, discG).w
         == ParsedCost(baseF, baseW, baseG, discAll, discF, discW, discG').w
  {
  }

  /** With base costs and discounts within 0..100%, the cost is between 0 and the base total. */
  lemma DiscountedCostBounds(baseF: real, baseW: real, baseG: real,
                             discAll: real, discF: real, discW: real, discG: real)
    requires baseF >= 0.0 && baseW >= 0.0 && baseG >= 0.0
    requires 0.0 <= discAll <= 1.0 && 0.0 <= discF <= 1.0 && 0.0 <= discW <= 1.0 && 0.0 <= discG <= 1.0
    ensures 0.0 <= ParsedCost(baseF, baseW, baseG, discAll, discF, discW, discG).total <= baseF + baseW + baseG
  {
    var m := 1.0 - discAll;
    DiscountedBounds(baseF, discF, m);
    DiscountedBounds(baseW, discW, m);
    DiscountedBounds(baseG, discG, m);
  }

  /** A base amount scaled by two factors in [0, 1] stays in [0, base]. */
  lemma DiscountedBounds(base: real, d: real, m: real)
    requires base >= 0.0 && 0.0 <= d <= 1.0 && 0.0 <= m <= 1.0
    ensures 0.0 <= Discounted(base, d, m) <= base
  {
    var k := 1.0 - d;
    ScaledTwice(base, k, m);
    assert Discounted(base, d, m) == base * k * m;
  }

  /** A base amount scaled by two factors in [0, 1] stays in [0, base]. */
  lemma ScaledTwice(base: real, k1: real, k2: real)
    requires base >= 0.0 && 0.0 <= k1 <= 1.0 && 0.0 <= k2 <= 1.0
    ensures 0.0 <= base * k1 * k2 <= base
  {
    ScaledDown(base, k1);
    ScaledDown(base * k1, k2);
  }

  /** A non-negative amount scaled by a factor in [0, 1] stays in [0, amount]. */
  lemma ScaledDown(a: real, k: real)
    requires a >= 0.0 && 0.0 <= k <= 1.0
    ensures 0.0 <= a * k <= a
  {
    MulNonNegative(a, k);
    MulNonNegative(a, 1.0 - k);
    assert a * (1.0 - k) == a - a * k;
  }

  /** The archer's cost of 0 food, 25 wood and 45 gold totals 70. */
  lemma ArcherCost()
    ensures ParsedCost(0.0, 25.0, 45.0, 0.0, 0.0, 0.0, 0.0).total == 70.0
  {
  }

  /**
   * `calculateCount`: units finished by time `t` when production starts at `start`, `pre`
   * units are queued before a research pause of `tech` seconds, and `build` buildings each
   * train a unit every `train` seconds. Nothing is finished before production starts, and
   * with positive production times, a queue and a pause of non-negative length, the count
   * is never negative.
   */
  function CalculateCount(t: real, start: real, tech: real, train: real, build: real, pre: real): (n: real)
    requires t >= start ==> train != 0.0 && build != 0.0
    ensures t < start ==> n == 0.0
    ensures train > 0.0 && build > 0.0 && tech >= 0.0 && pre >= 0.0 ==> n >= 0.0
  {
    if t < start then 0.0
    else
      var tPerU := train / build;
      if train > 0.0 && build > 0.0 && tech >= 0.0 && pre >= 0.0 then
        PositiveRate(train, build);
        CountPhases(t, start, tech, tPerU, pre);
        CountAtRate(t, start, tech, tPerU, pre)
      else CountAtRate(t, start, tech, tPerU, pre)
  }

  /** The time per unit of positive production times is positive. */
  lemma PositiveRate(train: real, build: real)
    requires train > 0.0 && build > 0.0
    ensures train / build > 0.0
  {
    assert (train / build) * build == train;
  }

  /** `calculateCount` once the time per unit `tPerU` is known. */
  function CountAtRate(t: real, start: real, tech: real, tPerU: real, pre: real): real
    requires tPerU != 0.0
  {
    if t < start then 0.0
    else
      var timeToPre := start + pre * tPerU;
      if t <= timeToPre then ((t - start) / tPerU).Floor as real
      else if t < timeToPre + tech then pre
      else pre + ((t - (timeToPre + tech)) / tPerU).Floor as real
  }

  /** While the research pause lasts, the count stays at the queued units. */
  lemma TechPauseHoldsQueue(t: real, start: real, tech: real, train: real, build: real, pre: real)
    requires train != 0.0 && build != 0.0 && t >= start
    requires start + pre * (train / build) < t < start + pre * (train / build) + tech
    ensures CalculateCount(t, start, tech, train, build, pre) == pre
  {
  }

  /** Without a queue or a pause, `build` buildings finish one unit each per `train` seconds. */
  lemma SteadyProduction(t: real, start: real, train: real, build: real)
    requires train > 0.0 && build > 0.0 && t >= start
    ensures CalculateCount(t, start, 0.0, train, build, 0.0) == ((t - start) * build / train).Floor as real
  {
    var tPerU := train / build;
    assert tPerU * build == train;
    assert (t - start) / tPerU == (t - start) * build / train by {
      var x := (t - start) / tPerU;
      assert x * tPerU == t - start;
      assert x * train == (t - start) * build by {
        assert x * train == x * (tPerU * build);
        assert x * (tPerU * build) == (x * tPerU) * build;
      }
    }
    assert start + 0.0 * tPerU == start;
  }

  /** With positive production times, a queue and a pause of non-negative length, the count never goes down. */
  lemma CountMonotone(t1: real, t2: real, start: real, tech: real, train: real, build: real, pre: real)
    requires train > 0.0 && build > 0.0 && tech >= 0.0 && pre >= 0.0 && t1 <= t2
    ensures CalculateCount(t1, start, tech, train, build, pre) <= CalculateCount(t2, start, tech, train, build, pre)
  {
    var tPerU := train / build;
    assert tPerU * build == train;
    CountAtRateMonotone(t1, t2, start, tech, tPerU, pre);
  }

  /** `CountMonotone` for a known positive time per unit. */
  lemma CountAtRateMonotone(t1: real, t2: real, start: real, tech: real, tPerU: real, pre: real)
    requires tPerU > 0.0 && tech >= 0.0 && pre >= 0.0 && t1 <= t2
    ensures CountAtRate(t1, start, tech, tPerU, pre) <= CountAtRate(t2, start, tech, tPerU, pre)
  {
    var queueEnd := start + pre * tPerU;
    CountPhases(t1, start, tech, tPerU, pre);
    CountPhases(t2, start, tech, tPerU, pre);
    if start <= t1 && t2 <= queueEnd {
      SamePhaseMonotone(t1, t2, start, tPerU);
    } else if queueEnd + tech <= t1 {
      SamePhaseMonotone(t1, t2, queueEnd + tech, tPerU);
    }
  }

  /** Within one production phase, later means at least as many units. */
  lemma SamePhaseMonotone(t1: real, t2: real, from: real, tPerU: real)
    requires tPerU > 0.0 && t1 <= t2
    ensures ((t1 - from) / tPerU).Floor <= ((t2 - from) / tPerU).Floor
  {
    DivideBoth(t1 - from, t2 - from, tPerU);
  }

  /** The count is never negative, at most the queue while the queue trains, and at least the queue after it. */
  lemma CountPhases(t: real, start: real, tech: real, tPerU: real, pre: real)
    requires tPerU > 0.0 && tech >= 0.0 && pre >= 0.0
    ensures CountAtRate(t, start, tech, tPerU, pre) >= 0.0
    ensures t <= start + pre * tPerU ==> CountAtRate(t, start, tech, tPerU, pre) <= pre
    ensures t > start + pre * tPerU ==> CountAtRate(t, start, tech, tPerU, pre) >= pre
  {
    MulNonNegative(pre, tPerU);
    QueuePhaseBelowQueue(t, start, tPerU, pre);
    AfterPauseAboveQueue(t, start + pre * tPerU + tech, tPerU);
  }

  /** During the queue phase the count is between 0 and the queue length. */
  lemma QueuePhaseBelowQueue(t: real, start: real, tPerU: real, pre: real)
    requires tPerU > 0.0 && pre >= 0.0
    ensures start <= t <= start + pre * tPerU ==>
      0.0 <= ((t - start) / tPerU).Floor as real <= pre
  {
    if start <= t <= start + pre * tPerU {
      DivideBoth(0.0, t - start, tPerU);
      DivideBoth(t - start, pre * tPerU, tPerU);
      assert (pre * tPerU) / tPerU == pre;
    }
  }

  /** After the pause the units finished since it ended are never negative. */
  lemma AfterPauseAboveQueue(t: real, resume: real, tPerU: real)
    requires tPerU > 0.0
    ensures t >= resume ==> ((t - resume) / tPerU).Floor >= 0
  {
    if t >= resume {
      DivideBoth(0.0, t - resume, tPerU);
    }
  }

  /** Worked cases: one unit per 30s, a queue of 3, a 40s pause, and two buildings. */
  lemma ProductionExamples()
    ensures CalculateCount(50.0, 100.0, 0.0, 30.0, 1.0, 0.0) == 0.0
    ensures CalculateCount(60.0, 0.0, 0.0, 30.0, 1.0, 0.0) == 2.0
    ensures CalculateCount(90.0, 0.0, 0.0, 30.0, 1.0, 3.0) == 3.0
    ensures CalculateCount(100.0, 0.0, 40.0, 30.0, 1.0, 3.0) == 3.0
    ensures CalculateCount(160.0, 0.0, 40.0, 30.0, 1.0, 3.0) == 4.0
    ensures CalculateCount(30.0, 0.0, 0.0, 30.0, 2.0, 0.0) == 2.0
  {
  }
}
