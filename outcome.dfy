/**
 * The answer to a simulation request, synthesised from the battle's result: the winner
 * (or a draw), each side's remaining count and HP, the resource value it started with,
 * kept and lost, and how much of the opponent's value each side destroyed per unit of its own.
 */
module Outcome {
  import opened Arith
  import opened Js
  import opened Combat

  /** One side of the answer. */
  datatype SideOutcome = SideOutcome(
    remainingCount: real,
    remainingHp: real,
    initialCount: Option<Json>,
    hpPct: real,
    valueInitial: Num,
    valueRemaining: Num,
    valueLost: Num)

  /** The whole answer; `None` stands for `null`. */
  datatype Outcome = Outcome(
    winner: Option<string>,
    draw: bool,
    duration: real,
    sideA: SideOutcome,
    sideB: SideOutcome,
    efficiencyA: Option<Num>,
    efficiencyB: Option<Num>,
    history: Option<seq<Snapshot>>)

  /** The value figures of a side agree: what is left is the HP fraction of the start, what is lost is the rest. */
  predicate ValueKept(s: SideOutcome)
  {
    (s.valueRemaining.Fin? <==> s.valueInitial.Fin?)
    && (s.valueLost.Fin? <==> s.valueInitial.Fin?)
    && (s.valueRemaining.Fin? ==> s.valueRemaining.r == s.hpPct * s.valueInitial.r)
    && (s.valueLost.Fin? ==> s.valueLost.r == s.valueInitial.r - s.valueRemaining.r)
  }

  /** An efficiency is `null` exactly when the side lost nothing, and otherwise the opponent's loss per unit of its own. */
  predicate EfficiencyAgrees(e: Option<Num>, ownLost: Num, otherLost: Num)
  {
    (e.None? <==> ownLost == Fin(0.0))
    && (e.Some? ==> (e.value.Fin? <==> ownLost.Fin? && otherLost.Fin?))
    && (e.Some? && e.value.Fin? ==> e.value.r * ownLost.r == otherLost.r)
  }

  /**
   * A well-formed answer: a draw exactly when both sides have as many units left, no winner
   * exactly on a draw, and otherwise the side with more units left wins; the value figures
   * and efficiencies agree with each other.
   */
  predicate Coherent(o: Outcome)
  {
    var remA, remB := o.sideA.remainingCount, o.sideB.remainingCount;
    (o.draw <==> remA == remB)
    && (o.winner.None? <==> o.draw)
    && (o.winner == Some("side_a") <==> remA > remB)
    && (o.winner == Some("side_b") <==> remA < remB)
    && ValueKept(o.sideA) && ValueKept(o.sideB)
    && EfficiencyAgrees(o.efficiencyA, o.sideA.valueLost, o.sideB.valueLost)
    && EfficiencyAgrees(o.efficiencyB, o.sideB.valueLost, o.sideA.valueLost)
  }

  /** The winner: `null` on equal remaining counts, else the side with more units left. */
  function Winner(remA: real, remB: real): Option<string>
  {
    if remA == remB then None else if remA > remB then Some("side_a") else Some("side_b")
  }

  /** `ownLost === 0 ? null : otherLost / ownLost`. */
  function Efficiency(ownLost: Num, otherLost: Num): Option<Num>
  {
    if ownLost == Fin(0.0) then None else Some(Div(otherLost, ownLost))
  }

  /**
   * One side of the answer: the starting value is `count * cost` with `count` read as a
   * number, the HP fraction is `totalHp / initialTotalHp || 0`, the value kept is that
   * fraction of the starting value, and the value lost the rest.
   */
  function Side(army: Army, count: Option<Json>, cost: real): SideOutcome
    requires Consistent(army.totalHp, army.initialTotalHp)
  {
    var initVal := Mul(ToNumber(count), Fin(cost));
    var pct := HpFraction(army.totalHp, army.initialTotalHp);
    var remVal := Mul(Fin(pct), initVal);
    SideOutcome(army.remaining, army.totalHp, count, pct, initVal, remVal, Sub(initVal, remVal))
  }

  /** `options.include_history === true`: only the boolean `true` asks for the timeline. */
  predicate IncludeHistory(options: Json)
  {
    Get(options, "include_history") == Some(JBool(true))
  }

  /** The outcome synthesis of `simulateLogic`, from the resolved data of both sides, their unit costs and the battle's result. */
  function Synthesize(dataA: Json, dataB: Json, costA: real, costB: real, result: SimResult, includeHistory: bool): (o: Outcome)
    requires Consistent(result.armyA.totalHp, result.armyA.initialTotalHp)
    requires Consistent(result.armyB.totalHp, result.armyB.initialTotalHp)
    ensures Coherent(o)
    ensures o.sideA.remainingCount == result.armyA.remaining && o.sideB.remainingCount == result.armyB.remaining
    ensures o.sideA.remainingHp == result.armyA.totalHp && o.sideB.remainingHp == result.armyB.totalHp
    ensures o.sideA.initialCount == Get(dataA, "count") && o.sideB.initialCount == Get(dataB, "count")
    ensures o.sideA.hpPct == HpFraction(result.armyA.totalHp, result.armyA.initialTotalHp)
    ensures o.sideB.hpPct == HpFraction(result.armyB.totalHp, result.armyB.initialTotalHp)
    ensures o.duration == result.duration
    ensures o.sideA.valueInitial == Mul(ToNumber(Get(dataA, "count")), Fin(costA))
    ensures o.sideB.valueInitial == Mul(ToNumber(Get(dataB, "count")), Fin(costB))
    ensures o.history.Some? <==> includeHistory
    ensures o.history.Some? ==> o.history.value == result.history
  {
    var a := Side(result.armyA, Get(dataA, "count"), costA);
    var b := Side(result.armyB, Get(dataB, "count"), costB);
    SideKeepsValue(result.armyA, Get(dataA, "count"), costA);
    SideKeepsValue(result.armyB, Get(dataB, "count"), costB);
    EfficiencyMeaning(a.valueLost, b.valueLost);
    EfficiencyMeaning(b.valueLost, a.valueLost);
    Outcome(Winner(a.remainingCount, b.remainingCount), a.remainingCount == b.remainingCount, result.duration,
            a, b, Efficiency(a.valueLost, b.valueLost), Efficiency(b.valueLost, a.valueLost),
            if includeHistory then Some(result.history) else None)
  }

  /** A side's value figures agree with each other. */
  lemma SideKeepsValue(army: Army, count: Option<Json>, cost: real)
    requires Consistent(army.totalHp, army.initialTotalHp)
    ensures ValueKept(Side(army, count, cost))
  {
  }

  /** `Efficiency` is `null` exactly on no loss, and otherwise the loss ratio. */
  lemma EfficiencyMeaning(ownLost: Num, otherLost: Num)
    ensures EfficiencyAgrees(Efficiency(ownLost, otherLost), ownLost, otherLost)
  {
  }

  /** Swapping the sides swaps the winner and keeps a draw. */
  lemma SwapSides(dataA: Json, dataB: Json, costA: real, costB: real, result: SimResult, includeHistory: bool)
    requires Consistent(result.armyA.totalHp, result.armyA.initialTotalHp)
    requires Consistent(result.armyB.totalHp, result.armyB.initialTotalHp)
    ensures var o := Synthesize(dataA, dataB, costA, costB, result, includeHistory);
      var swapped := SimResult(result.armyB, result.armyA, result.history, result.duration);
      var o' := Synthesize(dataB, dataA, costB, costA, swapped, includeHistory);
      o'.draw == o.draw
      && (o.winner == Some("side_a") <==> o'.winner == Some("side_b"))
      && o'.sideA == o.sideB && o'.sideB == o.sideA
      && o'.efficiencyA == o.efficiencyB && o'.efficiencyB == o.efficiencyA
  {
  }

  /** When both sides lost a finite non-zero value, the two efficiencies are reciprocal. */
  lemma EfficienciesReciprocal(o: Outcome)
    requires Coherent(o)
    requires o.sideA.valueLost.Fin? && o.sideB.valueLost.Fin?
    requires o.sideA.valueLost.r != 0.0 && o.sideB.valueLost.r != 0.0
    ensures o.efficiencyA.Some? && o.efficiencyB.Some?
    ensures o.efficiencyA.value.Fin? && o.efficiencyB.value.Fin?
    ensures o.efficiencyA.value.r * o.efficiencyB.value.r == 1.0
  {
    var la, lb := o.sideA.valueLost.r, o.sideB.valueLost.r;
    var ea, eb := o.efficiencyA.value.r, o.efficiencyB.value.r;
    assert ea * la == lb && eb * lb == la;
    Reciprocal(ea, la, eb, lb);
  }

  /** Two ratios that undo each other multiply to 1. */
  lemma Reciprocal(ea: real, la: real, eb: real, lb: real)
    requires ea * la == lb && eb * lb == la && lb != 0.0
    ensures ea * eb == 1.0
  {
    var x := eb * lb;
    var p := ea * eb;
    assert ea * x == lb;
    assert p * lb == ea * x;
    assert p * lb == lb;
    DivUnique(p, lb, lb);
    DivUnique(1.0, lb, lb);
  }

  /**
   * A side whose HP did not grow keeps a fraction of its value between none and all of it:
   * with a non-negative starting value, what it keeps and what it loses are both between 0
   * and the starting value.
   */
  lemma ValueWithinStart(army: Army, count: Option<Json>, cost: real)
    requires Consistent(army.totalHp, army.initialTotalHp)
    requires army.initialTotalHp.Fin? && army.initialTotalHp.r > 0.0 && army.totalHp <= army.initialTotalHp.r
    requires ToNumber(count).Fin? && ToNumber(count).r * cost >= 0.0
    ensures var s := Side(army, count, cost);
      s.valueRemaining.Fin? && s.valueLost.Fin?
      && 0.0 <= s.valueRemaining.r <= s.valueInitial.r
      && 0.0 <= s.valueLost.r <= s.valueInitial.r
  {
    var s := Side(army, count, cost);
    var v := s.valueInitial.r;
    assert 0.0 <= s.hpPct <= 1.0;
    MulMonotone(v, s.hpPct, 1.0);
    MulNonNegative(s.hpPct, v);
    assert s.valueRemaining.r == s.hpPct * v;
    assert v * s.hpPct == s.hpPct * v;
  }

  /** Ten archers at 0 food, 25 wood and 45 gold are worth 700; untouched, they keep it all and lose nothing. */
  lemma TenArchers(army: Army)
    requires army.totalHp == 300.0 && army.initialTotalHp == Fin(300.0)
    ensures var s := Side(army, Some(JNum(10.0)), 70.0);
      s.valueInitial == Fin(700.0) && s.hpPct == 1.0 && s.valueRemaining == Fin(700.0) && s.valueLost == Fin(0.0)
  {
  }
}
