/**
 * The first-generation simulate route: both sides are checked and resolved, one battle is
 * run, and its result is summarised as an outcome. Batches and sweeps are not offered.
 */
module SimulateV1 {
  import opened Js
  import opened Combat
  import opened Stats
  import Production
  import opened Outcome
  import opened Request
  import DataV1
  import Resolve
  import opened ArmyV1
  import opened SimV1

  /** The resolved stat object of a side that names a unit and resolves. */
  function DataOf(all: map<string, Json>, side: Json): Json
    requires DataV1.Resolved(all, side).Ok?
  {
    JObj(DataV1.Resolved(all, side).value)
  }

  /**
   * A side the model can run: when it names a unit, its engagement and micro are numbers,
   * and the stat object it resolves to has a defined reload.
   */
  predicate Simulable(all: map<string, Json>, side: Option<Json>)
  {
    HasUnit(side) ==>
      NumericConfig(side.value)
      && (DataV1.Resolved(all, side.value).Ok? ==> ReloadDefined(DataOf(all, side.value)))
  }

  /**
   * The error `simulateLogic` throws, in the order it checks: a missing side A, a missing
   * side B, then the resolution of side A and of side B.
   */
  function SimulateError(all: map<string, Json>, sideA: Option<Json>, sideB: Option<Json>): Option<string>
  {
    if !HasUnit(sideA) then Some(SideAMissing)
    else if !HasUnit(sideB) then Some(SideBMissing)
    else if DataV1.Resolved(all, sideA.value).Err? then Some(DataV1.Resolved(all, sideA.value).error)
    else if DataV1.Resolved(all, sideB.value).Err? then Some(DataV1.Resolved(all, sideB.value).error)
    else None
  }

  /**
   * What a successful `simulateLogic` answers: the outcome synthesised from each resolved
   * side's unit cost and the battle `run` fights between fresh armies of the resolved sides,
   * at their engagement and micro, with the tick and time limit the options set, from time 0
   * and an empty timeline.
   */
  predicate Answers(all: map<string, Json>, sideA: Option<Json>, sideB: Option<Json>, options: Json, o: Outcome)
  {
    SimulateError(all, sideA, sideB).None? && Simulable(all, sideA) && Simulable(all, sideB) && NumericOptions(options)
    && var dA, dB := DataOf(all, sideA.value), DataOf(all, sideB.value);
      var sc := SimConfigOf(options, false);
      SettingsInForce(options, false);
      o == Synthesize(dA, dB, UnitCost(dA), UnitCost(dB),
                      Simulated(dA, dB, ConfigOf(sideA.value), ConfigOf(sideB.value), TickOf(sc), Limit(MaxDurationOf(sc)), 0.0, []),
                      IncludeHistory(options))
  }

  /**
   * What an answer means: it is coherent; each side starts from its resolved `count` and
   * from `count * cost`; the timeline is there only when `include_history` is `true`, and it
   * then starts at time 0 with both starting counts and ends at the battle's duration, in time
   * order; the battle ended with a side destroyed or the time limit reached. Between armies
   * of positive unit HP, the counts left are non-negative and zero exactly when no HP is left.
   */
  lemma AnswersMeaning(all: map<string, Json>, sideA: Option<Json>, sideB: Option<Json>, options: Json, o: Outcome)
    requires Answers(all, sideA, sideB, options, o)
    ensures Coherent(o)
    ensures o.sideA.initialCount == Get(DataOf(all, sideA.value), "count")
    ensures o.sideB.initialCount == Get(DataOf(all, sideB.value), "count")
    ensures o.sideA.valueInitial == Mul(ToNumber(Get(DataOf(all, sideA.value), "count")), Fin(UnitCost(DataOf(all, sideA.value))))
    ensures o.sideB.valueInitial == Mul(ToNumber(Get(DataOf(all, sideB.value), "count")), Fin(UnitCost(DataOf(all, sideB.value))))
    ensures o.history.Some? <==> IncludeHistory(options)
    ensures o.history.Some? ==> Continued(o.history.value, [], 0.0, o.duration)
    ensures o.sideA.remainingCount <= 0.0 || o.sideB.remainingCount <= 0.0
            || o.duration >= Limit(MaxDurationOf(SimConfigOf(options, false)))
    ensures Regular(DataOf(all, sideA.value), ConfigOf(sideA.value), DataOf(all, sideB.value), ConfigOf(sideB.value)) ==>
              o.sideA.remainingCount >= 0.0 && o.sideB.remainingCount >= 0.0
              && (o.sideA.remainingCount == 0.0 <==> o.sideA.remainingHp == 0.0)
              && (o.sideB.remainingCount == 0.0 <==> o.sideB.remainingHp == 0.0)
  {
    var dA, dB := DataOf(all, sideA.value), DataOf(all, sideB.value);
    var cA, cB := ConfigOf(sideA.value), ConfigOf(sideB.value);
    var sc := SimConfigOf(options, false);
    SettingsInForce(options, false);
    var r := Simulated(dA, dB, cA, cB, TickOf(sc), Limit(MaxDurationOf(sc)), 0.0, []);
    assert o == Synthesize(dA, dB, UnitCost(dA), UnitCost(dB), r, IncludeHistory(options));
    SimulatedInOrder(dA, dB, cA, cB, TickOf(sc), Limit(MaxDurationOf(sc)), 0.0, []);
    if Regular(dA, cA, dB, cB) {
      SimulatedSound(dA, dB, cA, cB, TickOf(sc), Limit(MaxDurationOf(sc)), 0.0, []);
    }
  }

  /** `simulateLogic`: fails with the first error there is, and otherwise answers as `Answers` says. */
  method SimulateLogic(all: map<string, Json>, sideA: Option<Json>, sideB: Option<Json>, options: Option<Json>)
    returns (r: Result<Outcome>)
    requires options != Some(JNull)
    requires Simulable(all, sideA) && Simulable(all, sideB)
    requires NumericOptions(OptionsOf(options))
    ensures r.Err? <==> SimulateError(all, sideA, sideB).Some?
    ensures r.Err? ==> r.error == SimulateError(all, sideA, sideB).value
    ensures r.Ok? ==> Answers(all, sideA, sideB, OptionsOf(options), r.value)
  {
    var opts := OptionsOf(options);
    if !HasUnit(sideA) {
      return Err(SideAMissing);
    }
    if !HasUnit(sideB) {
      return Err(SideBMissing);
    }
    var resolvedA := DataV1.ResolveUnit(all, sideA.value);
    if resolvedA.Err? {
      return Err(resolvedA.error);
    }
    var configA := ConfigOf(sideA.value);
    var resolvedB := DataV1.ResolveUnit(all, sideB.value);
    if resolvedB.Err? {
      return Err(resolvedB.error);
    }
    var configB := ConfigOf(sideB.value);
    var dataA, dataB := JObj(resolvedA.value), JObj(resolvedB.value);
    var simConfig := SimConfigOf(opts, false);
    SettingsInForce(opts, false);
    var sim := new CombatSim(dataA, dataB, configA, configB, simConfig);
    var result := sim.Run();
    var unitA := Recruit(dataA);
    var unitB := Recruit(dataB);
    var costA, costB := unitA.ParsedCost().total, unitB.ParsedCost().total;
    r := Ok(Synthesize(dataA, dataB, costA, costB, result, IncludeHistory(opts)));
  }

  /** `batchLogic` is a stub: it fails whatever it is given. */
  function BatchLogic(matchups: Option<Json>, options: Option<Json>): (r: Result<seq<Outcome>>)
    ensures r.Err? && r.error == "Not implemented"
  {
    Err("Not implemented")
  }

  /** `sweepLogic` is a stub: it fails whatever it is given. */
  function SweepLogic(sideA: Option<Json>, sideB: Option<Json>, sweep: Option<Json>, options: Option<Json>): (r: Result<Outcome>)
    ensures r.Err? && r.error == "Not implemented"
  {
    Err("Not implemented")
  }

  /** A side that is missing or names no unit fails before anything is resolved, side A first. */
  lemma MissingSide(all: map<string, Json>, sideA: Option<Json>, sideB: Option<Json>)
    requires !HasUnit(sideA) || !HasUnit(sideB)
    ensures SimulateError(all, sideA, sideB) == Some(if !HasUnit(sideA) then SideAMissing else SideBMissing)
  {
  }

  /**
   * The starting count of a resolved side is the spec's `count` when it gives one, and the
   * base stat object's otherwise.
   */
  lemma StartingCount(all: map<string, Json>, side: Json)
    requires DataV1.Resolved(all, side).Ok?
    ensures var d := DataOf(all, side).fields;
      var base := DataV1.WithOverrides(DataV1.BaseOf(all, side).value, Get(side, "overrides"));
      (Get(side, "count").Some? ==> "count" in d && d["count"] == Get(side, "count").value)
      && (Get(side, "count").None? ==> Resolve.Unchanged(base, d, "count"))
  {
    var base := DataV1.WithOverrides(DataV1.BaseOf(all, side).value, Get(side, "overrides"));
    var w := Resolve.WithArmy(base, side);
    assert DataOf(all, side).fields == Resolve.WithDiscounts(w, side);
    Resolve.ArmyFieldsCopied(base, side);
    Resolve.DiscountsCopied(w, side);
  }
}
