/**
 * The second-generation simulate route: a single battle as in the first generation, with
 * accuracy mode, and batches of battles answered in order and tagged with their ids.
 */
module SimulateV2 {
  import opened Js
  import opened Combat
  import opened Stats
  import Production
  import opened Outcome
  import opened Request
  import DataV2
  import opened ArmyV2
  import opened SimV2

  /** The resolved stat object of a side that names a unit and resolves. */
  function DataOf(all: map<string, Json>, side: Json): Json
    requires DataV2.Resolved(all, side).Ok?
  {
    JObj(DataV2.Resolved(all, side).value)
  }

  /**
   * A side the model can run: when it names a unit, its engagement and micro are numbers,
   * and the stat object it resolves to can be read without `NaN` or a division by zero.
   */
  predicate Simulable(all: map<string, Json>, side: Option<Json>)
  {
    HasUnit(side) ==>
      NumericConfig(side.value)
      && (DataV2.Resolved(all, side.value).Ok? ==> Readable(DataOf(all, side.value)))
  }

  /** The error `simulateLogic` throws, in the order it checks. */
  function SimulateError(all: map<string, Json>, sideA: Option<Json>, sideB: Option<Json>): Option<string>
  {
    if !HasUnit(sideA) then Some(SideAMissing)
    else if !HasUnit(sideB) then Some(SideBMissing)
    else if DataV2.Resolved(all, sideA.value).Err? then Some(DataV2.Resolved(all, sideA.value).error)
    else if DataV2.Resolved(all, sideB.value).Err? then Some(DataV2.Resolved(all, sideB.value).error)
    else None
  }

  /**
   * What a successful `simulateLogic` answers: the outcome synthesised from each resolved
   * side's unit cost and the battle `run` fights between fresh armies of the resolved sides,
   * at their engagement and micro, with the tick, time limit and accuracy mode the options
   * set, from time 0 and an empty timeline.
   */
  ghost predicate Answers(all: map<string, Json>, sideA: Option<Json>, sideB: Option<Json>, options: Json, o: Outcome)
  {
    SimulateError(all, sideA, sideB).None? && Simulable(all, sideA) && Simulable(all, sideB) && NumericOptions(options)
    && var dA, dB := DataOf(all, sideA.value), DataOf(all, sideB.value);
      var sc := SimConfigOf(options, true);
      SettingsInForce(options, true);
      o == Synthesize(dA, dB, UnitCost(dA), UnitCost(dB),
                      Simulated(dA, dB, ConfigOf(sideA.value), ConfigOf(sideB.value), sc.accuracy,
                                TickOf(sc), Limit(MaxDurationOf(sc)), 0.0, []),
                      IncludeHistory(options))
  }

  /**
   * What an answer means: it is coherent; each side starts from its resolved `count` and
   * from `count * cost`; the timeline is there only when `include_history` is `true`, and it
   * then starts at time 0 with both starting counts and ends at the battle's duration, in time
   * order; the battle ended with a side destroyed or the time limit reached. Between armies
   * of positive unit HP and, when accuracy counts, non-negative accuracy, the counts left are
   * non-negative and zero exactly when no HP is left.
   */
  lemma AnswersMeaning(all: map<string, Json>, sideA: Option<Json>, sideB: Option<Json>, options: Json, o: Outcome)
    requires Answers(all, sideA, sideB, options, o)
    ensures Coherent(o)
    ensures o.sideA.initialCount == Get(DataOf(all, sideA.value), "count")
    ensures o.sideB.initialCount == Get(DataOf(all, sideB.value), "count")
    ensures o.sideA.valueInitial == Mul(ToNumber(Get(DataOf(all, sideA.value), "count")), Fin(UnitCost(DataOf(all, sideA.value))))
    ensures o.sideB.valueInitial == Mul(ToNumber(Get(DataOf(all, sideB.value), "count")), Fin(UnitCost(DataOf(all, sideB.value))))
    ensures o.history.Some? <==> IncludeHistory(options)
    ensures o.history.Some? ==> Continued(o.history.value, [], 0.0, o.duration)
    ensures o.sideA.remainingCount <= 0.0 || o.sideB.remainingCount <= 0.0
            || o.duration >= Limit(MaxDurationOf(SimConfigOf(options, true)))
    ensures Regular(DataOf(all, sideA.value), ConfigOf(sideA.value), DataOf(all, sideB.value), ConfigOf(sideB.value),
                    SimConfigOf(options, true).accuracy) ==>
              o.sideA.remainingCount >= 0.0 && o.sideB.remainingCount >= 0.0
              && (o.sideA.remainingCount == 0.0 <==> o.sideA.remainingHp == 0.0)
              && (o.sideB.remainingCount == 0.0 <==> o.sideB.remainingHp == 0.0)
  {
    var dA, dB := DataOf(all, sideA.value), DataOf(all, sideB.value);
    var cA, cB := ConfigOf(sideA.value), ConfigOf(sideB.value);
    var sc := SimConfigOf(options, true);
    SettingsInForce(options, true);
    var r := Simulated(dA, dB, cA, cB, sc.accuracy, TickOf(sc), Limit(MaxDurationOf(sc)), 0.0, []);
    assert o == Synthesize(dA, dB, UnitCost(dA), UnitCost(dB), r, IncludeHistory(options));
    SimulatedInOrder(dA, dB, cA, cB, sc.accuracy, TickOf(sc), Limit(MaxDurationOf(sc)), 0.0, []);
    if Regular(dA, cA, dB, cB, sc.accuracy) {
      SimulatedSound(dA, dB, cA, cB, sc.accuracy, TickOf(sc), Limit(MaxDurationOf(sc)), 0.0, []);
    }
  }

  /** `simulateLogic`: fails with the first error there is, and otherwise answers as `Answers` says. */
  method SimulateLogic(all: map<string, Json>, sideA: Option<Json>, sideB: Option<Json>, options: Option<Json>)
    returns (r: Result<Outcome>)
    requires options != Some(JNull)
    requires Simulable(all, sideA) && Simulable(all, sideB)
    requires NumericOptions(OptionsOf(options))
    ensures r.Err? <==> SimulateError(all, sideA, sideB).Some?
    ensures r.Err? ==> r.error == SimulateError(all, sideA, sideB).value
    ensures r.Ok? ==> Answers(all, sideA, sideB, OptionsOf(options), r.value)
  {
    var opts := OptionsOf(options);
    if !HasUnit(sideA) {
      return Err(SideAMissing);
    }
    if !HasUnit(sideB) {
      return Err(SideBMissing);
    }
    var resolvedA := DataV2.ResolveUnit(all, sideA.value);
    if resolvedA.Err? {
      return Err(resolvedA.error);
    }
    var configA := ConfigOf(sideA.value);
    var resolvedB := DataV2.ResolveUnit(all, sideB.value);
    if resolvedB.Err? {
      return Err(resolvedB.error);
    }
    var configB := ConfigOf(sideB.value);
    var dataA, dataB := JObj(resolvedA.value), JObj(resolvedB.value);
    var simConfig := SimConfigOf(opts, true);
    SettingsInForce(opts, true);
    var sim := new CombatSim(dataA, dataB, configA, configB, simConfig);
    var result := sim.Run();
    var unitA := Recruit(dataA);
    var unitB := Recruit(dataB);
    var costA, costB := unitA.ParsedCost().total, unitB.ParsedCost().total;
    r := Ok(Synthesize(dataA, dataB, costA, costB, result, IncludeHistory(opts)));
  }

  /** One answer of a batch: the matchup's `id` (`None` when it has none) and the outcome's fields. */
  datatype Tagged = Tagged(id: Option<Json>, outcome: Outcome)

  /** A batch answer carries its matchup's `id` and answers its matchup's battle. */
  ghost predicate Answered(all: map<string, Json>, m: Json, options: Json, t: Tagged)
  {
    t.id == Get(m, "id") && Answers(all, Get(m, "side_a"), Get(m, "side_b"), options, t.outcome)
  }

  const MatchupsError: string := "matchups must be a non-empty array"

  /** A matchup is an object (or any non-null value) whose `side_a` and `side_b` the model can run. */
  predicate Runnable(all: map<string, Json>, m: Json)
  {
    m != JNull && Simulable(all, Get(m, "side_a")) && Simulable(all, Get(m, "side_b"))
  }

  /** The error a matchup's battle would fail with on its own. */
  function MatchupError(all: map<string, Json>, m: Json): Option<string>
  {
    SimulateError(all, Get(m, "side_a"), Get(m, "side_b"))
  }

  /** The errors of the matchups, one each, in order. */
  function Failures(all: map<string, Json>, ms: seq<Json>): (es: seq<Option<string>>)
    ensures |es| == |ms| && forall i :: 0 <= i < |ms| ==> es[i] == MatchupError(all, ms[i])
  {
    seq(|ms|, i requires 0 <= i < |ms| => MatchupError(all, ms[i]))
  }

  /** The error `batchLogic` throws, if any: a missing or empty list, then the first matchup that fails. */
  function BatchError(all: map<string, Json>, matchups: Option<Json>): Option<string>
  {
    if !(matchups.Some? && matchups.value.JArr? && |matchups.value.items| > 0) then Some(MatchupsError)
    else FirstSome(Failures(all, matchups.value.items))
  }

  /**
   * `batchLogic`: fails with the first error there is; otherwise one answer per matchup, in
   * order, each tagged with its matchup's `id` and answering that matchup's battle.
   */
  method BatchLogic(all: map<string, Json>, matchups: Option<Json>, options: Option<Json>) returns (r: Result<seq<Tagged>>)
    requires options != Some(JNull)
    requires NumericOptions(OptionsOf(options))
    requires matchups.Some? && matchups.value.JArr? ==> forall m :: m in matchups.value.items ==> Runnable(all, m)
    ensures r.Err? <==> BatchError(all, matchups).Some?
    ensures r.Err? ==> r.error == BatchError(all, matchups).value
    ensures r.Ok? ==> Pairwise((m, t) => Answered(all, m, OptionsOf(options), t), matchups.value.items, r.value)
  {
    if !(matchups.Some? && matchups.value.JArr? && |matchups.value.items| > 0) {
      return Err(MatchupsError);
    }
    r := AnswerAll(all, matchups.value.items, options);
  }

  /** The loop of `batchLogic`: each matchup answered in order, stopping at the first that fails. */
  method AnswerAll(all: map<string, Json>, ms: seq<Json>, options: Option<Json>) returns (r: Result<seq<Tagged>>)
    requires options != Some(JNull)
    requires NumericOptions(OptionsOf(options))
    requires forall m :: m in ms ==> Runnable(all, m)
    ensures r.Err? <==> FirstSome(Failures(all, ms)).Some?
    ensures r.Err? ==> r.error == FirstSome(Failures(all, ms)).value
    ensures r.Ok? ==> Pairwise((m, t) => Answered(all, m, OptionsOf(options), t), ms, r.value)
  {
    ghost var es := Failures(all, ms);
    ghost var answered := (m, t) => Answered(all, m, OptionsOf(options), t);
    var answers: seq<Tagged> := [];
    for i := 0 to |ms|
      invariant FirstSome(es) == FirstSome(es[i..])
      invariant Pairwise(answered, ms[..i], answers)
    {
      assert ms[i] in ms;
      var t := Answer(all, ms[i], options);
      if t.Err? {
        assert es[i..][0] == es[i];
        return Err(t.error);
      }
      FirstSomeSkips(es, i);
      PairwiseStep(answered, ms, i, answers, t.value);
      answers := answers + [t.value];
    }
    assert es[|ms|..] == [];
    assert ms[..|ms|] == ms;
    r := Ok(answers);
  }

  /** `({ id, ...simulateLogic(side_a, side_b, options) })` for one matchup. */
  method Answer(all: map<string, Json>, m: Json, options: Option<Json>) returns (r: Result<Tagged>)
    requires options != Some(JNull)
    requires NumericOptions(OptionsOf(options))
    requires Runnable(all, m)
    ensures r.Err? <==> MatchupError(all, m).Some?
    ensures r.Err? ==> r.error == MatchupError(all, m).value
    ensures r.Ok? ==> Answered(all, m, OptionsOf(options), r.value)
  {
    var o := SimulateLogic(all, Get(m, "side_a"), Get(m, "side_b"), options);
    if o.Err? {
      return Err(o.error);
    }
    r := Ok(Tagged(Get(m, "id"), o.value));
  }

  /** A batch that is not a non-empty list fails whatever it holds. */
  lemma NotAList(all: map<string, Json>, matchups: Option<Json>)
    requires !(matchups.Some? && matchups.value.JArr?) || matchups.value.items == []
    ensures BatchError(all, matchups) == Some(MatchupsError)
  {
  }

  /**
   * A batch fails exactly when one of its matchups would fail on its own, and then with the
   * error of the first such matchup.
   */
  lemma BatchFailsWithFirstMatchup(all: map<string, Json>, ms: seq<Json>, i: nat)
    requires i < |ms| && MatchupError(all, ms[i]).Some?
    requires forall j :: 0 <= j < i ==> MatchupError(all, ms[j]).None?
    ensures BatchError(all, Some(JArr(ms))) == MatchupError(all, ms[i])
  {
    FirstSomeIsFirst(Failures(all, ms), i);
  }

  /** A batch whose matchups would each succeed on its own does not fail. */
  lemma BatchSucceeds(all: map<string, Json>, ms: seq<Json>)
    requires |ms| > 0
    requires forall j :: 0 <= j < |ms| ==> MatchupError(all, ms[j]).None?
    ensures BatchError(all, Some(JArr(ms))).None?
  {
  }
}
