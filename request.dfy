/**
 * What both generations of the simulate route read from a request before a battle: whether
 * a side is given at all, each side's engagement and micro, and the battle settings.
 */
module Request {
  import opened Js
  import opened Combat

  /** `side && side.unit`: the side is given and names a unit. */
  predicate HasUnit(side: Option<Json>)
  {
    Truthy(side) && Truthy(Get(side.value, "unit"))
  }

  const SideAMissing: string := "side_a must be present and have a unit field"
  const SideBMissing: string := "side_b must be present and have a unit field"

  /** The side's engagement and micro, after their defaults, are numbers. */
  predicate NumericConfig(spec: Json)
  {
    Nullish(Get(spec, "engagement_pct"), JNum(100.0)).JNum? && Nullish(Get(spec, "micro"), JNum(0.0)).JNum?
  }

  /** `{ engagement: spec.engagement_pct ?? 100, targetMicro: spec.micro ?? 0 }`. */
  function ConfigOf(spec: Json): Config
    requires NumericConfig(spec)
  {
    Config(Nullish(Get(spec, "engagement_pct"), JNum(100.0)).n, Nullish(Get(spec, "micro"), JNum(0.0)).n)
  }

  /** The defaults of a side's configuration apply only to an absent or `null` field; a given 0 is kept. */
  lemma ConfigDefaults(spec: Json)
    requires NumericConfig(spec)
    ensures var c := ConfigOf(spec);
      var e, m := Get(spec, "engagement_pct"), Get(spec, "micro");
      (e.None? || e == Some(JNull) ==> c.engagement == 100.0)
      && (e.Some? && e.value.JNum? ==> c.engagement == e.value.n)
      && (m.None? || m == Some(JNull) ==> c.targetMicro == 0.0)
      && (m.Some? && m.value.JNum? ==> c.targetMicro == m.value.n)
  {
  }

  /** `options = {}`: an omitted options argument is an empty object. */
  function OptionsOf(options: Option<Json>): Json
  {
    if options.None? then JObj(map[]) else options.value
  }

  /** A given tick is a positive number and a given time limit is a number. */
  predicate NumericOptions(options: Json)
  {
    (Truthy(Get(options, "tick")) ==> Get(options, "tick").value.JNum? && Get(options, "tick").value.n > 0.0)
    && (Truthy(Get(options, "maxDuration")) ==> Get(options, "maxDuration").value.JNum?)
  }

  /**
   * The battle settings: the tick and the time limit are passed on only when truthy; the
   * second generation also passes `accuracy` and the simulator keeps its truthiness.
   */
  function SimConfigOf(options: Json, withAccuracy: bool): SimConfig
    requires NumericOptions(options)
  {
    var tick := Get(options, "tick");
    var maxDuration := Get(options, "maxDuration");
    SimConfig(
      if Truthy(tick) then Some(tick.value.n) else None,
      if Truthy(maxDuration) then Some(maxDuration.value.n) else None,
      withAccuracy && Truthy(Get(options, "accuracy")))
  }

  /**
   * The settings a battle runs with: a positive tick, 0.05 s unless one is given; the time
   * limit given, or 300 s; and accuracy mode exactly when the second generation is asked for it.
   */
  lemma SettingsInForce(options: Json, withAccuracy: bool)
    requires NumericOptions(options)
    ensures var sc := SimConfigOf(options, withAccuracy);
      var tick, maxDuration := Get(options, "tick"), Get(options, "maxDuration");
      TickOf(sc) > 0.0
      && (Truthy(tick) ==> TickOf(sc) == tick.value.n)
      && (!Truthy(tick) ==> TickOf(sc) == 0.05)
      && (Truthy(maxDuration) ==> Limit(MaxDurationOf(sc)) == maxDuration.value.n)
      && (!Truthy(maxDuration) ==> Limit(MaxDurationOf(sc)) == 300.0)
      && (sc.accuracy <==> withAccuracy && Truthy(Get(options, "accuracy")))
  {
  }

  /** The first of a sequence of checks that fails, in order. */
  function FirstSome<T>(es: seq<Option<T>>): (e: Option<T>)
    ensures e.None? <==> forall i :: 0 <= i < |es| ==> es[i].None?
    ensures e.Some? ==> e in es
  {
    if |es| == 0 then None
    else if es[0].Some? then es[0]
    else
      var rest := FirstSome(es[1..]);
      assert forall i :: 1 <= i < |es| ==> es[i] == es[1..][i - 1];
      rest
  }

  /** The failure `FirstSome` reports is the one of lowest index. */
  lemma {:induction false} FirstSomeIsFirst<T>(es: seq<Option<T>>, i: nat)
    requires i < |es| && es[i].Some?
    requires forall j :: 0 <= j < i ==> es[j].None?
    ensures FirstSome(es) == es[i]
  {
    if i > 0 {
      assert es[1..][i - 1] == es[i];
      FirstSomeIsFirst(es[1..], i - 1);
    }
  }

  /** Once the leading checks pass, the first failure is that of the checks left. */
  lemma FirstSomeSkips<T>(es: seq<Option<T>>, i: nat)
    requires i < |es| && es[i].None?
    ensures FirstSome(es[i..]) == FirstSome(es[i + 1..])
  {
    assert es[i..][1..] == es[i + 1..];
  }

  /** Each element answers to its counterpart, one for one and in order. */
  predicate Pairwise<A, B>(p: (A, B) -> bool, xs: seq<A>, ys: seq<B>)
  {
    |xs| == |ys| && forall i :: 0 <= i < |xs| ==> p(xs[i], ys[i])
  }

  /** An answer to the next element extends a pairwise match by one. */
  lemma PairwiseStep<A, B>(p: (A, B) -> bool, xs: seq<A>, i: nat, ys: seq<B>, y: B)
    requires i < |xs| && Pairwise(p, xs[..i], ys) && p(xs[i], y)
    ensures Pairwise(p, xs[..i + 1], ys + [y])
  {
    assert forall j :: 0 <= j < i ==> xs[..i + 1][j] == xs[..i][j];
  }

  /** Every element passes the test. */
  predicate Every<A>(p: A -> bool, xs: seq<A>)
  {
    forall i :: 0 <= i < |xs| ==> p(xs[i])
  }

  /** The check of each element, in order. */
  function Checks<A, E>(f: A -> Option<E>, xs: seq<A>): (es: seq<Option<E>>)
    ensures |es| == |xs| && forall i :: 0 <= i < |xs| ==> es[i] == f(xs[i])
  {
    seq(|xs|, i requires 0 <= i < |xs| => f(xs[i]))
  }
}
