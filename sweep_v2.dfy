/**
 * The sweep of the second-generation simulate route: one field of one side is set to each
 * value of a range in turn, one battle is run per value, and the first value at which the
 * winner changes is reported as the breakeven.
 */
module SweepV2 {
  import opened Js
  import opened Arith
  import opened Request
  import SimulateV2

  // ---------------------------------------------------------------------------------------
  // `target.split('.')`

  /** `s.split(c)` for a one-character separator: the pieces between separators, empty ones included. */
  function Split(s: string, c: char): (parts: seq<string>)
    ensures |parts| >= 1
    ensures forall k :: 0 <= k < |parts| ==> c !in parts[k]
    decreases |s|
  {
    if |s| == 0 then [""]
    else
      var rest := Split(s[1..], c);
      if s[0] == c then [""] + rest
      else [[s[0]] + rest[0]] + rest[1..]
  }

  /** `parts.join(c)`: the pieces with one separator between each two. */
  function Join(parts: seq<string>, c: char): string
    requires |parts| >= 1
    decreases |parts|
  {
    if |parts| == 1 then parts[0] else parts[0] + [c] + Join(parts[1..], c)
  }

  /** Joining the pieces of a split gives back the string split. */
  lemma {:induction false} JoinSplit(s: string, c: char)
    ensures Join(Split(s, c), c) == s
    decreases |s|
  {
    if |s| > 0 {
      var rest := Split(s[1..], c);
      JoinSplit(s[1..], c);
      if s[0] == c {
        assert ([""] + rest)[1..] == rest;
      } else if |rest| > 1 {
        assert ([[s[0]] + rest[0]] + rest[1..])[1..] == rest[1..];
      }
    }
  }

  /** Splitting a string after a piece without separators puts that piece in front of the first part. */
  lemma {:induction false} SplitAfter(p: string, t: string, c: char)
    requires c !in p
    ensures var st := Split(t, c);
      Split(p + t, c) == [p + st[0]] + st[1..]
    decreases |p|
  {
    if |p| == 0 {
      var st := Split(t, c);
      assert p + t == t && p + st[0] == st[0];
      assert [st[0]] + st[1..] == st;
    } else {
      assert (p + t)[1..] == p[1..] + t;
      SplitAfter(p[1..], t, c);
      assert [p[0]] + (p[1..] + Split(t, c)[0]) == p + Split(t, c)[0];
    }
  }

  /** Splitting the join of pieces without separators gives back the pieces. */
  lemma {:induction false} SplitJoin(parts: seq<string>, c: char)
    requires |parts| >= 1
    requires forall k :: 0 <= k < |parts| ==> c !in parts[k]
    ensures Split(Join(parts, c), c) == parts
    decreases |parts|
  {
    if |parts| == 1 {
      SplitAfter(parts[0], "", c);
      assert parts[0] + "" == parts[0];
    } else {
      var u := Join(parts[1..], c);
      SplitJoin(parts[1..], c);
      assert Split([c] + u, c) == [""] + Split(u, c) by {
        assert ([c] + u)[1..] == u;
      }
      SplitAfter(parts[0], [c] + u, c);
      assert parts[0] + [c] + u == parts[0] + ([c] + u);
      assert parts[0] + "" == parts[0];
      assert ([""] + parts[1..])[1..] == parts[1..];
    }
  }

  // ---------------------------------------------------------------------------------------
  // `setPath(obj, path, value)`

  /** Every property the walk down `path` finds already there, before the last, is an object. */
  predicate Walkable(obj: map<string, Json>, path: seq<string>)
    decreases |path|
  {
    |path| >= 2 && path[0] in obj ==> obj[path[0]].JObj? && Walkable(obj[path[0]].fields, path[1..])
  }

  /** The property `setPath` writes: `path`, or `undefined` (`path[path.length - 1]`) when the path is empty. */
  function Dest(path: seq<string>): (q: seq<string>)
    ensures |q| >= 1
  {
    if |path| == 0 then ["undefined"] else path
  }

  /** The value at a path of nested objects, if there is one. */
  function Lookup(obj: map<string, Json>, q: seq<string>): Option<Json>
    requires |q| >= 1
    decreases |q|
  {
    if q[0] !in obj then None
    else if |q| == 1 then Some(obj[q[0]])
    else if obj[q[0]].JObj? then Lookup(obj[q[0]].fields, q[1..])
    else None
  }

  /**
   * `setPath(obj, path, value)`: walks down `path`, creating an empty object for every
   * missing step, and writes `value` at its last name. Only the first property of `obj` on
   * the path changes.
   */
  function SetPath(obj: map<string, Json>, path: seq<string>, value: Json): (r: map<string, Json>)
    requires Walkable(obj, path)
    ensures r.Keys == obj.Keys + {Dest(path)[0]}
    ensures forall k :: k in obj && k != Dest(path)[0] ==> r[k] == obj[k]
    decreases |path|
  {
    if |path| == 0 then obj["undefined" := value]
    else if |path| == 1 then obj[path[0] := value]
    else
      var child := if path[0] in obj then obj[path[0]].fields else map[];
      obj[path[0] := JObj(SetPath(child, path[1..], value))]
  }

  /** After `setPath`, the value is at the path, through intermediate objects created where they were missing. */
  lemma {:induction false} SetPathReaches(obj: map<string, Json>, path: seq<string>, value: Json)
    requires Walkable(obj, path)
    ensures Lookup(SetPath(obj, path, value), Dest(path)) == Some(value)
    decreases |path|
  {
    if |path| >= 2 {
      var child := if path[0] in obj then obj[path[0]].fields else map[];
      SetPathReaches(child, path[1..], value);
    }
  }

  /** `setPath` changes nothing off its path: a path that leaves it at some step reads what it read before. */
  lemma {:induction false} SetPathElsewhere(obj: map<string, Json>, path: seq<string>, value: Json, q: seq<string>, j: nat)
    requires Walkable(obj, path)
    requires j < |q| && j < |Dest(path)|
    requires q[..j] == Dest(path)[..j] && q[j] != Dest(path)[j]
    ensures Lookup(SetPath(obj, path, value), q) == Lookup(obj, q)
    decreases |path|
  {
    if j > 0 {
      assert q[0] == q[..j][0] == Dest(path)[..j][0] == path[0];
      var child := if path[0] in obj then obj[path[0]].fields else map[];
      if |q| > 1 {
        assert q[1..][..j - 1] == q[..j][1..];
        assert path[1..][..j - 1] == path[..j][1..];
        SetPathElsewhere(child, path[1..], value, q[1..], j - 1);
        if path[0] !in obj {
          LookupEmpty(q[1..]);
        }
      }
    }
  }

  /** Nothing can be read from an empty object. */
  lemma LookupEmpty(q: seq<string>)
    requires |q| >= 1
    ensures Lookup(map[], q) == None
  {
  }

  // ---------------------------------------------------------------------------------------
  // The swept values

  /** The slack `1e-9` on the upper bound of the range. */
  const Slack: real := 0.000000001

  /** `Math.round((v + step) * 1e9) / 1e9`: the value after `v`. */
  function Next(v: real, step: real): real
  {
    Round9(v + step)
  }

  /** The guard as written, `step <= 0`: the steps refused. */
  predicate StepRefusedAsWritten(step: real)
  {
    step <= 0.0
  }

  /** The steps the loop can advance with: at least half a unit of the ninth decimal, so that rounding moves every value. */
  predicate StepAccepted(step: real)
  {
    step * Billion >= 0.5
  }

  /** `v` is on the grid of the ninth decimal: rounding to nine decimals keeps it. */
  predicate OnGrid(v: real)
  {
    (v * Billion).Floor as real == v * Billion
  }

  /**
   * With the guard as written, a step in (0, 0.5e-9) is let through, and from a value on the
   * grid the next value is that value again, so the loop never ends.
   */
  lemma TinyStepStalls(v: real, step: real)
    requires OnGrid(v)
    requires 0.0 < step && step * Billion < 0.5
    ensures !StepRefusedAsWritten(step) && !StepAccepted(step)
    ensures Next(v, step) == v
  {
    var n := (v * Billion).Floor;
    assert (v + step) * Billion + 0.5 == n as real + (step * Billion + 0.5);
    assert Round((v + step) * Billion) == n;
  }

  /** The input that shows it: `min = max = 0`, `step = 1e-10` passes the check and sweeps 0 forever. */
  lemma TinyStepExample()
    ensures !StepRefusedAsWritten(0.0000000001) && 0.0 <= 0.0 + Slack
    ensures Next(0.0, 0.0000000001) == 0.0
  {
    TinyStepStalls(0.0, 0.0000000001);
  }

  /** An accepted step moves the value at least one place of the ninth decimal up, onto the grid. */
  lemma NextAdvances(v: real, step: real)
    requires StepAccepted(step)
    ensures OnGrid(Next(v, step))
    ensures (Next(v, step) * Billion).Floor >= (v * Billion).Floor + 1
    ensures Next(v, step) > v
  {
    var m := Round((v + step) * Billion);
    assert Next(v, step) * Billion == m as real;
    assert (v + step) * Billion + 0.5 >= v * Billion + 1.0;
    assert m >= (v * Billion + 1.0).Floor;
    assert (v * Billion + 1.0).Floor == (v * Billion).Floor + 1;
  }

  /** What is left of the loop: the places of the ninth decimal from `v` to the limit. */
  function Measure(v: real, lim: real): nat
  {
    if v > lim then 0 else ((lim * Billion).Floor - (v * Billion).Floor + 1) as nat
  }

  /** The measure of a value inside the limit falls when the value moves on. */
  lemma MeasureFalls(v: real, lim: real, step: real)
    requires StepAccepted(step) && v <= lim
    ensures Measure(Next(v, step), lim) < Measure(v, lim)
  {
    NextAdvances(v, step);
    assert (v * Billion).Floor <= (lim * Billion).Floor;
    if Next(v, step) <= lim {
      assert (Next(v, step) * Billion).Floor <= (lim * Billion).Floor;
    }
  }

  /**
   * The values `for (let v = min; v <= lim; v = next(v))` runs through: the first is `v`,
   * each is at most `lim`, each is the next of the one before and larger than it, and the
   * next of the last is past the limit.
   */
  function Values(v: real, lim: real, step: real): (vs: seq<real>)
    requires StepAccepted(step)
    ensures v <= lim <==> |vs| >= 1
    ensures |vs| >= 1 ==> vs[0] == v
    ensures forall k :: 0 <= k < |vs| ==> vs[k] <= lim
    ensures forall k :: 0 <= k < |vs| - 1 ==> vs[k + 1] == Next(vs[k], step) && vs[k] < vs[k + 1]
    ensures |vs| >= 1 ==> Next(vs[|vs| - 1], step) > lim
    decreases Measure(v, lim)
  {
    if v > lim then []
    else
      MeasureFalls(v, lim, step);
      NextAdvances(v, step);
      var rest := Values(Next(v, step), lim, step);
      assert forall k :: 1 <= k < |rest| + 1 ==> ([v] + rest)[k] == rest[k - 1];
      [v] + rest
  }

  // ---------------------------------------------------------------------------------------
  // One battle of the sweep

  /** `sweep` holds a string `target` and a `range` of three numbers. */
  predicate WellFormed(sweep: Option<Json>)
  {
    sweep.Some?
    && Get(sweep.value, "target").Some? && Get(sweep.value, "target").value.JStr?
    && Get(sweep.value, "range").Some?
    && Get(Get(sweep.value, "range").value, "min").Some? && Get(Get(sweep.value, "range").value, "min").value.JNum?
    && Get(Get(sweep.value, "range").value, "max").Some? && Get(Get(sweep.value, "range").value, "max").value.JNum?
    && Get(Get(sweep.value, "range").value, "step").Some? && Get(Get(sweep.value, "range").value, "step").value.JNum?
  }

  /** `const { target, range: { min, max, step } } = sweep`. */
  datatype SweepRequest = SweepRequest(target: string, min: real, max: real, step: real)

  function RequestOf(sweep: Option<Json>): SweepRequest
    requires WellFormed(sweep)
  {
    var range := Get(sweep.value, "range").value;
    SweepRequest(Get(sweep.value, "target").value.s,
      Get(range, "min").value.n, Get(range, "max").value.n, Get(range, "step").value.n)
  }

  const StepError: string := "sweep.range.step must be positive"
  const RangeError: string := "sweep.range.min must be <= max"
  const TargetError: string := "sweep.target must start with side_a or side_b"

  /** The side named by the target and the field path inside it. */
  function SideOf(q: SweepRequest): string
  {
    Split(q.target, '.')[0]
  }

  function PathOf(q: SweepRequest): seq<string>
  {
    Split(q.target, '.')[1..]
  }

  /** The error of the checks made before any battle, in order: the step, the range, the target. */
  function Guard(q: SweepRequest): Option<string>
  {
    if !StepAccepted(q.step) then Some(StepError)
    else if q.min > q.max then Some(RangeError)
    else if SideOf(q) != "side_a" && SideOf(q) != "side_b" then Some(TargetError)
    else None
  }

  /** The targeted side is an object that `setPath` can walk. */
  predicate Targetable(sideA: Option<Json>, sideB: Option<Json>, side: string, path: seq<string>)
  {
    var t := if side == "side_a" then sideA else sideB;
    t.Some? && t.value.JObj? && Walkable(t.value.fields, path)
  }

  /** The two sides of one battle: copies of both, with the target field of the targeted side set to `v`. */
  function Point(sideA: Option<Json>, sideB: Option<Json>, side: string, path: seq<string>, v: real): (Option<Json>, Option<Json>)
    requires Targetable(sideA, sideB, side, path)
  {
    if side == "side_a" then (Some(JObj(SetPath(sideA.value.fields, path, JNum(v)))), sideB)
    else (sideA, Some(JObj(SetPath(sideB.value.fields, path, JNum(v)))))
  }

  /** The targeted side of a battle of the sweep holds `v` at the target field, and the other side is as given. */
  lemma PointSetsTarget(sideA: Option<Json>, sideB: Option<Json>, side: string, path: seq<string>, v: real)
    requires Targetable(sideA, sideB, side, path)
    ensures var (a, b) := Point(sideA, sideB, side, path, v);
      (side == "side_a" ==> b == sideB && Lookup(a.value.fields, Dest(path)) == Some(JNum(v)))
      && (side != "side_a" ==> a == sideA && Lookup(b.value.fields, Dest(path)) == Some(JNum(v)))
  {
    if side == "side_a" {
      SetPathReaches(sideA.value.fields, path, JNum(v));
    } else {
      SetPathReaches(sideB.value.fields, path, JNum(v));
    }
  }

  /** `{ ...options, include_history: false }`. */
  function SweepOptions(options: Option<Json>): (o: Json)
    ensures o.JObj? && Get(o, "include_history") == Some(JBool(false))
  {
    JObj(Spread(options)["include_history" := JBool(false)])
  }

  /** The error the battle at `v` fails with, if any. */
  function PointError(all: map<string, Json>, sideA: Option<Json>, sideB: Option<Json>, side: string, path: seq<string>, v: real): Option<string>
    requires Targetable(sideA, sideB, side, path)
  {
    var (a, b) := Point(sideA, sideB, side, path, v);
    SimulateV2.SimulateError(all, a, b)
  }

  /** The model can run both sides of the battle at `v`. */
  predicate Poised(all: map<string, Json>, sideA: Option<Json>, sideB: Option<Json>, side: string, path: seq<string>, v: real)
  {
    Targetable(sideA, sideB, side, path)
    && var (a, b) := Point(sideA, sideB, side, path, v);
      SimulateV2.Simulable(all, a) && SimulateV2.Simulable(all, b)
  }

  /** `w` is the winner of a battle at `v`: of an outcome that answers that battle as `simulateLogic` promises. */
  ghost predicate Decides(all: map<string, Json>, sideA: Option<Json>, sideB: Option<Json>, side: string, path: seq<string>,
                    options: Option<Json>, v: real, w: Option<string>)
  {
    Targetable(sideA, sideB, side, path)
    && var (a, b) := Point(sideA, sideB, side, path, v);
      exists o :: SimulateV2.Answers(all, a, b, SweepOptions(options), o) && o.winner == w
  }

  /** A battle of the sweep has one winner: the outcome `simulateLogic` answers is the battle `run` fights. */
  lemma DecidedOnce(all: map<string, Json>, sideA: Option<Json>, sideB: Option<Json>, side: string, path: seq<string>,
                    options: Option<Json>, v: real, w1: Option<string>, w2: Option<string>)
    requires Decides(all, sideA, sideB, side, path, options, v, w1)
    requires Decides(all, sideA, sideB, side, path, options, v, w2)
    ensures w1 == w2
  {
    var (a, b) := Point(sideA, sideB, side, path, v);
    var o1 :| SimulateV2.Answers(all, a, b, SweepOptions(options), o1) && o1.winner == w1;
    var o2 :| SimulateV2.Answers(all, a, b, SweepOptions(options), o2) && o2.winner == w2;
  }

  /** One battle of the sweep: the winner of the battle at `v`, or the error it fails with. */
  method Battle(all: map<string, Json>, sideA: Option<Json>, sideB: Option<Json>, side: string, path: seq<string>,
                options: Option<Json>, v: real) returns (r: Result<Option<string>>)
    requires Poised(all, sideA, sideB, side, path, v)
    requires NumericOptions(SweepOptions(options))
    ensures r.Err? <==> PointError(all, sideA, sideB, side, path, v).Some?
    ensures r.Err? ==> r.error == PointError(all, sideA, sideB, side, path, v).value
    ensures r.Ok? ==> Decides(all, sideA, sideB, side, path, options, v, r.value)
  {
    var (a, b) := Point(sideA, sideB, side, path, v);
    var o := SimulateV2.SimulateLogic(all, a, b, Some(SweepOptions(options)));
    if o.Err? {
      return Err(o.error);
    }
    assert SimulateV2.Answers(all, a, b, SweepOptions(options), o.value);
    r := Ok(o.value.winner);
  }

  /** The battle at `v`, as the loop of the sweep sees it: the failure at `v`, or a result that passes the sweep's test. */
  method Probe(all: map<string, Json>, sideA: Option<Json>, sideB: Option<Json>, side: string, path: seq<string>,
               options: Option<Json>, v: real) returns (r: Result<Option<string>>)
    requires Targetable(sideA, sideB, side, path) && PoisedAt(all, sideA, sideB, side, path)(v)
    requires NumericOptions(SweepOptions(options))
    ensures r.Err? <==> FailureAt(all, sideA, sideB, side, path)(v).Some?
    ensures r.Err? ==> r.error == FailureAt(all, sideA, sideB, side, path)(v).value
    ensures r.Ok? ==> Judge(all, sideA, sideB, side, path, options)(v, SweepPoint(v, r.value))
  {
    r := Battle(all, sideA, sideB, side, path, options, v);
  }

  /** The failure of the battle at each value: `PointError` for a targetable side. */
  function FailureAt(all: map<string, Json>, sideA: Option<Json>, sideB: Option<Json>, side: string, path: seq<string>)
    : real -> Option<string>
  {
    (v: real) => if Targetable(sideA, sideB, side, path) then PointError(all, sideA, sideB, side, path, v) else None
  }

  /** The test that the model can run the battle at a value. */
  function PoisedAt(all: map<string, Json>, sideA: Option<Json>, sideB: Option<Json>, side: string, path: seq<string>)
    : real -> bool
  {
    (v: real) => Poised(all, sideA, sideB, side, path, v)
  }

  // ---------------------------------------------------------------------------------------
  // The base winner and the breakeven

  /** `{ value: v, winner }`. */
  datatype SweepPoint = SweepPoint(value: real, winner: Option<string>)

  /** `{ sweep_param: target, breakeven, results }`. */
  datatype Sweep = Sweep(sweepParam: string, breakeven: Option<real>, results: seq<SweepPoint>)

  /** `baseWinner` after the results so far: set by each result while it is still `null`. */
  function BaseWinner(rs: seq<SweepPoint>): Option<string>
    decreases |rs|
  {
    if |rs| == 0 then None
    else
      var prev := BaseWinner(rs[..|rs| - 1]);
      if prev.None? then rs[|rs| - 1].winner else prev
  }

  /** `breakeven` after the results so far: set once, by the first result after the base winner whose winner differs from it. */
  function Breakeven(rs: seq<SweepPoint>): Option<real>
    decreases |rs|
  {
    if |rs| == 0 then None
    else
      var prev := rs[..|rs| - 1];
      var last := rs[|rs| - 1];
      if BaseWinner(prev).None? then Breakeven(prev)
      else if Breakeven(prev).None? && last.winner != BaseWinner(prev) then Some(last.value)
      else Breakeven(prev)
  }

  /** The base winner is `null` exactly when every battle so far was a draw. */
  lemma {:induction false} BaseWinnerNone(rs: seq<SweepPoint>)
    ensures BaseWinner(rs).None? <==> forall k :: 0 <= k < |rs| ==> rs[k].winner.None?
    decreases |rs|
  {
    if |rs| > 0 {
      var prev := rs[..|rs| - 1];
      BaseWinnerNone(prev);
      assert forall k :: 0 <= k < |prev| ==> prev[k] == rs[k];
    }
  }

  /** The base winner is the winner of the first battle that was not a draw. */
  lemma {:induction false} BaseWinnerFirst(rs: seq<SweepPoint>, d: nat)
    requires d < |rs| && rs[d].winner.Some?
    requires forall k :: 0 <= k < d ==> rs[k].winner.None?
    ensures BaseWinner(rs) == rs[d].winner
    decreases |rs|
  {
    var prev := rs[..|rs| - 1];
    assert forall k :: 0 <= k < |prev| ==> prev[k] == rs[k];
    if |rs| == d + 1 {
      BaseWinnerNone(prev);
    } else {
      BaseWinnerFirst(prev, d);
    }
  }

  /** A base winner comes from some first decided battle. */
  lemma BaseWinnerIndex(rs: seq<SweepPoint>) returns (d: nat)
    requires BaseWinner(rs).Some?
    ensures d < |rs| && rs[d].winner == BaseWinner(rs)
    ensures forall k :: 0 <= k < d ==> rs[k].winner.None?
  {
    BaseWinnerNone(rs);
    d := 0;
    while rs[d].winner.None?
      invariant d < |rs|
      invariant forall k :: 0 <= k < d ==> rs[k].winner.None?
      decreases |rs| - d
    {
      d := d + 1;
    }
    BaseWinnerFirst(rs, d);
  }

  /** Every decided battle is followed only by battles with the same winner. */
  predicate Steady(rs: seq<SweepPoint>)
  {
    forall k, l :: 0 <= k < l < |rs| && rs[k].winner.Some? ==> rs[l].winner == rs[k].winner
  }

  /** The breakeven is `null` exactly when no battle after a decided one has another winner. */
  lemma {:induction false} BreakevenNone(rs: seq<SweepPoint>)
    ensures Breakeven(rs).None? <==> Steady(rs)
    decreases |rs|
  {
    if |rs| > 0 {
      var n := |rs| - 1;
      var prev := rs[..n];
      assert forall k :: 0 <= k < n ==> prev[k] == rs[k];
      BreakevenNone(prev);
      if BaseWinner(prev).None? {
        BaseWinnerNone(prev);
      } else {
        var d := BaseWinnerIndex(prev);
        if Breakeven(prev).None? && rs[n].winner != BaseWinner(prev) {
          assert rs[d].winner.Some? && rs[n].winner != rs[d].winner;
        } else if Breakeven(prev).None? {
          forall k, l | 0 <= k < l < |rs| && rs[k].winner.Some?
            ensures rs[l].winner == rs[k].winner
          {
            if l == n {
              assert d <= k;
              if d < k {
                assert prev[d].winner.Some?;
              }
            }
          }
        }
      }
    }
  }

  /**
   * The breakeven is the value of the first battle, after the first decided one, whose
   * winner is not that battle's winner.
   */
  lemma {:induction false} BreakevenAt(rs: seq<SweepPoint>, d: nat, j: nat)
    requires d < j < |rs|
    requires forall k :: 0 <= k < d ==> rs[k].winner.None?
    requires rs[d].winner.Some?
    requires forall k :: d < k < j ==> rs[k].winner == rs[d].winner
    requires rs[j].winner != rs[d].winner
    ensures Breakeven(rs) == Some(rs[j].value)
    decreases |rs|
  {
    var prev := rs[..|rs| - 1];
    assert forall k :: 0 <= k < |prev| ==> prev[k] == rs[k];
    BaseWinnerFirst(prev, d);
    if |rs| == j + 1 {
      assert Steady(prev) by {
        forall k, l | 0 <= k < l < |prev| && prev[k].winner.Some?
          ensures prev[l].winner == prev[k].winner
        {
          assert d <= k;
        }
      }
      BreakevenNone(prev);
    } else {
      BreakevenAt(prev, d, j);
    }
  }

  // ---------------------------------------------------------------------------------------
  // `sweepLogic`

  /** The error `sweepLogic` throws, in the order it checks: the three checks, then the first battle that fails. */
  function SweepError(all: map<string, Json>, sideA: Option<Json>, sideB: Option<Json>, q: SweepRequest): Option<string>
  {
    if Guard(q).Some? then Guard(q)
    else FirstSome(Checks(FailureAt(all, sideA, sideB, SideOf(q), PathOf(q)), Swept(q)))
  }

  /** The swept values of a request that passes the checks. */
  function Swept(q: SweepRequest): seq<real>
    requires Guard(q).None?
  {
    Values(q.min, q.max + Slack, q.step)
  }

  /** The swept values are those of the loop from `min` up to `max` plus the slack. */
  lemma SweptValues(q: SweepRequest)
    requires Guard(q).None?
    ensures StepAccepted(q.step) && Swept(q) == Values(q.min, q.max + Slack, q.step)
  {
  }

  /**
   * What `sweepLogic` needs of its inputs beyond what it checks: the targeted side is an
   * object `setPath` can walk, and the model can run the battle at every swept value.
   */
  predicate Runnable(all: map<string, Json>, sideA: Option<Json>, sideB: Option<Json>, q: SweepRequest)
  {
    Guard(q).None? ==>
      Targetable(sideA, sideB, SideOf(q), PathOf(q))
      && Every(PoisedAt(all, sideA, sideB, SideOf(q), PathOf(q)), Swept(q))
  }

  /** The test each result of a sweep passes: it holds the value swept and the winner of the battle at that value. */
  ghost function Judge(all: map<string, Json>, sideA: Option<Json>, sideB: Option<Json>, side: string, path: seq<string>,
                       options: Option<Json>): (real, SweepPoint) -> bool
  {
    (v: real, p: SweepPoint) => p.value == v && Decides(all, sideA, sideB, side, path, options, v, p.winner)
  }

  /**
   * `sweepLogic`: fails with the first error there is; otherwise names the target, has one
   * result per swept value, in order, each with the winner of the battle at that value, and
   * reports the breakeven of those results.
   */
  method SweepLogic(all: map<string, Json>, sideA: Option<Json>, sideB: Option<Json>, sweep: Option<Json>, options: Option<Json>)
    returns (r: Result<Sweep>)
    requires WellFormed(sweep)
    requires NumericOptions(SweepOptions(options))
    requires Runnable(all, sideA, sideB, RequestOf(sweep))
    ensures r.Err? <==> SweepError(all, sideA, sideB, RequestOf(sweep)).Some?
    ensures r.Err? ==> r.error == SweepError(all, sideA, sideB, RequestOf(sweep)).value
    ensures r.Ok? ==>
      var q := RequestOf(sweep);
      r.value.sweepParam == q.target
      && Pairwise(Judge(all, sideA, sideB, SideOf(q), PathOf(q), options), Swept(q), r.value.results)
      && r.value.breakeven == Breakeven(r.value.results)
  {
    var q := RequestOf(sweep);
    if !StepAccepted(q.step) {
      return Err(StepError);
    }
    if q.min > q.max {
      return Err(RangeError);
    }
    if SideOf(q) != "side_a" && SideOf(q) != "side_b" {
      return Err(TargetError);
    }
    r := SweepChecked(all, sideA, sideB, q, options);
  }

  /** `sweepLogic` past its three checks: the loop over the swept values. */
  method SweepChecked(all: map<string, Json>, sideA: Option<Json>, sideB: Option<Json>, q: SweepRequest, options: Option<Json>)
    returns (r: Result<Sweep>)
    requires Guard(q).None?
    requires NumericOptions(SweepOptions(options))
    requires Runnable(all, sideA, sideB, q)
    ensures r.Err? <==> SweepError(all, sideA, sideB, q).Some?
    ensures r.Err? ==> r.error == SweepError(all, sideA, sideB, q).value
    ensures r.Ok? ==>
      r.value.sweepParam == q.target
      && Pairwise(Judge(all, sideA, sideB, SideOf(q), PathOf(q), options), Swept(q), r.value.results)
      && r.value.breakeven == Breakeven(r.value.results)
  {
    var side, path := SideOf(q), PathOf(q);
    ghost var vs := Swept(q);
    SweptValues(q);
    var run := RunSweep(all, sideA, sideB, side, path, options, q.min, q.max + Slack, q.step, vs);
    if run.Err? {
      return Err(run.error);
    }
    r := Ok(Sweep(q.target, run.value.1, run.value.0));
  }

  /**
   * The loop of `sweepLogic`: a battle at each value from `min` up to `lim`, the results in
   * order, and `baseWinner` and `breakeven` updated after each.
   */
  method RunSweep(all: map<string, Json>, sideA: Option<Json>, sideB: Option<Json>, side: string, path: seq<string>,
                  options: Option<Json>, min: real, lim: real, step: real, ghost vs: seq<real>)
    returns (r: Result<(seq<SweepPoint>, Option<real>)>)
    requires StepAccepted(step) && vs == Values(min, lim, step)
    requires Targetable(sideA, sideB, side, path)
    requires NumericOptions(SweepOptions(options))
    requires Every(PoisedAt(all, sideA, sideB, side, path), vs)
    ensures r.Err? <==> FirstSome(Checks(FailureAt(all, sideA, sideB, side, path), vs)).Some?
    ensures r.Err? ==> r.error == FirstSome(Checks(FailureAt(all, sideA, sideB, side, path), vs)).value
    ensures r.Ok? ==>
      Pairwise(Judge(all, sideA, sideB, side, path, options), vs, r.value.0)
      && r.value.1 == Breakeven(r.value.0)
  {
    ghost var es := Checks(FailureAt(all, sideA, sideB, side, path), vs);
    ghost var judge := Judge(all, sideA, sideB, side, path, options);
    var results: seq<SweepPoint> := [];
    var baseWinner: Option<string> := None;
    var breakeven: Option<real> := None;
    var v := min;
    while v <= lim
      invariant |results| <= |vs| && Values(v, lim, step) == vs[|results|..]
      invariant FirstSome(es) == FirstSome(es[|results|..])
      invariant Pairwise(judge, vs[..|results|], results)
      invariant baseWinner == BaseWinner(results) && breakeven == Breakeven(results)
      decreases Measure(v, lim)
    {
      var i := |results|;
      ValuesAt(vs, i, v, lim, step);
      assert PoisedAt(all, sideA, sideB, side, path)(vs[i]);
      var w := Probe(all, sideA, sideB, side, path, options, v);
      if w.Err? {
        assert es[i..][0] == es[i];
        return Err(w.error);
      }
      FirstSomeSkips(es, i);
      PairwiseStep(judge, vs, i, results, SweepPoint(v, w.value));
      Tracked(results, SweepPoint(v, w.value));
      if baseWinner.None? {
        baseWinner := w.value;
      } else if breakeven.None? && w.value != baseWinner {
        breakeven := Some(v);
      }
      results := results + [SweepPoint(v, w.value)];
      MeasureFalls(v, lim, step);
      v := Next(v, step);
    }
    assert es[|results|..] == [];
    assert vs[..|results|] == vs;
    r := Ok((results, breakeven));
  }

  /** The value the loop is at is the next swept value, and the ones after it are the rest. */
  lemma ValuesAt(vs: seq<real>, i: nat, v: real, lim: real, step: real)
    requires StepAccepted(step) && v <= lim
    requires i <= |vs| && Values(v, lim, step) == vs[i..]
    ensures i < |vs| && vs[i] == v
    ensures Values(Next(v, step), lim, step) == vs[i + 1..]
  {
    assert vs[i..][1..] == vs[i + 1..];
  }

  /** One more result moves the base winner and the breakeven as the loop body does. */
  lemma Tracked(rs: seq<SweepPoint>, p: SweepPoint)
    ensures var rs' := rs + [p];
      BaseWinner(rs') == (if BaseWinner(rs).None? then p.winner else BaseWinner(rs))
      && Breakeven(rs') == (if BaseWinner(rs).Some? && Breakeven(rs).None? && p.winner != BaseWinner(rs) then Some(p.value) else Breakeven(rs))
  {
    assert (rs + [p])[..|rs|] == rs;
  }
}
