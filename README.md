# aoe2-battlesim in Dafny

A model of the core of aoe2-battlesim, a battle simulator for Age of Empires II. Two armies
fight in fixed time steps until one side has no units left or a time limit is reached. Each
army is one unit type in some number.

The simulator comes in two generations:

- **The first generation** (`worker/src/sim.js`) uses a flat attack-minus-armor damage
  formula.
- **The second generation** (`worker/src/sim_v2.js`) sums attack minus armor over armor
  classes. It also has a fallback formula for units without classes, an optional accuracy
  mode, and trample splash damage.

Around the engines, the model covers these route functions:

- **Resolution** (`worker/src/data.js`, `worker/src/data_v2.js`): turns an army spec into the
  engine's flat stat object. The spec is a catalog key or an inline object, plus overrides,
  army-level fields and resource discounts.
- **Simulate** (`worker/src/routes/simulate.js`, `worker/src/routes/simulate_v2.js`): checks
  the request and runs a battle. It reports the winner, resource values and efficiencies.
  The second generation adds batches and parameter sweeps, where a sweep reports its
  breakeven value.
- **Scenarios** (`worker/src/routes/scenarios.js`): translates stored scenarios into army
  specs and runs them, with the caller's patches merged in.
- **Catalog** (`worker/src/routes/catalog.js`): lists units and presets, filtered by name
  and, for the second generation, by civilisation, and fetches single entries.

JavaScript values are modelled by `Js.Json`. Numbers are exact reals, and `NaN` is its own
case. An "undefined" value is a missing key, written `None`. `parseFloat(x) || d` is
`Js.NumOr`, and `x ?? d` is `Js.Nullish`.

The classes follow the source's classes:

- The simulator's `Unit` and `CombatSim` are Dafny classes, with the fields the source
  updates in place.
- `run` is a method with the battle loop. It is proved equal to a specification function
  of the whole battle (`Simulated`), built from one side's turn (`Turn`), one tick (`Tick`)
  and the loop (`Battle`, `Timeline`); soundness, termination and the timeline's order are
  lemmas about those functions.
- `resolveUnit`, the batch loop and the sweep loop are methods. Each is proved equal to a
  specification function, and the properties are lemmas about those functions.

Catalogs (`UNITS`, `PRESETS`, `ALL_UNITS`) and the stored scenarios are parameters, because
they are generated data and not part of the model.

On one point the code and the repository's own tests disagree. A second-generation army
without `count` starts with 0 units, because `worker/src/sim_v2.js:4` reads
`parseFloat(data.count) || 0`. The test at `worker/test/unit/sim_v2.test.js:253-258` expects 1.
The model follows the code (`Stats.CountDefault`). This is not claimed as a defect in either: nothing shows which of the two the authors intend.

## Model

| member | source | states |
|---|---|---|
| Arith.Max | worker/src/sim.js:135 | `Math.max`: at least both arguments and equal to one of them |
| Arith.Min | worker/src/sim.js:92 | `Math.min`: at most both arguments and equal to one of them |
| Arith.Ceil | worker/src/sim.js:136 | `Math.ceil`: the least integer not below `x` |
| Arith.Trunc | worker/src/sim.js:137 | truncation toward zero, the quotient JavaScript's `%` uses |
| Arith.JsModNonNegative | worker/src/sim.js:137 | for a non-negative dividend and positive divisor, `%` is the remainder in `[0, b)` with `a = q*b + r` |
| Arith.Round | worker/src/sim.js:105 | `Math.round`: the integer within half of `x`, halves rounding up |
| Arith.Round9 | worker/src/routes/simulate_v2.js:112 | `Math.round(x*1e9)/1e9` is within half a unit of the ninth decimal of `x` |
| Arith.RoundScaled | worker/src/routes/simulate_v2.js:112 | rounding at any positive scale stays within half a unit of the last place |
| Js.Get | worker/src/data.js:16-60 | property read: defined exactly for an object's own keys, `undefined` otherwise |
| Js.ParseFloat | worker/src/sim.js:4-30 | `parseFloat` gives a number's own value, and `NaN` for every non-number value |
| Js.NumOr | worker/src/sim.js:4-30 | `parseFloat(v) \|\| d`: the number when it is non-zero, `d` for 0, `NaN` and non-numbers, so a non-zero default never gives 0 |
| Js.Nullish | worker/src/routes/scenarios.js:10-16 | `v ?? d`: only `undefined` and `null` fall back, and 0 or `false` are kept |
| Js.Mul | worker/src/routes/simulate.js:34-35 | `a * b` on numbers, with `NaN` absorbing |
| Js.Sub | worker/src/routes/simulate.js:40-41 | `a - b` on numbers, with `NaN` absorbing |
| Js.Div | worker/src/routes/simulate.js:72-73 | `a / b` for a non-zero divisor, with `NaN` absorbing |
| Js.NumJson | worker/src/routes/simulate.js:49-76 | a computed number written back as a JavaScript value, `NaN` included |
| Js.Spread | worker/src/routes/scenarios.js:36 | `{...v}` copies an object's own properties and nothing from any other value |
| Js.LowerChar | worker/src/routes/catalog.js:9 | `toLowerCase` on one character maps ASCII capitals to lower case and keeps every other character |
| Js.Lower | worker/src/routes/catalog.js:9 | `toLowerCase` keeps the length and lowers each character |
| Js.ContainsIff | worker/src/routes/catalog.js:11 | `includes` holds exactly when the substring occurs at some position |
| Pool.PoolHp | worker/src/sim.js:35-37 | `getTotalHp` is never negative, and is `count*hp` for a fresh army |
| Pool.Effective | worker/src/sim.js:127-134 | with `micro == 0` the effective damage is the raw damage |
| Pool.PoolAfter | worker/src/sim.js:135 | the pool after a volley is `max(0, pool - effective)` |
| Pool.SplitRoundTrip | worker/src/sim.js:135-137 | splitting a pool into count and front unit and recombining gives it back; the count is `ceil(pool/hp)`; a survivor's front unit has HP in `(0, hp]` and an eliminated army none |
| Pool.SplitWithRemainder | worker/src/sim.js:136-137 | a pool that is not whole units has the remainder as its front unit |
| Pool.SplitWhole | worker/src/sim.js:136-137 | a pool of whole units gives the quotient as count and a full front unit |
| Pool.EffectiveAtMostDamage | worker/src/sim.js:126-134 | with `micro >= 1` and non-negative damage, the effective damage never exceeds the raw damage |
| Pool.EffectiveWithinPool | worker/src/sim.js:127-134 | with micro, a volley never removes more HP than the army has |
| Pool.EffectiveNonNegative | worker/src/sim.js:126-134 | non-negative damage over non-negative targets removes a non-negative amount |
| Pool.FreshPool | worker/src/sim.js:35-37 | a fresh army holds `count*hp`, which is 0 exactly when the count is |
| Pool.HitKeepsSound | worker/src/sim.js:125-138 | a non-negative hit keeps the count and front unit non-negative, keeps count 0 exactly at no HP left, and does not grow the pool |
| Damage.FlatDamage | worker/src/sim.js:59-64 | the first-generation formula `max(1, atk - armor) + bonusAtk*(1 - bonusReduction)`, at least 1 when the bonus term is non-negative |
| Damage.LegacyDamage | worker/src/sim_v2.js:105-109 | the fallback formula `max(1, max(0, diff) + bonus)` is always at least 1 |
| Damage.FloorPlacementDiffers | worker/src/sim_v2.js:105-109 | the two formulas floor differently: a negative bonus takes the flat formula below 1, while the fallback stays at 1 |
| Damage.ClassTotalRemove | worker/src/sim_v2.js:95-102 | any class can be summed first, so the class sum does not depend on the iteration order |
| Damage.ClassTotalCongruent | worker/src/sim_v2.js:95-102 | the class sum depends only on the attack values of the classes summed |
| Damage.UnsharedClassesAddNothing | worker/src/sim_v2.js:97-101 | the attack classes the defender has no armor for add nothing to the class sum, by induction over the classes |
| Damage.ArmorClassDamage | worker/src/sim_v2.js:95-102 | the class sum floored at 1: at least 1 and at least the sum, and equal to one of them |
| Damage.NoSharedClassFloor | worker/src/sim_v2.js:95-102 | against a defender with no armor for any of the attack classes, a hit deals exactly 1 |
| Damage.UnmatchedClassIgnored | worker/src/sim_v2.js:99-100 | an attack class the defender lacks adds nothing, whatever its value |
| Damage.HalberdierOnCavalier | worker/src/sim_v2.js:95-102 | matched classes summed and unmatched skipped: 10-5 + 32-0 = 37 |
| Damage.NegativeClassContribution | worker/src/sim_v2.js:100 | a negative class term lowers the total: 10-2 + (-3-0) = 5 |
| Damage.ArmorClassFloor | worker/src/sim_v2.js:102 | armor above attack on every class still deals 1 |
| Damage.EngagedUnits | worker/src/sim_v2.js:142 | `min(current, max(1, initial*engagement/100))`: positive when units are left, never more than are left |
| Damage.AccuracyFactor | worker/src/sim_v2.js:144 | the factor is `accuracy/100` exactly for ranged units in accuracy mode, and 1 otherwise (melee always hits) |
| Damage.Tramples | worker/src/sim_v2.js:146 | a unit tramples exactly when its blast level is 2 and its blast damage and width are positive |
| Damage.TrampleDamage | worker/src/sim_v2.js:147 | the splash is the volley times the blast damage: for a fraction between 0 and 1, never negative and never more than the volley; all of it at 1 |
| Damage.Reload | worker/src/sim.js:17 | the reload time after the attack-speed bonus: no bonus keeps the base time, and a positive bonus shortens a positive base time |
| Damage.ReloadScales | worker/src/sim.js:17 | `reload = reloadBase / (1 + atkSpeedBonus)`: the reload times `1 + b` is the base reload |
| Production.ParsedCost | worker/src/sim.js:38-44 | each resource is `base*(1 - own discount)*(1 - discAll)`, and the total is their sum |
| Production.NoDiscountIsBase | worker/src/sim.js:38-44 | without discounts the total is the base sum |
| Production.AllDiscountScalesTotal | worker/src/sim.js:39-43 | the overall discount scales the whole total |
| Production.ResourceDiscountIsLocal | worker/src/sim.js:40-42 | a discount on one resource leaves the other two unchanged |
| Production.DiscountedCostBounds | worker/src/sim.js:38-44 | with costs and discounts in range, the cost lies between 0 and the base total |
| Production.ArcherCost | worker/src/sim.js:38-44 | 0 food, 25 wood and 45 gold total 70 |
| Production.CalculateCount | worker/src/sim.js:141-148 | `calculateCount`: 0 before production starts, and never negative with positive production times and a non-negative queue and pause |
| Production.TechPauseHoldsQueue | worker/src/sim.js:146 | during the research pause the count is the queued units |
| Production.SteadyProduction | worker/src/sim.js:141-148 | with no queue or pause the count is `floor((t - start)*build/train)` |
| Production.CountMonotone | worker/src/sim.js:141-148 | with positive times and non-negative queue and pause, the count never decreases over time |
| Production.CountPhases | worker/src/sim.js:141-148 | the count is non-negative, at most the queue while the queue trains, and at least the queue afterwards |
| Production.ProductionExamples | worker/src/sim.js:141-148 | worked values: one unit per 30 s, a queue of 3, a 40 s pause, two buildings |
| Stats.TableOf | worker/src/sim_v2.js:16-17 | `data.attacks \|\| {}` as a class table: its keys are the object's, each with its number |
| Stats.ZeroStartingHpIsNoUnits | worker/src/sim.js:4 | an army whose starting HP `count*hp` reads as 0 has count 0 under `parseFloat(count) \|\| 0` |
| Combat.TickOf | worker/src/sim.js:54-55 | the tick is 0.05 unless a truthy tick is given |
| Combat.MaxDurationOf | worker/src/sim.js:56 | only a truthy time limit is stored, so a stored limit is never 0 |
| Combat.HpFraction | worker/src/routes/simulate.js:36-37 | `totalHp/initialTotalHp \|\| 0`: times the start it gives the HP left; 0 on `NaN`; in `[0, 1]` when HP did not grow |
| Combat.Snap | worker/src/sim.js:72-86 | a timeline point holds the time, counts and HP, and value left plus value lost is the starting value |
| Combat.AppendKeepsTimeline | worker/src/sim.js:72-86 | appending a point that is not earlier than the last, with non-negative HP, keeps the timeline chronological |
| Outcome.Synthesize | worker/src/routes/simulate.js:32-76 | an answer in which draw, winner, value figures and efficiencies agree, and the timeline is present only on request |
| Outcome.SideKeepsValue | worker/src/routes/simulate.js:34-41 | `remaining = hpPct*initial` and `lost = initial - remaining` for each side |
| Outcome.EfficiencyMeaning | worker/src/routes/simulate.js:71-74 | efficiency is `null` exactly when the side lost nothing, and otherwise the opponent's loss over its own |
| Outcome.SwapSides | worker/src/routes/simulate.js:43-47 | swapping the sides swaps the winner and keeps a draw a draw |
| Outcome.EfficienciesReciprocal | worker/src/routes/simulate.js:71-74 | when both sides lost a non-zero finite value, the two efficiencies multiply to 1 |
| Outcome.ValueWithinStart | worker/src/routes/simulate.js:34-41 | a side whose HP did not grow keeps and loses amounts between 0 and its starting value |
| Outcome.TenArchers | worker/src/routes/simulate.js:32-41 | ten archers are worth 700 and, untouched, keep all of it |
| Request.ConfigDefaults | worker/src/routes/simulate.js:9-12 | engagement defaults to 100 and micro to 0 only when absent or `null`; a given 0 is kept |
| Request.SettingsInForce | worker/src/routes/simulate_v2.js:25-28 | the battle runs with the tick given or 0.05, the time limit given or 300, and accuracy mode exactly when the second generation is asked for it |
| Request.FirstSome | worker/src/routes/simulate_v2.js:80-87 | the first failing check: none exactly when every check passes, otherwise one of them |
| Request.FirstSomeIsFirst | worker/src/routes/simulate_v2.js:83-86 | the failure reported is that of the lowest index |
| Request.FirstSomeSkips | worker/src/routes/simulate_v2.js:83-86 | once a check passes, the first failure is that of the checks after it |
| Request.PairwiseStep | worker/src/routes/simulate_v2.js:83-86 | an answer to the next element extends a one-for-one, in-order match |
| Request.Checks | worker/src/routes/simulate_v2.js:83-86 | one check per element, in order |
| Resolve.ArmyFieldsCopied | worker/src/data.js:44-48 | `count`, `delay`, `buildings`, and `tech_delay` and `units_before` under their camelCase names, are each copied only when defined, and nothing else changes |
| Resolve.DiscountsCopied | worker/src/data.js:51-57 | each defined discount of a truthy `resource_discounts` lands on `discAll`/`discF`/`discW`/`discG`, and nothing else changes |
| Resolve.MergeArmyFields | worker/src/data.js:44-48 | the army-level step written field by field gives the specified record |
| Resolve.MergeDiscounts | worker/src/data.js:51-57 | the discount step written field by field gives the specified record |
| DataV1.AllUnits | worker/src/data.js:5 | `{...UNITS, ...PRESETS}`: the keys of both, presets winning on a clash |
| DataV1.FirstMissingIff | worker/src/data.js:25-28 | the reported field is exactly the first required field, in order, that the object lacks |
| DataV1.ResolveUnit | worker/src/data.js:16-60 | the resolution method returns exactly the specified stat object or error message |
| DataV1.Resolved | worker/src/data.js:16-60 | the layered resolution: it fails only at the unit check, with that check's message, and the override, army and discount steps never drop a property of the base |
| DataV1.UnknownKey | worker/src/data.js:19-22 | a string key resolves exactly when the catalog has a truthy entry, else fails with `Unknown unit key` naming it |
| DataV1.InlineMissingField | worker/src/data.js:23-29 | an inline object resolves exactly when it has name, hp, reload and range, else the error names the first one missing |
| DataV1.NotAUnit | worker/src/data.js:30-32 | a `unit` that is neither a string nor a non-null object is refused |
| DataV1.LaterStepsKeep | worker/src/data.js:44-57 | the army-level and discount steps keep every property they do not write |
| DataV1.OverrideStep | worker/src/data.js:35-41 | `bonus_atk` becomes `bonusAtk`, `bonus_reduction` becomes `bonusReduct = x*100`, other override keys are copied as they are |
| DataV1.OverridesApplied | worker/src/data.js:35-57 | on the resolved unit, each override survives as the override step wrote it unless a later step writes the same property |
| DataV1.BaseKept | worker/src/data.js:22 | a base property that no later step writes is kept, so the copy starts from the catalog entry as it is |
| DataV2.ResolveUnit | worker/src/data_v2.js:54-111 | the resolution method returns exactly the specified stat object or error message |
| DataV2.Resolved | worker/src/data_v2.js:54-111 | the layered resolution: it fails only at the unit check, with that check's message, and the later steps never drop a property of the base |
| DataV2.ApplyOverrides | worker/src/data_v2.js:73-90 | the override loop gives the specified record: plain properties copied, truthy table overrides merged |
| DataV2.UnknownKey | worker/src/data_v2.js:57-64 | a string key resolves exactly when the catalog has a truthy entry, else fails with `Unknown unit key` naming it |
| DataV2.InlineAccepted | worker/src/data_v2.js:65-67 | an inline object always resolves, with its own properties as the base and no field check |
| DataV2.NotAUnit | worker/src/data_v2.js:68-70 | a `unit` that is neither a string nor a non-null object is refused |
| DataV2.TableMerge | worker/src/data_v2.js:81-89 | merging a table override sets the named entries and keeps every other entry of the base's table |
| DataV2.LaterStepsKeep | worker/src/data_v2.js:93-108 | the army-level and discount steps keep every property they do not write |
| DataV2.ResolvedKeeps | worker/src/data_v2.js:93-108 | a property the later steps do not write is as the override step left it |
| DataV2.OverrideStep | worker/src/data_v2.js:73-90 | non-table overrides are copied as they are, tables are merged, and other properties stay |
| DataV2.OverridesApplied | worker/src/data_v2.js:77-79 | a non-table override keeps its value, unrenamed, unless a later step writes it; properties it does not name keep the base's |
| DataV2.OverriddenTable | worker/src/data_v2.js:81-89 | a truthy table override leaves the base's table merged with it |
| DataV2.TableOverrideApplied | worker/src/data_v2.js:81-89 | on the resolved unit, a table override replaces only the entries it names, and the base's other entries survive |
| Combat.Hit | worker/src/sim.js:125-138 | `applyDamage` on a standing: the cooldown is kept, and an army of positive unit HP is left holding exactly `max(0, pool - effective)` |
| Combat.FreshSound | worker/src/sim.js:4-7 | a fresh army of positive unit HP and non-negative count is sound against its starting pool |
| Combat.HitSound | worker/src/sim.js:125-138 | a hit of non-negative damage and micro keeps an army sound: count and front unit non-negative, count 0 exactly at no HP, no HP gained |
| Combat.Point | worker/src/sim.js:72-86 | the point `record` pushes holds the time and both counts of the state, with non-negative HP |
| Combat.Entry | worker/src/sim.js:102-107 | a tick adds one point, the point of the new state, exactly when a whole-unit count changed or the clock is on a quarter second, and nothing otherwise |
| ArmyV1.ProfileOf | worker/src/sim.js:2-17 | the statistics a battle reads, each with its `parseFloat(x) \|\| d` default, so the unit HP is never 0 |
| ArmyV1.Unit.constructor | worker/src/sim.js:1-31 | a fresh unit: every statistic read from the data with its default, at full HP and ready to attack |
| ArmyV1.Profile.IsMelee | worker/src/sim.js:32-34 | `isMelee`: a unit is melee exactly when its range is at most 1 |
| ArmyV1.Unit.TotalHp | worker/src/sim.js:35-37 | `getTotalHp` is never negative |
| ArmyV1.Unit.ParsedCost | worker/src/sim.js:38-44 | `getParsedCost`: the total is the sum of the three discounted resources, and with no discount it is the base cost |
| SimV1.CalculateDamage | worker/src/sim.js:59-64 | `calculateDamage`: the per-hit damage, less the bonus term, is at least 1 and at least attack minus armor, melee statistics for a melee attacker and pierce for a ranged one |
| SimV1.MeleeUsesMeleeStats | worker/src/sim.js:59-64 | a melee attacker's damage depends only on melee attack and armor, a ranged attacker's only on pierce attack and armor (`isMelee` is `range <= 1`) |
| SimV1.HitDamage | worker/src/sim.js:92-93 | a volley: a side with no units deals nothing |
| SimV1.HitDamageAtMostOneHitEach | worker/src/sim.js:92-93 | a volley that does not heal never deals more than one hit per unit left |
| SimV1.HitDamageNonNegative | worker/src/sim.js:91-93 | a volley of a non-negative count with a bonus that does not heal does not heal |
| SimV1.Turn | worker/src/sim.js:91-95 | a side whose cooldown has run out hits with its current count and reloads to `reload`; otherwise its cooldown drops by a tick and the defender is untouched; its own count and front unit never change in its turn |
| SimV1.Tick | worker/src/sim.js:88-101 | one pass of the loop: A's turn, then B's turn with B as A's volley left it, then the clock moves on one tick |
| SimV1.Battle | worker/src/sim.js:88-108 | the loop from a state ends with a side at no units or the limit reached, less than a tick past the limit; a battle already over is left as it is |
| SimV1.TurnKeepsSound | worker/src/sim.js:91-100 | a turn with non-negative micro and a bonus that does not heal keeps both armies sound |
| SimV1.TickKeepsSound | worker/src/sim.js:88-101 | a tick of a fair battle keeps both armies sound |
| SimV1.BattleKeepsSound | worker/src/sim.js:88-108 | a fair battle keeps both armies sound to its end |
| SimV1.FirstStrikeWins | worker/src/sim.js:91-100 | when A's volley destroys B, the battle ends with that tick and B's reply engages nobody, so A keeps all its HP |
| SimV1.StartGrounded | worker/src/sim.js:66-71 | an army whose starting HP `count*hp` reads as 0 starts with no units and no HP |
| SimV1.Timeline | worker/src/sim.js:101-107 | the points the loop records: after each tick, the new state's point exactly when a whole-unit count changed or the clock is on a quarter second; none once the battle is over |
| SimV1.Advance | worker/src/sim.js:88-108 | a tick of a battle that goes on leads to the same end, adds its entry before the rest of the timeline, and leaves one whole tick fewer |
| SimV1.TimelineInOrder | worker/src/sim.js:72-107 | the recorded points come in time order with non-negative HP, between the start and the end of the battle |
| SimV1.Played | worker/src/sim.js:87-123 | the result: counts and HP at the end of the loop against the starting HP, the timeline with the start point, the loop's points and the end point appended, and the end time as duration; a side destroyed or the limit reached |
| SimV1.PlayedInOrder | worker/src/sim.js:87-109 | the timeline keeps what was there, then gains the start point first and an end point at the duration, in time order |
| SimV1.PlayedSound | worker/src/sim.js:88-138 | a fair battle between sound armies ends with non-negative counts, zero exactly at no HP, and no HP gained |
| SimV1.Simulated | worker/src/sim.js:65-124 | `run` on fresh armies read from the data: HP consistent with the starting HP, a side destroyed or the limit reached, and a duration less than a tick past the limit |
| SimV1.SimulatedInOrder | worker/src/sim.js:72-109 | the timeline keeps the old one, starts with a point at the start time holding both starting counts, and ends at the duration, in time order |
| SimV1.SimulatedSound | worker/src/sim.js:88-138 | between regular sides the counts left are non-negative, zero exactly when no HP is left, and no side ends with more HP than it started with |
| SimV1.RegularStart | worker/src/sim.js:2-18 | regular sides start sound and fight fairly |
| SimV1.CombatSim.constructor | worker/src/sim.js:48-58 | a battle not yet started: time 0, empty history, tick and limit from the settings |
| SimV1.CombatSim.ApplyDamage | worker/src/sim.js:125-138 | the army's new count and front unit are `Hit` of its old standing |
| SimV1.CombatSim.Volley | worker/src/sim.js:91-100 | both armies' new standing is `Turn` of their old standing |
| SimV1.CombatSim.Record | worker/src/sim.js:72-86 | `record` appends exactly the point of the current state |
| SimV1.CombatSim.Step | worker/src/sim.js:88-107 | the new state is `Tick` of the old one, and the timeline gains exactly that tick's entry |
| SimV1.CombatSim.Fight | worker/src/sim.js:88-108 | the loop leaves the state `Battle` gives for the old state, and the timeline gains exactly its `Timeline` |
| SimV1.CombatSim.Run | worker/src/sim.js:65-124 | the result is `Simulated` for the battle's sides, settings, clock and timeline, and the simulator's clock and history end as the result's duration and timeline |
| SimV1.Enlist | worker/src/sim.js:66-71 | each side starts fresh with the statistics its data gives, with starting HP `count*hp` and starting value `count*cost` |
| SimV1.Recruit | worker/src/sim.js:66-69 | a fresh army built from a copy of the data, with the statistics and cost the data gives |
| SimV1Examples.FirstTick | worker/src/sim.js:88-101 | two one-unit duelists: A's first volley destroys B, and B's reply does nothing |
| SimV1Examples.FirstTurnKills | worker/src/sim.js:91-94 | a duelist's first turn kills the other and reloads |
| SimV1Examples.ReplyMisses | worker/src/sim.js:96-99 | a destroyed duelist that is ready to attack deals nothing |
| SimV1Examples.DuelistDamage | worker/src/sim.js:59-64 | a duelist's volley deals 1 |
| SimV1Examples.DestroyedDamage | worker/src/sim.js:92 | an army with no units left engages nobody |
| SimV1Examples.KillingHit | worker/src/sim.js:125-138 | 1 damage destroys a single unit of 1 HP |
| SimV1Examples.HarmlessHit | worker/src/sim.js:125-138 | no damage leaves a single unit as it is |
| SimV1Examples.PoolEmptied | worker/src/sim.js:135 | 1 damage empties a pool of 1 HP |
| SimV1Examples.PoolKept | worker/src/sim.js:135 | no damage keeps a pool of 1 HP |
| SimV1Examples.EmptySplit | worker/src/sim.js:136-137 | an empty pool splits into no units and a front unit of 0 HP |
| SimV1Examples.WholeSplit | worker/src/sim.js:136-137 | a pool of exactly one unit splits into one whole unit, the front unit falling back to full HP |
| ArmyV2.ProfileOf | worker/src/sim_v2.js:2-35 | the statistics a battle reads, with accuracy 100 when absent and classes from `attacks`/`armors`; the unit HP is never 0 |
| ArmyV2.Unit.constructor | worker/src/sim_v2.js:1-58 | a fresh unit: every statistic read with its default, accuracy 100 when absent, cost from `cost` when present |
| ArmyV2.Profile.IsMelee | worker/src/sim_v2.js:60-62 | `isMelee`: a unit is melee exactly when its range is at most 1 |
| ArmyV2.Unit.IsMelee | worker/src/sim_v2.js:60-62 | `isMelee` on a unit: whether its range, read from its data, is at most 1 |
| ArmyV2.Unit.TotalHp | worker/src/sim_v2.js:64-66 | `getTotalHp` is never negative |
| ArmyV2.Unit.ParsedCost | worker/src/sim_v2.js:68-74 | `getParsedCost`: the total is the sum of the three discounted resources, and with no discount it is the base cost |
| SimV2.DamagePerHit | worker/src/sim_v2.js:91-110 | every hit deals at least 1 under either formula, and without classes at least the bonus term |
| SimV2.HitDamage | worker/src/sim_v2.js:142-145 | a volley with accuracy: a side with no units deals nothing |
| SimV2.HitDamageAtMostOneHitEach | worker/src/sim_v2.js:142-145 | at full accuracy or less, a volley never deals more than one hit per unit left |
| SimV2.HitDamageNonNegative | worker/src/sim_v2.js:142-145 | a volley of a non-negative count with non-negative accuracy does not heal |
| SimV2.MeleeVolleyIgnoresAccuracy | worker/src/sim_v2.js:144 | a melee volley is the same with accuracy mode on and off |
| SimV2.Struck | worker/src/sim_v2.js:145-148 | the volley lands with micro; when the attacker tramples, a splash of `volley*blastDamage` lands after it without micro and takes exactly that much more off the pool, down to 0; otherwise the volley alone |
| SimV2.Turn | worker/src/sim_v2.js:141-150 | a side whose cooldown has run out hits (and tramples) with its current count and reloads; otherwise its cooldown drops by a tick and the defender is untouched |
| SimV2.Tick | worker/src/sim_v2.js:137-163 | one pass: A's turn, then B's turn with B as A's volley and splash left it, then one tick |
| SimV2.Battle | worker/src/sim_v2.js:137-171 | the loop ends with a side at no units or the limit reached, less than a tick past the limit; a battle already over is left as it is |
| SimV2.TurnKeepsSound | worker/src/sim_v2.js:141-150 | a turn with non-negative micro and, in accuracy mode, non-negative accuracy keeps both armies sound, splash included |
| SimV2.TickKeepsSound | worker/src/sim_v2.js:141-161 | a tick of a fair battle keeps both armies sound |
| SimV2.BattleKeepsSound | worker/src/sim_v2.js:137-171 | a fair battle keeps both armies sound to its end |
| SimV2.MeleeBattleIgnoresAccuracy | worker/src/sim_v2.js:137-171 | between two melee armies a tick, and the whole battle, are the same with accuracy mode on and off |
| SimV2.StartGrounded | worker/src/sim_v2.js:113-118 | an army whose starting HP `count*hp` reads as 0 starts with no units and no HP |
| SimV2.Timeline | worker/src/sim_v2.js:163-170 | after each tick, the new state's point exactly when a whole-unit count changed or the clock is on a quarter second; none once the battle is over |
| SimV2.MeleeTimelineIgnoresAccuracy | worker/src/sim_v2.js:137-171 | between two melee armies the recorded points are the same with accuracy mode on and off |
| SimV2.Advance | worker/src/sim_v2.js:137-171 | a tick of a battle that goes on leads to the same end, adds its entry before the rest of the timeline, and leaves one whole tick fewer |
| SimV2.TimelineInOrder | worker/src/sim_v2.js:120-170 | the recorded points come in time order with non-negative HP, between the start and the end of the battle |
| SimV2.Played | worker/src/sim_v2.js:136-187 | the result: counts and HP at the end of the loop against the starting HP, the timeline with start point, loop points and end point appended, and the end time as duration; a side destroyed or the limit reached |
| SimV2.PlayedInOrder | worker/src/sim_v2.js:136-172 | the timeline keeps what was there, then gains the start point first and an end point at the duration, in time order |
| SimV2.PlayedSound | worker/src/sim_v2.js:137-203 | a fair battle between sound armies ends with non-negative counts, zero exactly at no HP, and no HP gained |
| SimV2.Simulated | worker/src/sim_v2.js:112-188 | `run` on fresh armies read from the data: HP consistent with the starting HP, a side destroyed or the limit reached, and a duration less than a tick past the limit |
| SimV2.SimulatedInOrder | worker/src/sim_v2.js:120-172 | the timeline keeps the old one, starts with a point at the start time holding both starting counts, and ends at the duration, in time order |
| SimV2.SimulatedSound | worker/src/sim_v2.js:137-203 | between regular sides the counts left are non-negative, zero exactly when no HP is left, and no side ends with more HP than it started with |
| SimV2.RegularStart | worker/src/sim_v2.js:2-36 | regular sides start sound and fight fairly |
| SimV2.MeleePlayIgnoresAccuracy | worker/src/sim_v2.js:137-188 | between two melee armies, a battle from a given state ends in the same result with accuracy mode on and off |
| SimV2.MeleeRunIgnoresAccuracy | worker/src/sim_v2.js:112-188 | between two melee armies `run` gives the same result with accuracy mode on and off |
| SimV2.CombatSim.constructor | worker/src/sim_v2.js:78-89 | a battle not yet started, with tick, limit and accuracy mode from the settings |
| SimV2.CombatSim.CalculateDamage | worker/src/sim_v2.js:91-110 | the loop over attack classes, or the fallback formula, computes `DamagePerHit` |
| SimV2.CombatSim.ApplyDamage | worker/src/sim_v2.js:190-203 | the army's new count and front unit are `Hit` of its old standing |
| SimV2.CombatSim.VolleyDamage | worker/src/sim_v2.js:142-145 | the volley is `HitDamage`: per-hit damage times engaged units times the accuracy factor |
| SimV2.CombatSim.Strike | worker/src/sim_v2.js:142-148 | the defender's new standing is `Struck` of its old one by the volley |
| SimV2.CombatSim.Volley | worker/src/sim_v2.js:141-150 | both armies' new standing is `Turn` of their old standing |
| SimV2.CombatSim.Record | worker/src/sim_v2.js:120-134 | `record` appends exactly the point of the current state |
| SimV2.CombatSim.Step | worker/src/sim_v2.js:137-170 | the new state is `Tick` of the old one, and the timeline gains exactly that tick's entry |
| SimV2.CombatSim.Fight | worker/src/sim_v2.js:137-171 | the loop leaves the state `Battle` gives for the old state, and the timeline gains exactly its `Timeline` |
| SimV2.CombatSim.Run | worker/src/sim_v2.js:112-188 | the result is `Simulated` for the battle's sides, settings, accuracy mode, clock and timeline, and the simulator's clock and history end as the result's duration and timeline |
| SimV2.Enlist | worker/src/sim_v2.js:113-118 | each side starts fresh with the statistics its data gives, with starting HP `count*hp` and value `count*cost` |
| SimV2.Recruit | worker/src/sim_v2.js:113-116 | a fresh army built from a copy of the data, with the statistics and cost the data gives |
| SimV2Examples.TrampleSplash | worker/src/sim_v2.js:142-148 | a trampler's volley of 10 kills one of three 10-HP units, and its splash of 5 wounds the next |
| SimV2Examples.VolleyKillsOne | worker/src/sim_v2.js:190-203 | a hit of 10 on three units of 10 HP leaves two whole units |
| SimV2Examples.SplashWounds | worker/src/sim_v2.js:190-203 | a hit of 5 on two whole units leaves a front unit of 5 |
| SimV2Examples.HalfAccuracy | worker/src/sim_v2.js:142-145 | an archer of accuracy 50 lands half its volley in accuracy mode and all of it otherwise |
| SimulateV1.SimulateLogic | worker/src/routes/simulate.js:18-77 | fails exactly with the first error (missing side A, missing side B, resolution of A, then of B); otherwise the outcome synthesised from the battle `run` fights between the resolved sides |
| SimulateV1.AnswersMeaning | worker/src/routes/simulate.js:29-76 | an answer is coherent, starts from the resolved `count` and `count*cost`, has a timeline in time order exactly on request, ended with a side destroyed or at the limit, and between regular sides has counts at 0 exactly when no HP is left |
| SimulateV1.BatchLogic | worker/src/routes/simulate.js:79-81 | always fails with `Not implemented` |
| SimulateV1.SweepLogic | worker/src/routes/simulate.js:83-85 | always fails with `Not implemented` |
| SimulateV1.MissingSide | worker/src/routes/simulate.js:19-20 | a side that is missing or names no unit fails before resolution, side A first |
| SimulateV1.StartingCount | worker/src/data.js:44 | the resolved `count` is the spec's when it gives one, and otherwise as the catalog entry and overrides left it |
| SimulateV2.SimulateLogic | worker/src/routes/simulate_v2.js:18-78 | as in the first generation, with cost from `cost` and the battle run in accuracy mode exactly when `options.accuracy` is truthy |
| SimulateV2.AnswersMeaning | worker/src/routes/simulate_v2.js:29-78 | as in the first generation, soundness needing non-negative accuracy in accuracy mode |
| SimulateV2.Failures | worker/src/routes/simulate_v2.js:83-86 | one error slot per matchup, in order |
| SimulateV2.AnswerAll | worker/src/routes/simulate_v2.js:83-86 | the loop over a list of matchups: fails with the first failing matchup, or else gives one answer per matchup in order |
| SimulateV2.BatchLogic | worker/src/routes/simulate_v2.js:80-87 | fails on a missing, non-array or empty list, or with the first failing matchup; otherwise one answer per matchup in order with its `id` |
| SimulateV2.Answer | worker/src/routes/simulate_v2.js:83-86 | one matchup: its `id` with the answer of its battle, or that battle's error |
| SimulateV2.NotAList | worker/src/routes/simulate_v2.js:81-82 | a batch that is not a non-empty array fails whatever it holds |
| SimulateV2.BatchFailsWithFirstMatchup | worker/src/routes/simulate_v2.js:83-86 | a batch fails with the error of its first failing matchup |
| SimulateV2.BatchSucceeds | worker/src/routes/simulate_v2.js:80-87 | a non-empty batch whose matchups each succeed does not fail |
| SweepV2.Split | worker/src/routes/simulate_v2.js:104 | `split('.')`: at least one piece, none containing the separator |
| SweepV2.JoinSplit | worker/src/routes/simulate_v2.js:104-106 | joining the pieces of a split gives back the string |
| SweepV2.SplitAfter | worker/src/routes/simulate_v2.js:104-106 | splitting after a piece without separators puts that piece in front |
| SweepV2.SplitJoin | worker/src/routes/simulate_v2.js:104-106 | splitting the join of separator-free pieces gives them back |
| SweepV2.SetPath | worker/src/routes/simulate_v2.js:89-97 | `setPath` on a walkable object adds the path's first key, and keeps every other key with its value |
| SweepV2.SetPathReaches | worker/src/routes/simulate_v2.js:89-97 | after `setPath` the value is at the path, through objects created where missing |
| SweepV2.SetPathElsewhere | worker/src/routes/simulate_v2.js:89-97 | `setPath` changes nothing off its path |
| SweepV2.LookupEmpty | worker/src/routes/simulate_v2.js:93 | nothing can be read from a freshly created empty object |
| SweepV2.TinyStepStalls | worker/src/routes/simulate_v2.js:101 | the guard as written lets through steps under half a billionth, and from a grid value such a step does not move |
| SweepV2.TinyStepExample | worker/src/routes/simulate_v2.js:101-112 | `min = max = 0` with `step = 1e-10` passes the guard and the next value is 0 again |
| SweepV2.NextAdvances | worker/src/routes/simulate_v2.js:112 | an accepted step moves the value up by at least one place of the ninth decimal, onto the grid |
| SweepV2.MeasureFalls | worker/src/routes/simulate_v2.js:112 | each loop pass brings the value measurably closer to the limit |
| SweepV2.Values | worker/src/routes/simulate_v2.js:102-112 | the swept values start at `min`, stay within `max + 1e-9`, strictly increase, each is the rounded next of the one before, and the next of the last is past the limit |
| SweepV2.PointSetsTarget | worker/src/routes/simulate_v2.js:113-116 | the targeted side of each battle holds the value at the target field, and the other side is as given |
| SweepV2.SweepOptions | worker/src/routes/simulate_v2.js:118 | the battles run without history |
| SweepV2.DecidedOnce | worker/src/routes/simulate_v2.js:113-118 | the battle at a value has one winner: that of the battle `run` fights there |
| SweepV2.Battle | worker/src/routes/simulate_v2.js:113-118 | one battle of the sweep: the winner of the outcome `simulateLogic` answers for the battle at the value, or its error |
| SweepV2.Probe | worker/src/routes/simulate_v2.js:113-119 | the battle at a value as the loop sees it |
| SweepV2.BaseWinnerNone | worker/src/routes/simulate_v2.js:121 | the base winner is `null` exactly when every battle so far was a draw |
| SweepV2.BaseWinnerFirst | worker/src/routes/simulate_v2.js:121 | the base winner is the winner of the first battle that was not a draw |
| SweepV2.BaseWinnerIndex | worker/src/routes/simulate_v2.js:121 | a base winner comes from a first decided battle |
| SweepV2.BreakevenNone | worker/src/routes/simulate_v2.js:122 | the breakeven is `null` exactly when no battle after the first decided one has another winner |
| SweepV2.BreakevenAt | worker/src/routes/simulate_v2.js:122 | the breakeven is the value of the first battle after the first decided one whose winner differs |
| SweepV2.SweepLogic | worker/src/routes/simulate_v2.js:99-126 | fails with the step, range or target error, in that order, or the first failing battle; otherwise one result per swept value, in order, each with that battle's winner, and the breakeven of those results |
| SweepV2.SweepChecked | worker/src/routes/simulate_v2.js:108-126 | a request past the three checks: fails with the first failing battle, or else gives one result per swept value, in order, with the target named and the breakeven of those results |
| SweepV2.SweptValues | worker/src/routes/simulate_v2.js:112 | the values swept by a request past the checks are those of the loop from `min`, stepping by `step`, up to `max` plus the `1e-9` slack |
| SweepV2.RunSweep | worker/src/routes/simulate_v2.js:108-123 | the loop: results pair with the swept values one for one, and the running base winner and breakeven are those of the results |
| SweepV2.ValuesAt | worker/src/routes/simulate_v2.js:112 | the value the loop is at is the next swept value |
| SweepV2.Tracked | worker/src/routes/simulate_v2.js:121-122 | one more result moves the base winner and the breakeven as the loop body does |
| Scenarios.StatsInExact | worker/src/routes/scenarios.js:20-24 | a stat field is collected exactly when it is listed and the side defines it, with the side's value |
| Scenarios.CollectOverrides | worker/src/routes/scenarios.js:20-28 | the collection loop gives the specified overrides |
| Scenarios.ScenarioToArmySpec | worker/src/routes/scenarios.js:7-32 | the translation method gives the specified army spec |
| Scenarios.DefaultsApplied | worker/src/routes/scenarios.js:10-16 | each army-level field is the side's value unless absent or `null`, else its default (count 1, delay 0, tech_delay 0, units_before 0, buildings 1, engagement_pct 100, micro 0) |
| Scenarios.FixedAt | worker/src/routes/scenarios.js:8-17 | the object literal holds each army-level field with its `??` default |
| Scenarios.UnitChosen | worker/src/routes/scenarios.js:9 | the unit is the side's truthy `preset`, else its `unit` |
| Scenarios.FixedUnit | worker/src/routes/scenarios.js:9 | the object literal has a unit exactly when the side gives a truthy `preset` or a `unit`, and it is the preset when truthy |
| Scenarios.OverridesPresent | worker/src/routes/scenarios.js:30 | `overrides` is present exactly when there is at least one override, and then holds them all |
| Scenarios.OverridesExact | worker/src/routes/scenarios.js:20-28 | the overrides hold exactly the defined stat fields, `bbn` as `bonus_atk` and `abr/100` as `bonus_reduction`, and nothing else |
| Scenarios.SpecKeys | worker/src/routes/scenarios.js:8-31 | the spec has the seven army-level fields, plus a unit and overrides only when there are any |
| Scenarios.MergeArmySpec | worker/src/routes/scenarios.js:34-43 | a falsy patch returns the base unchanged |
| Scenarios.PatchWins | worker/src/routes/scenarios.js:36 | outside `overrides`, the patch's properties win and every other keeps the base's value |
| Scenarios.OverridesMerged | worker/src/routes/scenarios.js:39-41 | `overrides` is merged key by key with the patch winning, and absent when neither has one |
| Scenarios.Scenario | worker/src/routes/scenarios.js:58 | the lookup finds nothing exactly when no stored scenario has the id, and otherwise a stored scenario with that id |
| Scenarios.ScenarioFirst | worker/src/routes/scenarios.js:58 | the scenario found is that of the first entry with the id |
| Scenarios.ListScenarios | worker/src/routes/scenarios.js:47-55 | one listing per stored scenario, in order, with its id, name, description and both translated sides |
| Scenarios.RunScenarioLogic | worker/src/routes/scenarios.js:57-67 | fails with `Scenario not found: <id>` for an unknown id, else with the simulate error; succeeds with the answer of the first-generation battle on the merged sides and `overrides.options` |
| Scenarios.ListedIsRun | worker/src/routes/scenarios.js:47-67 | run without patches, a scenario fights exactly the two sides its listing shows |
| Scenarios.UnknownScenario | worker/src/routes/scenarios.js:58-59 | an unknown id fails naming it, before anything is simulated |
| Catalog.FilterByName | worker/src/routes/catalog.js:7-27 | `listUnitsLogic` and `listPresetsLogic`: the empty filter gives the whole catalog; the result is a sub-catalog with unchanged entries |
| Catalog.NameFilterExact | worker/src/routes/catalog.js:9-11 | an entry is kept exactly when its lower-cased name contains the lower-cased filter at some position |
| Catalog.ContainsTransitive | worker/src/routes/catalog.js:11 | a substring of a substring is a substring |
| Catalog.NarrowerFilter | worker/src/routes/catalog.js:9-11 | a filter containing another lists no entry the other drops |
| Catalog.ExactNameKept | worker/src/routes/catalog.js:9-11 | an entry named as the filter, up to case, is kept |
| Catalog.WithPrefix | worker/src/routes/catalog.js:43-46 | the civilisation filter gives a sub-catalog with unchanged entries |
| Catalog.ListV2Units | worker/src/routes/catalog.js:41-52 | the listing is a sub-catalog with unchanged entries |
| Catalog.V2FiltersMeet | worker/src/routes/catalog.js:41-52 | a unit is listed exactly when its key starts with `lower(civ) + '_'` (if a civilisation is given) and its name contains the name filter (if one is given) |
| Catalog.V2FiltersIntersect | worker/src/routes/catalog.js:41-52 | the two filters combine as the intersection of what each lists alone |
| Catalog.V2NameOnly | worker/src/routes/catalog.js:47-50 | without a civilisation, the second-generation list filters by name like the first generation |
| Catalog.Fetch | worker/src/routes/catalog.js:15-19 | the entry under a key with a truthy entry, else `<kind> not found: <id>` |
| Catalog.GetUnit | worker/src/routes/catalog.js:15-19 | the unit for a present key, else `Unit not found: <id>` |
| Catalog.GetPreset | worker/src/routes/catalog.js:29-33 | the preset for a present key, else `Preset not found: <id>` |
| Catalog.GetV2Unit | worker/src/routes/catalog.js:54-58 | the second-generation unit for a present key, else `V2 unit not found: <id>` |
| Catalog.ListedCanBeFetched | worker/src/routes/catalog.js:7-19 | every unit a name filter lists can be fetched by its key, as listed |

## Left out

- The HTTP handlers (`handle*`), the MCP transport, routing, CORS and the static pages: they are transport around the logic modelled here.
- Generated catalogs and stored scenarios are parameters (`all`, `units`, `presets`, `scenarios`), not concrete data.
- `parseFloat` of strings: only number values are parsed, and every other value reads as `NaN`. Numeric strings such as `"10"` are not modelled.
- Floating point: numbers are exact reals. The accumulation of a 0.05 tick and the rounding of `1e9` and `Math.round(time*100)` are exact here, not IEEE-754.
- Lower-casing covers the ASCII letters only. Inherited prototype keys (`constructor`, `__proto__`) are not properties here.
- Key order: objects and catalogs are maps without an order. The stored scenarios are a sequence in the catalog's order.
- `structuredClone` and `setPath`'s in-place update are modelled on values. Aliasing is not modelled: the caller's specs and the catalog cannot be mutated by construction.
- `Js.Spread` copies nothing from strings and arrays, where JavaScript would copy indices.
- A `unit` key present with the value `undefined` is treated as absent.
- `null` for `options`, for scenario `overrides`, for their `options`, and as an element of a batch's `matchups` is excluded by a precondition (`SimulateV2.Runnable` for the matchup): JavaScript would throw a `TypeError` reading a property of it.
- SimulateV1.SimulateLogic: requires numeric engagement, micro, tick and time limit, a tick above 0 and an attack-speed bonus other than -100%. Other values produce `NaN`, an endless loop or a division by zero in the engine.
- SimulateV2.SimulateLogic: the same preconditions as the first generation, and class tables and accuracy must be numbers.
- SimV1.CombatSim.Run: requires a positive tick and a defined reload (an attack-speed bonus other than -100%). With a zero tick the source's loop never ends, and an undefined reload makes it compute with `Infinity`; neither is modelled. Run may start from any clock and history, which it keeps as a prefix.
- SimV2.CombatSim.Run: the same preconditions as the first generation, and numeric class tables and accuracy.
- Production.CalculateCount: requires non-zero `train` and `build` once `t >= start`. JavaScript would divide by zero there and go on with `Infinity` or `NaN` (for `build == 0` and `pre > 0` it returns 0), which numbers modelled as reals cannot represent.
- SweepV2.SweepLogic: requires what the sweep tool's schema asks for (`worker/src/routes/mcp.js:206-214`): a string `target`, and a `range` whose `min`, `max` and `step` are numbers. It also requires a targeted side that `setPath` can walk. The route itself does not check the range's types, and outside that schema it does things the model does not capture. Without `step`, neither guard fires; one battle runs at `min`, the next value is NaN, and the loop ends. Without `min` or `max`, the loop condition is false from the start, and the route returns no results and a null breakeven. A string `step` is concatenated with the value rather than added to it. Only a missing `sweep` or `range`, a `target` that is not a string, or a targeted side that `setPath` cannot walk throws a `TypeError`.
- SweepV2.SweepLogic: implements the corrected step guard of the finding below, not the `step <= 0` as written.
- The empirical test suites that compare against recorded battles are not modelled.

## Findings

| source | as written | input that shows it | evidently intended | confidence | as-written member | corrected member |
|---|---|---|---|---|---|---|
| worker/src/routes/simulate_v2.js:101 | the sweep refuses only `step <= 0`, but line 112 rounds each next value to nine decimals | `range = {min: 0, max: 0, step: 1e-10}`: the guard passes, `Math.round((0 + 1e-10)*1e9)/1e9` is 0, so `v` never advances and the loop never ends | refuse steps too small to move a value at nine-decimal resolution (below `0.5e-9`) | not executed | SweepV2.TinyStepStalls | SweepV2.SweepLogic |
