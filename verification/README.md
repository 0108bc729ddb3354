# Verified models of the trading research and provider-control core

This project models, in Dafny, the parts of the repository whose comments and documentation make claims over every
input, every market path or every sequence of crashes, and proves those claims or the exact condition under which they
hold. `dafny verify dfyconfig.toml` checks all of it. Each loop or state-changing operation of the source is a method
(over a class where the source updates an object or a store), proved against a specification function or directly
against the property it promises; the lemmas then say what the specification means. `Decimal` is modelled by exact
reals or integers, and every timestamp by an integer.

**Money and the provider.** `Budget` is the reservation ledger, `ProviderProtocol` the claim-then-dispatch state machine
with kills and crashes, `ProviderService` the service that runs it in place. A crash keeps every directory entry that was
synced and any set of those that were only visible; ledger transactions are durable. The ledger bound holds over whole
runs under the hypothesis that no settlement exceeds its estimate; `Budget.OverusePassesCap` shows it is needed,
`Budget.OvershootIsExcess` what holds without it, and `Budget.EstimateIsTheWorstCase` discharges it from the token bounds.

**Market simulators.** `CandleOco` states the word "conservative" against every tick path that refines the candles, booked
at its levels as the rule books it; `CandleMarket` and `SteadyMarket` give the ticks times and prices of their own.
`StreamingBars` and `Evaluator` are the sampled-quote evaluator, `EvaluatorClock` its one cancellation clock,
`ExpiryWindow` one isolated pair, `TapeMerge` the merger of sealed segments, `PairedReplay` and `FastExits` the two
replays over the merged tape, `Variants` the bar simulator of entry and exit styles and its serial loop, `Indicators`
the averages and indices.

**Evidence.** `Scorecard` and `DailyNet` are the daily cards, `Collector` and `ForwardStudy` the two collectors of closed
windows, `VisibleBook` the ladder walk, `CloseVolume` the reconstruction of what a setup's fills and closes prove, `Rpc` the newline
framing and the notification queue. `Common` and `Sorting` are shared vocabulary.

## Where the code and its promises differ

The models follow the code. These are the places where a promise is false of it, with the lemma that says exactly when it holds.

- The candle backtest is called conservative. With both legs triggered and no stop touched it books the buy leg (`python/backtest/engine.py:109`); it expires both legs at the earlier of their two expiries, and tests that at candle starts only (line 100); and it books entries and stops at their levels wherever the candle opened (lines 57-59). `CandleMarket.NeverOptimisticExactly` is the exact condition for the status and `CandleMarket.ProfitBoundedExactly` for the profit bound, both read candle by candle from the legs; `CandleMarket.GapFillFails`, `CandleMarket.StraddleFails` and `CandleMarket.LaterLegFails` are the inputs that show it. On paths that jump over no entry and no stop the bound is a property of the two legs (`SteadyMarket.SteadyBoundExactly`).
- The evaluator's cancellation clock is set even when no peer remains and belongs to no plan (`python/evaluation/engine.py:296-299`), so orders of a plan none of which has filled can be cancelled by an earlier plan's fill: `EvaluatorClock.OrphanRun` is such a run, `EvaluatorClock.OrphanedExactly` says exactly when over all runs, and `EvaluatorClock.CrossingExactly` when the plans and the scenario allow it at all. The holding limit plays no part in that: a position can close at the next quote.
- An armed stop-limit exit is said never to be left unprotected past the escalation window; the window is looked at only on bars that touch the stop again (`python/backtest/variants.py:308-327`). `Variants.EscalationExactly` is the exact condition, `Variants.ArmedCanStayOpen` an example. A breakeven move tightens the stop only because stop distances are meant to be positive, which nothing requires of a fixed one: `Variants.RatchetExactly` is the exact condition on the distances and the breakeven fraction, `Variants.StopCanLoosen` an example.
- The average directional index is documented as unavailable until its windows complete; when the first period has no range its first value is made from later bars (`python/indicators/core.py:126-130`). `Indicators.CausalExactly` is the exact condition for values that no later bar changes, `Indicators.SeedWithinItsBarsExactly` for a first value made of its own bars, `Indicators.FlatStartLooksAhead` an example.
- A collector report is computed from the retained input, but killed between linking and syncing that input a run can leave a report whose input a crash then takes: `Collector.CrashKeepsInputs` (exact), `Collector.ReportsKeepInputs`, `Collector.KilledThereLosesInput`.
- The daily study has no claim, so the same kind of kill can leave a gap in its reports and collect a day twice: `ForwardStudy.CrashKeepsPrefix` (exact), `ForwardStudy.KilledThereLeavesGap` (day 0, day 1 and day 0 again). A day whose report is on disk is collected no more (`ForwardStudy.DurableIsCollectedNoMore`).
- The scorecard refuses a close that occurred after the card but was recorded before it (`python/operations/demo_scorecards.py:146-147`). A close may not be recorded before it occurred (lines 31-35 of the same file), so no close can meet that branch (`Scorecard.FutureClockExactly`); the model keeps it and drops the restriction on closes. A card made exactly at midnight ends with a row of no length (`Scorecard.EmptyDay`).

## Model

| member | source | states |
|---|---|---|
| `CandleOco.SimulateOco` | python/backtest/engine.py:81-161 | The nested loops return the specified result; the later scan starts right behind the fill bar because searching for an equal candle returns that very bar. |
| `CandleOco.BarVsTicks` | python/backtest/engine.py:63-74 | Inside one candle the stop-first rule brackets every tick path with that minimum and maximum: a plain stop, a target and no exit are exact. |
| `CandleOco.ScanVsTicks` | python/backtest/engine.py:130-147 | After a fill the candle scan is a lower bound on every path whose stops are booked at their level, and exact unless it says LOSS. |
| `CandleOco.FillVsTicks` | python/backtest/engine.py:112-147 | A fill booked on the leg the path really fills never has a better status, nor more profit when the path too is booked at its levels. |
| `CandleOco.ConservativeFrom` | python/backtest/engine.py:96-161 | From any bar on, outside the blind fallback, against every path booked at its levels: never optimistic, WIN and OPEN exact, and with one trigger the side agrees and profit is a lower bound. |
| `CandleOco.Conservative` | python/backtest/engine.py:81-161 | The same for a whole simulation behind the latency bars, over all refining paths booked at their levels and either tie-break of a tick that triggers both legs. |
| `CandleOco.ConservativeExactly` | python/backtest/engine.py:107-109 | Against those paths it is nowhere optimistic if and only if the fill is not the blind fallback or the sell leg, judged candle by candle from the fill bar on, does not end worse than the buy leg. |
| `CandleOco.ProfitSafeHolds` | python/backtest/engine.py:77-161 | For profit-safe legs the booked profit is at most that of every path booked at its levels, dual triggers included. |
| `CandleOco.ProfitBoundExactly` | python/backtest/engine.py:77-161 | Over all candles and all paths booked at their levels the profit bound holds if and only if the two legs are profit-safe. |
| `CandleOco.ProfitUnsafeFails` | python/backtest/engine.py:107-109 | For every other pair of legs there are candles and a path that break the profit bound. |
| `CandleMarket.MarketStatus` | python/backtest/engine.py:96-161 | Where every trigger of the fill bar comes before its leg's expiry, and none comes at all without a fill bar, ticks with times and prices of their own end a pair with the status and side the prices alone give. |
| `CandleMarket.NeverOptimisticExactly` | python/backtest/engine.py:96-161 | Over all timed paths, each leg living to its own expiry, the rule's status is nowhere optimistic and trades exactly where the market trades, if and only if from its fill bar on every leg that can fill ends no worse and one does fill, or, without a fill bar, no leg can fill in its life. |
| `CandleMarket.OneExpiry` | python/backtest/engine.py:96-109 | With one expiry for both legs that condition is that the fill bar ends by it and the fallback passes over no worse leg. |
| `CandleMarket.ProfitHolds` | python/backtest/engine.py:57-161 | Every timed path makes at least a bound at the market's prices, when every leg that can fill, at its best price and left at its worst, is worth as much, and so is no trade where there can be none. |
| `CandleMarket.MarketBoundExactly` | python/backtest/engine.py:57-161 | That test is exact for every bound: it gives the least the market can make of the pair over all paths. |
| `CandleMarket.ProfitBoundedExactly` | python/backtest/engine.py:57-161 | So the booked profit is a lower bound on every path if and only if the levels the rule books pass the test. |
| `CandleMarket.AloneExactly` | python/backtest/engine.py:57-74 | For a leg that triggers alone the test reads: the fill candle goes no further than the entry, the stopping candles no further than the stop, and the fill bar holds no target. |
| `CandleMarket.GapFillFails` | python/backtest/engine.py:57-59 | A candle from 104 to 106: the rule books a fill at 100 and a win of 6, the path that prints just these two makes 2. |
| `CandleMarket.StraddleFails` | python/backtest/engine.py:96-100 | A candle that runs past the expiry: the rule books a fill the path, whose trigger tick comes at the expiry, never makes. |
| `CandleMarket.LaterLegFails` | python/backtest/engine.py:96-100 | A pair with two expiries: the rule expires it with the earlier one, while the sell leg lives on, fills at 79 and is stopped at 86. |
| `SteadyMarket.MarketIsLevels` | python/backtest/engine.py:57-161 | On a path that jumps over no entry and no stop, where every trigger comes in its leg's time, the market makes exactly what the path booked at its levels makes. |
| `SteadyMarket.SteadyConservative` | python/backtest/engine.py:81-161 | On such paths, outside the blind fallback: never optimistic, exact unless LOSS, and a lower bound on profit with one trigger or with profit-safe legs. |
| `SteadyMarket.SteadyBoundExactly` | python/backtest/engine.py:77-161 | For a sell entry below the buy entry: over all such candles and paths the profit bound holds if and only if the two legs are profit-safe. |
| `Budget.Store.UpdatePolicy` | python/learning/budget.py:109-121 | Replaces the policy and touches no row. |
| `Budget.Store.ChargedOn` | python/learning/budget.py:155-159 | The loop sums actual, else estimate, of rows dated that day or without an actual amount. |
| `Budget.Store.Snapshot` | python/learning/budget.py:74-107 | Charged and remaining (never negative) of a day. |
| `Budget.Store.ReserveRow` | python/learning/budget.py:123-167 | The whole new table and the reply of a reservation: invalid, changed, replayed, paused, over the limit, admitted. |
| `Budget.Store.DispatchRow` | python/learning/budget.py:176-184 | Moves a RESERVED row to DISPATCHED and to the dispatch day, else refuses and changes nothing. |
| `Budget.Store.SettleRow` | python/learning/budget.py:186-200 | Settles a dispatched row once; the same settlement again is accepted, a different one refused. |
| `Budget.ClockForward` | python/learning/budget.py:155-159 | Moving the clock forward can only uncharge, and what is booked on a day is at most what it is charged. |
| `Budget.StepKeepsBound` | python/learning/budget.py:123-200 | One honest operation keeps today's charge and every past day's booking within the cap. |
| `Budget.NeverOverCap` | python/learning/budget.py:123-200 | Over every honest run with a non-decreasing clock and limits never above the cap, today's charge and every past day's booking stay within the cap. |
| `Budget.EmptyLedgerBounded` | python/learning/budget.py:123-200 | So they do from an empty ledger, for ever. |
| `Budget.OverusePassesCap` | python/learning/budget.py:186-200 | The hypothesis on settlements is needed: one settlement above its estimate takes the day over a cap that admitted it. |
| `Budget.OvershootIsExcess` | python/learning/budget.py:123-200 | Without any promise on usage, over every run a day's total passes the cap by no more than the sum over its rows of usage beyond the estimate. |
| `Budget.RowsOnlyAdvance` | python/learning/budget.py:163-200 | Over any calls in any order rows are only appended, keep identity and estimate, only move forward in status and are frozen once settled. |
| `Budget.StepFollows` | python/learning/budget.py:123-200 | One operation keeps the table well formed and every row moving forward. |
| `Budget.DispatchedOnce` | python/learning/budget.py:176-184 | Over any calls an id is dispatched successfully at most once. |
| `Budget.UnreportedIsCharged` | python/learning/budget.py:155-159 | A row without a reported amount is charged in full on every day. |
| `Budget.EstimateIsTheWorstCase` | python/codex_entry/openai_api.py:58-60 | The ceiling-division estimate is the largest cost the token bounds allow, so settlements within the bounds never exceed it. |
| `ProviderProtocol.NextKeepsInv` | python/codex_entry/service.py:832-875 | Every step, raise, answer, kill and crash keeps the protocol invariant. |
| `ProviderProtocol.RunKeepsInv` | python/codex_entry/service.py:832-875 | So does every sequence of them. |
| `ProviderProtocol.AtMostOneCall` | python/codex_entry/service.py:832-875 | Over every sequence of runs, raises, kills, crashes and restarts an analysis id causes at most one provider call, API or subscription. |
| `ProviderProtocol.CallsAreCovered` | python/codex_entry/openai_api.py:86-112 | Each call was made under a durable claim; each API call with its row DISPATCHED, never RESERVED again, and charged in full on every day until it is COMPLETE. |
| `ProviderProtocol.ClaimedNeverRetried` | python/codex_entry/service.py:832-875 | Once a job's claim is durable no later run calls the provider for it. |
| `ProviderProtocol.NextKeepsBound` | python/codex_entry/openai_api.py:58-83 | One step of the protocol keeps the ledger within the configured limit, whatever policy the operator sets. |
| `ProviderProtocol.SpendNeverOverLimit` | python/codex_entry/openai_api.py:58-191 | Over every run whose reported usage is within the token bounds no day is booked above the configured limit. |
| `ProviderService.Service.Serve` | python/codex_entry/service.py:832-1001 | One request served in place and cut short after any number of steps leaves exactly the state the protocol gives. |
| `ProviderService.Service.PublishFile` | python/research/codex_loop.py:135-146 | A publication is two steps: the file appears, then its directory is synced. |
| `ProviderService.Service.ReserveFor` | python/codex_entry/openai_api.py:58-83 | Reservation, credit and daily-limit fallbacks to the subscription, and the not-dispatched record. |
| `ProviderService.Service.Invoke` | python/codex_entry/openai_api.py:86-112 | Request record, dispatch of the row, dispatch marker, then the call. |
| `ProviderService.Service.Settle` | python/codex_entry/openai_api.py:119-191 | What a response settles: its usage cost, else nothing known; a financial rejection is remembered and pauses the policy. |
| `ProviderService.ServeIsARun` | python/codex_entry/service.py:832-1001 | Every such service is a run of the protocol, so what is proved of runs holds of it. |
| `StreamingBars.Candidates` | python/evaluation/engine.py:156-215 | The streaming builder emits exactly the plans of a batch definition that looks back over the tape. |
| `StreamingBars.StepTracks` | python/evaluation/engine.py:168-182 | One quote keeps the streaming state equal to what the tape says of completed, forming and full minutes. |
| `StreamingBars.CoverExtends` | python/evaluation/engine.py:168-182 | How the stretch of covered minutes grows with one quote. |
| `StreamingBars.DecisionAgrees` | python/evaluation/engine.py:183-215 | What the streaming state decides at a quote is what the tape decides. |
| `StreamingBars.LaterQuotesChangeNothing` | python/evaluation/engine.py:156-215 | Later quotes only add plans and change none. |
| `StreamingBars.ReadyExactly` | python/evaluation/engine.py:168-185 | The planner is ready exactly when a quote was seen close to the start of the fifth minute back and no gap over the limit has come since. |
| `StreamingBars.ReadyMeansObserved` | python/evaluation/engine.py:168-185 | And then each of the five minutes before the decision has a quote. |
| `StreamingBars.SlotIsFresh` | python/evaluation/engine.py:183-186 | The slot test holds exactly when no earlier ready quote fell in the same slot. |
| `StreamingBars.PlanGeometry` | python/evaluation/engine.py:192-213 | Entries keep at least the buffer from the quote, rounded outwards by less than a cent; target, stop and spread bounds. |
| `Evaluator.Desk.CloseHits` | python/evaluation/engine.py:271-292 | In place, exactly the positions that hit or time out are closed and booked. |
| `Evaluator.Desk.FillLegs` | python/evaluation/engine.py:300-329 | In place, exactly the triggered legs inside the limit become positions, with their counters and the cancellation clock. |
| `Evaluator.Desk.TakePlans` | python/evaluation/engine.py:330-358 | Each due plan is rejected for exposure, staleness or entry, or becomes the pending orders. |
| `Evaluator.Desk.Trade` | python/evaluation/engine.py:256-365 | One quote runs the phases in the source's order. |
| `Evaluator.EvaluateQuotes` | python/evaluation/engine.py:218-366 | The evaluation of a tape is the fold of those phases, with the validation errors first. |
| `Evaluator.QuoteSound` | python/evaluation/engine.py:256-365 | One quote keeps every conservation law. |
| `Evaluator.AlwaysSound` | python/evaluation/engine.py:218-366 | In every reachable state: submitted = fills + expired + cancelled + gap-cancelled + pending; fills = closed + censored + open; net plus fees = gross; decisions = rejections + submissions; all live legs come from one plan. |
| `Evaluator.ReportConserves` | python/evaluation/engine.py:218-366 | The report accounts for every order, fill and decision. |
| `Evaluator.CloseWorth` | python/evaluation/engine.py:271-292 | A stop is booked no better than its distance and slippage, a target no worse than its own, and only a timeout closes between them. |
| `Evaluator.CancelCount` | python/evaluation/engine.py:296-299 | A quote cancels all resting orders exactly when the clock has run out and neither a gap nor the expiry has removed them before. |
| `EvaluatorClock.TraceIsTheRun` | python/evaluation/engine.py:256-365 | Remembering which plan the live orders come from and which plan's fill set the clock changes nothing of the run. |
| `EvaluatorClock.RunKnown` | python/evaluation/engine.py:256-365 | In every reachable state a running clock was set by a fill of the plan remembered, after that plan's turn and before its expiry, and an unfilled plan's orders are its legs under the clock it found. |
| `EvaluatorClock.OrphanedExactly` | python/evaluation/engine.py:296-299 | Orders of a plan none of which has filled are cancelled exactly by the first quote at or after a clock that an earlier plan's fill had left running when the plan was submitted, if no gap and no expiry removes them before. |
| `EvaluatorClock.OrphanedOnlyByCrossing` | python/evaluation/engine.py:296-358 | On no ordered tape does that happen to plan n unless some earlier plan m and time f satisfy turn(m) < f < turn(n) < f + cancel latency < expiry(n) and f < expiry(m), where a plan's turn is the latest due time up to its own. |
| `EvaluatorClock.CrossingOrphans` | python/evaluation/engine.py:296-358 | If they do, some usable tape makes it happen, given one millisecond to close m's positions before n's turn, which a one-legged n does not need. |
| `EvaluatorClock.CrossingExactly` | python/evaluation/engine.py:296-358 | So the condition on due times, expiries and cancellation latency is exact, for a plan n of one leg, and for one of two when the latency exceeds two milliseconds and no earlier plan is due within the two before it. |
| `EvaluatorClock.ClockOutlivesPosition` | python/evaluation/engine.py:271-299 | The clock stays its plan's after the plan has nothing left to cancel and its positions have closed. |
| `EvaluatorClock.OrphanRun` | python/evaluation/engine.py:218-366 | A run of four quotes and two plans in which the first plan's fill cancels the second plan's unfilled order. |
| `EvaluatorClock.PlannerPlans` | python/evaluation/engine.py:156-215 | The planner's plans are valid, of strictly rising due times and of one leg or a buy above a sell, one leg when it is directional. |
| `ExpiryWindow.ObserveWindow` | python/evaluation/expiry.py:62-191 | The window's loops give the specified fates and censoring. |
| `ExpiryWindow.TakeQuote` | python/evaluation/expiry.py:119-171 | One quote: expiry and cancellation clear what rests, open legs close, resting legs trigger and fill. |
| `ExpiryWindow.ExitWorth` | python/evaluation/expiry.py:130-150 | A target nets exactly the target less slippage and fees, scaled by the fill fraction; a stop nets no more than the stop does. |
| `ExpiryWindow.RestOneSound` | python/evaluation/expiry.py:151-171 | A resting leg's turn keeps every leg in one place; one that fills does so before expiry, after its latency, inside the limit and no later than the cancellation. |
| `ExpiryWindow.RestShapes` | python/evaluation/expiry.py:151-171 | A resting leg stays, is dropped as missed or becomes the newest position. |
| `ExpiryWindow.QuoteSound` | python/evaluation/expiry.py:119-173 | One quote keeps all of that, and the fees equal to those of the exits. |
| `ExpiryWindow.WindowSound` | python/evaluation/expiry.py:108-175 | From any point on, the reported window keeps it and is uncensored exactly when nothing is left live. |
| `ExpiryWindow.EveryWindowSound` | python/evaluation/expiry.py:62-191 | So does every window from its start. |
| `TapeMerge.ReadRows` | python/backtest/paired.py:204-248 | The row loop accepts a segment exactly when its rows conform, and pools exactly its items. |
| `TapeMerge.RejectRegressions` | python/backtest/paired.py:249-260 | The pass over the sorted quotes drops those whose source runs behind. |
| `TapeMerge.LoadTape` | python/backtest/paired.py:153-272 | A tape loads if and only if the segments agree with themselves and with each other, and is then the normal form of all their items. |
| `TapeMerge.PooledMeans` | python/backtest/paired.py:238-244 | Whatever the arrival order, a time is held as valid exactly when one row alone has it and that row may stand, else as invalid. |
| `TapeMerge.ForwardIsKept` | python/backtest/paired.py:252-260 | A standing quote is kept exactly when no earlier one has a later source. |
| `TapeMerge.NormalForm` | python/backtest/paired.py:153-272 | Times strictly increase, sources never go back, and every time carried by a row lies in exactly one of valid and invalid. |
| `TapeMerge.OrderDoesNotMatter` | python/backtest/paired.py:165-203 | The tape depends on the set of segment contents alone: neither order nor extra sealed copies change it. |
| `TapeMerge.LoadsTheSame` | python/backtest/paired.py:193-200 | Nor whether it loads. |
| `PairedReplay.ReplayPair` | python/backtest/paired.py:280-392 | The replay loop returns the specified outcome. |
| `PairedReplay.BrokenMeans` | python/backtest/paired.py:146-150 | A stretch is broken exactly when it is longer than the limit or holds an invalid capture. |
| `PairedReplay.CloseHasNoGap` | python/backtest/paired.py:313-386 | A TP or SL means no invalid capture and no gap from the start to the deciding quote. |
| `PairedReplay.UnanchoredClose` | python/backtest/paired.py:335-384 | For an unanchored pair a close is the first touch after a fill whose peer was not penetrated at any observed quote from the fill through the cancellation delay. |
| `PairedReplay.HeldToClose` | python/backtest/paired.py:362-384 | From a held position to its close: the peer stays quiet, the delay has passed, the close is the first touch. |
| `PairedReplay.NoLookAhead` | python/backtest/paired.py:280-392 | An outcome reached at a quote is unchanged by any change to the tape after it. |
| `FastExits.ReplayFastExit` | python/backtest/fast_exits.py:87-164 | The fast-exit loop returns the specified outcome. |
| `FastExits.GridTarget` | python/backtest/paired.py:371-373 | The replay's floored target is the leg's target exactly on the tick grid. |
| `FastExits.BaselineIsAnchored` | python/backtest/fast_exits.py:87-164 | With a target on the grid and no source before the fill, baseline and the anchored pair replay are one. |
| `FastExits.ModeVsBaseline` | python/backtest/fast_exits.py:116-164 | From any point of the loop on, each mode against baseline. |
| `FastExits.NeverLaterThanBaseline` | python/backtest/fast_exits.py:87-164 | Quick and giveback read no more of the tape than baseline, and every stop, target, gap or missing start of theirs is baseline's own. |
| `Scorecard.Filter` | python/operations/demo_scorecards.py:143-149 | The eligible deals, or the refusal of a clock from the future exactly when there is one. |
| `Scorecard.FutureClockExactly` | python/operations/demo_scorecards.py:31-35 | Some card refuses a close for its clock exactly when it was recorded before it occurred. |
| `Scorecard.Mark` | python/operations/demo_scorecards.py:157-162 | Distinct times in order, each with the sum of the nets recorded at it. |
| `Scorecard.Drawdown` | python/operations/demo_scorecards.py:153-165 | The loop over marks returns the total and the greatest fall of recorded money from an earlier to a later instant. |
| `Scorecard.SplitDays` | python/operations/demo_scorecards.py:166-202 | The cursor loop ends and returns one row per calendar day of the window. |
| `Scorecard.Summarize` | python/operations/demo_scorecards.py:129-228 | The whole card, its refusals and the classification of complete days. |
| `Scorecard.BelowPeak` | python/operations/demo_scorecards.py:162-165 | No prefix sum exceeds the running peak. |
| `Scorecard.DeepestFall` | python/operations/demo_scorecards.py:162-165 | The running drawdown is attained between two prefix sums. |
| `Scorecard.NoDeeperFall` | python/operations/demo_scorecards.py:162-165 | No fall between two prefix sums exceeds it. |
| `Scorecard.DrawdownIsLowerBound` | python/operations/demo_scorecards.py:157-165 | The reported drawdown is at most that of every ordering of the deals consistent with their times. |
| `Scorecard.ExactWithoutTies` | python/operations/demo_scorecards.py:157-165 | Without equal times it is that drawdown. |
| `Scorecard.DaysPartition` | python/operations/demo_scorecards.py:122-202 | One to seven consecutive calendar days cover the window without overlap and their figures add up to the window's. |
| `Scorecard.OneDayEach` | python/operations/demo_scorecards.py:166-171 | Every eligible deal lies in the row of its own calendar day and in no other. |
| `Scorecard.EmptyDay` | python/operations/demo_scorecards.py:166-170 | A row has no length exactly as the last one, at midnight or for an empty window. |
| `DailyNet.Group` | python/operations/daily_trading_net.py:55-58 | The dictionary holds, for each release, exactly its deals that count, in arrival order. |
| `DailyNet.SummarizeDay` | python/operations/daily_trading_net.py:48-79 | The day's totals and the releases in order. |
| `DailyNet.SplitAgrees` | python/operations/daily_trading_net.py:48-79 | Net, fees and number of closes of the releases add up to the day's, and each release appears once. |
| `Collector.Archive.Collect` | python/operations/breakout_observer.py:171-272 | A run, cut short after any number of directory changes, leaves exactly the state the machine gives. |
| `Collector.Archive.LinkFile` | python/research/learning_archive.py:87-129 | A link never replaces: equal content is accepted, other content refused. |
| `Collector.Archive.Scan` | python/operations/breakout_observer.py:208-215 | The loop over windows stops at the first without a report. |
| `Collector.CollectIsARun` | python/operations/breakout_observer.py:171-272 | Every such run is a run of the machine below. |
| `Collector.NextKeepsInv` | python/operations/breakout_observer.py:207-270 | Every step, kill and crash keeps the collector's invariant. |
| `Collector.CollectedSafely` | python/operations/breakout_observer.py:207-270 | Over every sequence of runs, kills and crashes each window is exported at most once, reports form a gap-free prefix, none appears before its window's end plus five minutes, and each is computed from what the exporter answered and the input holds. |
| `Collector.BlockedForEver` | python/operations/breakout_observer.py:220-224 | A durable claim with no input blocks its window and all later ones for ever. |
| `Collector.CrashKeepsInputs` | python/operations/breakout_observer.py:240-262 | No crash can part a report from its input if and only if every visible report has a durable input. |
| `Collector.ReportsKeepInputs` | python/operations/breakout_observer.py:240-262 | It never can unless some run was killed between linking and syncing an input. |
| `Collector.KilledThereLosesInput` | python/operations/breakout_observer.py:240-262 | Killed there, it can. |
| `ForwardStudy.Directory.RunOnce` | python/backtest/forward.py:268-336 | A run, cut short after any number of steps, leaves exactly the state the machine gives. |
| `ForwardStudy.Directory.Publish` | python/backtest/forward.py:118-136 | Exclusive link, then sync; an existing report is never replaced. |
| `ForwardStudy.RunOnceIsARun` | python/backtest/forward.py:268-336 | Every run, however short it is cut, is a sequence of the machine's events. |
| `ForwardStudy.RunOnceSafely` | python/backtest/forward.py:268-336 | So what is proved of all event sequences holds of the directory after it. |
| `ForwardStudy.StudySafely` | python/backtest/forward.py:268-336 | No report appears before its day has settled; unless a run is killed between link and sync, reports form a gap-free prefix under every crash. |
| `ForwardStudy.DurableStays` | python/backtest/forward.py:118-136 | A report that is on disk is there for ever, unchanged. |
| `ForwardStudy.DurableIsCollectedNoMore` | python/backtest/forward.py:288-331 | And its day is never collected again. |
| `ForwardStudy.CrashKeepsPrefix` | python/backtest/forward.py:288-331 | No crash can leave a gap if and only if every report but the latest is durable. |
| `ForwardStudy.KilledThereLeavesGap` | python/backtest/forward.py:288-331 | Killed there, a crash can leave a gap, and the first day is collected a second time after the second. |
| `VisibleBook.WalkLadder` | python/backtest/fill_gap_review.py:277-284 | The loop finds the cost no allocation of the units betters, the least sufficient prefix of levels and the exact shortfall. |
| `VisibleBook.ViewBook` | python/backtest/fill_gap_review.py:266-298 | The latest fresh book's view: no book, no levels, a shortfall, or the walk with a gap that is never negative. |
| `Sorting.BisectMeans` | python/backtest/fill_gap_review.py:270-273 | The book used is the latest available at or before the time: the bisect counts the elements up to it. |
| `VisibleBook.WalkGain` | python/backtest/fill_gap_review.py:277-284 | Priced at the last level needed, moving any allocation towards the walk's never costs more. |
| `VisibleBook.WalkIsBest` | python/backtest/fill_gap_review.py:277-284 | No allocation of the same units over the visible levels has a better cost. |
| `VisibleBook.WalkPriceIsBest` | python/backtest/fill_gap_review.py:285-293 | The quoted walk price is the best average any allocation can reach. |
| `CloseVolume.ChronologyInvalid` | python/backtest/current_scalp.py:375-399 | The loop over closes flags a setup exactly when some close is unsound or, at some instant, more of a position was closed than filled. |
| `CloseVolume.LoopDecides` | python/backtest/current_scalp.py:377-396 | Testing each close once, in time order, decides the volumes of every position at every instant. |
| `CloseVolume.Row.Reconstruct` | python/backtest/current_scalp.py:282-500 | The row's new status, reasons and amounts. |
| `CloseVolume.NeverOverclosed` | python/backtest/current_scalp.py:375-500 | A setup classed OPEN, PARTIAL_OPEN or CLOSED never had more of a position closed than filled, at any instant. |
| `CloseVolume.StatusMeans` | python/backtest/current_scalp.py:428-499 | CLOSED: all of it closed and the net equal to gross plus signed costs; open: the recorded volume is what remains; OPEN: nothing closed and all of it filled. |
| `CloseVolume.OnePosition` | python/backtest/current_scalp.py:347-364 | With the evidence in order every fill and close is on one position. |
| `Variants.ResolveExit` | python/backtest/variants.py:282-344 | The exit loop returns the specified exit. |
| `Variants.Ratchet` | python/backtest/variants.py:328-332 | Over the life of one position the active stop only tightens if and only if it is not first placed beyond the fill or never moves. |
| `Variants.RatchetExactly` | python/backtest/variants.py:328-332 | Over all bars the stop of a position only tightens if and only if it does not start beyond the fill with room before the target for the breakeven move. |
| `Variants.StopCanLoosen` | python/backtest/variants.py:328-332 | A stop first placed beyond the fill loosens when it is moved to break even. |
| `Variants.LeavesByLastStop` | python/backtest/variants.py:302-327 | A position that leaves by its stop leaves by the last of those stops, at the bar that touched it. |
| `Variants.NoTargetOnceArmed` | python/backtest/variants.py:325-327 | No target exit follows an armed stop. |
| `Variants.MarketRace` | python/backtest/variants.py:302-344 | With market stops and no breakeven the first bar that touches either level decides, the stop winning a bar that touches both. |
| `Variants.TargetExactly` | python/backtest/variants.py:302-344 | Then a target exit happens exactly when some bar touches the target with no stop touched at or before it. |
| `Variants.StopIsNoBetter` | python/backtest/variants.py:236-275 | A market stop pays at least the overshoot, a limit stop fills at its cap. |
| `Variants.EscalationExactly` | python/backtest/variants.py:308-327 | Where the bars reach the deadline, an armed position is closed within the escalation window exactly when a bar in it fills the stop or its last bar touches the stop again. |
| `Variants.ArmedCanStayOpen` | python/backtest/variants.py:308-344 | It need not be closed within it. |
| `Variants.LaterBarsChangeNothing` | python/backtest/variants.py:302-344 | A decided exit depends on no later bar. |
| `Variants.SimulateSetup` | python/backtest/variants.py:399-544 | Filters, entry and exit of one setup give the specified outcome. |
| `Variants.ImmediateEntry` | python/backtest/variants.py:499-521 | Breakout and fade styles enter on the first bar that triggers an allowed leg, and on a dual trigger on a losing leg if there is one. |
| `Variants.WaitingEntry` | python/backtest/variants.py:469-498 | Confirmed and sweep styles enter at the bar after the first that signals exactly one allowed leg, and on that leg. |
| `Variants.RunVariant` | python/backtest/screen.py:304-366 | The serial loop returns the specified outcomes. |
| `Variants.SerialLoop` | python/backtest/screen.py:326-366 | From any state of the loop: one outcome per setup, disjoint filled intervals in serial mode, no fill inside a loss-streak pause. |
| `Variants.RunSound` | python/backtest/screen.py:304-366 | Each setup yields exactly one outcome, in capture order; in serial mode filled intervals from capture to exit are pairwise disjoint. |
| `Indicators.Ema` | python/indicators/core.py:25-34 | The loop gives the average at every index. |
| `Indicators.EmaBetween` | python/indicators/core.py:25-34 | It stays between the values seen so far. |
| `Indicators.EmaCausal` | python/indicators/core.py:25-34 | Later values change nothing. |
| `Indicators.Wilder` | python/indicators/core.py:52-62 | The loop gives the smoothed value from a full first period on, and none before. |
| `Indicators.WilderMonotone` | python/indicators/core.py:52-62 | Smoothing keeps pointwise order. |
| `Indicators.WilderCausal` | python/indicators/core.py:52-62 | Later values change nothing. |
| `Indicators.Rsi` | python/indicators/core.py:69-95 | The loop with running averages gives the index of Wilder-smoothed gains and losses. |
| `Indicators.RsiBetween` | python/indicators/core.py:69-95 | It lies in [0, 100]. |
| `Indicators.RsiCausal` | python/indicators/core.py:69-95 | Later values change nothing. |
| `Indicators.Moves` | python/indicators/core.py:37-49 | The lists of true ranges and directional movements. |
| `Indicators.MoveWithinRange` | python/indicators/core.py:105-109 | For valid bars movement is at most the true range, and goes one way at a time. |
| `Indicators.DxAtBetween` | python/indicators/core.py:110-125 | After smoothing too, so the index is a percentage, missing exactly when the smoothed range is zero. |
| `Indicators.Adx` | python/indicators/core.py:96-138 | The loops give the average directional index at every index. |
| `Indicators.AdxBetween` | python/indicators/core.py:96-138 | For valid bars it lies in [0, 100]. |
| `Indicators.AdxCausal` | python/indicators/core.py:96-138 | Later bars change no value of a prefix that is ready, or too short to have one. |
| `Indicators.CausalExactly` | python/indicators/core.py:96-138 | For valid bars no extension changes any value if and only if the prefix is ready or too short to have a value. |
| `Indicators.ReadyOnRanges` | python/indicators/core.py:96-138 | Readiness told from the ranges: positive smoothed range a full period before the end; with a period of one, some bar with a range. |
| `Indicators.SeedWithinItsBarsExactly` | python/indicators/core.py:126-130 | The first value is the mean of the index values of its own bars, all of them there, if and only if the first smoothed range is positive. |
| `Indicators.FlatStartLooksAhead` | python/indicators/core.py:126-130 | Otherwise a value can appear only because of a later bar. |
| `Rpc.Connection.constructor` | python/codex_entry/memory.py:27-39 | A connection starts with nothing held, counted or queued. |
| `Rpc.Connection.Fetch` | python/codex_entry/memory.py:58-71 | The read loop delivers the next line or the specified error. |
| `Rpc.Connection.Next` | python/codex_entry/memory.py:58-88 | One message, or the refusal of what is no message or asks for tools or approval. |
| `Rpc.Connection.Request` | python/codex_entry/memory.py:90-104 | The reply, the queue and the stream a request leaves. |
| `Rpc.Connection.Await` | python/codex_entry/memory.py:106-156 | The result, the queue, the stream and the usage a completion leaves. |
| `Rpc.LineIsFirst` | python/codex_entry/memory.py:58-71 | A delivered line is the first line of what was unread, however it arrived. |
| `Rpc.FlowingDelivers` | python/codex_entry/memory.py:58-71 | Within the limits a read delivers exactly when a line is there. |
| `Rpc.FramingIsExact` | python/codex_entry/memory.py:58-71 | For every way of cutting a stream into reads, within the limits, what is delivered is exactly its newline-separated lines, in order. |
| `Rpc.DeliveredFits` | python/codex_entry/memory.py:67-71 | No line over the limit is ever delivered. |
| `Rpc.RequestQueues` | python/codex_entry/memory.py:90-104 | A request takes its response out of the stream and queues, in order, the notifications before it; nothing is lost, doubled or moved. |
| `Rpc.AwaitConsumes` | python/codex_entry/memory.py:106-156 | Completion makes of the queue and the stream what it would make of one sequence, each message taken once, in order, and reads nothing new while something is queued. |

## Left out

- SQL text, HTTP, subprocesses, locks as such, gzip, JSON, hashing and file permissions: files, rows and calls are abstract durable state and steps, digests are their contents, and the lock is that one run is in progress at a time.
- Decimal context precision and rounding, except the plan grid, the replay's target floor and the ledger's ceiling division; in particular the rounded averages of a day row and the rounding of the walk price.
- ProviderProtocol.AtMostOneCall: a subscription turn is one call here; its own thread protocol is `Rpc`. The record of a request that was not dispatched is one step, and the validation of the decision text is a raise. A prompt's length is its length in encoded bytes.
- ProviderService.Service.Serve: ends by completing or by being killed; raises inside it are events of the protocol.
- Evaluator.EvaluateQuotes: the bootstrap interval, exposure ratios, percentiles and report text.
- CandleMarket.NeverOptimisticExactly: one price a tick for both sides, the spread being part of the cost as in the rule; a tick that triggers both legs fills either, by a parameter.
- CandleMarket.ProfitBoundedExactly: a target is booked at its level, never at a better tick.
- EvaluatorClock.CrossingExactly: with two legs and a fill in the very millisecond before the turn, the quote that places plan n would also have to close the earlier position; that case is left to `EvaluatorClock.OrphanedOnlyByCrossing`. Entries are above the distances to target and stop, as prices are.
- SteadyMarket.SteadyBoundExactly: a steady path starts between the entries, so there is none when the sell entry is above the buy entry.
- Variants.EscalationExactly: a window that the data cut short ends open at the data end.
- PairedReplay.ReplayPair: budget, volume and equity fields that a pair carries but the replay does not read; parsing of setups.
- TapeMerge.LoadTape: limits on sizes and counts, and the counters of rejected rows.
- FastExits.ReplayFastExit: the fee distance is a parameter; registration and comparison reports.
- ExpiryWindow.ObserveWindow: the loading of frozen setups and the summary over windows.
- Scorecard.Summarize: release names and currency; averages of winning and losing closes; Singapore is a constant eight hours ahead.
- DailyNet.SummarizeDay: a release name is its rank in the sorted order.
- Scorecard.Mark: times are kept sorted while they are marked, where the source sorts the keys afterwards.
- Collector.Archive.Collect: the status file, which no run reads, is only its directory sync; drift and the three capacity checks are inputs of a run; whether a packet parses, is in scope and can be measured is a flag of the packet.
- ForwardStudy.Directory.RunOnce: the contents of a report and the check that an existing one is well formed; the returned counts.
- VisibleBook.ViewBook: reading and freshness of samples, quote references, close classes and target crossings; the source's ordering of levels and positive sizes are its precondition.
- CloseVolume.Row.Reconstruct: the checks before fills are counted (identity, lifetime, context, acceptance) enter as reasons the row already has, and terminal events as a flag; once fill coverage has failed the second reason about volume is not added.
- Variants.SimulateSetup: metrics, percentiles and the spread field, which the simulation never reads.
- Indicators: realised volatility and Bollinger bandwidth, which need roots and logarithms; the average true range is Wilder smoothing of true ranges.
- Rpc.Connection.Next: a line's meaning as JSON is a parameter; time limits are a read that finds silence; what is sent is only whether it was sent.
- Dashboards, charts, exports and the TypeScript scripts; `auto_improve.py`, `loss_control.py`, `rr_screen.py`, `trend_observation.py` and `scalp_replay.py`, which classify recorded evidence mostly by independent conditions.
