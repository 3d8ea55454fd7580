# StandX limit-order bot: decision engine

This project models the decision engine of `StandxLimitOrder`, a browser-console
market-making bot. The bot keeps a symmetric ladder of resting limit orders
around the live price of one instrument, and it runs one trading cycle every 30
seconds. A cycle has four steps:

1. **Volatility gate.** It reads the ATR indicator. It decides whether new
   placement is suppressed, and it remembers the reading for the next cycle.
2. **Position closer.** It closes every open position. Each close is confirmed
   on the dialog button of the opposite side.
3. **Distance canceller.** It cancels every resting order whose distance from
   the price, in basis points, is above `MAX_DISTANCE_BPS` or below
   `MIN_DISTANCE_BPS`.
4. **Ladder reconciler.** On a cold start (no orders) it places the whole
   `BPS_LADDER` on both sides. Otherwise it tops each side up to
   `|BPS_LADDER|` orders, all at `REPLACEMENT_BPS`.

The scheduler owns the three fields `loopCounter`, `previousAtr` and
`loopInterval`. With a positive `MAX_LOOPS`, it stops at the end of the first
cycle whose price read succeeds once `loopCounter ≥ MAX_LOOPS`. A cycle whose
price read fails returns before that check. With `MAX_LOOPS ≤ 0` the loop count
never stops it.

Every venue read is an input value. The readings of one cycle are a
`Snapshot`: the ATR reading, the open positions, the open orders, the current
price, and the second order read that follows a cancellation. Every venue
mutation is an `Action` appended to the bot's `trace`:

- `Close(position, confirmLabel)`
- `Cancel(order)`
- `Place(side, multiplier)`

Prices and basis points are Dafny `real`s, so the distance and multiplier
arithmetic is exact. A zero price keeps the floating-point outcome of the
division: `x/0` is +infinity and `0/0` is NaN. The `Distance` datatype carries
that outcome.

Modules, one per component:

- `Domain`: sides, orders, positions, actions, configuration, snapshots.
- `Pricing`: multipliers, distances, the band test.
- `VolatilityGate`
- `PositionCloser`
- `DistanceCanceller`
- `LadderReconciler`
- `CycleScheduler`: the whole cycle as a function, the start/stop lifecycle,
  the timer-driven run, and the `StandxLimitOrder` class.
- `DefaultScenarios`: the shipped configuration on concrete states.

The configuration is a `Config` value held in a `const` field of the class.
The source hard-codes it as the static `CONFIG`; `Domain.DefaultConfig` holds
those values.

The class methods `RunTradingCycle`, `Start` and `Stop` change the fields in
place. Their contracts tie the new fields and the new trace to the pure
functions `Cycle`, `StartCycle` and `Stopped`. The loops of the cycle live in
`CloseAll`, `CancelOutOfBand` and `Reconcile`. Each of these builds its list of
actions one action at a time and is proved equal to a specification function.

Three facts about the code that shape the model:

- **Top-up counts orders, not rungs.** With 1 long and 3 shorts resting and a
  ladder of 3, the code places `|BPS_LADDER| − 1 = 2` longs, all at
  `REPLACEMENT_BPS` (standx_limit_order.js:404-412). It does not place one
  order per missing rung. `DefaultScenarios.DefaultWarmTopUp` states this case.
- **Order inside `start`.** `start` launches the first cycle without `await`.
  That cycle suspends at its first `await` (standx_limit_order.js:321 or 342)
  before `setInterval` arms the timer (standx_limit_order.js:452). So the
  timer is armed before the first cycle reaches its `MAX_LOOPS` check. The
  model therefore arms the timer first and then runs the cycle. With
  `MAX_LOOPS = 1`, the first cycle disarms the timer it started with.
- **One unarmed state.** `loopInterval` is null both before the first `start`
  and after `stop`. So the model has one unarmed state and one armed state.
  Timer handles are positive integers, so an armed handle is always truthy.

## Model

| member | source | states |
|---|---|---|
| `Pricing.Multiplier` | standx_limit_order.js:394-398 | the multiplier lies exactly `bps` basis points from 1, below 1 for a long and above 1 for a short |
| `Pricing.PlacedAtDistance` | standx_limit_order.js:364-366 | an order placed at `price × Multiplier(side, bps)` has bps distance exactly `bps` from that price, so the multiplier and the distance are inverse |
| `Pricing.PlacedInBandIsKept` | standx_limit_order.js:364-368 | an order at a distance inside `[MIN_DISTANCE_BPS, MAX_DISTANCE_BPS]` from an unchanged positive price is not cancelled |
| `Pricing.BpsDistance` | standx_limit_order.js:364 | at a non-zero price the distance `d` is finite with `d × price = |order − price| × 10000`, and it is never negative at a positive price; at a zero price it is +infinity, or NaN for an order priced at zero |
| `Pricing.Violates` | standx_limit_order.js:365-368 | the too-far / too-close test; at a positive price it holds exactly when `|order − price| × 10000` is above `MAX_DISTANCE_BPS × price` or below `MIN_DISTANCE_BPS × price` |
| `Pricing.ZeroPriceCancels` | standx_limit_order.js:364-368 | at a zero price (division by zero) every order is cancelled except one priced at zero, whose NaN distance fails both comparisons |
| `VolatilityGate.EvaluateGate` | standx_limit_order.js:319-339 | a disabled gate or an absent ATR never skips and keeps `previousAtr`; ATR above `MAX_ATR` skips; otherwise it skips exactly when a prior value exists and differs by more than `ATR_CHANGE_THRESHOLD`; a present ATR becomes `previousAtr` |
| `VolatilityGate.ComparesWithPriorReading` | standx_limit_order.js:328-335 | the next cycle compares with this cycle's reading, or with the older stale value when this cycle had none |
| `PositionCloser.ConfirmationLabel` | standx_limit_order.js:173 | the confirmation label is the opposite side's label and never the position's own |
| `PositionCloser.CloseActions` | standx_limit_order.js:342-347 | one close per position, in listing order, each confirmed with the side-inverse label |
| `PositionCloser.CloseAll` | standx_limit_order.js:342-350 | the loop over the positions issues exactly `CloseActions` |
| `DistanceCanceller.Cancellations` | standx_limit_order.js:360-374 | at most one cancel per order, and only for listed orders that are out of band |
| `DistanceCanceller.CancellationsAppend` | standx_limit_order.js:363-374 | cancellation follows listing order: the cancels of `xs + ys` are those of `xs` followed by those of `ys` |
| `DistanceCanceller.CancelledExactly` | standx_limit_order.js:363-373 | an order is cancelled if and only if it is listed and its distance is above the maximum or below the minimum |
| `DistanceCanceller.CancelledAny` | standx_limit_order.js:360-374 | some cancel is issued if and only if some listed order is out of band |
| `DistanceCanceller.CancelOutOfBand` | standx_limit_order.js:360-379 | the loop issues exactly `Cancellations`, and `ordersCancelled` holds if and only if some order is out of band |
| `LadderReconciler.CountSide` | standx_limit_order.js:403 | the `filter(...).length` count is at most the number of orders; it is 0 exactly when no order is on the side, and it is the full length exactly when every order is |
| `LadderReconciler.CountSidesPartition` | standx_limit_order.js:403-415 | the long count and the short count of the two filters add up to the number of orders |
| `LadderReconciler.Deficit` | standx_limit_order.js:404-406 | the orders already held plus the deficit equal the larger of the ladder length and the orders held |
| `LadderReconciler.LadderPlacements` | standx_limit_order.js:393-396 | one placement per rung, in ladder order, each at that rung's multiplier |
| `LadderReconciler.TopUp` | standx_limit_order.js:408-412 | exactly `count` placements, all at the replacement multiplier |
| `LadderReconciler.ColdStart` | standx_limit_order.js:391-400 | with no orders: exactly `N` longs at `1 − bps/10000` in ladder order, then exactly `N` shorts at `1 + bps/10000` in ladder order |
| `LadderReconciler.WarmTopUp` | standx_limit_order.js:402-425 | with some orders: `max(0, N − #long)` longs at `1 − REPLACEMENT_BPS/10000`, then `max(0, N − #short)` shorts at `1 + REPLACEMENT_BPS/10000`, and nothing else |
| `LadderReconciler.RestoresCount` | standx_limit_order.js:402-425 | after placement every side holds `max(N, held)` orders: a short side is filled to `N`, and a side at or above `N` is neither added to nor reduced |
| `LadderReconciler.AtTargetPlacesNothing` | standx_limit_order.js:427-429 | a non-empty order list with at least `N` orders on each side gets no placements |
| `LadderReconciler.Placements` | standx_limit_order.js:391-425 | the reconciler issues only `Place` actions: `2 × N` on a cold start, and the long deficit plus the short deficit otherwise (pointwise in `ColdStart` and `WarmTopUp`) |
| `LadderReconciler.PlacedDistance` | standx_limit_order.js:391-425 | every placement is at a ladder rung or at the replacement distance |
| `LadderReconciler.PlacementsStayInBand` | standx_limit_order.js:7-10 | when every rung and the replacement distance lie in the band, no placed order is out of band at the price it was placed from |
| `LadderReconciler.Reconcile` | standx_limit_order.js:390-431 | the placement loops issue exactly `Placements` for the order list they are given |
| `CycleScheduler.Stopped` | standx_limit_order.js:455-463 | after `stop` no timer is armed, whether or not one was armed before, and the counter and `previousAtr` are unchanged |
| `CycleScheduler.Cycle` | standx_limit_order.js:312-441 | a cycle adds exactly 1 to `loopCounter` and updates `previousAtr` as the gate says; it disarms the timer exactly when the price was read and `0 < MAX_LOOPS ≤ loopCounter`; otherwise it keeps the timer; with a failed price read it only closes positions |
| `CycleScheduler.StartCycle` | standx_limit_order.js:443-453 | `start` with a timer armed changes nothing and issues nothing; otherwise the counter is reset and is 1 after the first cycle |
| `CycleScheduler.CyclePhaseOrder` | standx_limit_order.js:341-431 | within a cycle every close precedes every cancel, and every cancel precedes every placement |
| `CycleScheduler.GatedCyclePlacesNothing` | standx_limit_order.js:385-386 | a cycle whose gate skips issues no `Place` action |
| `CycleScheduler.RefreshOnlyAfterCancel` | standx_limit_order.js:388-389 | when no order is cancelled, the second order read has no effect and placement works from the first snapshot |
| `CycleScheduler.SteadyLadderIsLeftAlone` | standx_limit_order.js:360-429 | a ladder at full count on both sides with no order out of band gets no cancel and no placement |
| `CycleScheduler.RestartAfterStop` | standx_limit_order.js:443-463 | `start` after `stop` resets the counter, runs a cycle and resumes on the new timer unless that cycle reached the bound |
| `CycleScheduler.Run` | standx_limit_order.js:437-452 | the timer-driven schedule: nothing fires while unarmed; each tick adds one to the counter; a schedule still armed at the end ran every reading on its original timer |
| `CycleScheduler.RunBelowBound` | standx_limit_order.js:437-440 | with `MAX_LOOPS ≤ 0`, or while the counter stays below the bound, the timer stays armed and the counter advances by one per tick |
| `CycleScheduler.RunStopsAtBound` | standx_limit_order.js:437-440 | with a positive bound and successful price reads, the schedule stops with `loopCounter` exactly `MAX_LOOPS` |
| `CycleScheduler.FailedReadPostponesStop` | standx_limit_order.js:354-357 | a failed price read returns before the max-loop check, so that cycle never disarms the timer |
| `CycleScheduler.StandxLimitOrder.constructor` | standx_limit_order.js:29-33 | no timer, counter 0, no previous ATR, empty trace |
| `CycleScheduler.StandxLimitOrder.RunTradingCycle` | standx_limit_order.js:312-441 | the new fields are `Cycle`'s state, and the trace grows by exactly `Cycle`'s actions |
| `CycleScheduler.StandxLimitOrder.Start` | standx_limit_order.js:443-453 | the new fields and trace are those of `StartCycle` |
| `CycleScheduler.StandxLimitOrder.Stop` | standx_limit_order.js:455-463 | the timer is cleared, and nothing else changes |
| `DefaultScenarios.DefaultColdStart` | standx_limit_order.js:391-400 | with ladder [6, 7, 8] at 50000: longs at 49970, 49965, 49960, then shorts at 50030, 50035, 50040 |
| `DefaultScenarios.DefaultWarmTopUp` | standx_limit_order.js:402-425 | 1 long and 3 shorts resting give two longs at 6 bps and no shorts |
| `DefaultScenarios.DefaultPlacementsStayInBand` | standx_limit_order.js:7-10 | with the shipped configuration every new order is inside the band [1.5, 10] at the price it was placed from |

## Left out

- Scraping of the trading page is not modelled. `getIndicatorsFromChart`, `getOpenOrders`, `getOpenPositions` and `getCurrentPrice` become fields of the `Snapshot` input. Their regular expressions, iframe search and `parseFloat` are browser work.
- The close confirmation sequence is not modelled. `closePosition` clicks, waits for the dialog and searches for the confirm button; the model records it as one `Close` action carrying the confirmation label. Whether the dialog or the button was found depends on the venue and is not modelled.
- The steps inside `execute` are not modelled: the fresh price sample, the limit button, the input fields, the submit button and their failure exits. Each call is one `Place` action with its side and multiplier. `Pricing.TargetPrice` gives the price before rounding; the `toFixed(2)` rounding is floating-point formatting and is left out.
- Time is not modelled: `delay`, `waitForElement` and the 30-second `setInterval` period. A timer tick is one atomic `RunTradingCycle`. The hazard of overlapping cycles is concurrency and is not modelled.
- Unexpected exceptions are not modelled. No modelled step throws, so the `try/catch` around the cycle never fires, and a cycle cut short by such an exception is not modelled.
- Numbers are exact reals rather than IEEE doubles. The one floating-point outcome kept is division by a zero price.
- Logging (`console.*`) is not modelled.
- `QUANTITY` and `SYMBOL` are carried in `Config`, but the engine never uses them. The quantity is only typed into the order form inside `execute`.
