/** The cycle scheduler: one trading cycle (gate, close positions, cancel
    out-of-band orders, reconcile the ladder), the start/stop lifecycle and
    the bound on the number of cycles. */
module CycleScheduler {
  import opened Domain
  import opened Pricing
  import opened VolatilityGate
  import opened PositionCloser
  import opened DistanceCanceller
  import opened LadderReconciler

  /** A periodic-timer handle; every handle a browser returns is a positive
      integer, so an armed timer is always truthy. */
  type TimerHandle = h: nat | h > 0 witness 1

  /** The bot's mutable fields. */
  datatype SchedState = SchedState(loopCounter: nat, previousAtr: Option<real>, loopInterval: Option<TimerHandle>)

  /** The fields as the constructor sets them. */
  const Initial: SchedState := SchedState(0, None, None)

  /** The state after a cycle and the mutations it issued, in order. */
  datatype CycleResult = CycleResult(state: SchedState, actions: seq<Action>)

  /** The state after `stop`: no timer armed. */
  function Stopped(st: SchedState): (s: SchedState)
    ensures s.loopInterval.None?
    ensures s.loopCounter == st.loopCounter && s.previousAtr == st.previousAtr
  {
    if st.loopInterval.Some? then st.(loopInterval := None) else st
  }

  /** One trading cycle run on the venue readings `r`. A failed price read
      ends the cycle after the positions are closed, before the loop bound
      is checked. */
  function Cycle(cfg: Config, st: SchedState, r: Snapshot): (c: CycleResult)
    ensures c.state.loopCounter == st.loopCounter + 1
    ensures c.state.previousAtr == EvaluateGate(cfg, r.atr, st.previousAtr).previousAtr
    ensures c.state.loopInterval.Some? ==> c.state.loopInterval == st.loopInterval
    ensures c.state.loopInterval.None? <==>
      st.loopInterval.None? || (r.price.Some? && 0 < cfg.maxLoops <= st.loopCounter + 1)
    ensures r.price.None? ==> c.actions == CloseActions(r.positions)
  {
    var counter := st.loopCounter + 1;
    var gate := EvaluateGate(cfg, r.atr, st.previousAtr);
    var closes := CloseActions(r.positions);
    var after := SchedState(counter, gate.previousAtr, st.loopInterval);
    match r.price
    case None => CycleResult(after, closes)
    case Some(current) =>
      var cancels := Cancellations(r.orders, current, cfg);
      var ordersCancelled := |cancels| > 0;
      var places :=
        if gate.skip then []
        else Placements(if ordersCancelled then r.refreshedOrders else r.orders, cfg);
      var final := if cfg.maxLoops > 0 && counter >= cfg.maxLoops then Stopped(after) else after;
      CycleResult(final, closes + cancels + places)
  }

  /** `start`: nothing when a timer is armed; otherwise the counter is reset,
      the timer armed and the first cycle run. The timer is armed before the
      first cycle reaches its loop-bound check, so that check can disarm it. */
  function StartCycle(cfg: Config, st: SchedState, handle: TimerHandle, r: Snapshot): (c: CycleResult)
    ensures st.loopInterval.Some? ==> c == CycleResult(st, [])
    ensures st.loopInterval.None? ==> c.state.loopCounter == 1
  {
    if st.loopInterval.Some? then CycleResult(st, [])
    else Cycle(cfg, st.(loopCounter := 0, loopInterval := Some(handle)), r)
  }

  /** The timer-driven schedule: one cycle per reading while a timer is armed. */
  function Run(cfg: Config, st: SchedState, rs: seq<Snapshot>): (s: SchedState)
    // no tick fires while no timer is armed
    ensures st.loopInterval.None? ==> s == st
    // one tick per reading at most, each adding one to the counter
    ensures st.loopCounter <= s.loopCounter <= st.loopCounter + |rs|
    // a schedule still armed at the end ran every reading on its original timer
    ensures s.loopInterval.Some? ==> s.loopInterval == st.loopInterval && s.loopCounter == st.loopCounter + |rs|
    decreases |rs|
  {
    if rs == [] || st.loopInterval.None? then st
    else Run(cfg, Cycle(cfg, st, rs[0]).state, rs[1..])
  }

  /** Phase of an action within a cycle: closes, then cancels, then placements. */
  function Phase(a: Action): nat
  {
    match a
    case Close(_, _) => 0
    case Cancel(_) => 1
    case Place(_, _) => 2
  }

  /** Actions listed in non-decreasing phase. */
  predicate PhaseOrdered(acts: seq<Action>)
  {
    forall i, j :: 0 <= i < j < |acts| ==> Phase(acts[i]) <= Phase(acts[j])
  }

  lemma ConcatPhases(xs: seq<Action>, ys: seq<Action>, zs: seq<Action>)
    requires forall a :: a in xs ==> Phase(a) == 0
    requires forall a :: a in ys ==> Phase(a) == 1
    requires forall a :: a in zs ==> Phase(a) == 2
    ensures PhaseOrdered(xs + ys + zs)
  {
    var acts := xs + ys + zs;
    forall i | 0 <= i < |acts|
      ensures Phase(acts[i]) == if i < |xs| then 0 else if i < |xs| + |ys| then 1 else 2
    {
      if i < |xs| {
        assert acts[i] in xs;
      } else if i < |xs| + |ys| {
        assert acts[i] == ys[i - |xs|];
      } else {
        assert acts[i] == zs[i - |xs| - |ys|];
      }
    }
  }

  /** A cycle issues its closes, then its cancellations, then its placements. */
  lemma CyclePhaseOrder(cfg: Config, st: SchedState, r: Snapshot)
    ensures PhaseOrdered(Cycle(cfg, st, r).actions)
  {
    var closes := CloseActions(r.positions);
    assert forall a :: a in closes ==> Phase(a) == 0;
    if r.price.Some? {
      var current := r.price.value;
      var cancels := Cancellations(r.orders, current, cfg);
      var finalOrders := if |cancels| > 0 then r.refreshedOrders else r.orders;
      var places := if EvaluateGate(cfg, r.atr, st.previousAtr).skip then [] else Placements(finalOrders, cfg);
      ConcatPhases(closes, cancels, places);
    } else {
      ConcatPhases(closes, [], []);
      assert closes + [] + [] == closes;
    }
  }

  /** A cycle the gate suppresses places nothing. */
  lemma GatedCyclePlacesNothing(cfg: Config, st: SchedState, r: Snapshot)
    requires EvaluateGate(cfg, r.atr, st.previousAtr).skip
    ensures forall a :: a in Cycle(cfg, st, r).actions ==> !a.Place?
  {
  }

  /** The second order read is used only when something was cancelled:
      otherwise placement works from the first read. */
  lemma RefreshOnlyAfterCancel(cfg: Config, st: SchedState, r: Snapshot, other: seq<Order>)
    requires r.price.Some?
    requires forall i :: 0 <= i < |r.orders| ==> !Violates(r.orders[i], r.price.value, cfg)
    ensures Cycle(cfg, st, r) == Cycle(cfg, st, r.(refreshedOrders := other))
    ensures Cycle(cfg, st, r).actions ==
      CloseActions(r.positions) +
      (if EvaluateGate(cfg, r.atr, st.previousAtr).skip then [] else Placements(r.orders, cfg))
  {
    CancelledAny(r.orders, r.price.value, cfg);
  }

  /** A ladder already at its length on both sides, with no order out of
      band, gets no cancellation and no placement: the cycle only closes
      positions. */
  lemma SteadyLadderIsLeftAlone(cfg: Config, st: SchedState, r: Snapshot)
    requires r.price.Some? && |r.orders| > 0
    requires forall i :: 0 <= i < |r.orders| ==> !Violates(r.orders[i], r.price.value, cfg)
    requires CountSide(r.orders, Long) >= |cfg.bpsLadder| && CountSide(r.orders, Short) >= |cfg.bpsLadder|
    ensures Cycle(cfg, st, r).actions == CloseActions(r.positions)
  {
    RefreshOnlyAfterCancel(cfg, st, r, r.refreshedOrders);
    AtTargetPlacesNothing(r.orders, cfg);
  }

  /** Restarting after a stop resets the counter and resumes with a fresh
      timer. */
  lemma RestartAfterStop(cfg: Config, st: SchedState, handle: TimerHandle, r: Snapshot)
    ensures var c := StartCycle(cfg, Stopped(st), handle, r);
            c.state.loopCounter == 1 &&
            (c.state.loopInterval.Some? <==> !(r.price.Some? && 0 < cfg.maxLoops <= 1)) &&
            (c.state.loopInterval.Some? ==> c.state.loopInterval == Some(handle))
  {
  }

  /** Without a positive loop bound the schedule never stops itself, and
      with one it keeps going while the counter stays below the bound; the
      counter advances by one per tick. */
  lemma {:induction false} RunBelowBound(cfg: Config, st: SchedState, rs: seq<Snapshot>)
    requires st.loopInterval.Some?
    requires cfg.maxLoops <= 0 || st.loopCounter + |rs| < cfg.maxLoops
    ensures Run(cfg, st, rs).loopInterval == st.loopInterval
    ensures Run(cfg, st, rs).loopCounter == st.loopCounter + |rs|
    decreases |rs|
  {
    if rs != [] {
      RunBelowBound(cfg, Cycle(cfg, st, rs[0]).state, rs[1..]);
    }
  }

  /** With a positive bound and every price read succeeding, the schedule
      stops itself exactly when the counter reaches the bound. */
  lemma {:induction false} RunStopsAtBound(cfg: Config, st: SchedState, rs: seq<Snapshot>)
    requires st.loopInterval.Some? && 0 < cfg.maxLoops
    requires st.loopCounter < cfg.maxLoops <= st.loopCounter + |rs|
    requires forall i :: 0 <= i < |rs| ==> rs[i].price.Some?
    ensures Run(cfg, st, rs).loopInterval.None?
    ensures Run(cfg, st, rs).loopCounter == cfg.maxLoops
    decreases |rs|
  {
    var next := Cycle(cfg, st, rs[0]).state;
    if st.loopCounter + 1 < cfg.maxLoops {
      assert forall i :: 0 <= i < |rs[1..]| ==> rs[1..][i] == rs[i + 1];
      RunStopsAtBound(cfg, next, rs[1..]);
    } else {
      assert next.loopInterval.None?;
    }
  }

  /** A failed price read skips the loop-bound check for that cycle, so the
      schedule still runs past the bound. */
  lemma FailedReadPostponesStop(cfg: Config, st: SchedState, r: Snapshot)
    requires r.price.None?
    ensures Cycle(cfg, st, r).state.loopInterval == st.loopInterval
  {
  }

  /** The steps of a cycle whose price read succeeded, put together. */
  lemma CompletedCycle(cfg: Config, st: SchedState, r: Snapshot, cancels: seq<Action>, ordersCancelled: bool, places: seq<Action>)
    requires r.price.Some?
    requires cancels == Cancellations(r.orders, r.price.value, cfg)
    requires ordersCancelled <==> exists i :: 0 <= i < |r.orders| && Violates(r.orders[i], r.price.value, cfg)
    requires places ==
      if EvaluateGate(cfg, r.atr, st.previousAtr).skip then []
      else Placements(if ordersCancelled then r.refreshedOrders else r.orders, cfg)
    ensures Cycle(cfg, st, r).actions == CloseActions(r.positions) + cancels + places
  {
    CancelledAny(r.orders, r.price.value, cfg);
  }

  lemma AppendThree(t: seq<Action>, a: seq<Action>, b: seq<Action>, c: seq<Action>)
    ensures t + a + b + c == t + (a + b + c)
  {
  }

  /** The bot object: its three fields, its configuration and the trace of
      every mutation it has issued to the venue. */
  class StandxLimitOrder {
    const cfg: Config
    var loopInterval: Option<TimerHandle>
    var loopCounter: nat
    var previousAtr: Option<real>
    var trace: seq<Action>

    function State(): SchedState
      reads this
    {
      SchedState(loopCounter, previousAtr, loopInterval)
    }

    constructor (cfg: Config)
      ensures this.cfg == cfg && State() == Initial && trace == []
    {
      this.cfg := cfg;
      loopInterval := None;
      loopCounter := 0;
      previousAtr := None;
      trace := [];
    }

    method RunTradingCycle(r: Snapshot)
      modifies this
      ensures State() == Cycle(cfg, old(State()), r).state
      ensures trace == old(trace) + Cycle(cfg, old(State()), r).actions
    {
      ghost var before := State();
      ghost var previousTrace := trace;
      loopCounter := loopCounter + 1;
      var gate := EvaluateGate(cfg, r.atr, previousAtr);
      var skipPlacement := gate.skip;
      previousAtr := gate.previousAtr;

      var closes := CloseAll(r.positions);
      trace := trace + closes;

      if r.price.None? {
        return;
      }
      var currentPrice := r.price.value;

      var cancels, ordersCancelled := CancelOutOfBand(r.orders, currentPrice, cfg);
      trace := trace + cancels;

      var places := [];
      if !skipPlacement {
        var finalOrders := if ordersCancelled then r.refreshedOrders else r.orders;
        places := Reconcile(finalOrders, cfg);
        trace := trace + places;
      }
      CompletedCycle(cfg, before, r, cancels, ordersCancelled, places);
      AppendThree(previousTrace, closes, cancels, places);

      if cfg.maxLoops > 0 && loopCounter >= cfg.maxLoops {
        Stop();
      }
    }

    method Start(handle: TimerHandle, r: Snapshot)
      modifies this
      ensures State() == StartCycle(cfg, old(State()), handle, r).state
      ensures trace == old(trace) + StartCycle(cfg, old(State()), handle, r).actions
    {
      if loopInterval.Some? {
        return;
      }
      loopCounter := 0;
      loopInterval := Some(handle);
      RunTradingCycle(r);
    }

    method Stop()
      modifies this
      ensures State() == Stopped(old(State()))
      ensures trace == old(trace)
    {
      if loopInterval.Some? {
        loopInterval := None;
      }
    }
  }
}
