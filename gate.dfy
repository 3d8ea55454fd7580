/** The volatility gate: whether this cycle places new orders, and the ATR
    value remembered for the next cycle. */
module VolatilityGate {
  import opened Domain

  datatype GateResult = GateResult(skip: bool, previousAtr: Option<real>)

  function EvaluateGate(cfg: Config, atr: Option<real>, previousAtr: Option<real>): (g: GateResult)
    // disabled gate or no ATR reading: never skips, keeps the stale value
    ensures !cfg.useIndicators || atr.None? ==> !g.skip && g.previousAtr == previousAtr
    // with a reading, the reading becomes the remembered value
    ensures cfg.useIndicators && atr.Some? ==> g.previousAtr == atr
    // an ATR above the maximum always skips
    ensures cfg.useIndicators && atr.Some? && atr.value > cfg.maxAtr ==> g.skip
    // otherwise it skips exactly on a jump from the prior value
    ensures cfg.useIndicators && atr.Some? && atr.value <= cfg.maxAtr ==>
      (g.skip <==> previousAtr.Some? && Abs(atr.value - previousAtr.value) > cfg.atrChangeThreshold)
  {
    if !cfg.useIndicators then GateResult(false, previousAtr)
    else match atr
      case None => GateResult(false, previousAtr)
      case Some(a) =>
        var skip :=
          if a > cfg.maxAtr then true
          else if previousAtr.Some? then Abs(a - previousAtr.value) > cfg.atrChangeThreshold
          else false;
        GateResult(skip, atr)
  }

  /** The second of two cycles compares with the first cycle's reading, or
      with the older value when the first had none. */
  lemma ComparesWithPriorReading(cfg: Config, a1: Option<real>, a2: real, prev: Option<real>)
    requires cfg.useIndicators && a2 <= cfg.maxAtr
    ensures var g1 := EvaluateGate(cfg, a1, prev);
            var base := if a1.Some? then a1 else prev;
            EvaluateGate(cfg, Some(a2), g1.previousAtr).skip <==>
              base.Some? && Abs(a2 - base.value) > cfg.atrChangeThreshold
  {
  }
}
