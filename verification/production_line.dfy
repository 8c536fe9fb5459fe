/**
 A production line described by Factory Physics closed-form laws.

 A line is fixed by two parameters: the bottleneck rate `rb` (parts per unit
 time) and the natural process time `t0` (time for one job to cross an empty
 line). The critical WIP `W0 = rb * t0` is derived from them. For a WIP level
 `w` the line offers a cycle time (CT) and a throughput (TH) under three
 regimes: the best case (no variability), the worst case (maximum
 variability) and the practical worst case (maximum randomness).

 All quantities are exact reals. factoryphysics.py checks none of its inputs, so
 each formula requires only that the divisor it uses is nonzero; the
 physically meaningful lines are those satisfying `Valid()`.
 */
module ProductionLines {

  datatype ProductionLine = ProductionLine(rb: real, t0: real) {

    /** Both parameters are positive: the domain the laws are stated for. */
    predicate Valid() {
      rb > 0.0 && t0 > 0.0
    }

    /** Critical WIP: the WIP level at which a perfect line first runs its
        bottleneck at full rate. Derived, never set on its own. */
    function W0(): (w0: real)
      ensures Valid() ==> w0 > 0.0
    {
      rb * t0
    }

    /** Best-case (minimum) cycle time. */
    function CtBest(w: real): (ct: real)
      requires w > W0() ==> rb != 0.0
      ensures Valid() ==> ct >= t0
    {
      if w <= W0() then t0 else w / rb
    }

    /** Best-case (maximum) throughput. */
    function ThBest(w: real): (th: real)
      requires w <= W0() ==> t0 != 0.0
      ensures Valid() ==> th <= rb
      ensures Valid() && w > 0.0 ==> th > 0.0
    {
      if w <= W0() then w / t0 else rb
    }

    /** Worst-case cycle time: every job waits behind every other one. */
    function CtWorst(w: real): (ct: real)
      ensures t0 > 0.0 && w >= 1.0 ==> ct >= t0
    {
      w * t0
    }

    /** Worst-case throughput: independent of the WIP level. */
    function ThWorst(): (th: real)
      requires t0 != 0.0
      ensures t0 > 0.0 ==> th > 0.0
    {
      1.0 / t0
    }

    /** Practical-worst-case cycle time. */
    function CtPwc(w: real): (ct: real)
      requires rb != 0.0
      ensures Valid() && w >= 1.0 ==> ct >= t0
    {
      t0 + (w - 1.0) / rb
    }

    /** Practical-worst-case throughput. */
    function ThPwc(w: real): (th: real)
      requires W0() + w - 1.0 != 0.0
      ensures Valid() && w >= 1.0 ==> th > 0.0
    {
      (w / (W0() + w - 1.0)) * rb
    }
  }
}
