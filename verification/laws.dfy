/**
 The laws relating the six formulas of a production line: the balance at
 critical WIP, Little's Law in each regime, monotonicity in WIP, and the
 ordering best case / practical worst case / worst case.
 */
module Laws {
  import opened ProductionLines

  /** Critical WIP balances the two parameters: a perfect line holding `W0`
      jobs runs at the bottleneck rate with the natural process time. */
  lemma CriticalWipBalance(line: ProductionLine)
    requires line.Valid()
    ensures line.W0() > 0.0
    ensures line.W0() / line.rb == line.t0
    ensures line.W0() / line.t0 == line.rb
  {
  }

  /** At `w == W0` the two branches of each best-case formula meet: the
      below-critical branch and the above-critical branch give one value. */
  lemma BestCaseContinuity(line: ProductionLine)
    requires line.rb != 0.0 && line.t0 != 0.0
    ensures line.CtBest(line.W0()) == line.t0 == line.W0() / line.rb
    ensures line.ThBest(line.W0()) == line.W0() / line.t0 == line.rb
  {
  }

  /** A perfect line has no queueing exactly up to critical WIP, and runs at
      the bottleneck rate exactly from critical WIP on. */
  lemma BestCaseSaturation(line: ProductionLine, w: real)
    requires line.Valid()
    ensures line.CtBest(w) == line.t0 <==> w <= line.W0()
    ensures line.ThBest(w) == line.rb <==> w >= line.W0()
  {
  }

  /** Little's Law, best case: throughput times cycle time is the WIP level. */
  lemma LittlesLawBest(line: ProductionLine, w: real)
    requires line.rb != 0.0 && line.t0 != 0.0
    ensures line.ThBest(w) * line.CtBest(w) == w
  {
  }

  /** Little's Law, worst case. */
  lemma LittlesLawWorst(line: ProductionLine, w: real)
    requires line.t0 != 0.0
    ensures line.ThWorst() * line.CtWorst(w) == w
  {
  }

  /** Little's Law, practical worst case: the throughput formula is the
      cycle-time formula inverted through `TH = w / CT`. */
  lemma LittlesLawPwc(line: ProductionLine, w: real)
    requires line.rb != 0.0
    requires line.W0() + w - 1.0 != 0.0
    ensures line.ThPwc(w) * line.CtPwc(w) == w
  {
  }

  /** Best-case cycle time and throughput never decrease as WIP grows. */
  lemma BestCaseMonotonic(line: ProductionLine, w1: real, w2: real)
    requires line.Valid()
    requires w1 <= w2
    ensures line.CtBest(w1) <= line.CtBest(w2)
    ensures line.ThBest(w1) <= line.ThBest(w2)
  {
    // Each formula is linear on either side of `W0`, and the balance
    // `W0 / rb == t0`, `W0 / t0 == rb` joins the two pieces.
    CriticalWipBalance(line);
    if w2 <= line.W0() {
      DivLe(w1, w2, line.t0);
    } else if w1 <= line.W0() {
      DivLe(w1, line.W0(), line.t0);
      DivLe(line.W0(), w2, line.rb);
    } else {
      DivLe(w1, w2, line.rb);
    }
  }

  /** Worst-case cycle time strictly increases with WIP. */
  lemma CtWorstStrictlyIncreasing(line: ProductionLine, w1: real, w2: real)
    requires line.t0 > 0.0
    requires w1 < w2
    ensures line.CtWorst(w1) < line.CtWorst(w2)
  {
    var d := w2 - w1;
    MulPos(d, line.t0);
    assert line.CtWorst(w2) == line.CtWorst(w1) + d * line.t0;
  }

  /** The product of two positive numbers is positive. */
  lemma MulPos(a: real, b: real)
    requires a > 0.0 && b > 0.0
    ensures a * b > 0.0
  {
  }

  /** Practical-worst-case cycle time strictly increases with WIP. */
  lemma CtPwcStrictlyIncreasing(line: ProductionLine, w1: real, w2: real)
    requires line.rb > 0.0
    requires w1 < w2
    ensures line.CtPwc(w1) < line.CtPwc(w2)
  {
  }

  /** With a single job in the line the two worst cases coincide on any line
      whose formulas are defined: the job crosses in `t0` at the rate of one
      job. */
  lemma SingleJobWorstCasesAgree(line: ProductionLine)
    requires line.rb != 0.0 && line.t0 != 0.0
    ensures line.CtPwc(1.0) == line.CtWorst(1.0) == line.t0
    ensures line.ThPwc(1.0) == line.ThWorst()
  {
  }

  /** With a single job in the line all three regimes coincide: the job
      crosses in `t0`, and the worst-case throughput is that of one job. The
      best case joins the other two only when one job is not above critical
      WIP. */
  lemma SingleJobRegimesAgree(line: ProductionLine)
    requires line.Valid()
    requires line.W0() >= 1.0
    ensures line.CtBest(1.0) == line.CtPwc(1.0) == line.CtWorst(1.0) == line.t0
    ensures line.ThBest(1.0) == line.ThPwc(1.0) == line.ThWorst()
  {
  }

  /** Cycle times are ordered: the best case is the minimum, the worst case
      the maximum, the practical worst case lies between. */
  lemma RegimeOrderCt(line: ProductionLine, w: real)
    requires line.Valid()
    requires line.W0() >= 1.0
    requires w >= 1.0
    ensures line.CtBest(w) <= line.CtPwc(w) <= line.CtWorst(w)
  {
    CtBestBelowPwc(line, w);
    CtPwcBelowWorst(line, w);
  }

  /** Best-case cycle time is at most the practical-worst-case one: above
      critical WIP because `w <= W0 + w - 1`, below it because
      `W0 <= W0 + w - 1`. */
  lemma CtBestBelowPwc(line: ProductionLine, w: real)
    requires line.Valid()
    requires line.W0() >= 1.0
    requires w >= 1.0
    ensures line.CtBest(w) <= line.CtPwc(w)
  {
    CriticalWipBalance(line);
    PwcAsQuotient(line, w);
    var d := line.W0() + w - 1.0;
    if w > line.W0() {
      DivLe(w, d, line.rb);
    } else {
      DivLe(line.W0(), d, line.rb);
    }
  }

  /** Practical-worst-case cycle time is at most the worst-case one, since
      `W0 + w - 1 <= w * W0` when `(w - 1) * (W0 - 1) >= 0`. */
  lemma CtPwcBelowWorst(line: ProductionLine, w: real)
    requires line.Valid()
    requires line.W0() >= 1.0
    requires w >= 1.0
    ensures line.CtPwc(w) <= line.CtWorst(w)
  {
    PwcAsQuotient(line, w);
    var d, w0 := line.W0() + w - 1.0, line.W0();
    assert (w - 1.0) * (w0 - 1.0) >= 0.0;
    DivLe(d, w * w0, line.rb);
    assert w * w0 / line.rb == w * line.t0;
  }

  /** The practical-worst-case cycle time is `(W0 + w - 1) / rb`. */
  lemma PwcAsQuotient(line: ProductionLine, w: real)
    requires line.rb != 0.0
    ensures line.CtPwc(w) == (line.W0() + w - 1.0) / line.rb
  {
    DivAdd(line.W0(), w - 1.0, line.rb);
    assert line.W0() / line.rb == line.t0;
  }

  /** Division distributes over a sum. */
  lemma DivAdd(a: real, b: real, c: real)
    requires c != 0.0
    ensures (a + b) / c == a / c + b / c
  {
  }

  /** Division by a positive number preserves order. */
  lemma DivLe(a: real, b: real, c: real)
    requires a <= b
    requires c > 0.0
    ensures a / c <= b / c
  {
  }

  /** Throughputs are ordered the opposite way: by Little's Law each
      throughput is `w` over its cycle time. */
  lemma RegimeOrderTh(line: ProductionLine, w: real)
    requires line.Valid()
    requires line.W0() >= 1.0
    requires w >= 1.0
    ensures line.ThWorst() <= line.ThPwc(w) <= line.ThBest(w)
  {
    ThWorstBelowPwc(line, w);
    ThPwcBelowBest(line, w);
  }

  /** Worst-case throughput is at most the practical-worst-case one. */
  lemma ThWorstBelowPwc(line: ProductionLine, w: real)
    requires line.Valid()
    requires line.W0() >= 1.0
    requires w >= 1.0
    ensures line.ThWorst() <= line.ThPwc(w)
  {
    RegimeOrderCt(line, w);
    LittlesLawWorst(line, w);
    LittlesLawPwc(line, w);
    ThroughputFromLittle(line.ThWorst(), line.CtWorst(w), line.ThPwc(w), line.CtPwc(w), w);
  }

  /** Practical-worst-case throughput is at most the best-case one. */
  lemma ThPwcBelowBest(line: ProductionLine, w: real)
    requires line.Valid()
    requires line.W0() >= 1.0
    requires w >= 1.0
    ensures line.ThPwc(w) <= line.ThBest(w)
  {
    RegimeOrderCt(line, w);
    LittlesLawBest(line, w);
    LittlesLawPwc(line, w);
    ThroughputFromLittle(line.ThPwc(w), line.CtPwc(w), line.ThBest(w), line.CtBest(w), w);
  }

  /** Two states holding the same WIP: the one with the longer cycle time has
      the lower throughput. */
  lemma ThroughputFromLittle(thSlow: real, ctSlow: real, thFast: real, ctFast: real, w: real)
    requires 0.0 < ctFast <= ctSlow
    requires w >= 0.0
    requires thSlow * ctSlow == w && thFast * ctFast == w
    ensures thSlow <= thFast
  {
  }

  /** The ordering needs `W0 >= 1`: on a line with `rb = 1` and `t0 = 1/2`
      (so `W0 = 1/2`), two jobs have a practical-worst-case cycle time below
      the best-case one. */
  lemma RegimeOrderNeedsUnitCriticalWip()
    ensures ProductionLine(1.0, 0.5).W0() < 1.0
    ensures ProductionLine(1.0, 0.5).CtPwc(2.0) < ProductionLine(1.0, 0.5).CtBest(2.0)
  {
  }

  /** Worked values for a line with `rb = 1/2` and `t0 = 10`. */
  lemma WorkedExample()
    ensures ProductionLine(0.5, 10.0).W0() == 5.0
    ensures ProductionLine(0.5, 10.0).CtBest(3.0) == 10.0
    ensures ProductionLine(0.5, 10.0).CtBest(8.0) == 16.0
    ensures ProductionLine(0.5, 10.0).ThWorst() == 0.1
    ensures ProductionLine(0.5, 10.0).CtPwc(5.0) == 18.0
    ensures ProductionLine(0.5, 10.0).ThPwc(5.0) == 5.0 / 18.0
  {
  }
}
