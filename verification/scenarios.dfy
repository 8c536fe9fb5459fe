/**
 The scenario table of a production line: one row per integer WIP level
 `1, 2, ..., maxWip`, holding the throughput and cycle time of that level
 under the best case, the worst case and the practical worst case.
 */
module ScenarioTables {
  import opened ProductionLines
  import Laws

  /** One row of the table. The worst-case throughput does not depend on
      the WIP level, so it is the same in every row. */
  datatype Row = Row(
    wip: int,
    thBest: real,
    thWorst: real,
    thPwc: real,
    ctBest: real,
    ctWorst: real,
    ctPwc: real
  )

  /** Every formula the table evaluates is defined: the worst-case
      throughput is computed even when the table is empty, and the other
      five formulas at each level `1..maxWip`. */
  predicate Tabulable(line: ProductionLine, maxWip: int) {
    && line.t0 != 0.0
    && forall w: int :: 1 <= w <= maxWip ==> LevelDefined(line, w)
  }

  /** Every formula can be evaluated at the integer WIP level `w` without
      dividing by zero. */
  predicate LevelDefined(line: ProductionLine, w: int) {
    line.rb != 0.0 && line.t0 != 0.0 && line.W0() + w as real - 1.0 != 0.0
  }

  /** The six outputs at WIP level `w`. */
  function RowAt(line: ProductionLine, w: int): Row
    requires LevelDefined(line, w)
  {
    var x := w as real;
    Row(w, line.ThBest(x), line.ThWorst(), line.ThPwc(x),
        line.CtBest(x), line.CtWorst(x), line.CtPwc(x))
  }

  /** The table for WIP levels `1..maxWip`, in ascending order; empty when
      `maxWip <= 0`. */
  function Scenarios(line: ProductionLine, maxWip: int): (rows: seq<Row>)
    requires Tabulable(line, maxWip)
    ensures |rows| == if maxWip <= 0 then 0 else maxWip
    ensures forall i :: 0 <= i < |rows| ==> rows[i].wip == i + 1
    ensures forall i :: 0 <= i < |rows| ==> rows[i] == RowAt(line, i + 1)
    decreases maxWip
  {
    if maxWip <= 0 then []
    else Scenarios(line, maxWip - 1) + [RowAt(line, maxWip)]
  }

  /** A line with positive parameters can be tabulated to any depth. */
  lemma ValidLineTabulable(line: ProductionLine, maxWip: int)
    requires line.Valid()
    ensures Tabulable(line, maxWip)
  {
  }

  /** The WIP column is the contiguous ascending run `1..maxWip`, and the
      worst-case throughput column is constant. */
  lemma ScenariosShape(line: ProductionLine, maxWip: int)
    requires Tabulable(line, maxWip)
    requires maxWip >= 1
    ensures Scenarios(line, maxWip)[0].wip == 1
    ensures Scenarios(line, maxWip)[maxWip - 1].wip == maxWip
    ensures forall i :: 0 <= i < maxWip - 1 ==>
              Scenarios(line, maxWip)[i + 1].wip == Scenarios(line, maxWip)[i].wip + 1
    ensures forall i, j :: 0 <= i < maxWip && 0 <= j < maxWip ==>
              Scenarios(line, maxWip)[i].thWorst == Scenarios(line, maxWip)[j].thWorst == line.ThWorst()
  {
  }

  /** Sweeping further only appends rows: the table up to `m` is a prefix of
      the table up to any `n >= m`. */
  lemma ScenariosPrefix(line: ProductionLine, m: int, n: int)
    requires 0 <= m <= n
    requires Tabulable(line, n)
    ensures Tabulable(line, m)
    ensures Scenarios(line, m) == Scenarios(line, n)[..m]
  {
  }

  /** The row orders the regimes: best case first, worst case last. */
  predicate RegimesOrdered(r: Row) {
    && r.ctBest <= r.ctPwc <= r.ctWorst
    && r.thWorst <= r.thPwc <= r.thBest
  }

  /** A row of formula values at `x >= 1` for a valid line with `W0 >= 1`
      orders the regimes. */
  lemma RowOfFormulasOrdered(line: ProductionLine, x: real, r: Row)
    requires line.Valid()
    requires line.W0() >= 1.0
    requires x >= 1.0
    requires r.thBest == line.ThBest(x) && r.ctBest == line.CtBest(x)
    requires r.thWorst == line.ThWorst() && r.ctWorst == line.CtWorst(x)
    requires r.thPwc == line.ThPwc(x) && r.ctPwc == line.CtPwc(x)
    ensures RegimesOrdered(r)
  {
    Laws.RegimeOrderCt(line, x);
    Laws.RegimeOrderTh(line, x);
  }

  /** Every row of the table of a valid line with `W0 >= 1` orders the
      regimes: best case first, worst case last. */
  lemma ScenariosOrdered(line: ProductionLine, maxWip: int)
    requires line.Valid()
    requires line.W0() >= 1.0
    ensures Tabulable(line, maxWip)
    ensures forall r :: r in Scenarios(line, maxWip) ==> RegimesOrdered(r)
  {
    ValidLineTabulable(line, maxWip);
    var rows := Scenarios(line, maxWip);
    forall i | 0 <= i < |rows|
      ensures RegimesOrdered(rows[i])
    {
      var x := (i + 1) as real;
      RowOfFormulasOrdered(line, x, rows[i]);
    }
  }
}
