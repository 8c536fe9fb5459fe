# Factory Physics production-line laws in Dafny

This project models the analytical core of `factoryphysics.py`. It has two parts.

- `ProductionLine` holds a bottleneck rate `r_b` and a natural process time `T_0`. It derives the critical WIP `W_0 = r_b * T_0`.
- The line gives six closed-form formulas for a WIP level `w`: cycle time (CT) and throughput (TH) in three regimes. The best case is a line with no variability. The worst case is a line with maximum variability. The practical worst case is a line with maximum randomness. These are the laws of Factory Physics, 3rd edition, pages 241, 243 and 247.
- `df_scenarios` sweeps the integer WIP levels `1..max_wip` and tabulates all six outputs per level.

Files:

- `production_line.dfy` (module `ProductionLines`): the `ProductionLine` datatype, `W0()`, and the six formulas as member functions over `real`.
- `laws.dfy` (module `Laws`): the laws relating the formulas. These cover continuity at `W_0`, Little's Law in each regime, monotonicity, the regime ordering, the single-job case and worked values.
- `scenarios.dfy` (module `ScenarioTables`): the scenario table as a `seq` of `Row` records, with its shape and content.

All quantities are exact reals, so every identity is proved exactly rather than within a floating-point tolerance.

The code validates none of its inputs. Python raises `ZeroDivisionError` only when a division actually hits zero. So each formula requires only that its own divisor is nonzero:

- `CtBest` needs `r_b != 0` above `W_0`;
- `ThBest` needs `T_0 != 0` at or below `W_0`;
- `ThWorst` needs `T_0 != 0`;
- `CtPwc` needs `r_b != 0`;
- `ThPwc` needs `W_0 + w - 1 != 0`;
- `CtWorst` needs nothing.

The physical laws are stated for `Valid()` lines, where `r_b > 0` and `T_0 > 0`.

Non-positive parameters, a WIP level `w <= 0` and `max_wip < 1` raise nothing of their own in factoryphysics.py; only a division that actually hits zero raises `ZeroDivisionError`. The model follows the code. In particular, `Scenarios` returns an empty table for `maxWip <= 0`, as `np.arange(1, max_wip + 1)` is empty then.

The regime ordering (`RegimeOrderCt`, `RegimeOrderTh`, `ScenariosOrdered`) is stated for lines with `W_0 >= 1`. On a real line this is no restriction. `T_0` includes the bottleneck's own process time, which is at least `1 / r_b` (or `m / r_b` with `m` parallel machines), so `W_0 = r_b * T_0 >= 1`. `RegimeOrderNeedsUnitCriticalWip` shows that the condition cannot be dropped for arbitrary positive parameters.

## Model

| member | source | states |
|---|---|---|
| Laws.CriticalWipBalance | factoryphysics.py:25-28 | for positive `r_b` and `T_0`, the critical WIP `W_0` is positive, `W_0 / r_b = T_0` and `W_0 / T_0 = r_b` |
| ProductionLines.ProductionLine.W0 | factoryphysics.py:28 | the critical WIP of a valid line is positive; its balance with `r_b` and `T_0` is `CriticalWipBalance` |
| ProductionLines.ProductionLine.CtWorst | factoryphysics.py:69-78 | for `T_0 > 0` and `w >= 1`, the worst-case cycle time is at least `T_0`; see also `LittlesLawWorst` and `CtWorstStrictlyIncreasing` |
| ProductionLines.ProductionLine.ThWorst | factoryphysics.py:81-90 | for `T_0 > 0` the worst-case throughput is positive, and it takes no WIP argument; see also `LittlesLawWorst` and `SingleJobRegimesAgree` |
| ProductionLines.ProductionLine.CtBest | factoryphysics.py:35-50 | the best-case cycle time is a minimum: for a valid line it is never below `T_0` |
| ProductionLines.ProductionLine.ThBest | factoryphysics.py:53-65 | the best-case throughput is at most `r_b` for a valid line, and positive for `w > 0` |
| ProductionLines.ProductionLine.CtPwc | factoryphysics.py:94-103 | for a valid line and `w >= 1`, the practical-worst-case cycle time is at least `T_0` |
| ProductionLines.ProductionLine.ThPwc | factoryphysics.py:106-115 | for a valid line and `w >= 1`, the practical-worst-case throughput is positive |
| Laws.BestCaseContinuity | factoryphysics.py:47-50 | at `w = W_0` the two branches of `CT_best` agree (`T_0 = W_0 / r_b`), and so do the two branches of `TH_best` (`W_0 / T_0 = r_b`) |
| Laws.BestCaseSaturation | factoryphysics.py:35-65 | best-case cycle time equals `T_0` if and only if `w <= W_0`; best-case throughput equals `r_b` if and only if `w >= W_0` |
| Laws.LittlesLawBest | factoryphysics.py:47-65 | `TH_best(w) * CT_best(w) = w` for every `w`, whenever `r_b` and `T_0` are nonzero |
| Laws.LittlesLawWorst | factoryphysics.py:78-90 | `TH_worst() * CT_worst(w) = w` for every `w`, whenever `T_0` is nonzero |
| Laws.LittlesLawPwc | factoryphysics.py:103-115 | `TH_PWC(w) * CT_PWC(w) = w` wherever both are defined: the throughput formula inverts the cycle-time formula |
| Laws.BestCaseMonotonic | factoryphysics.py:35-65 | best-case cycle time and throughput never decrease as WIP grows |
| Laws.CtWorstStrictlyIncreasing | factoryphysics.py:69-78 | worst-case cycle time strictly increases with WIP when `T_0 > 0` |
| Laws.CtPwcStrictlyIncreasing | factoryphysics.py:94-103 | practical-worst-case cycle time strictly increases with WIP when `r_b > 0` |
| Laws.SingleJobWorstCasesAgree | factoryphysics.py:69-115 | whenever `r_b` and `T_0` are nonzero, one job has cycle time `T_0` in both the worst and the practical worst case, and both throughputs equal `TH_worst()` |
| Laws.SingleJobRegimesAgree | factoryphysics.py:35-115 | for a valid line with `W_0 >= 1`, with one job in the line all three cycle times are `T_0` and all three throughputs equal `TH_worst()`, the throughput of a single job |
| Laws.RegimeOrderCt | factoryphysics.py:35-103 | for `W_0 >= 1` and `w >= 1`: `CT_best(w) <= CT_PWC(w) <= CT_worst(w)` |
| Laws.CtBestBelowPwc | factoryphysics.py:35-103 | for `W_0 >= 1` and `w >= 1`, best-case cycle time is at most the practical-worst-case cycle time |
| Laws.CtPwcBelowWorst | factoryphysics.py:69-103 | for `W_0 >= 1` and `w >= 1`, practical-worst-case cycle time is at most the worst-case cycle time |
| Laws.RegimeOrderTh | factoryphysics.py:53-115 | for `W_0 >= 1` and `w >= 1`: `TH_worst() <= TH_PWC(w) <= TH_best(w)` |
| Laws.RegimeOrderNeedsUnitCriticalWip | factoryphysics.py:35-103 | the ordering's condition `W_0 >= 1` cannot be dropped: for `r_b = 1`, `T_0 = 1/2` (so `W_0 = 1/2`), `CT_PWC(2) = 3/2` is below `CT_best(2) = 2` |
| Laws.ThWorstBelowPwc | factoryphysics.py:81-115 | for `W_0 >= 1` and `w >= 1`, worst-case throughput is at most the practical-worst-case throughput |
| Laws.ThPwcBelowBest | factoryphysics.py:53-115 | for `W_0 >= 1` and `w >= 1`, practical-worst-case throughput is at most the best-case throughput |
| Laws.WorkedExample | factoryphysics.py:28-115 | for `r_b = 1/2`, `T_0 = 10`: `W_0 = 5`, `CT_best(3) = 10`, `CT_best(8) = 16`, `TH_worst() = 1/10`, `CT_PWC(5) = 18`, `TH_PWC(5) = 5/18` |
| ScenarioTables.Scenarios | factoryphysics.py:118-130 | the table has `max_wip` rows (none when `max_wip <= 0`); row `i` has WIP `i + 1` and holds the six formulas evaluated at that WIP |
| ScenarioTables.ValidLineTabulable | factoryphysics.py:122-129 | a line with positive parameters can be tabulated for every `max_wip` without dividing by zero |
| ScenarioTables.ScenariosShape | factoryphysics.py:122-125 | the WIP column starts at 1, ends at `max_wip` and steps by 1; the worst-case throughput column is `TH_worst()` in every row |
| ScenarioTables.ScenariosPrefix | factoryphysics.py:122-129 | the table up to `m` is the first `m` rows of the table up to any `n >= m` |
| ScenarioTables.RowOfFormulasOrdered | factoryphysics.py:124-129 | a row of formula values at `w >= 1`, for a valid line with `W_0 >= 1`, orders both the cycle-time and the throughput columns by regime |
| ScenarioTables.ScenariosOrdered | factoryphysics.py:118-130 | every row of a valid line's table with `W_0 >= 1` orders both the cycle-time and the throughput columns by regime |

## Left out

- `plot_scenarios` (factoryphysics.py:132-170) is left out. It is Plotly rendering with no computation of its own.
- The `name` property and `_name` (factoryphysics.py:29-33) are left out. They are a label with no effect on any result.
- The pandas DataFrame index and the column-wise `.apply` are left out. The table is a sequence of plain `Row` records in ascending WIP order, with named columns in the same order as the source.
- Floating-point rounding is left out. All quantities are exact reals, so the identities hold exactly.
- Division by zero is not modelled as an error. Each formula's `requires` is the condition under which Python's division does not raise `ZeroDivisionError`.
- The table's `requires` (`Tabulable`) includes `T_0 != 0` even for an empty table. This matches factoryphysics.py:125, which evaluates `TH_worst()` whatever `max_wip` is.
- `ProductionLine`'s attributes are mutable in factoryphysics.py, and `W_0` is stored once at construction (factoryphysics.py:26-28). The model is an immutable value whose `W0()` always equals `rb * t0`, so the stale `W_0` left after reassigning `r_b` or `T_0` is not represented.
- `max_wip` is taken to be an integer. `np.arange(1, max_wip + 1)` also accepts a float (for `max_wip = 3.5` it gives the four levels `1.0 .. 4.0`); that use is not modelled.
