# Portfolio helper maths, verified

A Dafny model of the closed-form portfolio maths in `helper.py`. Numbers are exact
`real`s, vectors are `seq<real>` and matrices are `seq<seq<real>>`. The model covers:

- the equal-weight portfolio `ewp`;
- the `w /= np.sum(w)` renormalisation that ends `tangency` and `gmv`;
- the expected return `mu.T @ w` and variance `w.T @ V @ w` of
  `evaluate_portfolio_performance_on_data`;
- the constant-correlation shrinkage estimator `shrinkcovariance`, given `V` and `C`;
- the Black-Litterman implied returns `implied_rets`;
- the two historical stress tests. `stress_test_mkt` holds $10M of the market column.
  `stress_test` holds $10M spread by weights `w` over the 48 industry columns.

Modules, one per section of `helper.py`:

| module | file | contents |
|---|---|---|
| `LinearAlgebra` | `linear_algebra.dfy` | `np.sum`, dot products, scaling, `m @ v`, `np.ones`, and their algebra |
| `Weights` | `weights.dfy` | `ewp`; `tangency` and `gmv` as methods that fill an `array<real>` and normalise it in place |
| `Performance` | `performance.dfy` | `Er` and `var` |
| `Shrinkage` | `shrinkage.dfy` | `rho_bar`, `V / C`, the diagonal, `V_CC` and the blend |
| `BlackLitterman` | `black_litterman.dfy` | `implied_rets` |
| `OrderStatistics` | `order_statistics.dfy` | `np.percentile(..., interpolation = 'higher')` and the expected shortfall |
| `StressTesting` | `stress_test.dfy` | the validation table as an `array2<real>`, with both stress tests as methods |

Python exceptions are `Err` values of a `Result`:

| exception | condition |
|---|---|
| `ZeroDivisionError` | `rho_bar` with fewer than two assets |
| `ValueError` (matrix product) | `mu.T @ w` with mismatched lengths |
| `ValueError` (percentile) | a percentile outside [0, 100] |
| `IndexError` (percentile) | no scenarios |
| `IndexError` (`iloc`) | an `iloc` column the table lacks |
| `ValueError` (broadcast) | weights that cannot broadcast against 48 columns |

The value at risk follows numpy's 'higher' rule, which is not the textbook nearest-rank rule:

- It selects the k-th smallest loss, counting from 0, for `k = ceil(alpha * (n - 1))`.
- With ten scenarios and `alpha = 0.9` it takes index 9 of the ascending losses, the largest loss.
- The nearest-rank rule (`OrderStatistics.NearestRankIndex`, `ceil(alpha * n) - 1`) would take index 8.
- `OrderStatistics.ValueAtRiskOfTenIsLargest` states both indices and that VaR is the largest loss.

The two stress tests differ in what they do to their argument:

- `stress_test_mkt` rewrites every cell of the caller's table as a gross factor.
- `stress_test` works on a copy and leaves the caller's table as it was.
- Calling `stress_test_mkt` twice on the same table therefore reads gross factors as percentage
  returns on the second call (`StressTesting.SecondMarketRunSeesGrossFactors`).

## Model

| member | source | states |
|---|---|---|
| Weights.EwpSumsToOne | helper.py:73-78 | `ewp(n)` has `n` entries, each `1/n`, and they sum to 1 |
| Weights.NormalizeInPlace | helper.py:58 | `w /= np.sum(w)` replaces the array's contents by the normalised vector |
| Weights.NormalizedSumsToOne | helper.py:57-58 | normalised weights sum to 1, and entry `i` is `w[i] / sum(w)` (proportional to the input) |
| Weights.NormalizedScaleInvariant | helper.py:57-58 | scaling the unnormalised vector by a non-zero factor gives the same weights |
| Weights.NormalizedIdempotent | helper.py:58 | normalising twice is normalising once |
| Weights.Tangency | helper.py:48-60 | the tangency weights are `inv(V) @ mu` normalised, in a fresh array, and sum to 1 |
| Weights.Gmv | helper.py:62-71 | the GMV weights are `inv(V) @ ones(n)` normalised, in a fresh array, and sum to 1 |
| Weights.MatVecArray | helper.py:57 | the product `inv(V) @ x` written into a fresh array |
| Weights.MatVecOnes | helper.py:68 | `m @ ones(n)` is the vector of row sums |
| Weights.GmvWeightIsRowShare | helper.py:68-69 | GMV weight `i` is row `i`'s sum of `inv(V)` over the sum of all its entries |
| Performance.Evaluate | helper.py:31-45 | `Er` and `var` are returned exactly when `w` and `mu` have equal length; otherwise the product fails |
| Performance.EvaluateTwoAssetExample | helper.py:44-45 | with `w = (0.5, 0.5)`, `mu = (0.1, 0.2)` and `V = diag(0.04, 0.09)`: `Er = 0.15` and `var = 0.0325` |
| Performance.EwpExpectedReturn | helper.py:44 | the equal-weight portfolio's expected return is the mean of `mu` |
| Performance.VarianceScale | helper.py:44-45 | scaling the weights by `k` scales `var` by `k * k` |
| Performance.DiagonalVarianceNonNegative | helper.py:44-45 | with a diagonal `V` of non-negative variances, `var` is non-negative |
| BlackLitterman.ImpliedRetsEntry | helper.py:104-114 | entry `i` of the implied returns is `risk_aversion * sum_j sigma[i][j] * w[j]` |
| BlackLitterman.ImpliedRetsLinearInRiskAversion | helper.py:112 | implied returns are additive and homogeneous in the risk aversion |
| BlackLitterman.ImpliedRetsLinearInWeights | helper.py:112 | implied returns are additive and homogeneous in the weights |
| BlackLitterman.ImpliedPortfolioReturn | helper.py:112 | `w . implied_rets` is `risk_aversion * w.T @ sigma @ w` |
| BlackLitterman.ImpliedRetsTwoAssetExample | helper.py:112 | risk aversion 2, `sigma = diag(0.04, 0.09)`, `w = (0.5, 0.5)` give `(0.04, 0.09)` |
| Shrinkage.RhoBar | helper.py:89-92 | `rho_bar` fails (division by zero) exactly when there are fewer than two assets |
| Shrinkage.UpperTriangleLength | helper.py:90-91 | the comprehension lists `num * (num - 1) / 2` entries |
| Shrinkage.UpperTriangleEntries | helper.py:90 | a value is in the comprehension exactly when it is some `C[i][j]` with `i < j` |
| Shrinkage.RhoBarIsMean | helper.py:89-92 | `rho_bar` is the plain mean of the entries above the diagonal |
| Shrinkage.RhoBarBounds | helper.py:89-92 | correlations in [-1, 1] give a `rho_bar` in [-1, 1] |
| Shrinkage.RhoBarOfConstantCorrelation | helper.py:89-92 | if every correlation above the diagonal is `rho`, then `rho_bar` is `rho` |
| Shrinkage.ShrinkCovariance | helper.py:81-101 | the shrunk covariance exists exactly when there are at least two assets, and has `V`'s shape |
| Shrinkage.ConstantCorrelationTargetEntry | helper.py:95-98 | `V_CC[i][i] = V[i][i] / C[i][i]`, and `V_CC[i][j] = rho_bar * V[i][j] / C[i][j]` off the diagonal |
| Shrinkage.ShrunkEntry | helper.py:99 | each entry is `shrinkage * V_CC[i][j] + (1 - shrinkage) * V[i][j]` |
| Shrinkage.ShrunkKeepsVariances | helper.py:94-99 | with `C[i][i] = 1` the diagonal stays `V[i][i]` for every shrinkage |
| Shrinkage.ShrunkNone | helper.py:99 | shrinkage 0 returns `V` |
| Shrinkage.ShrunkFull | helper.py:99 | shrinkage 1 returns `V_CC` |
| Shrinkage.ShrinkCovarianceExtremes | helper.py:81-101 | `shrinkcovariance` gives `V` at shrinkage 0 and `V_CC` at shrinkage 1 |
| Shrinkage.ShrunkBetween | helper.py:99 | for shrinkage in [0, 1], each entry lies between `V[i][j]` and `V_CC[i][j]` |
| Shrinkage.ShrunkSymmetric | helper.py:95-99 | symmetric `V` and `C` give a symmetric result |
| Shrinkage.TargetFromStandardDeviations | helper.py:95-98 | if `V[i][j] = C[i][j] * sd[i] * sd[j]`, then `V_CC[i][j] = rho_bar * sd[i] * sd[j]` |
| OrderStatistics.SortAscending | helper.py:154 | the sorted losses are a permutation of the losses |
| OrderStatistics.SortAscendingSorted | helper.py:154 | the sorted losses are in ascending order |
| OrderStatistics.SortAscendingCanonical | helper.py:154 | two rearrangements of the same losses sort to the same sequence |
| OrderStatistics.HigherIndex | helper.py:154 | the 'higher' index `ceil(alpha * (n - 1))` is a valid index and within one of `alpha * (n - 1)` |
| OrderStatistics.ValueAtRisk | helper.py:154 | VaR is one of the losses |
| OrderStatistics.ValueAtRiskIsOrderStatistic | helper.py:154 | `v` is VaR exactly when fewer than `k + 1` losses are below `v` and more than `k` are at most `v`, for `k = ceil(alpha * (n - 1))` |
| OrderStatistics.ValueAtRiskCoverage | helper.py:154 | at least an `alpha` fraction of the losses are at most VaR |
| OrderStatistics.ExpectedShortfallBounds | helper.py:154-155 | `VaR <= ES <= max(losses)` |
| OrderStatistics.ExpectedShortfallBetween | helper.py:155 | the mean of the losses at or above an observed loss `v` lies between `v` and any upper bound on the losses |
| OrderStatistics.HistoricalRisk | helper.py:152-157 | a percentile outside [0, 100] is refused first, then an empty set of scenarios |
| OrderStatistics.HistoricalRiskOrderIndependent | helper.py:152-157 | VaR and ES depend only on the multiset of losses, not on the scenario order |
| OrderStatistics.HistoricalRiskFiveScenarios | helper.py:152-157 | losses 300, 100, 500, 200, 400 at `alpha = 0.9` give VaR 500 and ES 500 |
| OrderStatistics.ValueAtRiskAtLastIndex | helper.py:154 | when the 'higher' index is the last one, VaR is the largest loss |
| OrderStatistics.ValueAtRiskOfTenIsLargest | helper.py:154 | with ten scenarios and `alpha = 0.9`, the 'higher' index is 9 where the nearest-rank index is 8, and VaR is the largest loss |
| StressTesting.CellsAt | helper.py:117 | the model's view of the table holds cell `(i, j)` at row `i`, column `j` |
| StressTesting.GrossFactor | helper.py:126 | `p / 100 + 1` is the gross factor whose return in percent is `p` |
| StressTesting.ConvertToGrossFactors | helper.py:125-126 | every cell of the table becomes `cell / 100 + 1`, and nothing else changes |
| StressTesting.StressTestMkt | helper.py:117-157 | the caller's table is left converted to gross factors; the result is VaR and ES of $10M in column 2, or the error that `iloc` or `np.percentile` raises |
| StressTesting.StressTest | helper.py:160-202 | the caller's table is not modified; the result is VaR and ES of `w * 10M` over the first 48 columns, with a single weight broadcast, or the error raised |
| StressTesting.GrossRowSlice | helper.py:125-135 | converting and then selecting columns equals selecting and then converting |
| StressTesting.LossesAt | helper.py:136-137 | scenario `i` loses `sum(positions) - sum_j values[i][j] * positions[j]` |
| StressTesting.DotGrossRow | helper.py:136 | a scenario values the positions at their cost plus `sum_j position[j] * p[j] / 100` |
| StressTesting.ScenarioLoss | helper.py:136-137 | the loss is `-sum_j position[j] * p[j] / 100` |
| StressTesting.LossOfScenario | helper.py:170-182 | in the converted table, scenario `i` loses `-sum_j position[j] * p[i][j] / 100` |
| StressTesting.MarketScenarioLoss | helper.py:125-137 | in `stress_test_mkt`, scenario `i` loses `-100000 * p[i][2]` dollars |
| StressTesting.FullyInvested | helper.py:174 | weights that sum to 1 invest exactly $10M |
| StressTesting.FlatScenarioNoLoss | helper.py:170-182 | with 48 weights, a scenario in which no industry moves loses nothing |
| StressTesting.BroadcastFlatScenario | helper.py:174-182 | with one weight `x` broadcast, a flat scenario reports a loss of `-47 * 10M * x` |
| StressTesting.MarketPositions | helper.py:174 | the market weights hold $10M in column 2 and nothing elsewhere |
| StressTesting.MarketPortfolioIsMarketStress | helper.py:117-202 | `stress_test` with all weight on column 2 gives the same result as `stress_test_mkt` on the same percentage returns |
| StressTesting.SecondMarketRunSeesGrossFactors | helper.py:125-126 | a flat one-scenario table gives VaR = ES = 0 on the first `stress_test_mkt` run, and VaR = ES = -100000 on a second run over the converted table |
| StressTesting.RiskOf | helper.py:152-155 | fails exactly on a percentile outside [0, 100] or no scenarios; otherwise VaR is an observed loss and `VaR <= ES <= max(losses)` |

## Left out

- `estimate_V`, `estimate_mu` and `data.corr()` are library estimates.
  - `V`, `mu` and `C` are inputs.
- `np.linalg.inv` is a library call. `Tangency` and `Gmv` take the inverse of `V` as an input.
- `np.sqrt` and the Sharpe ratio (`sigma` and `Sharpe` at helper.py:44-45) are not modelled:
  - they involve a square root and floating-point division;
  - only `Er` and `var` are modelled.
- IEEE floating point (rounding, `inf`, `nan`) is not modelled. All arithmetic is exact.
- Weights.NormalizeInPlace: requires a non-zero sum of weights. The source would divide by zero
  and produce `inf`/`nan` weights, which are not modelled.
- Weights.Tangency: requires a non-zero sum, for the same reason. It also requires `inv(V)` to be
  square and of the length of `mu`. When the lengths differ, `np.linalg.inv(V) @ mu` raises
  `ValueError`; the model excludes that input instead of returning an error.
- Weights.Gmv: requires a non-zero sum, for the same reason. It also requires `inv(V)` to be square,
  which `np.linalg.inv` guarantees for any matrix it accepts; its `LinAlgError` on a non-square or
  singular `V` is not modelled.
- Shrinkage.ShrinkCovariance: requires every entry of `C` to be non-zero. In the source, `V / C`
  yields `inf`/`nan` at a zero correlation, which is not modelled.
- The dimension of `V` and `C` (`len(data.corr())`) is taken to be the same for both matrices;
  the model requires them to be square and of the same size.
- The `print` warning of helper.py:39 is output only.
- The `ValueError` from the matrix product on mismatched lengths is modelled as `Err`.
- pandas bookkeeping is not modelled; for a table with an unnamed numeric row index it does not
  affect the result:
  - the `Portfolio Value` and `Loss` columns added to `df_simulation`;
  - `reset_index`, `rename` and the `Scenario` numbering;
  - the unused ranked `df_loss` and `n`.
  - The losses are computed directly as a sequence.
- `np.percentile` selects the k-th smallest loss by partitioning. The model specifies that element as
  entry `k` of the losses in ascending order, using an insertion sort as a specification only; no
  array is partitioned or reordered.
- `w` is taken to be a numpy array. A Python list would be repeated, not scaled, by
  `w * 10000000`, and that case is not modelled.
- BlackLitterman.ImpliedRets: requires every row of `sigma` to have the length of `w`. When they
  differ, `sigma.dot(w)` raises `ValueError`; the model excludes that input instead of returning
  an error, unlike `Performance.Evaluate`.
- BlackLitterman.ImpliedRets: always returns a vector. `.squeeze()` in `implied_rets` removes every
  unit dimension, so with a single asset numpy returns a 0-d scalar rather than a one-element array;
  the model's one-element sequence holds the same value.
- Pandas column labels are not modelled: the table is a rectangular `array2<real>` whose columns
  are selected by position, as `iloc` does.
- Nor is the table's row index: the table is assumed to have an unnamed numeric index. With a named
  index, `reset_index` (helper.py:138 and :183) adds a column under that name, the `rename` finds no
  `index` column and `df_simulation['Scenario']` (helper.py:140 and :185) raises `KeyError`; with a
  string or timestamp index, `df_simulation['Scenario'] + 1` raises `TypeError`. Neither error is
  modelled. In `stress_test_mkt` it would come after helper.py:125-126 have already converted the
  caller's table.
