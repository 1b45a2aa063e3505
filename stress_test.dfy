/**
 * Section E of helper.py: historical stress tests of a $10M position.
 *
 * The validation DataFrame of monthly percentage returns (one row per
 * scenario, one column per industry) is an `array2<real>`. `stress_test_mkt`
 * converts the caller's table to gross factors in place before it reads the
 * market column; `stress_test` converts a fresh copy and leaves its argument
 * alone. Both then price every scenario and hand the losses to the
 * value-at-risk and expected-shortfall rules of `OrderStatistics`.
 */
module StressTesting {
  import opened LinearAlgebra
  import opened Wrappers
  import opened OrderStatistics

  /** The $10M invested. */
  const Notional: real := 10000000.0
  /** `irange = [2]`: the column that holds the market return. */
  const MarketColumn: nat := 2
  /** `irange = list(range(48))`: the industry columns. */
  const AssetCount: nat := 48

  datatype StressError =
    | ColumnOutOfRange              // `iloc` names a column the table does not have (`IndexError`)
    | ShapeMismatch                 // `values * positions` cannot be broadcast (`ValueError`)
    | Percentile(cause: PercentileError)

  // ---------------------------------------------------------------------
  // The table

  /** Row `i` of the table. */
  function Row(t: array2<real>, i: nat): (r: Vector)
    reads t
    requires i < t.Length0
    ensures |r| == t.Length1
  {
    seq(t.Length1, j requires 0 <= j < t.Length1 reads t => t[i, j])
  }

  function RowsFrom(t: array2<real>, i0: nat): (m: Matrix)
    reads t
    requires i0 <= t.Length0
    ensures |m| == t.Length0 - i0 && HasWidth(m, t.Length1)
    decreases t.Length0 - i0
  {
    if i0 == t.Length0 then []
    else
      var rest := RowsFrom(t, i0 + 1);
      assert ([Row(t, i0)] + rest)[1..] == rest;
      [Row(t, i0)] + rest
  }

  /** The table's contents, row by row. */
  function Cells(t: array2<real>): (m: Matrix)
    reads t
    ensures |m| == t.Length0 && HasWidth(m, t.Length1)
  {
    RowsFrom(t, 0)
  }

  lemma {:induction false} RowsFromAt(t: array2<real>, i0: nat, i: nat, j: nat)
    requires i0 <= i < t.Length0 && j < t.Length1
    ensures |RowsFrom(t, i0)[i - i0]| == t.Length1 && RowsFrom(t, i0)[i - i0][j] == t[i, j]
    decreases i - i0
  {
    var rows := RowsFrom(t, i0);
    if i0 < i {
      RowsFromAt(t, i0 + 1, i, j);
      assert rows[i - i0] == RowsFrom(t, i0 + 1)[i - (i0 + 1)];
    } else {
      assert rows[0] == Row(t, i0);
    }
  }

  lemma {:induction false} CellsAt(t: array2<real>, i: nat, j: nat)
    requires i < t.Length0 && j < t.Length1
    ensures |Cells(t)[i]| == t.Length1 && Cells(t)[i][j] == t[i, j]
  {
    RowsFromAt(t, 0, i, j);
  }

  // ---------------------------------------------------------------------
  // Percentage returns to gross factors

  /** `val_df[column] / 100 + 1`: a percentage return as a gross factor. */
  function GrossFactor(p: real): (g: real)
    ensures (g - 1.0) * 100.0 == p
  {
    p / 100.0 + 1.0
  }

  function GrossRow(r: Vector): (g: Vector)
    ensures |g| == |r|
  {
    if r == [] then [] else [GrossFactor(r[0])] + GrossRow(r[1..])
  }

  /** The whole table converted, as the loop over `val_df.columns` leaves it. */
  function GrossTable(m: Matrix): (g: Matrix)
    ensures |g| == |m|
  {
    if m == [] then [] else [GrossRow(m[0])] + GrossTable(m[1..])
  }

  lemma {:induction false} GrossRowAt(r: Vector, j: nat)
    requires j < |r|
    ensures GrossRow(r)[j] == GrossFactor(r[j])
  {
    if j > 0 {
      GrossRowAt(r[1..], j - 1);
    }
  }

  lemma {:induction false} GrossTableAt(m: Matrix, i: nat)
    requires i < |m|
    ensures GrossTable(m)[i] == GrossRow(m[i])
  {
    if i > 0 {
      GrossTableAt(m[1..], i - 1);
    }
  }

  lemma {:induction false} GrossTableWidth(m: Matrix, width: nat)
    requires HasWidth(m, width)
    ensures HasWidth(GrossTable(m), width)
  {
    if m != [] {
      GrossTableWidth(m[1..], width);
      assert GrossTable(m)[1..] == GrossTable(m[1..]);
    }
  }

  /** Converting, then selecting columns, is selecting, then converting. */
  lemma {:induction false} GrossRowSlice(r: Vector, lo: nat, hi: nat)
    requires lo <= hi <= |r|
    ensures GrossRow(r)[lo..hi] == GrossRow(r[lo..hi])
  {
    var a, b := GrossRow(r)[lo..hi], GrossRow(r[lo..hi]);
    forall j | 0 <= j < hi - lo ensures a[j] == b[j] {
      GrossRowAt(r, lo + j);
      GrossRowAt(r[lo..hi], j);
    }
  }

  /**
   * `for column in val_df.columns: val_df[column] = val_df[column] / 100 + 1`,
   * column by column, on the table it is given.
   */
  method ConvertToGrossFactors(t: array2<real>)
    modifies t
    ensures forall i, j :: 0 <= i < t.Length0 && 0 <= j < t.Length1 ==> t[i, j] == GrossFactor(old(t[i, j]))
    ensures Cells(t) == GrossTable(old(Cells(t)))
  {
    ghost var before := Cells(t);
    HasWidthEvery(before, t.Length1);
    forall i, j | 0 <= i < t.Length0 && 0 <= j < t.Length1
      ensures |before[i]| == t.Length1 && before[i][j] == t[i, j]
    {
      CellsAt(t, i, j);
    }
    var column := 0;
    while column < t.Length1
      invariant 0 <= column <= t.Length1
      invariant forall i, j :: 0 <= i < t.Length0 && 0 <= j < t.Length1 ==>
        t[i, j] == if j < column then GrossFactor(before[i][j]) else before[i][j]
    {
      var row := 0;
      while row < t.Length0
        invariant 0 <= row <= t.Length0
        invariant forall i, j :: 0 <= i < t.Length0 && 0 <= j < t.Length1 ==>
          t[i, j] == if j < column || (j == column && i < row) then GrossFactor(before[i][j]) else before[i][j]
      {
        t[row, column] := t[row, column] / 100.0 + 1.0;
        row := row + 1;
      }
      column := column + 1;
    }
    CellsOfConverted(t, before);
  }

  lemma {:induction false} CellsOfConverted(t: array2<real>, before: Matrix)
    requires |before| == t.Length0 && forall i :: 0 <= i < |before| ==> |before[i]| == t.Length1
    requires forall i, j :: 0 <= i < t.Length0 && 0 <= j < t.Length1 ==> t[i, j] == GrossFactor(before[i][j])
    ensures Cells(t) == GrossTable(before)
  {
    var now, gross := Cells(t), GrossTable(before);
    HasWidthEvery(now, t.Length1);
    forall i | 0 <= i < t.Length0 ensures now[i] == gross[i] {
      GrossTableAt(before, i);
      forall j | 0 <= j < t.Length1 ensures now[i][j] == gross[i][j] {
        CellsAt(t, i, j);
        GrossRowAt(before[i], j);
      }
    }
  }

  // ---------------------------------------------------------------------
  // Pricing the scenarios

  /** `val_df.iloc[0:, lo:hi]`: the columns `lo` to `hi - 1` of every row. */
  function Columns(m: Matrix, width: nat, lo: nat, hi: nat): (r: Matrix)
    requires HasWidth(m, width) && lo <= hi <= width
    ensures |r| == |m| && HasWidth(r, hi - lo)
  {
    if m == [] then []
    else
      var rest := Columns(m[1..], width, lo, hi);
      assert ([m[0][lo..hi]] + rest)[1..] == rest;
      [m[0][lo..hi]] + rest
  }

  lemma {:induction false} ColumnsAt(m: Matrix, width: nat, lo: nat, hi: nat, i: nat)
    requires HasWidth(m, width) && lo <= hi <= width && i < |m|
    ensures |m[i]| == width && Columns(m, width, lo, hi)[i] == m[i][lo..hi]
  {
    HasWidthAt(m, width, i);
    if i > 0 {
      ColumnsAt(m[1..], width, lo, hi, i - 1);
    }
  }

  /**
   * `Loss = np.sum(positions) - np.sum(values * positions, axis = 1)`: what
   * each scenario takes off the amount invested.
   */
  function Losses(values: Matrix, positions: Vector, invested: real): (l: seq<real>)
    requires HasWidth(values, |positions|)
    ensures |l| == |values|
  {
    if values == [] then []
    else [invested - Dot(values[0], positions)] + Losses(values[1..], positions, invested)
  }

  lemma {:induction false} LossesAt(values: Matrix, positions: Vector, invested: real, i: nat)
    requires HasWidth(values, |positions|) && i < |values|
    ensures |values[i]| == |positions|
    ensures Losses(values, positions, invested)[i] == invested - Dot(values[i], positions)
  {
    HasWidthAt(values, |positions|, i);
    if i > 0 {
      LossesAt(values[1..], positions, invested, i - 1);
    }
  }

  /** The dollar position in each industry: `w * 10000000`. */
  function Positions(w: Vector): (p: Vector)
    ensures |p| == |w|
  {
    Scale(Notional, w)
  }

  /**
   * VaR and ES of the losses, with `np.percentile`'s errors passed on: it fails
   * exactly on a percentile outside [0, 100] or an empty set of scenarios, and
   * otherwise reports an observed loss as VaR and an ES between VaR and the
   * largest loss.
   */
  function RiskOf(losses: seq<real>, alpha: real): (r: Result<Risk, StressError>)
    ensures r.Err? <==> !(0.0 <= alpha <= 1.0) || losses == []
    ensures r.Ok? ==> losses != [] && r.value.valueAtRisk in losses
    ensures r.Ok? ==> r.value.valueAtRisk <= r.value.expectedShortfall <= Max(losses)
  {
    match HistoricalRisk(losses, alpha)
    case Ok(risk) =>
      ExpectedShortfallBounds(losses, alpha);
      Ok(risk)
    case Err(e) => Err(Percentile(e))
  }

  /** What `stress_test_mkt` returns for a table of percentage returns. */
  function MarketStress(pct: Matrix, width: nat, alpha: real): Result<Risk, StressError>
    requires HasWidth(pct, width)
  {
    GrossTableWidth(pct, width);
    if width <= MarketColumn then Err(ColumnOutOfRange)
    else RiskOf(Losses(Columns(GrossTable(pct), width, MarketColumn, MarketColumn + 1), [Notional], Notional), alpha)
  }

  /**
   * What `stress_test` returns for a table of percentage returns and weights
   * `w`. Forty-eight weights are positions in the forty-eight industries; a
   * single weight is broadcast across all of them while `np.sum(positions)`
   * still counts it once; any other length cannot be broadcast.
   */
  function PortfolioStress(pct: Matrix, width: nat, w: Vector, alpha: real): Result<Risk, StressError>
    requires HasWidth(pct, width)
  {
    GrossTableWidth(pct, width);
    if width < AssetCount then Err(ColumnOutOfRange)
    else
      var values := Columns(GrossTable(pct), width, 0, AssetCount);
      if |w| == AssetCount then RiskOf(Losses(values, Positions(w), Sum(Positions(w))), alpha)
      else if |w| == 1 then RiskOf(Losses(values, Scale(Notional * w[0], Ones(AssetCount)), Notional * w[0]), alpha)
      else Err(ShapeMismatch)
  }

  /**
   * `stress_test_mkt(val_df, alpha)`: converts the caller's table in place,
   * then reports VaR and ES of $10M in the market column.
   */
  method StressTestMkt(table: array2<real>, alpha: real) returns (r: Result<Risk, StressError>)
    modifies table
    ensures Cells(table) == GrossTable(old(Cells(table)))
    ensures r == MarketStress(old(Cells(table)), table.Length1, alpha)
  {
    ConvertToGrossFactors(table);
    if table.Length1 <= MarketColumn {
      return Err(ColumnOutOfRange);
    }
    var simulation := Columns(Cells(table), table.Length1, MarketColumn, MarketColumn + 1);
    var losses := Losses(simulation, [Notional], Notional);
    r := RiskOf(losses, alpha);
  }

  /**
   * `stress_test(val_df, w, alpha)`: works on `val_df.copy()`, so the table it
   * is given is left as it was (the method may modify nothing it did not
   * allocate).
   */
  method StressTest(table: array2<real>, w: Vector, alpha: real) returns (r: Result<Risk, StressError>)
    ensures r == PortfolioStress(Cells(table), table.Length1, w, alpha)
  {
    var copy := new real[table.Length0, table.Length1]((i, j) reads table =>
      if 0 <= i < table.Length0 && 0 <= j < table.Length1 then table[i, j] else 0.0);
    assert Cells(copy) == Cells(table) by {
      var a, b := Cells(copy), Cells(table);
      HasWidthEvery(a, table.Length1);
      HasWidthEvery(b, table.Length1);
      forall i | 0 <= i < table.Length0 ensures a[i] == b[i] {
        forall j | 0 <= j < table.Length1 ensures a[i][j] == b[i][j] {
          CellsAt(copy, i, j);
          CellsAt(table, i, j);
        }
      }
    }
    ConvertToGrossFactors(copy);
    if copy.Length1 < AssetCount {
      return Err(ColumnOutOfRange);
    }
    var simulation := Columns(Cells(copy), copy.Length1, 0, AssetCount);
    if |w| == AssetCount {
      var positions := Positions(w);
      r := RiskOf(Losses(simulation, positions, Sum(positions)), alpha);
    } else if |w| == 1 {
      var invested := Notional * w[0];
      r := RiskOf(Losses(simulation, Scale(invested, Ones(AssetCount)), invested), alpha);
    } else {
      r := Err(ShapeMismatch);
    }
  }

  // ---------------------------------------------------------------------
  // What a scenario loses

  lemma {:induction false} GrossTerm(x: real, p: real)
    ensures GrossFactor(x) * p == p + x * p / 100.0
  {
  }

  /** Priced in gross factors, a position set is worth its cost plus the return on it. */
  lemma {:induction false} DotGrossRow(r: Vector, p: Vector)
    requires |r| == |p|
    ensures Dot(GrossRow(r), p) == Sum(p) + Dot(r, p) / 100.0
  {
    if r != [] {
      DotGrossRow(r[1..], p[1..]);
      GrossTerm(r[0], p[0]);
      assert GrossRow(r)[1..] == GrossRow(r[1..]);
    }
  }

  /** Fully invested, a scenario loses minus the position-weighted percentage return. */
  lemma {:induction false} ScenarioLoss(r: Vector, p: Vector)
    requires |r| == |p|
    ensures Sum(p) - Dot(GrossRow(r), p) == -Dot(r, p) / 100.0
  {
    DotGrossRow(r, p);
  }

  /** A scenario's loss in terms of the percentage returns of the selected columns. */
  lemma {:induction false} LossOfScenario(pct: Matrix, width: nat, lo: nat, hi: nat, p: Vector, i: nat)
    requires HasWidth(pct, width) && lo <= hi <= width && hi - lo == |p| && i < |pct|
    ensures HasWidth(GrossTable(pct), width)
    ensures |pct[i]| == width
    ensures Losses(Columns(GrossTable(pct), width, lo, hi), p, Sum(p))[i] == -Dot(pct[i][lo..hi], p) / 100.0
  {
    GrossTableWidth(pct, width);
    var gross := GrossTable(pct);
    LossesAt(Columns(gross, width, lo, hi), p, Sum(p), i);
    ColumnsAt(gross, width, lo, hi, i);
    ColumnsAt(pct, width, lo, hi, i);
    GrossTableAt(pct, i);
    GrossRowSlice(pct[i], lo, hi);
    ScenarioLoss(pct[i][lo..hi], p);
  }

  /** The market position loses $100,000 for every percentage point the market falls. */
  lemma {:induction false} MarketScenarioLoss(pct: Matrix, width: nat, i: nat)
    requires HasWidth(pct, width) && MarketColumn < width && i < |pct|
    ensures HasWidth(GrossTable(pct), width) && |pct[i]| == width
    ensures Losses(Columns(GrossTable(pct), width, MarketColumn, MarketColumn + 1), [Notional], Notional)[i]
         == -100000.0 * pct[i][MarketColumn]
  {
    assert Sum([Notional]) == Notional;
    LossOfScenario(pct, width, MarketColumn, MarketColumn + 1, [Notional], i);
    assert pct[i][MarketColumn..MarketColumn + 1] == [pct[i][MarketColumn]];
  }

  /** Weights that sum to one invest exactly the $10M. */
  lemma {:induction false} FullyInvested(w: Vector)
    requires Sum(w) == 1.0
    ensures Sum(Positions(w)) == Notional
  {
    SumScale(Notional, w);
  }

  /** A scenario in which no industry moves costs a 48-industry portfolio nothing. */
  lemma {:induction false} FlatScenarioNoLoss(pct: Matrix, width: nat, w: Vector, i: nat)
    requires HasWidth(pct, width) && AssetCount <= width && |w| == AssetCount && i < |pct|
    requires forall j :: 0 <= j < AssetCount && j < |pct[i]| ==> pct[i][j] == 0.0
    ensures HasWidth(GrossTable(pct), width)
    ensures Losses(Columns(GrossTable(pct), width, 0, AssetCount), Positions(w), Sum(Positions(w)))[i] == 0.0
  {
    LossOfScenario(pct, width, 0, AssetCount, Positions(w), i);
    DotZeroProducts(pct[i][0..AssetCount], Positions(w));
  }

  /**
   * A single broadcast weight `x` is priced as `x` dollars-per-$10M in each of
   * the 48 industries but counted once as invested: a flat scenario then
   * reports a loss of `-47 * 10000000 * x`.
   */
  lemma {:induction false} BroadcastFlatScenario(pct: Matrix, width: nat, x: real, i: nat)
    requires HasWidth(pct, width) && AssetCount <= width && i < |pct|
    requires forall j :: 0 <= j < AssetCount && j < |pct[i]| ==> pct[i][j] == 0.0
    ensures HasWidth(GrossTable(pct), width)
    ensures Losses(Columns(GrossTable(pct), width, 0, AssetCount), Scale(Notional * x, Ones(AssetCount)), Notional * x)[i]
         == -47.0 * Notional * x
  {
    GrossTableWidth(pct, width);
    var gross := GrossTable(pct);
    var p := Scale(Notional * x, Ones(AssetCount));
    HasWidthAt(pct, width, i);
    var r := pct[i][0..AssetCount];
    LossesAt(Columns(gross, width, 0, AssetCount), p, Notional * x, i);
    ColumnsAt(gross, width, 0, AssetCount, i);
    ColumnsAt(pct, width, 0, AssetCount, i);
    GrossTableAt(pct, i);
    GrossRowSlice(pct[i], 0, AssetCount);
    DotGrossRow(r, p);
    DotZeroProducts(r, p);
    SumScale(Notional * x, Ones(AssetCount));
    forall j | 0 <= j < AssetCount ensures Ones(AssetCount)[j] == 1.0 {
      OnesAt(AssetCount, j);
    }
    SumConstant(Ones(AssetCount), 1.0);
  }

  /** All weight on the market column reproduces `stress_test_mkt`. */
  function MarketWeights(): (w: Vector)
    ensures |w| == AssetCount
  {
    seq(AssetCount, j => if j == MarketColumn then 1.0 else 0.0)
  }

  /** The market weights put the whole $10M in the market column and nothing elsewhere. */
  lemma {:induction false} MarketPositions()
    ensures forall j :: 0 <= j < AssetCount && j != MarketColumn ==> Positions(MarketWeights())[j] == 0.0
    ensures Positions(MarketWeights())[MarketColumn] == Notional
    ensures Sum(Positions(MarketWeights())) == Notional
  {
    var w := MarketWeights();
    var p := Positions(w);
    forall j | 0 <= j < AssetCount && j != MarketColumn ensures p[j] == 0.0 {
      ScaleAt(Notional, w, j);
    }
    ScaleAt(Notional, w, MarketColumn);
    DotOnes(p);
    DotOneHot(p, Ones(AssetCount), MarketColumn);
    OnesAt(AssetCount, MarketColumn);
  }

  /** Positions holding the $10M in the market column alone price every scenario as the market run does. */
  lemma {:induction false} MarketOnlyScenario(pct: Matrix, width: nat, p: Vector, i: nat)
    requires HasWidth(pct, width) && AssetCount <= width && i < |pct|
    requires |p| == AssetCount && Sum(p) == Notional && p[MarketColumn] == Notional
    requires forall j :: 0 <= j < AssetCount && j != MarketColumn ==> p[j] == 0.0
    ensures HasWidth(GrossTable(pct), width)
    ensures Losses(Columns(GrossTable(pct), width, 0, AssetCount), p, Notional)[i]
         == Losses(Columns(GrossTable(pct), width, MarketColumn, MarketColumn + 1), [Notional], Notional)[i]
  {
    LossOfScenario(pct, width, 0, AssetCount, p, i);
    MarketScenarioLoss(pct, width, i);
    var r := pct[i][0..AssetCount];
    DotOneHot(r, p, MarketColumn);
    assert r[MarketColumn] == pct[i][MarketColumn];
    NotionalPercent(r[MarketColumn], p[MarketColumn]);
  }

  lemma {:induction false} NotionalPercent(x: real, q: real)
    requires q == Notional
    ensures -(x * q) / 100.0 == -100000.0 * x
  {
  }

  lemma {:induction false} MarketOnlyLosses(pct: Matrix, width: nat, p: Vector)
    requires HasWidth(pct, width) && AssetCount <= width
    requires |p| == AssetCount && Sum(p) == Notional && p[MarketColumn] == Notional
    requires forall j :: 0 <= j < AssetCount && j != MarketColumn ==> p[j] == 0.0
    ensures HasWidth(GrossTable(pct), width)
    ensures Losses(Columns(GrossTable(pct), width, 0, AssetCount), p, Notional)
         == Losses(Columns(GrossTable(pct), width, MarketColumn, MarketColumn + 1), [Notional], Notional)
  {
    GrossTableWidth(pct, width);
    var gross := GrossTable(pct);
    var portfolio := Losses(Columns(gross, width, 0, AssetCount), p, Notional);
    var market := Losses(Columns(gross, width, MarketColumn, MarketColumn + 1), [Notional], Notional);
    forall i | 0 <= i < |pct| ensures portfolio[i] == market[i] {
      MarketOnlyScenario(pct, width, p, i);
    }
  }

  lemma {:induction false} MarketPortfolioIsMarketStress(pct: Matrix, width: nat, alpha: real)
    requires HasWidth(pct, width) && AssetCount <= width
    ensures PortfolioStress(pct, width, MarketWeights(), alpha) == MarketStress(pct, width, alpha)
  {
    var p := Positions(MarketWeights());
    MarketPositions();
    MarketOnlyLosses(pct, width, p);
  }

  /**
   * The in-place conversion is visible to the caller: run `stress_test_mkt`
   * twice on a one-scenario table with a flat market and the second run reads
   * the gross factor 1.0 as a 1% market gain.
   */
  lemma {:induction false} SecondMarketRunSeesGrossFactors(pct: Matrix)
    requires pct == [[0.0, 0.0, 0.0]]
    ensures MarketStress(pct, 3, 0.9) == Ok(Risk(0.0, 0.0))
    ensures MarketStress(GrossTable(pct), 3, 0.9) == Ok(Risk(-100000.0, -100000.0))
  {
    GrossTableAt(pct, 0);
    GrossRowAt(pct[0], MarketColumn);
    MarketScenarioLoss(pct, 3, 0);
    var second := GrossTable(pct);
    assert HasWidth(second, 3) by {
      GrossTableWidth(pct, 3);
    }
    MarketScenarioLoss(second, 3, 0);
    SingleScenarioRisk(Losses(Columns(GrossTable(pct), 3, MarketColumn, MarketColumn + 1), [Notional], Notional), 0.0);
    SingleScenarioRisk(Losses(Columns(GrossTable(second), 3, MarketColumn, MarketColumn + 1), [Notional], Notional), -100000.0);
  }

  /** With a single scenario, VaR and ES are both its loss. */
  lemma {:induction false} SingleScenarioRisk(losses: seq<real>, x: real)
    requires losses == [x]
    ensures HistoricalRisk(losses, 0.9) == Ok(Risk(x, x))
  {
    assert HigherIndex(0.9, 1) == 0;
    assert SortAscending(losses) == [x];
    assert Tail(losses, x) == [x];
    ExpectedShortfallOfSingleTail(losses, x);
  }
}
