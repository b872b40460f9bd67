/**
 * The technical-analysis report: from at least 100 candles, eleven
 * oscillator readings and ten moving-average readings, each labelled and
 * classified as BUY, SELL or NEUTRAL.
 */
module Report {
  import opened Primitives
  import opened Candles
  import opened Signals
  import opened Oscillators

  /** One row of the report: `format(name, value, action)`; a value of `None` is the engine's NaN. */
  datatype IndicatorResult = IndicatorResult(name: string, value: Option<real>, action: Action)

  datatype Analysis = Analysis(oscillators: seq<IndicatorResult>, movingAverages: seq<IndicatorResult>)

  /** Fewer candles than this yield no report. */
  const MinCandles: nat := 100

  /** The periods of the moving-average table, each reported as an SMA row then an EMA row. */
  const MaPeriods: seq<nat> := [10, 20, 30, 50, 100]

  const OscillatorNames: seq<string> := [
    "RSI (14)", "Stoch %K (14, 3, 3)", "CCI (20)", "ADX (14)", "AO", "Mom (10)",
    "MACD (12, 26)", "Stoch RSI (3, 3, 14, 14)", "WPR (14)", "BBP (13)", "UO (7, 14, 28)"
  ]

  const MaNames: seq<string> := [
    "SMA (10)", "EMA (10)", "SMA (20)", "EMA (20)", "SMA (30)",
    "EMA (30)", "SMA (50)", "EMA (50)", "SMA (100)", "EMA (100)"
  ]

  /** Decimal digits of a natural number, as a template literal prints it. */
  function NatToString(n: nat): (s: string)
    ensures |s| >= 1
    decreases n
  {
    var digit := ["0123456789"[n % 10]];
    if n < 10 then digit else NatToString(n / 10) + digit
  }

  /** The label `${kind} (${p})` of a moving-average row. */
  function MaLabel(kind: string, p: nat): string
  {
    kind + " (" + NatToString(p) + ")"
  }

  /** The oscillator table from the eleven readings, in the engine's order, each under its label and classifier. */
  function ClassifiedOscillators(rsi: real, stochK: real, cci: real, adx: AdxResult, ao: real, mom: real,
                                 macdHist: real, stochRsi: real, wpr: real, bbp: real, uo: Option<real>): (rows: seq<IndicatorResult>)
    ensures |rows| == |OscillatorNames| && forall i :: 0 <= i < |rows| ==> rows[i].name == OscillatorNames[i]
    ensures forall i :: 0 <= i < |rows| - 1 ==> rows[i].value.Some?
    ensures rows[|rows| - 1].value == uo
  {
    [ IndicatorResult(OscillatorNames[0], Some(rsi), CheckRsi(rsi)),
      IndicatorResult(OscillatorNames[1], Some(stochK), CheckStoch(stochK)),
      IndicatorResult(OscillatorNames[2], Some(cci), CheckCci(cci)),
      IndicatorResult(OscillatorNames[3], Some(adx.adx), CheckAdx(adx.adx, adx.pdi, adx.mdi)),
      IndicatorResult(OscillatorNames[4], Some(ao), CheckZero(ao)),
      IndicatorResult(OscillatorNames[5], Some(mom), CheckZero(mom)),
      IndicatorResult(OscillatorNames[6], Some(macdHist), CheckZero(macdHist)),
      IndicatorResult(OscillatorNames[7], Some(stochRsi), CheckStoch(stochRsi)),
      IndicatorResult(OscillatorNames[8], Some(wpr), CheckWpr(wpr)),
      IndicatorResult(OscillatorNames[9], Some(bbp), CheckZero(bbp)),
      IndicatorResult(OscillatorNames[10], uo, CheckRsiReading(uo)) ]
  }

  /** The oscillator table of a candle history. */
  function OscillatorRows(candles: seq<Candle>): (rows: seq<IndicatorResult>)
    requires |candles| >= MinCandles
  {
    var closes, highs, lows := Closes(candles), Highs(candles), Lows(candles);
    ClassifiedOscillators(
      RsiSpec(closes, 14),
      StochSpec(highs, lows, closes, 14, 3, 3).k,
      CciSpec(highs, lows, closes, 20),
      AdxSpec(highs, lows, closes, 14),
      Ao(highs, lows),
      Mom(closes, 10),
      MacdSpec(closes, 12, 26, 9).hist,
      StochRsiSpec(closes, 14, 14, 3, 3),
      Wpr(highs, lows, closes, 14),
      Bbp(highs, lows, closes, 13),
      UoSpec(highs, lows, closes, 7, 14, 28))
  }

  /** The two rows of one period: its SMA, then its EMA, each against the current price. */
  function MaPair(closes: seq<real>, price: real, p: nat): seq<IndicatorResult>
    requires p >= 1
  {
    var sma, ema := SmaSpec(closes, p), EmaSpec(closes, p);
    [IndicatorResult(MaLabel("SMA", p), Some(sma), CheckMa(price, sma)),
     IndicatorResult(MaLabel("EMA", p), Some(ema), CheckMa(price, ema))]
  }

  /** The moving-average table over `periods`, in order. */
  function MaRows(closes: seq<real>, price: real, periods: seq<nat>): (rows: seq<IndicatorResult>)
    requires forall i :: 0 <= i < |periods| ==> periods[i] >= 1
    ensures |rows| == 2 * |periods|
  {
    if periods == [] then []
    else MaRows(closes, price, periods[..|periods| - 1]) + MaPair(closes, price, periods[|periods| - 1])
  }

  /** The whole report, or None with fewer than 100 candles. */
  function AnalyzeSpec(candles: seq<Candle>): (r: Option<Analysis>)
    ensures r.None? <==> |candles| < 100
    ensures r.Some? ==> |r.value.oscillators| == 11 && |r.value.movingAverages| == 10
  {
    if |candles| < MinCandles then None
    else
      var closes := Closes(candles);
      Some(Analysis(OscillatorRows(candles), MaRows(closes, closes[|closes| - 1], MaPeriods)))
  }

  /** The oscillator half of `analyze`: each indicator computed and classified in turn. */
  method OscillatorTable(candles: seq<Candle>) returns (rows: seq<IndicatorResult>)
    requires |candles| >= MinCandles
    ensures rows == OscillatorRows(candles)
  {
    var closes, highs, lows := Closes(candles), Highs(candles), Lows(candles);
    var rsi := Rsi(closes, 14);
    var stoch := Stoch(highs, lows, closes, 14, 3, 3);
    var cci := Cci(highs, lows, closes, 20);
    var adx := Adx(highs, lows, closes, 14);
    var ao := Ao(highs, lows);
    var mom := Mom(closes, 10);
    var macd := Macd(closes, 12, 26, 9);
    var stochRsi := StochRsi(closes, 14, 14, 3, 3);
    var wpr := Wpr(highs, lows, closes, 14);
    var bbp := Bbp(highs, lows, closes, 13);
    var uo := Uo(highs, lows, closes, 7, 14, 28);
    rows := [
      IndicatorResult("RSI (14)", Some(rsi), CheckRsi(rsi)),
      IndicatorResult("Stoch %K (14, 3, 3)", Some(stoch.k), CheckStoch(stoch.k)),
      IndicatorResult("CCI (20)", Some(cci), CheckCci(cci)),
      IndicatorResult("ADX (14)", Some(adx.adx), CheckAdx(adx.adx, adx.pdi, adx.mdi)),
      IndicatorResult("AO", Some(ao), CheckZero(ao)),
      IndicatorResult("Mom (10)", Some(mom), CheckZero(mom)),
      IndicatorResult("MACD (12, 26)", Some(macd.hist), CheckZero(macd.hist)),
      IndicatorResult("Stoch RSI (3, 3, 14, 14)", Some(stochRsi), CheckStoch(stochRsi)),
      IndicatorResult("WPR (14)", Some(wpr), CheckWpr(wpr)),
      IndicatorResult("BBP (13)", Some(bbp), CheckZero(bbp)),
      IndicatorResult("UO (7, 14, 28)", uo, CheckRsiReading(uo))
    ];
  }

  /** The moving-average half of `analyze`: the loop over the periods. */
  method MovingAverageTable(closes: seq<real>, currentPrice: real) returns (rows: seq<IndicatorResult>)
    ensures rows == MaRows(closes, currentPrice, MaPeriods)
  {
    rows := [];
    for j := 0 to |MaPeriods|
      invariant rows == MaRows(closes, currentPrice, MaPeriods[..j])
    {
      var p := MaPeriods[j];
      var sma := Sma(closes, p);
      var ema := Ema(closes, p);
      rows := rows + [IndicatorResult(MaLabel("SMA", p), Some(sma), CheckMa(currentPrice, sma)),
                      IndicatorResult(MaLabel("EMA", p), Some(ema), CheckMa(currentPrice, ema))];
      assert MaPeriods[..j + 1][..j] == MaPeriods[..j];
    }
    assert MaPeriods[..|MaPeriods|] == MaPeriods;
  }

  method Analyze(candles: seq<Candle>) returns (r: Option<Analysis>)
    ensures r == AnalyzeSpec(candles)
  {
    if |candles| < MinCandles {
      return None;
    }
    var closes := Closes(candles);
    var oscillators := OscillatorTable(candles);
    var movingAverages := MovingAverageTable(closes, closes[|closes| - 1]);
    r := Some(Analysis(oscillators, movingAverages));
  }

  /** Every moving-average row compares the current price with its average, so none is NEUTRAL. */
  lemma {:induction false} MaRowsNeverNeutral(closes: seq<real>, price: real, periods: seq<nat>)
    requires forall i :: 0 <= i < |periods| ==> periods[i] >= 1
    ensures forall i :: 0 <= i < |MaRows(closes, price, periods)| ==>
      MaRows(closes, price, periods)[i].action != Neutral &&
      MaRows(closes, price, periods)[i].value.Some? &&
      (MaRows(closes, price, periods)[i].action == Buy <==> price > MaRows(closes, price, periods)[i].value.value)
    decreases |periods|
  {
    if periods != [] {
      MaRowsNeverNeutral(closes, price, periods[..|periods| - 1]);
    }
  }

  /** Row 2i of the moving-average table is the SMA of the i-th period and row 2i+1 its EMA. */
  lemma {:induction false} MaRowsLayout(closes: seq<real>, price: real, periods: seq<nat>, i: nat)
    requires forall j :: 0 <= j < |periods| ==> periods[j] >= 1
    requires i < |periods|
    ensures MaRows(closes, price, periods)[2 * i] ==
      IndicatorResult(MaLabel("SMA", periods[i]), Some(SmaSpec(closes, periods[i])), CheckMa(price, SmaSpec(closes, periods[i])))
    ensures MaRows(closes, price, periods)[2 * i + 1] ==
      IndicatorResult(MaLabel("EMA", periods[i]), Some(EmaSpec(closes, periods[i])), CheckMa(price, EmaSpec(closes, periods[i])))
    decreases |periods|
  {
    var init := periods[..|periods| - 1];
    if i < |init| {
      MaRowsLayout(closes, price, init, i);
    }
  }

  /** The labels of the moving-average table are SMA (10), EMA (10), SMA (20), ... EMA (100). */
  lemma MaLabels()
    ensures MaLabel("SMA", 10) == "SMA (10)" && MaLabel("EMA", 10) == "EMA (10)"
    ensures MaLabel("SMA", 20) == "SMA (20)" && MaLabel("EMA", 20) == "EMA (20)"
    ensures MaLabel("SMA", 30) == "SMA (30)" && MaLabel("EMA", 30) == "EMA (30)"
    ensures MaLabel("SMA", 50) == "SMA (50)" && MaLabel("EMA", 50) == "EMA (50)"
    ensures MaLabel("SMA", 100) == "SMA (100)" && MaLabel("EMA", 100) == "EMA (100)"
  {
    assert NatToString(10) == "10";
    assert NatToString(20) == "20";
    assert NatToString(30) == "30";
    assert NatToString(50) == "50";
    assert NatToString(100) == "100";
  }

  /** The moving-average table reads SMA (10), EMA (10), SMA (20), ... EMA (100). */
  lemma MaTableNames(closes: seq<real>, price: real)
    ensures var rows := MaRows(closes, price, MaPeriods);
      |rows| == |MaNames| && forall i :: 0 <= i < |rows| ==> rows[i].name == MaNames[i]
  {
    MaLabels();
    MaRowsLayout(closes, price, MaPeriods, 0);
    MaRowsLayout(closes, price, MaPeriods, 1);
    MaRowsLayout(closes, price, MaPeriods, 2);
    MaRowsLayout(closes, price, MaPeriods, 3);
    MaRowsLayout(closes, price, MaPeriods, 4);
  }

  /** The moving-average table carries the ten labels in order, and no row of it is NEUTRAL. */
  lemma MaTableLayout(closes: seq<real>, price: real)
    ensures var rows := MaRows(closes, price, MaPeriods);
      |rows| == |MaNames| &&
      (forall i :: 0 <= i < |rows| ==> rows[i].name == MaNames[i]) &&
      (forall i :: 0 <= i < |rows| ==> rows[i].action != Neutral)
  {
    MaRowsNeverNeutral(closes, price, MaPeriods);
    MaTableNames(closes, price);
  }

  /**
   * With every close inside its bar's range, the bounded oscillators of a
   * report stay in their ranges: RSI, Stochastic %K, ADX and Stochastic RSI
   * in [0, 100], Williams %R in [-100, 0], and UO in [0, 100] whenever it is
   * a number.
   */
  lemma AnalyzeBounded(candles: seq<Candle>)
    requires |candles| >= MinCandles && WellFormed(Highs(candles), Lows(candles), Closes(candles))
    ensures AnalyzeSpec(candles).Some?
    ensures var rows := AnalyzeSpec(candles).value.oscillators;
      rows[0].value.Some? && 0.0 <= rows[0].value.value <= 100.0 &&
      rows[1].value.Some? && 0.0 <= rows[1].value.value <= 100.0 &&
      rows[3].value.Some? && 0.0 <= rows[3].value.value <= 100.0 &&
      rows[7].value.Some? && 0.0 <= rows[7].value.value <= 100.0 &&
      rows[8].value.Some? && -100.0 <= rows[8].value.value <= 0.0 &&
      (rows[10].value.Some? ==> 0.0 <= rows[10].value.value <= 100.0)
  {
    var closes, highs, lows := Closes(candles), Highs(candles), Lows(candles);
    StochInRange(highs, lows, closes, 14, 3, 3);
    AdxInRange(highs, lows, closes, 14);
    StochRsiInRange(closes, 14, 14, 3, 3);
    WprInRange(highs, lows, closes, 14);
    UoInRange(highs, lows, closes, 7, 14, 28);
  }

  /** Every bar of the history has high, low and close equal to `c`. */
  ghost predicate ConstantHistory(candles: seq<Candle>, c: real)
  {
    forall i :: 0 <= i < |candles| ==> candles[i].high == c && candles[i].low == c && candles[i].close == c
  }

  /** The readings behind the table for a history whose highs, lows and closes all equal `c`. */
  lemma ConstantReadings(highs: seq<real>, lows: seq<real>, closes: seq<real>, c: real)
    requires |highs| == |lows| == |closes| >= MinCandles
    requires forall i :: 0 <= i < |closes| ==> closes[i] == c && highs[i] == c && lows[i] == c
    ensures RsiSpec(closes, 14) == 100.0
    ensures Ao(highs, lows) == 0.0 && Mom(closes, 10) == 0.0 && MacdSpec(closes, 12, 26, 9).hist == 0.0
    ensures Bbp(highs, lows, closes, 13) == 0.0
    ensures UoSpec(highs, lows, closes, 7, 14, 28) == None
  {
    assert NonDecreasing(closes);
    RsiOfNonDecreasing(closes, 14);
    AoOfFlat(highs, lows, c);
    MomOfNonDecreasing(closes, 10);
    MacdOfConstant(closes, 12, 26, 9, c);
    BbpOfFlat(highs, lows, closes, 13, c);
    var trs := UoRanges(highs, lows, closes, UoStart(|closes|, 28));
    if 7 <= |trs| {
      TailSumBounds(trs, 7, 0.0, 0.0);
    }
  }

  /**
   * The report of a constant-price history: RSI 100 (no losses, SELL); AO,
   * Momentum, MACD and Bull/Bear Power 0 (NEUTRAL); and the Ultimate
   * Oscillator undefined (every true range is 0), hence NEUTRAL.
   */
  lemma ConstantHistoryOscillators(candles: seq<Candle>, c: real)
    requires |candles| >= MinCandles && ConstantHistory(candles, c)
    ensures AnalyzeSpec(candles).Some?
    ensures var osc := AnalyzeSpec(candles).value.oscillators;
      osc[0].value == Some(100.0) && osc[0].action == Sell &&
      osc[4].value == Some(0.0) && osc[4].action == Neutral &&
      osc[5].value == Some(0.0) && osc[5].action == Neutral &&
      osc[6].value == Some(0.0) && osc[6].action == Neutral &&
      osc[9].value == Some(0.0) && osc[9].action == Neutral &&
      osc[10].value == None && osc[10].action == Neutral
  {
    ConstantReadings(Highs(candles), Lows(candles), Closes(candles), c);
    assert AnalyzeSpec(candles).value.oscillators == OscillatorRows(candles);
  }

  /**
   * The moving-average table of a constant-price history (as the report
   * builds it, priced at the last close): every average equals the price,
   * so every row is SELL.
   */
  lemma ConstantMaRows(closes: seq<real>, c: real)
    requires |closes| >= MinCandles
    requires forall i :: 0 <= i < |closes| ==> closes[i] == c
    ensures var ma := MaRows(closes, closes[|closes| - 1], MaPeriods);
      forall i :: 0 <= i < |ma| ==> ma[i].value == Some(c) && ma[i].action == Sell
  {
    var ma := MaRows(closes, c, MaPeriods);
    assert closes[|closes| - 1] == c;
    forall i | 0 <= i < |ma| ensures ma[i].value == Some(c) && ma[i].action == Sell {
      var k := i / 2;
      MaRowsLayout(closes, c, MaPeriods, k);
      SmaOfConstant(closes, MaPeriods[k], c);
      EmaWithinRange(closes, MaPeriods[k], c, c);
    }
  }

  /**
   * The moving-average table of a strictly increasing history (priced at the
   * last close): every average lags below the price, so every row is BUY.
   */
  lemma IncreasingHistoryMaRowsBuy(closes: seq<real>)
    requires |closes| >= MinCandles && StrictlyIncreasing(closes)
    ensures var ma := MaRows(closes, closes[|closes| - 1], MaPeriods);
      forall i :: 0 <= i < |ma| ==> ma[i].action == Buy
  {
    var price := closes[|closes| - 1];
    var ma := MaRows(closes, price, MaPeriods);
    forall i | 0 <= i < |ma| ensures ma[i].action == Buy {
      var k := i / 2;
      MaRowsLayout(closes, price, MaPeriods, k);
      SmaBelowLast(closes, MaPeriods[k]);
      EmaBelowLast(closes, MaPeriods[k]);
    }
  }
}
