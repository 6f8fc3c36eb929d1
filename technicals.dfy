/** The technicals scanner (scanner/scanners/technicals.py): a 14-period RSI with Wilder
    smoothing, 50- and 200-bar moving averages with an approximate golden/death cross,
    and a short-interest flag; tickers without any signal are dropped. */
module Technicals {
  import opened Wrappers
  import opened Numeric
  import Lists

  const RSI_PERIOD: nat := 14
  const RSI_OVERBOUGHT: real := 70.0
  const RSI_OVERSOLD: real := 30.0
  /** Percent of float shorted from which short interest is flagged. */
  const HIGH_SHORT_INTEREST: real := 10.0
  /** Bars of history below which a ticker is not analysed. */
  const MIN_HISTORY: nat := 50
  /** The lag, in bars, of the averages the cross test compares against. */
  const CROSS_LAG: nat := 5

  // ---- RSI ----

  function Delta(prices: seq<real>, i: nat): real
    requires i + 1 < |prices|
  {
    prices[i + 1] - prices[i]
  }

  /** `np.where(deltas > 0, deltas, 0)` over `np.diff(prices)`. */
  function Gains(prices: seq<real>): (r: seq<real>)
    requires |prices| >= 1
    ensures |r| == |prices| - 1
    ensures forall i :: 0 <= i < |r| ==> r[i] >= 0.0
  {
    seq(|prices| - 1, i requires 0 <= i < |prices| - 1 => if Delta(prices, i) > 0.0 then Delta(prices, i) else 0.0)
  }

  /** `np.where(deltas < 0, -deltas, 0)` over `np.diff(prices)`. */
  function Losses(prices: seq<real>): (r: seq<real>)
    requires |prices| >= 1
    ensures |r| == |prices| - 1
    ensures forall i :: 0 <= i < |r| ==> r[i] >= 0.0
  {
    seq(|prices| - 1, i requires 0 <= i < |prices| - 1 => if Delta(prices, i) < 0.0 then -Delta(prices, i) else 0.0)
  }

  /** One step of Wilder's recurrence. */
  function WilderStep(avg: real, x: real, period: nat): real
    requires period >= 1
  {
    (avg * ((period - 1) as real) + x) / (period as real)
  }

  /** The average after the recurrence has taken in every value of `xs`. */
  function Smooth(avg: real, xs: seq<real>, period: nat): real
    requires period >= 1
  {
    if xs == [] then avg else WilderStep(Smooth(avg, xs[..|xs| - 1], period), xs[|xs| - 1], period)
  }

  /** `100 - 100 / (1 + g / l)` for non-negative averages with `l` positive. */
  function RsiOf(g: real, l: real): (r: real)
    requires g >= 0.0 && l > 0.0
    ensures 0.0 <= r < 100.0
  {
    var rs := g / l;
    DivNonNeg(0.0, g, l);
    assert 1.0 + rs >= 1.0;
    InverseBounds(1.0 + rs);
    100.0 - 100.0 / (1.0 + rs)
  }

  lemma InverseBounds(d: real)
    requires d >= 1.0
    ensures 0.0 < 100.0 / d <= 100.0
  {
    DivNonNeg(100.0, 100.0 * d, d);
  }

  lemma {:induction false} SmoothNonNeg(avg: real, xs: seq<real>, period: nat)
    requires period >= 1 && avg >= 0.0
    requires forall i :: 0 <= i < |xs| ==> xs[i] >= 0.0
    ensures Smooth(avg, xs, period) >= 0.0
  {
    if xs != [] {
      var init := xs[..|xs| - 1];
      SmoothNonNeg(avg, init, period);
      var a := Smooth(avg, init, period);
      MulNonNeg(0.0, a, (period - 1) as real + 1.0);
      assert a * ((period - 1) as real) >= 0.0;
      DivNonNeg(0.0, a * ((period - 1) as real) + xs[|xs| - 1], period as real);
    }
  }

  /** With a period of at least two, a positive average never decays to zero. */
  lemma {:induction false} SmoothPositive(avg: real, xs: seq<real>, period: nat)
    requires period >= 2 && avg > 0.0
    requires forall i :: 0 <= i < |xs| ==> xs[i] >= 0.0
    ensures Smooth(avg, xs, period) > 0.0
  {
    if xs != [] {
      var init := xs[..|xs| - 1];
      SmoothPositive(avg, init, period);
      var a := Smooth(avg, init, period);
      assert a * ((period - 1) as real) > 0.0;
      assert (a * ((period - 1) as real) + xs[|xs| - 1]) / (period as real) > 0.0;
    }
  }

  lemma MeanNonNeg(s: seq<real>)
    requires |s| > 0 && forall i :: 0 <= i < |s| ==> s[i] >= 0.0
    ensures Mean(s) >= 0.0
  {
    SumNonNeg(s);
    DivNonNeg(0.0, Sum(s), |s| as real);
  }

  /** The last step: 100 when the loss average is zero, else the RSI rounded to one decimal. */
  function FinalRsi(g: real, l: real): Option<real>
    requires g >= 0.0 && l >= 0.0
  {
    if l == 0.0 then Some(100.0) else Some(Round(RsiOf(g, l), 1))
  }

  /** The RSI from the gain and loss series: averages over the first window, then
      smoothing over the rest. */
  function RsiFromMoves(gains: seq<real>, losses: seq<real>, period: nat): Option<real>
    requires 1 <= period <= |gains| && |losses| == |gains|
    requires forall i :: 0 <= i < |gains| ==> gains[i] >= 0.0
    requires forall i :: 0 <= i < |losses| ==> losses[i] >= 0.0
  {
    var avgGain := Mean(gains[..period]);
    var avgLoss := Mean(losses[..period]);
    if avgLoss == 0.0 then Some(100.0)
    else
      MeanNonNeg(gains[..period]);
      MeanNonNeg(losses[..period]);
      SmoothNonNeg(avgGain, gains[period..], period);
      SmoothNonNeg(avgLoss, losses[period..], period);
      FinalRsi(Smooth(avgGain, gains[period..], period), Smooth(avgLoss, losses[period..], period))
  }

  /** What `_calculate_rsi(prices, period)` returns. */
  function Rsi(prices: seq<real>, period: nat): Option<real>
    requires period >= 1
  {
    if |prices| < period + 1 then None
    else RsiFromMoves(Gains(prices), Losses(prices), period)
  }

  /** The smoothing loop of `_calculate_rsi`, over the moves after the first window. */
  method SmoothAverages(gains: seq<real>, losses: seq<real>, period: nat, g0: real, l0: real)
    returns (avgGain: real, avgLoss: real)
    requires period >= 1 && |losses| == |gains|
    ensures avgGain == Smooth(g0, gains, period)
    ensures avgLoss == Smooth(l0, losses, period)
  {
    avgGain, avgLoss := g0, l0;
    var i := 0;
    while i < |gains|
      invariant 0 <= i <= |gains|
      invariant avgGain == Smooth(g0, gains[..i], period)
      invariant avgLoss == Smooth(l0, losses[..i], period)
    {
      assert gains[..i + 1][..i] == gains[..i];
      assert losses[..i + 1][..i] == losses[..i];
      avgGain := (avgGain * ((period - 1) as real) + gains[i]) / (period as real);
      avgLoss := (avgLoss * ((period - 1) as real) + losses[i]) / (period as real);
      i := i + 1;
    }
    assert gains[..i] == gains;
    assert losses[..i] == losses;
  }

  /** `TechnicalsScanner._calculate_rsi`. */
  method CalculateRsi(prices: seq<real>, period: nat) returns (rsi: Option<real>)
    requires period >= 1
    ensures rsi == Rsi(prices, period)
  {
    if |prices| < period + 1 {
      return None;
    }
    var gains := Gains(prices);
    var losses := Losses(prices);
    var avgGain := Mean(gains[..period]);
    var avgLoss := Mean(losses[..period]);
    if avgLoss == 0.0 {
      return Some(100.0);
    }
    MeanNonNeg(gains[..period]);
    MeanNonNeg(losses[..period]);
    SmoothNonNeg(avgGain, gains[period..], period);
    SmoothNonNeg(avgLoss, losses[period..], period);
    avgGain, avgLoss := SmoothAverages(gains[period..], losses[period..], period, avgGain, avgLoss);
    if avgLoss == 0.0 {
      return Some(100.0);
    }
    var rs := avgGain / avgLoss;
    rsi := Some(Round(100.0 - 100.0 / (1.0 + rs), 1));
  }

  // ---- Properties of the RSI ----

  /** There is an RSI exactly when there are at least `period + 1` prices. */
  lemma RsiNeedsHistory(prices: seq<real>, period: nat)
    requires period >= 1
    ensures Rsi(prices, period).None? <==> |prices| < period + 1
  {
  }

  /** When none of the first `period` moves is a loss the RSI is exactly 100, whatever
      the later moves are. */
  lemma RsiWithoutEarlyLoss(prices: seq<real>, period: nat)
    requires period >= 1 && |prices| >= period + 1
    requires forall i :: 0 <= i < period ==> prices[i] <= prices[i + 1]
    ensures Rsi(prices, period) == Some(100.0)
  {
    var losses := Losses(prices);
    forall i | 0 <= i < period ensures losses[i] == 0.0 {
      assert Delta(prices, i) >= 0.0;
    }
    MovesWithoutEarlyLoss(Gains(prices), losses, period);
  }

  lemma MovesWithoutEarlyLoss(gains: seq<real>, losses: seq<real>, period: nat)
    requires 1 <= period <= |gains| && |losses| == |gains|
    requires forall i :: 0 <= i < |gains| ==> gains[i] >= 0.0
    requires forall i :: 0 <= i < |losses| ==> losses[i] >= 0.0
    requires forall i :: 0 <= i < period ==> losses[i] == 0.0
    ensures RsiFromMoves(gains, losses, period) == Some(100.0)
  {
    var early := losses[..period];
    assert forall i :: 0 <= i < |early| ==> early[i] == 0.0;
    SumNonNeg(early);
  }

  /** With a loss among the first `period` moves and a period of at least two, the loss
      average stays positive through the smoothing, so the second zero test never fires;
      the unrounded RSI lies in [0, 100) and the reported one, rounded to one decimal,
      in [0, 100]. */
  lemma RsiWithEarlyLoss(prices: seq<real>, period: nat)
    requires period >= 2 && |prices| >= period + 1
    requires exists i :: 0 <= i < period && prices[i + 1] < prices[i]
    ensures var gains, losses := Gains(prices), Losses(prices);
            var g := Smooth(Mean(gains[..period]), gains[period..], period);
            var l := Smooth(Mean(losses[..period]), losses[period..], period);
            g >= 0.0 && l > 0.0 &&
            Rsi(prices, period) == Some(Round(RsiOf(g, l), 1)) &&
            0.0 <= Rsi(prices, period).value <= 100.0
  {
    var gains, losses := Gains(prices), Losses(prices);
    var i :| 0 <= i < period && prices[i + 1] < prices[i];
    assert losses[..period][i] > 0.0;
    SumNonNeg(losses[..period]);
    var l0 := Mean(losses[..period]);
    var g0 := Mean(gains[..period]);
    assert l0 > 0.0;
    MeanNonNeg(gains[..period]);
    SmoothPositive(l0, losses[period..], period);
    SmoothNonNeg(g0, gains[period..], period);
    var g := Smooth(g0, gains[period..], period);
    var l := Smooth(l0, losses[period..], period);
    assert Rsi(prices, period) == FinalRsi(g, l);
    FinalRsiBounds(g, l);
  }

  lemma FinalRsiBounds(g: real, l: real)
    requires g >= 0.0 && l > 0.0
    ensures FinalRsi(g, l) == Some(Round(RsiOf(g, l), 1))
    ensures 0.0 <= FinalRsi(g, l).value <= 100.0
  {
    RoundKeepsIntBound(RsiOf(g, l), 0, 1);
    RoundKeepsIntBound(RsiOf(g, l), 100, 1);
  }

  // ---- One ticker ----

  /** The last `n` closes, as `closes[-n:]`. */
  function Last(closes: seq<real>, n: nat): seq<real>
    requires |closes| >= n
  {
    closes[|closes| - n..]
  }

  /** `np.mean(closes[-n:])`, defined when at least `n` closes exist. */
  function MovingAverage(closes: seq<real>, n: nat): Option<real>
    requires n > 0
  {
    if |closes| >= n then Some(Mean(Last(closes, n))) else None
  }

  /** `np.mean(closes[-(n+5):-5])`: the same average five bars earlier. */
  function LaggedAverage(closes: seq<real>, n: nat): Option<real>
    requires n > 0
  {
    if |closes| >= n + CROSS_LAG then Some(Mean(closes[|closes| - n - CROSS_LAG..|closes| - CROSS_LAG])) else None
  }

  /** `current_price > ma if ma else None`. */
  function Above(price: real, ma: Option<real>): Option<bool> {
    if Truthy(ma) then Some(price > ma.value) else None
  }

  /** Short interest as fetched: days to cover and percent of float; a failed fetch has both missing. */
  datatype ShortInterest = ShortInterest(ratio: Option<real>, percentFloat: Option<real>)

  /** A signal. The source renders each as a sentence; the model keeps what it says. */
  datatype Signal =
    | RsiOverbought(rsi: real)
    | RsiOversold(rsi: real)
    | AboveBothAverages
    | BelowBothAverages
    | GoldenCross
    | DeathCross
    | HighShortInterest(percentFloat: real)

  /** `TechnicalSignal`. */
  datatype TechnicalSignal = TechnicalSignal(
    symbol: string,
    price: real,
    rsi14: Option<real>,
    ma50: Option<real>,
    ma200: Option<real>,
    above50ma: Option<bool>,
    above200ma: Option<bool>,
    shortInterestRatio: Option<real>,
    shortPercentFloat: Option<real>,
    signals: seq<Signal>)

  function RsiSignal(rsi: Option<real>): seq<Signal> {
    if Truthy(rsi) then
      if rsi.value >= RSI_OVERBOUGHT then [RsiOverbought(rsi.value)]
      else if rsi.value <= RSI_OVERSOLD then [RsiOversold(rsi.value)]
      else []
    else []
  }

  function CrossSignal(ma50: real, ma200: real, prev50: Option<real>, prev200: Option<real>): seq<Signal> {
    if Truthy(prev50) && Truthy(prev200) then
      if ma50 > ma200 && prev50.value <= prev200.value then [GoldenCross]
      else if ma50 < ma200 && prev50.value >= prev200.value then [DeathCross]
      else []
    else []
  }

  /** The moving-average signals, given the two averages, their lagged values and the price. */
  function AverageSignals(price: real, ma50: Option<real>, ma200: Option<real>,
                          prev50: Option<real>, prev200: Option<real>): seq<Signal> {
    if Truthy(ma50) && Truthy(ma200) then
      var above50, above200 := price > ma50.value, price > ma200.value;
      (if above50 && above200 then [AboveBothAverages]
       else if !above50 && !above200 then [BelowBothAverages]
       else []) +
      CrossSignal(ma50.value, ma200.value, prev50, prev200)
    else []
  }

  function ShortSignal(percentFloat: Option<real>): seq<Signal> {
    if Truthy(percentFloat) && percentFloat.value >= HIGH_SHORT_INTEREST then [HighShortInterest(percentFloat.value)]
    else []
  }

  /** The signals of a history of at least 50 closes with the given RSI, in the order
      they are appended. */
  function SignalsWith(closes: seq<real>, short: ShortInterest, rsi: Option<real>): seq<Signal>
    requires |closes| >= MIN_HISTORY
  {
    var price := closes[|closes| - 1];
    RsiSignal(rsi) +
    AverageSignals(price, MovingAverage(closes, 50), MovingAverage(closes, 200),
                   LaggedAverage(closes, 50), LaggedAverage(closes, 200)) +
    ShortSignal(short.percentFloat)
  }

  function Signals(closes: seq<real>, short: ShortInterest): seq<Signal>
    requires |closes| >= MIN_HISTORY
  {
    SignalsWith(closes, short, Rsi(closes, RSI_PERIOD))
  }

  function RoundedIfTruthy(x: Option<real>): Option<real> {
    if Truthy(x) then Some(Round(x.value, 2)) else None
  }

  /** What `_analyze_ticker` returns for the given closes and short interest. */
  function Analyze(ticker: string, closes: seq<real>, short: ShortInterest): Option<TechnicalSignal> {
    if |closes| < MIN_HISTORY then None
    else
      var price := closes[|closes| - 1];
      var ma50 := MovingAverage(closes, 50);
      var ma200 := MovingAverage(closes, 200);
      Some(TechnicalSignal(
        ticker, Round(price, 2), Rsi(closes, RSI_PERIOD),
        RoundedIfTruthy(ma50), RoundedIfTruthy(ma200),
        Above(price, ma50), Above(price, ma200),
        short.ratio, short.percentFloat,
        Signals(closes, short)))
  }

  /** The moving-average block of `_analyze_ticker`. */
  method BuildAverageSignals(price: real, ma50: Option<real>, ma200: Option<real>,
                             prev50: Option<real>, prev200: Option<real>) returns (signals: seq<Signal>)
    ensures signals == AverageSignals(price, ma50, ma200, prev50, prev200)
  {
    signals := [];
    if Truthy(ma50) && Truthy(ma200) {
      var above50, above200 := Above(price, ma50), Above(price, ma200);
      if above50.value && above200.value {
        signals := signals + [AboveBothAverages];
      } else if !above50.value && !above200.value {
        signals := signals + [BelowBothAverages];
      }
      if Truthy(prev50) && Truthy(prev200) {
        if ma50.value > ma200.value && prev50.value <= prev200.value {
          signals := signals + [GoldenCross];
        } else if ma50.value < ma200.value && prev50.value >= prev200.value {
          signals := signals + [DeathCross];
        }
      }
    }
  }

  /** The RSI block of `_analyze_ticker`. */
  method BuildRsiSignal(rsi: Option<real>) returns (signals: seq<Signal>)
    ensures signals == RsiSignal(rsi)
  {
    signals := [];
    if Truthy(rsi) {
      if rsi.value >= RSI_OVERBOUGHT {
        signals := signals + [RsiOverbought(rsi.value)];
      } else if rsi.value <= RSI_OVERSOLD {
        signals := signals + [RsiOversold(rsi.value)];
      }
    }
  }

  /** The signal-building part of `_analyze_ticker`. */
  method BuildSignals(closes: seq<real>, short: ShortInterest, rsi: Option<real>) returns (signals: seq<Signal>)
    requires |closes| >= MIN_HISTORY
    ensures signals == SignalsWith(closes, short, rsi)
  {
    var ma50, ma200 := MovingAverage(closes, 50), MovingAverage(closes, 200);
    var prev50, prev200 := LaggedAverage(closes, 50), LaggedAverage(closes, 200);
    signals := BuildRsiSignal(rsi);
    var averageSignals := BuildAverageSignals(closes[|closes| - 1], ma50, ma200, prev50, prev200);
    signals := signals + averageSignals;
    var shortPct := short.percentFloat;
    if Truthy(shortPct) && shortPct.value >= HIGH_SHORT_INTEREST {
      signals := signals + [HighShortInterest(shortPct.value)];
    }
  }

  /** `TechnicalsScanner._analyze_ticker`; `closes` is the fetched one-year history. */
  method AnalyzeTicker(ticker: string, closes: seq<real>, short: ShortInterest) returns (r: Option<TechnicalSignal>)
    ensures r == Analyze(ticker, closes, short)
  {
    if |closes| < MIN_HISTORY {
      return None;
    }
    var price := closes[|closes| - 1];
    var rsi := CalculateRsi(closes, RSI_PERIOD);
    var ma50 := MovingAverage(closes, 50);
    var ma200 := MovingAverage(closes, 200);
    var signals := BuildSignals(closes, short, rsi);
    r := Some(TechnicalSignal(
      ticker, Round(price, 2), rsi, RoundedIfTruthy(ma50), RoundedIfTruthy(ma200),
      Above(price, ma50), Above(price, ma200), short.ratio, short.percentFloat, signals));
  }

  // ---- The scan ----

  function History(histories: map<string, seq<real>>, ticker: string): seq<real> {
    if ticker in histories then histories[ticker] else []
  }

  function ShortOf(shorts: map<string, ShortInterest>, ticker: string): ShortInterest {
    if ticker in shorts then shorts[ticker] else ShortInterest(None, None)
  }

  /** What one ticker contributes to the scan: its analysis, when it has signals. */
  function Entry(ticker: string, histories: map<string, seq<real>>, shorts: map<string, ShortInterest>): Option<TechnicalSignal> {
    var a := Analyze(ticker, History(histories, ticker), ShortOf(shorts, ticker));
    if a.Some? && a.value.signals != [] then a else None
  }

  function ScanResult(tickers: seq<string>, histories: map<string, seq<real>>, shorts: map<string, ShortInterest>): seq<TechnicalSignal> {
    Lists.Keep(t => Entry(t, histories, shorts), tickers)
  }

  /** `TechnicalsScanner.scan`; a ticker whose history could not be fetched has none. */
  method Scan(tickers: seq<string>, histories: map<string, seq<real>>, shorts: map<string, ShortInterest>)
    returns (results: seq<TechnicalSignal>)
    ensures results == ScanResult(tickers, histories, shorts)
  {
    results := [];
    var t := 0;
    while t < |tickers|
      invariant 0 <= t <= |tickers|
      invariant results == ScanResult(tickers[..t], histories, shorts)
    {
      assert tickers[..t + 1][..t] == tickers[..t];
      var ticker := tickers[t];
      var signal := AnalyzeTicker(ticker, History(histories, ticker), ShortOf(shorts, ticker));
      if signal.Some? && signal.value.signals != [] {
        results := results + [signal.value];
      }
      t := t + 1;
    }
    assert tickers[..t] == tickers;
  }

  // ---- Properties of the analysis ----

  /** Fewer than 50 closes give no analysis; otherwise the 50-bar average is the mean of
      the last 50 closes, the 200-bar one is the mean of the last 200 closes when there are that
      many, and an average and its flag are missing exactly when that mean is missing or zero. */
  lemma AnalyzeAverages(ticker: string, closes: seq<real>, short: ShortInterest)
    ensures Analyze(ticker, closes, short).None? <==> |closes| < MIN_HISTORY
    ensures |closes| >= MIN_HISTORY ==>
              var a := Analyze(ticker, closes, short).value;
              var ma50 := Mean(closes[|closes| - 50..]);
              (a.ma50 == if ma50 != 0.0 then Some(Round(ma50, 2)) else None) &&
              (a.above50ma == if ma50 != 0.0 then Some(closes[|closes| - 1] > ma50) else None) &&
              (a.ma200 == if |closes| >= 200 && Mean(closes[|closes| - 200..]) != 0.0
                          then Some(Round(Mean(closes[|closes| - 200..]), 2)) else None) &&
              (a.above200ma == if |closes| >= 200 && Mean(closes[|closes| - 200..]) != 0.0
                               then Some(closes[|closes| - 1] > Mean(closes[|closes| - 200..])) else None)
  {
  }

  /** At most one RSI signal; overbought from 70 up, oversold up to 30, and an RSI of
      exactly 0 gives none because it is falsy. */
  lemma RsiSignalRule(rsi: Option<real>)
    ensures |RsiSignal(rsi)| <= 1
    ensures (exists v :: RsiOverbought(v) in RsiSignal(rsi)) <==> rsi.Some? && rsi.value != 0.0 && rsi.value >= 70.0
    ensures (exists v :: RsiOversold(v) in RsiSignal(rsi)) <==> rsi.Some? && rsi.value != 0.0 && rsi.value <= 30.0
    ensures rsi == Some(0.0) ==> RsiSignal(rsi) == []
  {
    if rsi.Some? && rsi.value != 0.0 && rsi.value >= 70.0 {
      assert RsiOverbought(rsi.value) in RsiSignal(rsi);
    }
    if rsi.Some? && rsi.value != 0.0 && rsi.value <= 30.0 {
      assert RsiOversold(rsi.value) in RsiSignal(rsi);
    }
  }

  /** The all-above and all-below signals need both averages, and never appear together;
      a golden cross is the 50-bar average above the 200-bar one after being at or below it
      five bars earlier, a death cross the mirror image, and they never appear together. */
  lemma AverageSignalRule(price: real, ma50: Option<real>, ma200: Option<real>,
                          prev50: Option<real>, prev200: Option<real>)
    ensures var s := AverageSignals(price, ma50, ma200, prev50, prev200);
            var both := Truthy(ma50) && Truthy(ma200);
            var lagged := Truthy(prev50) && Truthy(prev200);
            (AboveBothAverages in s <==> both && price > ma50.value && price > ma200.value) &&
            (BelowBothAverages in s <==> both && price <= ma50.value && price <= ma200.value) &&
            !(AboveBothAverages in s && BelowBothAverages in s) &&
            (GoldenCross in s <==> both && lagged && ma50.value > ma200.value && prev50.value <= prev200.value) &&
            (DeathCross in s <==> both && lagged && ma50.value < ma200.value && prev50.value >= prev200.value) &&
            !(GoldenCross in s && DeathCross in s)
  {
  }

  /** A cross can only be reported with at least 205 closes. */
  lemma CrossNeedsHistory(closes: seq<real>, short: ShortInterest)
    requires |closes| >= MIN_HISTORY
    requires GoldenCross in Signals(closes, short) || DeathCross in Signals(closes, short)
    ensures |closes| >= 205
  {
    CrossNeedsLaggedAverage(closes, short, Rsi(closes, RSI_PERIOD));
  }

  /** Whatever the RSI, a cross comes from the averages and needs the lagged 200-bar one. */
  lemma CrossNeedsLaggedAverage(closes: seq<real>, short: ShortInterest, rsi: Option<real>)
    requires |closes| >= MIN_HISTORY
    requires GoldenCross in SignalsWith(closes, short, rsi) || DeathCross in SignalsWith(closes, short, rsi)
    ensures |closes| >= 205
  {
    var price := closes[|closes| - 1];
    var prev200 := LaggedAverage(closes, 200);
    var b := AverageSignals(price, MovingAverage(closes, 50), MovingAverage(closes, 200),
                            LaggedAverage(closes, 50), prev200);
    assert SignalsWith(closes, short, rsi) == RsiSignal(rsi) + b + ShortSignal(short.percentFloat);
    assert GoldenCross in b || DeathCross in b;
    assert prev200.Some?;
  }

  /** Short interest is flagged exactly when the percent of float is present, non-zero
      and at least 10. */
  lemma ShortSignalRule(percentFloat: Option<real>)
    ensures ShortSignal(percentFloat) != [] <==> percentFloat.Some? && percentFloat.value >= 10.0
    ensures ShortSignal(percentFloat) != [] ==> ShortSignal(percentFloat) == [HighShortInterest(percentFloat.value)]
  {
  }

  /** The scan reports, in ticker order, exactly the analyses that have signals. */
  lemma ScanMembers(tickers: seq<string>, histories: map<string, seq<real>>, shorts: map<string, ShortInterest>,
                    r: TechnicalSignal)
    ensures r in ScanResult(tickers, histories, shorts) <==>
              exists t :: 0 <= t < |tickers| &&
                Analyze(tickers[t], History(histories, tickers[t]), ShortOf(shorts, tickers[t])) == Some(r) &&
                r.signals != []
    ensures |ScanResult(tickers, histories, shorts)| <= |tickers|
  {
    Lists.KeepMembers(t => Entry(t, histories, shorts), tickers);
    Lists.KeepLength(t => Entry(t, histories, shorts), tickers);
    if r in ScanResult(tickers, histories, shorts) {
      var t :| 0 <= t < |tickers| && Entry(tickers[t], histories, shorts) == Some(r);
    }
    if exists t :: 0 <= t < |tickers| &&
         Analyze(tickers[t], History(histories, tickers[t]), ShortOf(shorts, tickers[t])) == Some(r) && r.signals != [] {
      var t :| 0 <= t < |tickers| &&
        Analyze(tickers[t], History(histories, tickers[t]), ShortOf(shorts, tickers[t])) == Some(r) && r.signals != [];
      assert Entry(tickers[t], histories, shorts) == Some(r);
    }
  }

  /** Every reported analysis has signals, is about a listed ticker, and rests on at
      least 50 closes. */
  lemma ScanResultsHaveSignals(tickers: seq<string>, histories: map<string, seq<real>>,
                               shorts: map<string, ShortInterest>, r: TechnicalSignal)
    requires r in ScanResult(tickers, histories, shorts)
    ensures r.signals != [] && r.symbol in tickers
    ensures r.symbol in histories && |histories[r.symbol]| >= MIN_HISTORY
  {
    ScanMembers(tickers, histories, shorts, r);
    var t :| 0 <= t < |tickers| &&
      Analyze(tickers[t], History(histories, tickers[t]), ShortOf(shorts, tickers[t])) == Some(r) && r.signals != [];
  }
}
