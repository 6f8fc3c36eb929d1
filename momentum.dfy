/** The momentum scanner (scanner/scanners/momentum.py): up to four price signals per
    quote (a large move, nearness to the 52-week high or low, an opening gap); tickers with
    none are dropped and the rest are ranked by signal count, then by the size of the move. */
module Momentum {
  import opened Wrappers
  import opened Numeric
  import opened Sorting
  import Lists

  /** `PRICE_CHANGE_THRESHOLD` (percent) and `high_proximity_pct`. */
  const PRICE_CHANGE_THRESHOLD: real := 3.0
  const HIGH_PROXIMITY_PCT: real := 5.0
  const GAP_THRESHOLD: real := 2.0

  /** A quote; every field may be missing. `c` is the price, `pc` the previous close,
      `dp` the percent change and `o` the open. A failed fetch has every field missing. */
  datatype Quote = Quote(c: Option<real>, pc: Option<real>, dp: Option<real>, o: Option<real>)

  /** The 52-week metrics; a failed fetch has both missing. */
  datatype Metrics = Metrics(yearHigh: Option<real>, yearLow: Option<real>)

  /** A signal. The source renders each as a sentence; the model keeps what it says. */
  datatype Signal =
    | PriceMove(up: bool, pct: real)
    | NearHigh(yearHigh: real)
    | NearLow(yearLow: real)
    | Gap(up: bool, pct: real)

  /** `MomentumResult`. */
  datatype MomentumResult = MomentumResult(
    symbol: string,
    price: real,
    changePct: real,
    volume: nat,
    avgVolume: nat,
    yearHigh: Option<real>,
    yearLow: Option<real>,
    signals: seq<Signal>)

  // ---- The signal rules ----

  function PriceSignal(changePct: real): (r: seq<Signal>)
    ensures forall x :: x in r ==> x.PriceMove?
  {
    if Abs(changePct) > PRICE_CHANGE_THRESHOLD then [PriceMove(changePct > 0.0, Abs(changePct))] else []
  }

  function HighSignal(price: real, yearHigh: Option<real>): (r: seq<Signal>)
    ensures forall x :: x in r ==> x.NearHigh?
  {
    if Truthy(yearHigh) && price > yearHigh.value * (1.0 - HIGH_PROXIMITY_PCT / 100.0)
    then [NearHigh(yearHigh.value)] else []
  }

  function LowSignal(price: real, yearLow: Option<real>): (r: seq<Signal>)
    ensures forall x :: x in r ==> x.NearLow?
  {
    if Truthy(yearLow) && price < yearLow.value * (1.0 + HIGH_PROXIMITY_PCT / 100.0)
    then [NearLow(yearLow.value)] else []
  }

  function GapPct(openPrice: real, prevClose: real): real
    requires prevClose != 0.0
  {
    ((openPrice - prevClose) / prevClose) * 100.0
  }

  function GapSignal(prevClose: Option<real>, openPrice: Option<real>): (r: seq<Signal>)
    ensures forall x :: x in r ==> x.Gap?
  {
    if Truthy(prevClose) && Truthy(openPrice) && Abs(GapPct(openPrice.value, prevClose.value)) > GAP_THRESHOLD
    then [Gap(GapPct(openPrice.value, prevClose.value) > 0.0, Abs(GapPct(openPrice.value, prevClose.value)))]
    else []
  }

  /** The signals of a quote, in the order the scan appends them. */
  function QuoteSignals(price: real, q: Quote, m: Metrics): seq<Signal> {
    PriceSignal(q.dp.GetOr(0.0)) + HighSignal(price, m.yearHigh) + LowSignal(price, m.yearLow) +
    GapSignal(q.pc, q.o)
  }

  /** What one ticker contributes: nothing without a price or without signals. */
  function TickerResult(ticker: string, quotes: map<string, Quote>, metrics: map<string, Metrics>): Option<MomentumResult> {
    var q := if ticker in quotes then quotes[ticker] else Quote(None, None, None, None);
    var m := if ticker in metrics then metrics[ticker] else Metrics(None, None);
    if q.c.None? then None
    else
      var signals := QuoteSignals(q.c.value, q, m);
      if signals == [] then None
      else Some(MomentumResult(ticker, q.c.value, q.dp.GetOr(0.0), 0, 0, m.yearHigh, m.yearLow, signals))
  }

  function Collected(watchlist: seq<string>, quotes: map<string, Quote>, metrics: map<string, Metrics>): seq<MomentumResult> {
    Lists.Keep(t => TickerResult(t, quotes, metrics), watchlist)
  }

  /** The ranking: more signals first, then the larger absolute change. */
  function ByRank(a: MomentumResult, b: MomentumResult): bool {
    |a.signals| > |b.signals| || (|a.signals| == |b.signals| && Abs(a.changePct) >= Abs(b.changePct))
  }

  lemma ByRankTotal()
    ensures TotalPreorder(ByRank)
  {
  }

  function ScanResult(watchlist: seq<string>, quotes: map<string, Quote>, metrics: map<string, Metrics>): seq<MomentumResult> {
    ByRankTotal();
    SortBy(Collected(watchlist, quotes, metrics), ByRank)
  }

  /** The signal-building part of `MomentumScanner.scan` for one quote with a price. */
  method DetectSignals(price: real, quote: Quote, m: Metrics) returns (signals: seq<Signal>)
    ensures signals == QuoteSignals(price, quote, m)
  {
    var prevClose := quote.pc;
    var changePct := quote.dp.GetOr(0.0);
    var yearHigh, yearLow := m.yearHigh, m.yearLow;
    signals := [];
    if Abs(changePct) > PRICE_CHANGE_THRESHOLD {
      signals := signals + [PriceMove(changePct > 0.0, Abs(changePct))];
    }
    assert signals == PriceSignal(changePct);
    if Truthy(yearHigh) && price > yearHigh.value * (1.0 - HIGH_PROXIMITY_PCT / 100.0) {
      signals := signals + [NearHigh(yearHigh.value)];
    }
    assert signals == PriceSignal(changePct) + HighSignal(price, yearHigh);
    if Truthy(yearLow) && price < yearLow.value * (1.0 + HIGH_PROXIMITY_PCT / 100.0) {
      signals := signals + [NearLow(yearLow.value)];
    }
    assert signals == PriceSignal(changePct) + HighSignal(price, yearHigh) + LowSignal(price, yearLow);
    var openPrice := quote.o;
    if Truthy(prevClose) && Truthy(openPrice) {
      var gapPct := ((openPrice.value - prevClose.value) / prevClose.value) * 100.0;
      if Abs(gapPct) > GAP_THRESHOLD {
        signals := signals + [Gap(gapPct > 0.0, Abs(gapPct))];
      }
    }
  }

  /** `MomentumScanner.scan`; `quotes` and `metrics` hold what the two fetches returned. */
  method Scan(watchlist: seq<string>, quotes: map<string, Quote>, metrics: map<string, Metrics>)
    returns (results: seq<MomentumResult>)
    ensures results == ScanResult(watchlist, quotes, metrics)
  {
    results := [];
    var t := 0;
    while t < |watchlist|
      invariant 0 <= t <= |watchlist|
      invariant results == Collected(watchlist[..t], quotes, metrics)
    {
      assert watchlist[..t + 1][..t] == watchlist[..t];
      var ticker := watchlist[t];
      var quote := if ticker in quotes then quotes[ticker] else Quote(None, None, None, None);
      if quote.c.Some? {
        var m := if ticker in metrics then metrics[ticker] else Metrics(None, None);
        var signals := DetectSignals(quote.c.value, quote, m);
        if signals != [] {
          results := results + [MomentumResult(ticker, quote.c.value, quote.dp.GetOr(0.0), 0, 0,
                                               m.yearHigh, m.yearLow, signals)];
        }
      }
      t := t + 1;
    }
    assert watchlist[..t] == watchlist;
    ByRankTotal();
    results := SortBy(results, ByRank);
  }

  // ---- Properties ----

  /** Each signal appears exactly under its own condition; the move test is strict, so a
      change of exactly 3% gives no signal. */
  lemma SignalRules(price: real, q: Quote, m: Metrics)
    ensures var s := QuoteSignals(price, q, m);
            var change := q.dp.GetOr(0.0);
            ((exists x :: x in s && x.PriceMove?) <==> Abs(change) > 3.0) &&
            ((exists x :: x in s && x.NearHigh?) <==>
               m.yearHigh.Some? && m.yearHigh.value != 0.0 && price > m.yearHigh.value * 0.95) &&
            ((exists x :: x in s && x.NearLow?) <==>
               m.yearLow.Some? && m.yearLow.value != 0.0 && price < m.yearLow.value * 1.05) &&
            ((exists x :: x in s && x.Gap?) <==>
               Truthy(q.pc) && Truthy(q.o) && Abs((q.o.value - q.pc.value) / q.pc.value * 100.0) > 2.0)
  {
    MoveRule(price, q, m);
    HighRule(price, q, m);
    LowRule(price, q, m);
    GapRule(price, q, m);
  }

  lemma MoveRule(price: real, q: Quote, m: Metrics)
    ensures (exists x :: x in QuoteSignals(price, q, m) && x.PriceMove?) <==> Abs(q.dp.GetOr(0.0)) > 3.0
  {
    var a := PriceSignal(q.dp.GetOr(0.0));
    assert QuoteSignals(price, q, m) == a + HighSignal(price, m.yearHigh) + LowSignal(price, m.yearLow) + GapSignal(q.pc, q.o);
    if a != [] { assert a[0] in a; }
  }

  lemma HighRule(price: real, q: Quote, m: Metrics)
    ensures (exists x :: x in QuoteSignals(price, q, m) && x.NearHigh?) <==>
              m.yearHigh.Some? && m.yearHigh.value != 0.0 && price > m.yearHigh.value * 0.95
  {
    var b := HighSignal(price, m.yearHigh);
    assert QuoteSignals(price, q, m) == PriceSignal(q.dp.GetOr(0.0)) + b + LowSignal(price, m.yearLow) + GapSignal(q.pc, q.o);
    if b != [] { assert b[0] in b; }
  }

  lemma LowRule(price: real, q: Quote, m: Metrics)
    ensures (exists x :: x in QuoteSignals(price, q, m) && x.NearLow?) <==>
              m.yearLow.Some? && m.yearLow.value != 0.0 && price < m.yearLow.value * 1.05
  {
    var c := LowSignal(price, m.yearLow);
    assert QuoteSignals(price, q, m) == PriceSignal(q.dp.GetOr(0.0)) + HighSignal(price, m.yearHigh) + c + GapSignal(q.pc, q.o);
    if c != [] { assert c[0] in c; }
  }

  lemma GapRule(price: real, q: Quote, m: Metrics)
    ensures (exists x :: x in QuoteSignals(price, q, m) && x.Gap?) <==>
              Truthy(q.pc) && Truthy(q.o) && Abs((q.o.value - q.pc.value) / q.pc.value * 100.0) > 2.0
  {
    var d := GapSignal(q.pc, q.o);
    assert QuoteSignals(price, q, m) == PriceSignal(q.dp.GetOr(0.0)) + HighSignal(price, m.yearHigh) + LowSignal(price, m.yearLow) + d;
    if d != [] { assert d[0] in d; }
  }

  /** The move signal records the direction and the size of the change. */
  lemma PriceSignalContents(changePct: real)
    ensures PriceSignal(changePct) != [] ==>
              PriceSignal(changePct) == [PriceMove(changePct > 0.0, Abs(changePct))] &&
              Abs(changePct) > PRICE_CHANGE_THRESHOLD
    ensures |PriceSignal(changePct)| <= 1
  {
  }

  /** A ticker is reported exactly when it has a price and at least one signal; its
      result then has between one and four signals and zero volumes. */
  lemma TickerResultRule(ticker: string, quotes: map<string, Quote>, metrics: map<string, Metrics>)
    ensures var r := TickerResult(ticker, quotes, metrics);
            var q := if ticker in quotes then quotes[ticker] else Quote(None, None, None, None);
            var m := if ticker in metrics then metrics[ticker] else Metrics(None, None);
            (r.Some? <==> q.c.Some? && QuoteSignals(q.c.value, q, m) != []) &&
            (r.Some? ==> r.value.symbol == ticker && r.value.price == q.c.value &&
                         r.value.changePct == q.dp.GetOr(0.0) &&
                         1 <= |r.value.signals| <= 4 &&
                         r.value.volume == 0 && r.value.avgVolume == 0 &&
                         r.value.yearHigh == m.yearHigh && r.value.yearLow == m.yearLow)
  {
  }

  /** The scan reports the collected results, each as often, ranked by signal count and
      then by absolute change; results that tie keep watchlist order. */
  lemma ScanIsStableSort(watchlist: seq<string>, quotes: map<string, Quote>, metrics: map<string, Metrics>, x: MomentumResult)
    ensures var c := Collected(watchlist, quotes, metrics);
            var r := ScanResult(watchlist, quotes, metrics);
            multiset(r) == multiset(c) &&
            (forall i, j :: 0 <= i < j < |r| ==>
               |r[i].signals| > |r[j].signals| ||
               (|r[i].signals| == |r[j].signals| && Abs(r[i].changePct) >= Abs(r[j].changePct))) &&
            EquivalentTo(r, x, ByRank) == EquivalentTo(c, x, ByRank)
  {
    ByRankTotal();
    SortStable(Collected(watchlist, quotes, metrics), x, ByRank);
  }

  /** A result is reported exactly when a watchlist ticker yields it. */
  lemma ScanMembers(watchlist: seq<string>, quotes: map<string, Quote>, metrics: map<string, Metrics>, r: MomentumResult)
    ensures r in ScanResult(watchlist, quotes, metrics) <==>
              exists t :: 0 <= t < |watchlist| && TickerResult(watchlist[t], quotes, metrics) == Some(r)
  {
    ByRankTotal();
    assert r in ScanResult(watchlist, quotes, metrics) <==> r in multiset(Collected(watchlist, quotes, metrics));
    Lists.KeepMembers(t => TickerResult(t, quotes, metrics), watchlist);
    if r in Collected(watchlist, quotes, metrics) {
      var t :| 0 <= t < |watchlist| && TickerResult(watchlist[t], quotes, metrics) == Some(r);
    }
    if exists t :: 0 <= t < |watchlist| && TickerResult(watchlist[t], quotes, metrics) == Some(r) {
      var t :| 0 <= t < |watchlist| && TickerResult(watchlist[t], quotes, metrics) == Some(r);
      assert r in Collected(watchlist, quotes, metrics);
    }
  }

  /** Every reported result has a watchlist symbol and between one and four signals. */
  lemma ScanResultsHaveSignals(watchlist: seq<string>, quotes: map<string, Quote>, metrics: map<string, Metrics>, r: MomentumResult)
    requires r in ScanResult(watchlist, quotes, metrics)
    ensures r.symbol in watchlist
    ensures 1 <= |r.signals| <= 4 && r.volume == 0 && r.avgVolume == 0
  {
    ScanMembers(watchlist, quotes, metrics, r);
    var t :| 0 <= t < |watchlist| && TickerResult(watchlist[t], quotes, metrics) == Some(r);
    TickerResultRule(watchlist[t], quotes, metrics);
  }
}
