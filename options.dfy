/** The options flow scanner (scanner/scanners/options.py): contracts with enough volume
    and open interest whose volume reaches their open interest are reported, in two tiers;
    a call/put volume ratio is aggregated per ticker over its nearest expiries. */
module OptionsFlow {
  import opened Wrappers
  import opened Numeric
  import opened Sorting
  import opened Text
  import Lists

  /** The thresholds `OptionsScanner.__init__` sets. */
  const MIN_VOLUME: nat := 100
  const MIN_OI: nat := 50
  const UNUSUAL_VOL_OI_RATIO: real := 1.0
  const HIGH_VOL_OI_RATIO: real := 2.0
  const MAX_EXPIRY_DAYS: nat := 30
  /** Expiries looked at by the flow scan and by the call/put ratio. */
  const EXPIRIES_SCANNED: nat := 5
  const EXPIRIES_FOR_RATIO: nat := 2

  datatype OptionType = Call | Put {
    function Name(): string {
      match this
      case Call => "call"
      case Put => "put"
    }
  }

  datatype Strength = Strong | Moderate

  /** One row of an option chain; a missing cell is `None`. */
  datatype ChainRow = ChainRow(
    strike: real,
    volume: Option<nat>,
    openInterest: Option<nat>,
    impliedVolatility: Option<real>,
    lastPrice: Option<real>)

  /** `OptionsSignal`. */
  datatype OptionsSignal = OptionsSignal(
    symbol: string,
    expiry: string,
    strike: real,
    optionType: OptionType,
    volume: nat,
    openInterest: nat,
    volumeOiRatio: real,
    impliedVolatility: Option<real>,
    lastPrice: real,
    signalType: string,
    signalStrength: Strength)

  /** A listed expiry: its name and its date in days, `None` when the name does not parse as a date. */
  datatype Expiry = Expiry(name: string, date: Option<int>)

  datatype Chain = Chain(calls: seq<ChainRow>, puts: seq<ChainRow>)

  /** What the provider has for one ticker: its expiries, and the chains that could be fetched. */
  datatype TickerData = TickerData(expirations: seq<Expiry>, chains: map<string, Chain>)

  // ---- One chain ----

  /** What one row of a chain contributes to `_scan_chain`. */
  function RowSignal(ticker: string, expiry: string, row: ChainRow, optionType: OptionType): Option<OptionsSignal> {
    var volume := row.volume.GetOr(0);
    var openInterest := row.openInterest.GetOr(0);
    if volume < MIN_VOLUME || openInterest < MIN_OI then None
    else
      var ratio := if openInterest > 0 then (volume as real) / (openInterest as real) else 0.0;
      if ratio < UNUSUAL_VOL_OI_RATIO then None
      else
        var iv := row.impliedVolatility;
        var reportedIv := if iv.Some? && iv.value > 0.0 then Some(Round(iv.value * 100.0, 1)) else None;
        Some(OptionsSignal(
          ticker, expiry, row.strike, optionType, volume, openInterest, Round(ratio, 2), reportedIv,
          row.lastPrice.GetOr(0.0),
          if ratio >= HIGH_VOL_OI_RATIO then optionType.Name() + "_sweep" else "unusual_volume",
          if ratio >= HIGH_VOL_OI_RATIO then Strong else Moderate))
  }

  function ChainSignals(ticker: string, expiry: string, rows: seq<ChainRow>, optionType: OptionType): seq<OptionsSignal> {
    Lists.Keep(row => RowSignal(ticker, expiry, row, optionType), rows)
  }

  /** `OptionsScanner._scan_chain`; a missing or empty chain is the empty sequence. */
  method ScanChain(ticker: string, expiry: string, rows: seq<ChainRow>, optionType: OptionType)
    returns (signals: seq<OptionsSignal>)
    ensures signals == ChainSignals(ticker, expiry, rows, optionType)
  {
    signals := [];
    var i := 0;
    while i < |rows|
      invariant 0 <= i <= |rows|
      invariant signals == ChainSignals(ticker, expiry, rows[..i], optionType)
    {
      assert rows[..i + 1][..i] == rows[..i];
      var signal := ScreenRow(ticker, expiry, rows[i], optionType);
      if signal.Some? {
        signals := signals + [signal.value];
      }
      i := i + 1;
    }
    assert rows[..i] == rows;
  }

  /** The body of the row loop of `_scan_chain`: the filters and the signal they let through. */
  method ScreenRow(ticker: string, expiry: string, row: ChainRow, optionType: OptionType)
    returns (signal: Option<OptionsSignal>)
    ensures signal == RowSignal(ticker, expiry, row, optionType)
  {
    signal := None;
    var volume := row.volume.GetOr(0);
    var openInterest := row.openInterest.GetOr(0);
    if volume >= MIN_VOLUME && openInterest >= MIN_OI {
      var ratio := (volume as real) / (openInterest as real);
      if ratio >= UNUSUAL_VOL_OI_RATIO {
        var signalType, strength;
        if ratio >= HIGH_VOL_OI_RATIO {
          signalType, strength := optionType.Name() + "_sweep", Strong;
        } else {
          signalType, strength := "unusual_volume", Moderate;
        }
        var iv := row.impliedVolatility;
        if iv.Some? && iv.value > 0.0 {
          iv := Some(Round(iv.value * 100.0, 1));
        } else {
          iv := None;
        }
        signal := Some(OptionsSignal(
          ticker, expiry, row.strike, optionType, volume, openInterest, Round(ratio, 2), iv,
          row.lastPrice.GetOr(0.0), signalType, strength));
      }
    }
  }

  // ---- One ticker ----

  /** The name of an expiry when it parses and falls within the horizon. */
  function NearTerm(e: Expiry, today: int): Option<string> {
    if e.date.Some? && e.date.value <= today + MAX_EXPIRY_DAYS then Some(e.name) else None
  }

  function NearTermOf(listed: seq<Expiry>, today: int): seq<string> {
    Lists.Keep(e => NearTerm(e, today), listed)
  }

  /** The near-term expiries among the first five listed, in listed order. */
  function NearTermExpiries(expirations: seq<Expiry>, today: int): seq<string> {
    NearTermOf(Prefix(expirations, EXPIRIES_SCANNED), today)
  }

  /** The signals of one expiry: calls first, then puts; nothing when its chain was not fetched. */
  function ExpirySignals(ticker: string, expiry: string, chains: map<string, Chain>): seq<OptionsSignal> {
    if expiry in chains then
      ChainSignals(ticker, expiry, chains[expiry].calls, Call) +
      ChainSignals(ticker, expiry, chains[expiry].puts, Put)
    else []
  }

  function ExpiriesSignals(ticker: string, expiries: seq<string>, chains: map<string, Chain>): seq<OptionsSignal> {
    Lists.FlatMap(x => ExpirySignals(ticker, x, chains), expiries)
  }

  function TickerSignals(ticker: string, data: TickerData, today: int): seq<OptionsSignal> {
    ExpiriesSignals(ticker, NearTermExpiries(data.expirations, today), data.chains)
  }

  /** `OptionsScanner._scan_ticker`, with `today` as a day number. */
  method ScanTicker(ticker: string, data: TickerData, today: int) returns (signals: seq<OptionsSignal>)
    ensures signals == TickerSignals(ticker, data, today)
  {
    var nearTerm := SelectNearTerm(Prefix(data.expirations, EXPIRIES_SCANNED), today);
    signals := [];
    var k := 0;
    while k < |nearTerm|
      invariant 0 <= k <= |nearTerm|
      invariant signals == ExpiriesSignals(ticker, nearTerm[..k], data.chains)
    {
      assert nearTerm[..k + 1][..k] == nearTerm[..k];
      var expiry := nearTerm[k];
      if expiry in data.chains {
        var calls := ScanChain(ticker, expiry, data.chains[expiry].calls, Call);
        var puts := ScanChain(ticker, expiry, data.chains[expiry].puts, Put);
        signals := signals + calls + puts;
      }
      k := k + 1;
    }
    assert nearTerm[..k] == nearTerm;
  }

  /** The expiry loop of `_scan_ticker`: the listed expiries that parse and fall within
      the horizon, in listed order. */
  method SelectNearTerm(listed: seq<Expiry>, today: int) returns (nearTerm: seq<string>)
    ensures nearTerm == NearTermOf(listed, today)
  {
    nearTerm := [];
    var i := 0;
    while i < |listed|
      invariant 0 <= i <= |listed|
      invariant nearTerm == NearTermOf(listed[..i], today)
    {
      assert listed[..i + 1][..i] == listed[..i];
      var e := listed[i];
      if e.date.Some? && e.date.value <= today + MAX_EXPIRY_DAYS {
        nearTerm := nearTerm + [e.name];
      }
      i := i + 1;
    }
    assert listed[..i] == listed;
  }

  // ---- The scan ----

  /** The signals of a ticker; a ticker whose data could not be fetched has none. */
  function Signals(ticker: string, market: map<string, TickerData>, today: int): seq<OptionsSignal> {
    if ticker in market then TickerSignals(ticker, market[ticker], today) else []
  }

  function Collected(tickers: seq<string>, market: map<string, TickerData>, today: int): seq<OptionsSignal> {
    Lists.FlatMap(t => Signals(t, market, today), tickers)
  }

  /** The order of the final sort: larger (rounded) volume/OI ratio first. */
  function ByRatio(a: OptionsSignal, b: OptionsSignal): bool {
    a.volumeOiRatio >= b.volumeOiRatio
  }

  lemma ByRatioTotal()
    ensures TotalPreorder(ByRatio)
  {
  }

  function ScanResult(tickers: seq<string>, market: map<string, TickerData>, today: int): seq<OptionsSignal> {
    ByRatioTotal();
    SortBy(Collected(tickers, market, today), ByRatio)
  }

  /** `OptionsScanner.scan`. */
  method Scan(tickers: seq<string>, market: map<string, TickerData>, today: int)
    returns (allSignals: seq<OptionsSignal>)
    ensures allSignals == ScanResult(tickers, market, today)
  {
    allSignals := [];
    var t := 0;
    while t < |tickers|
      invariant 0 <= t <= |tickers|
      invariant allSignals == Collected(tickers[..t], market, today)
    {
      assert tickers[..t + 1][..t] == tickers[..t];
      var ticker := tickers[t];
      if ticker in market {
        var signals := ScanTicker(ticker, market[ticker], today);
        allSignals := allSignals + signals;
      }
      t := t + 1;
    }
    assert tickers[..t] == tickers;
    ByRatioTotal();
    allSignals := SortBy(allSignals, ByRatio);
  }

  // ---- Call/put volume ratio ----

  /** A ratio, or the infinity reported for a ticker with call volume and no put volume. */
  datatype Ratio = Finite(value: real) | Infinite

  /** The summed volume of a chain side; missing cells add nothing. */
  function TotalVolume(rows: seq<ChainRow>): nat {
    if rows == [] then 0 else TotalVolume(rows[..|rows| - 1]) + rows[|rows| - 1].volume.GetOr(0)
  }

  /** Call and put volume summed over the given expiries whose chains were fetched. */
  function Totals(labels: seq<string>, chains: map<string, Chain>): (nat, nat) {
    if labels == [] then (0, 0)
    else
      var prev := Totals(labels[..|labels| - 1], chains);
      var x := labels[|labels| - 1];
      if x in chains then (prev.0 + TotalVolume(chains[x].calls), prev.1 + TotalVolume(chains[x].puts))
      else prev
  }

  function ExpiryNames(expirations: seq<Expiry>): (r: seq<string>)
    ensures |r| == |expirations|
    ensures forall i :: 0 <= i < |r| ==> r[i] == expirations[i].name
  {
    seq(|expirations|, i requires 0 <= i < |expirations| => expirations[i].name)
  }

  /** The ratio one ticker gets, if any: over the first two listed expiries. */
  function TickerRatio(data: TickerData): Option<Ratio> {
    var totals := Totals(ExpiryNames(Prefix(data.expirations, EXPIRIES_FOR_RATIO)), data.chains);
    if totals.1 > 0 then Some(Finite(Round((totals.0 as real) / (totals.1 as real), 2)))
    else if totals.0 > 0 then Some(Infinite)
    else None
  }

  function TickerRatioIn(ticker: string, market: map<string, TickerData>): Option<Ratio> {
    if ticker in market then TickerRatio(market[ticker]) else None
  }

  /** The `ratios` dictionary after the loop has seen `tickers`. */
  function Ratios(tickers: seq<string>, market: map<string, TickerData>): seq<(string, Ratio)> {
    if tickers == [] then []
    else
      var prev := Ratios(tickers[..|tickers| - 1], market);
      var t := tickers[|tickers| - 1];
      var r := TickerRatioIn(t, market);
      if r.Some? then Lists.Put(prev, t, r.value) else prev
  }

  /** `OptionsScanner.get_call_put_ratio`. */
  method CallPutRatios(tickers: seq<string>, market: map<string, TickerData>)
    returns (ratios: seq<(string, Ratio)>)
    ensures ratios == Ratios(tickers, market)
  {
    ratios := [];
    var t := 0;
    while t < |tickers|
      invariant 0 <= t <= |tickers|
      invariant ratios == Ratios(tickers[..t], market)
    {
      assert tickers[..t + 1][..t] == tickers[..t];
      var ticker := tickers[t];
      if ticker in market && market[ticker].expirations != [] {
        var data := market[ticker];
        var labels := ExpiryNames(Prefix(data.expirations, EXPIRIES_FOR_RATIO));
        var totalCallVol, totalPutVol := SumVolumes(labels, data.chains);
        if totalPutVol > 0 {
          ratios := Lists.Put(ratios, ticker, Finite(Round((totalCallVol as real) / (totalPutVol as real), 2)));
        } else if totalCallVol > 0 {
          ratios := Lists.Put(ratios, ticker, Infinite);
        }
      }
      t := t + 1;
    }
    assert tickers[..t] == tickers;
  }

  /** The expiry loop of `get_call_put_ratio`: call and put volume summed over the
      expiries whose chain was fetched. */
  method SumVolumes(labels: seq<string>, chains: map<string, Chain>) returns (totalCallVol: nat, totalPutVol: nat)
    ensures (totalCallVol, totalPutVol) == Totals(labels, chains)
  {
    totalCallVol, totalPutVol := 0, 0;
    var k := 0;
    while k < |labels|
      invariant 0 <= k <= |labels|
      invariant (totalCallVol, totalPutVol) == Totals(labels[..k], chains)
    {
      assert labels[..k + 1][..k] == labels[..k];
      if labels[k] in chains {
        totalCallVol := totalCallVol + TotalVolume(chains[labels[k]].calls);
        totalPutVol := totalPutVol + TotalVolume(chains[labels[k]].puts);
      }
      k := k + 1;
    }
    assert labels[..k] == labels;
  }

  // ---- Properties ----

  /** A row is reported exactly when it has volume >= 100, open interest >= 50 and volume
      at least its open interest; the tier is a sweep exactly when volume is at least
      twice the open interest. */
  lemma RowSignalRule(ticker: string, expiry: string, row: ChainRow, optionType: OptionType)
    ensures var volume := row.volume.GetOr(0);
            var oi := row.openInterest.GetOr(0);
            var s := RowSignal(ticker, expiry, row, optionType);
            (s.Some? <==> volume >= MIN_VOLUME && oi >= MIN_OI && volume >= oi) &&
            (s.Some? ==>
              s.value.symbol == ticker && s.value.expiry == expiry && s.value.optionType == optionType &&
              s.value.volume == volume && s.value.openInterest == oi &&
              s.value.volumeOiRatio == Round((volume as real) / (oi as real), 2) &&
              s.value.volumeOiRatio >= 1.0 &&
              ((s.value.signalStrength == Strong) <==> volume >= 2 * oi) &&
              (s.value.signalStrength == Strong ==>
                 s.value.signalType == optionType.Name() + "_sweep" && s.value.volumeOiRatio >= 2.0) &&
              (s.value.signalStrength == Moderate ==> s.value.signalType == "unusual_volume") &&
              s.value.lastPrice == row.lastPrice.GetOr(0.0))
  {
    var volume := row.volume.GetOr(0);
    var oi := row.openInterest.GetOr(0);
    if oi > 0 {
      var ratio := (volume as real) / (oi as real);
      QuotientAtLeast(volume, oi, 1);
      QuotientAtLeast(volume, oi, 2);
      RoundKeepsIntBound(ratio, 1, 2);
      RoundKeepsIntBound(ratio, 2, 2);
    }
  }

  /** Implied volatility is reported, as a percentage, only when present and positive. */
  lemma ImpliedVolatilityRule(ticker: string, expiry: string, row: ChainRow, optionType: OptionType)
    requires RowSignal(ticker, expiry, row, optionType).Some?
    ensures var s := RowSignal(ticker, expiry, row, optionType).value;
            (s.impliedVolatility.Some? <==> row.impliedVolatility.Some? && row.impliedVolatility.value > 0.0) &&
            (s.impliedVolatility.Some? ==> s.impliedVolatility.value == Round(row.impliedVolatility.value * 100.0, 1)) &&
            (s.impliedVolatility.Some? ==> s.impliedVolatility.value >= 0.0)
  {
    var iv := row.impliedVolatility;
    if iv.Some? && iv.value > 0.0 {
      MulNonNeg(0.0, iv.value, 100.0);
      RoundKeepsIntBound(iv.value * 100.0, 0, 1);
    }
  }

  /** The expiries scanned are those among the first five listed that parse and fall
      within 30 days of today, in listed order. */
  lemma NearTermRule(expirations: seq<Expiry>, today: int, name: string)
    ensures name in NearTermExpiries(expirations, today) <==>
              exists i :: 0 <= i < |expirations| && i < EXPIRIES_SCANNED && expirations[i].name == name &&
                expirations[i].date.Some? && expirations[i].date.value <= today + MAX_EXPIRY_DAYS
    ensures |NearTermExpiries(expirations, today)| <= EXPIRIES_SCANNED
  {
    var listed := Prefix(expirations, EXPIRIES_SCANNED);
    Lists.KeepMembers(e => NearTerm(e, today), listed);
    Lists.KeepLength(e => NearTerm(e, today), listed);
    if name in NearTermExpiries(expirations, today) {
      var i :| 0 <= i < |listed| && NearTerm(listed[i], today) == Some(name);
      assert listed[i] == expirations[i];
    }
    if exists i :: 0 <= i < |expirations| && i < EXPIRIES_SCANNED && expirations[i].name == name &&
         expirations[i].date.Some? && expirations[i].date.value <= today + MAX_EXPIRY_DAYS {
      var i :| 0 <= i < |expirations| && i < EXPIRIES_SCANNED && expirations[i].name == name &&
        expirations[i].date.Some? && expirations[i].date.value <= today + MAX_EXPIRY_DAYS;
      assert listed[i] == expirations[i];
      assert NearTerm(listed[i], today) == Some(name);
    }
  }

  /** Every signal of a ticker is about that ticker, comes from a near-term expiry whose
      chain was fetched, and comes from a row of that chain that passes the filter. */
  lemma TickerSignalsOrigin(ticker: string, data: TickerData, today: int, s: OptionsSignal)
    requires s in TickerSignals(ticker, data, today)
    ensures s.symbol == ticker
    ensures s.expiry in NearTermExpiries(data.expirations, today) && s.expiry in data.chains
    ensures var chain := data.chains[s.expiry];
            var rows := if s.optionType == Call then chain.calls else chain.puts;
            exists row :: row in rows && RowSignal(ticker, s.expiry, row, s.optionType) == Some(s)
  {
    var nearTerm := NearTermExpiries(data.expirations, today);
    Lists.FlatMapMembers(x => ExpirySignals(ticker, x, data.chains), nearTerm);
    var k :| 0 <= k < |nearTerm| && s in ExpirySignals(ticker, nearTerm[k], data.chains);
    var x := nearTerm[k];
    assert x in data.chains;
    var chain := data.chains[x];
    Lists.KeepMembers(row => RowSignal(ticker, x, row, Call), chain.calls);
    Lists.KeepMembers(row => RowSignal(ticker, x, row, Put), chain.puts);
    if s in ChainSignals(ticker, x, chain.calls, Call) {
      var i :| 0 <= i < |chain.calls| && RowSignal(ticker, x, chain.calls[i], Call) == Some(s);
      assert chain.calls[i] in chain.calls;
    } else {
      assert s in ChainSignals(ticker, x, chain.puts, Put);
      var i :| 0 <= i < |chain.puts| && RowSignal(ticker, x, chain.puts[i], Put) == Some(s);
      assert chain.puts[i] in chain.puts;
    }
  }

  /** A signal is reported exactly when one of the listed tickers yields it. */
  lemma ScanMembers(tickers: seq<string>, market: map<string, TickerData>, today: int, s: OptionsSignal)
    ensures s in ScanResult(tickers, market, today) <==>
              exists t :: 0 <= t < |tickers| && s in Signals(tickers[t], market, today)
  {
    ByRatioTotal();
    assert s in ScanResult(tickers, market, today) <==> s in multiset(Collected(tickers, market, today));
    Lists.FlatMapMember(t => Signals(t, market, today), tickers, s);
  }

  /** Every reported signal passes the volume, open-interest and ratio filters. */
  lemma ScanSignalsAreUnusual(tickers: seq<string>, market: map<string, TickerData>, today: int, s: OptionsSignal)
    requires s in ScanResult(tickers, market, today)
    ensures s.symbol in tickers
    ensures s.volume >= MIN_VOLUME && s.openInterest >= MIN_OI && s.volume >= s.openInterest
    ensures s.volumeOiRatio >= 1.0
    ensures s.signalStrength == Strong <==> s.volume >= 2 * s.openInterest
  {
    ScanMembers(tickers, market, today, s);
    var t :| 0 <= t < |tickers| && s in Signals(tickers[t], market, today);
    var data := market[tickers[t]];
    TickerSignalsOrigin(tickers[t], data, today, s);
    var chain := data.chains[s.expiry];
    var rows := if s.optionType == Call then chain.calls else chain.puts;
    var row :| row in rows && RowSignal(tickers[t], s.expiry, row, s.optionType) == Some(s);
    RowSignalRule(tickers[t], s.expiry, row, s.optionType);
  }

  /** A ticker whose data could not be fetched takes nothing away from the others: every
      signal about another ticker is reported with or without it. */
  lemma ScanFailureIsolated(tickers: seq<string>, market: map<string, TickerData>, today: int,
                            failed: string, s: OptionsSignal)
    requires s.symbol != failed
    ensures s in ScanResult(tickers, market, today) <==> s in ScanResult(tickers, market - {failed}, today)
  {
    ScanMembers(tickers, market, today, s);
    ScanMembers(tickers, market - {failed}, today, s);
    forall t | 0 <= t < |tickers|
      ensures s in Signals(tickers[t], market, today) <==> s in Signals(tickers[t], market - {failed}, today)
    {
      SignalsWithout(tickers[t], market, today, failed, s);
    }
  }

  /** One ticker's signals about a symbol other than `failed` do not depend on `failed`'s data. */
  lemma SignalsWithout(t: string, market: map<string, TickerData>, today: int, failed: string, s: OptionsSignal)
    requires s.symbol != failed
    ensures s in Signals(t, market, today) <==> s in Signals(t, market - {failed}, today)
  {
    if t == failed {
      if s in Signals(t, market, today) {
        TickerSignalsOrigin(t, market[t], today, s);
      }
    } else if t in market {
      assert (market - {failed})[t] == market[t];
    }
  }

  /** The scan reports the collected signals, each as often, largest ratio first, and
      signals of equal ratio keep their collection order. */
  lemma ScanIsStableSort(tickers: seq<string>, market: map<string, TickerData>, today: int, x: OptionsSignal)
    ensures var c := Collected(tickers, market, today);
            var r := ScanResult(tickers, market, today);
            multiset(r) == multiset(c) &&
            (forall i, j :: 0 <= i < j < |r| ==> r[i].volumeOiRatio >= r[j].volumeOiRatio) &&
            EquivalentTo(r, x, ByRatio) == EquivalentTo(c, x, ByRatio)
  {
    ByRatioTotal();
    SortStable(Collected(tickers, market, today), x, ByRatio);
  }

  /** The three outcomes of the call/put ratio. */
  lemma TickerRatioRule(data: TickerData)
    ensures var totals := Totals(ExpiryNames(Prefix(data.expirations, EXPIRIES_FOR_RATIO)), data.chains);
            var r := TickerRatio(data);
            (totals.1 > 0 <==> r.Some? && r.value.Finite?) &&
            (r.Some? && r.value.Finite? ==> r.value.value == Round((totals.0 as real) / (totals.1 as real), 2) &&
                                            r.value.value >= 0.0) &&
            (r == Some(Infinite) <==> totals.1 == 0 && totals.0 > 0) &&
            (r.None? <==> totals.0 == 0 && totals.1 == 0)
  {
    var totals := Totals(ExpiryNames(Prefix(data.expirations, EXPIRIES_FOR_RATIO)), data.chains);
    if totals.1 > 0 {
      var q := (totals.0 as real) / (totals.1 as real);
      QuotientAtLeast(totals.0, totals.1, 0);
      RoundKeepsIntBound(q, 0, 2);
    }
  }

  /** Only the first two listed expiries count: later ones never change the ratio. */
  lemma TickerRatioUsesFirstTwo(data: TickerData, later: seq<Expiry>)
    requires |data.expirations| >= EXPIRIES_FOR_RATIO
    ensures TickerRatio(data) == TickerRatio(data.(expirations := data.expirations + later))
  {
    assert Prefix(data.expirations + later, EXPIRIES_FOR_RATIO) == Prefix(data.expirations, EXPIRIES_FOR_RATIO);
  }

  /** The dictionary holds each ticker at most once, and holds a ticker exactly when it
      was listed and got a ratio; that ratio is the one stored. */
  lemma {:induction false} RatiosLookup(tickers: seq<string>, market: map<string, TickerData>, t: string)
    ensures Lists.Distinct(Lists.Keys(Ratios(tickers, market)))
    ensures Lists.Lookup(Ratios(tickers, market), t) == if t in tickers then TickerRatioIn(t, market) else None
  {
    if tickers != [] {
      var init := tickers[..|tickers| - 1];
      var u := tickers[|tickers| - 1];
      RatiosLookup(init, market, t);
      assert tickers == init + [u];
      var prev := Ratios(init, market);
      var r := TickerRatioIn(u, market);
      if r.Some? {
        Lists.PutDistinct(prev, u, r.value);
        Lists.PutLookup(prev, u, r.value, t);
      } else if t == u {
        RatiosLookup(init, market, u);
        if u in init {
        } else {
          Lists.LookupKeys(prev, u);
        }
      }
    }
  }
}
