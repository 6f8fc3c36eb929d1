/** The market context (scanner/scanners/market_context.py): percent changes of SPY, QQQ
    and the VIX, the risk-on / risk-off classification drawn from them, and the day's
    change of the five sector ETFs. */
module MarketContext {
  import opened Wrappers
  import opened Numeric
  import Lists

  /** The sector ETFs, in the order the source lists them. */
  const SECTOR_ETFS: seq<string> := ["SMH", "IGV", "XLE", "ITA", "ARKQ"]

  const VIX_FEAR: real := 25.0
  const VIX_CALM: real := 15.0
  const BROAD_MOVE_PCT: real := 0.5

  /** The fields of a ticker's `info` the scan reads; an absent or null field is `None`. */
  datatype Info = Info(currentPrice: Option<real>, regularMarketPrice: Option<real>, previousClose: Option<real>)

  datatype Sentiment = RiskOn | RiskOff | Neutral {
    function Name(): string {
      match this
      case RiskOn => "risk_on"
      case RiskOff => "risk_off"
      case Neutral => "neutral"
    }
  }

  /** `MarketContext`. */
  datatype Context = Context(
    spyPrice: real, spyChangePct: real, qqqPrice: real, qqqChangePct: real,
    vixLevel: real, vixChangePct: real, marketSentiment: Sentiment,
    sectorPerformance: seq<(string, real)>)

  /** `info.get('currentPrice') or info.get('regularMarketPrice', 0)`. */
  function Price(info: Info): real {
    if Truthy(info.currentPrice) then info.currentPrice.value else info.regularMarketPrice.GetOr(0.0)
  }

  /** The percent change from `prev` to `price`, zero when `prev` is zero. */
  function PctChange(price: real, prev: real): (r: real)
    ensures prev == 0.0 ==> r == 0.0
    ensures prev != 0.0 ==> r * prev == (price - prev) * 100.0
  {
    if prev != 0.0 then (price - prev) / prev * 100.0 else 0.0
  }

  /** The change of a ticker; a missing previous close defaults to the price itself. */
  function Change(info: Info): real {
    PctChange(Price(info), info.previousClose.GetOr(Price(info)))
  }

  /** The `if`/`elif` chain that classifies the market. */
  function Classify(vixLevel: real, spyChange: real, qqqChange: real): Sentiment {
    if vixLevel > VIX_FEAR then RiskOff
    else if vixLevel < VIX_CALM && spyChange > 0.0 then RiskOn
    else if spyChange > BROAD_MOVE_PCT && qqqChange > BROAD_MOVE_PCT then RiskOn
    else if spyChange < -BROAD_MOVE_PCT && qqqChange < -BROAD_MOVE_PCT then RiskOff
    else Neutral
  }

  /** `sector_perf` for the ETFs in `etfs`: those whose fetch succeeded, in order. */
  function SectorPerformance(etfs: seq<string>, infos: map<string, Info>): seq<(string, real)> {
    if etfs == [] then []
    else
      var init := SectorPerformance(etfs[..|etfs| - 1], infos);
      var etf := etfs[|etfs| - 1];
      if etf in infos then Lists.Put(init, etf, Round(Change(infos[etf]), 2)) else init
  }

  /** The loop over the sector ETFs; a failed fetch is an ETF missing from `infos`. */
  method SectorLoop(infos: map<string, Info>) returns (perf: seq<(string, real)>)
    ensures perf == SectorPerformance(SECTOR_ETFS, infos)
  {
    perf := [];
    var i := 0;
    while i < |SECTOR_ETFS|
      invariant 0 <= i <= |SECTOR_ETFS|
      invariant perf == SectorPerformance(SECTOR_ETFS[..i], infos)
    {
      assert SECTOR_ETFS[..i + 1][..i] == SECTOR_ETFS[..i];
      var etf := SECTOR_ETFS[i];
      if etf in infos {
        var info := infos[etf];
        var price := Price(info);
        var prev := info.previousClose.GetOr(price);
        var change := if prev != 0.0 then (price - prev) / prev * 100.0 else 0.0;
        perf := Lists.Put(perf, etf, Round(change, 2));
      }
      i := i + 1;
    }
    assert SECTOR_ETFS[..i] == SECTOR_ETFS;
  }

  /** What `scan` returns: nothing when an index fetch fails. */
  function ContextOf(spy: Option<Info>, qqq: Option<Info>, vix: Option<Info>, sectors: map<string, Info>): Option<Context> {
    if spy.None? || qqq.None? || vix.None? then None
    else
      var spyChange := Change(spy.value);
      var qqqChange := Change(qqq.value);
      var vixChange := Change(vix.value);
      Some(Context(
        Round(Price(spy.value), 2), Round(spyChange, 2), Round(Price(qqq.value), 2), Round(qqqChange, 2),
        Round(Price(vix.value), 2), Round(vixChange, 2), Classify(Price(vix.value), spyChange, qqqChange),
        SectorPerformance(SECTOR_ETFS, sectors)))
  }

  /** `MarketContextScanner.scan` over the fetched `info` of the indices and the ETFs. */
  method Scan(spy: Option<Info>, qqq: Option<Info>, vix: Option<Info>, sectors: map<string, Info>)
    returns (context: Option<Context>)
    ensures context == ContextOf(spy, qqq, vix, sectors)
  {
    if spy.None? || qqq.None? || vix.None? {
      return None;
    }
    var spyChange := Change(spy.value);
    var qqqChange := Change(qqq.value);
    var vixLevel := Price(vix.value);
    var sentiment := Classify(vixLevel, spyChange, qqqChange);
    var perf := SectorLoop(sectors);
    context := Some(Context(
      Round(Price(spy.value), 2), Round(spyChange, 2), Round(Price(qqq.value), 2), Round(qqqChange, 2),
      Round(vixLevel, 2), Round(Change(vix.value), 2), sentiment, perf));
  }

  // ---- Properties ----

  /** The change is zero when the previous close is zero or missing (it then defaults to the
      price); otherwise it is the percent change from the previous close. */
  lemma ChangeRule(info: Info)
    ensures info.previousClose == Some(0.0) ==> Change(info) == 0.0
    ensures info.previousClose.None? ==> Change(info) == 0.0
    ensures info.previousClose.Some? && info.previousClose.value != 0.0 ==>
              Change(info) * info.previousClose.value == (Price(info) - info.previousClose.value) * 100.0
  {
    if info.previousClose.None? && Price(info) != 0.0 {
      assert Price(info) - Price(info) == 0.0;
    }
  }

  /** The classification, rule by rule, and the fact that it always yields one of three values. */
  lemma ClassifyRule(vixLevel: real, spyChange: real, qqqChange: real)
    ensures var s := Classify(vixLevel, spyChange, qqqChange);
            (vixLevel > VIX_FEAR ==> s == RiskOff) &&
            (vixLevel <= VIX_FEAR && vixLevel < VIX_CALM && spyChange > 0.0 ==> s == RiskOn) &&
            (s == RiskOn <==> vixLevel <= VIX_FEAR &&
                              ((vixLevel < VIX_CALM && spyChange > 0.0) ||
                               (spyChange > BROAD_MOVE_PCT && qqqChange > BROAD_MOVE_PCT))) &&
            (s == RiskOff <==> vixLevel > VIX_FEAR ||
                               (!(vixLevel < VIX_CALM && spyChange > 0.0) &&
                                spyChange < -BROAD_MOVE_PCT && qqqChange < -BROAD_MOVE_PCT)) &&
            s.Name() in {"risk_on", "risk_off", "neutral"}
  {
  }

  /** The sector table lists, once each and in configured order, exactly the ETFs among
      `etfs` whose fetch succeeded, each with its rounded change. */
  lemma {:induction false} SectorPerformanceRule(etfs: seq<string>, infos: map<string, Info>, k: string)
    requires Lists.Distinct(etfs)
    ensures Lists.Keys(SectorPerformance(etfs, infos)) == SuccessfulEtfs(etfs, infos)
    ensures Lists.Distinct(Lists.Keys(SectorPerformance(etfs, infos)))
    ensures Lists.Lookup(SectorPerformance(etfs, infos), k) ==
              if k in etfs && k in infos then Some(Round(Change(infos[k]), 2)) else None
  {
    if etfs != [] {
      var init := etfs[..|etfs| - 1];
      var etf := etfs[|etfs| - 1];
      assert Lists.Distinct(init);
      SectorPerformanceRule(init, infos, k);
      SectorPerformanceRule(init, infos, etf);
      assert etf !in init;
      if etf in infos {
        Lists.PutKeys(SectorPerformance(init, infos), etf, Round(Change(infos[etf]), 2));
        Lists.PutLookup(SectorPerformance(init, infos), etf, Round(Change(infos[etf]), 2), k);
        Lists.LookupKeys(SectorPerformance(init, infos), etf);
        Lists.PutDistinct(SectorPerformance(init, infos), etf, Round(Change(infos[etf]), 2));
      }
    }
  }

  /** The ETFs of `etfs` present in `infos`, in order. */
  function SuccessfulEtfs(etfs: seq<string>, infos: map<string, Info>): (r: seq<string>)
    ensures forall e :: e in r ==> e in etfs && e in infos
  {
    if etfs == [] then []
    else SuccessfulEtfs(etfs[..|etfs| - 1], infos) + (if etfs[|etfs| - 1] in infos then [etfs[|etfs| - 1]] else [])
  }

  /** The configured ETFs are distinct, so the table has a key for each one fetched. */
  lemma SectorKeys(infos: map<string, Info>)
    ensures forall e :: e in Lists.Keys(SectorPerformance(SECTOR_ETFS, infos)) <==> e in SECTOR_ETFS && e in infos
  {
    forall e ensures e in Lists.Keys(SectorPerformance(SECTOR_ETFS, infos)) <==> e in SECTOR_ETFS && e in infos {
      SectorPerformanceRule(SECTOR_ETFS, infos, e);
      Lists.LookupKeys(SectorPerformance(SECTOR_ETFS, infos), e);
    }
  }

  /** The scan gives nothing exactly when one of the three index fetches failed; otherwise every
      field is rounded to two places, the sentiment is classified on the unrounded VIX level and
      changes, and a sector ETF is in the table with its rounded change exactly when its fetch
      succeeded. */
  lemma ContextRule(spy: Option<Info>, qqq: Option<Info>, vix: Option<Info>, sectors: map<string, Info>, k: string)
    ensures var c := ContextOf(spy, qqq, vix, sectors);
            (c.None? <==> spy.None? || qqq.None? || vix.None?) &&
            (c.Some? ==>
               c.value.spyPrice == Round(Price(spy.value), 2) &&
               c.value.spyChangePct == Round(Change(spy.value), 2) &&
               c.value.qqqPrice == Round(Price(qqq.value), 2) &&
               c.value.qqqChangePct == Round(Change(qqq.value), 2) &&
               c.value.vixLevel == Round(Price(vix.value), 2) &&
               c.value.vixChangePct == Round(Change(vix.value), 2) &&
               c.value.marketSentiment == Classify(Price(vix.value), Change(spy.value), Change(qqq.value)) &&
               Lists.Distinct(Lists.Keys(c.value.sectorPerformance)) &&
               Lists.Lookup(c.value.sectorPerformance, k) ==
                 if k in SECTOR_ETFS && k in sectors then Some(Round(Change(sectors[k]), 2)) else None)
  {
    if spy.Some? && qqq.Some? && vix.Some? {
      SectorPerformanceRule(SECTOR_ETFS, sectors, k);
    }
  }
}
