/** The pre-market mover filter (scanner/scanners/premarket.py): the watchlist together
    with a fixed set of high-profile symbols, each kept when its pre-market (or else
    regular) price has moved at least three percent from the previous close, ordered by
    the size of the move. */
module PreMarket {
  import opened Wrappers
  import opened Numeric
  import opened Sorting

  const SIGNIFICANT_MOVE_PCT: real := 3.0

  /** Symbols scanned besides the watchlist. */
  const ALWAYS_WATCH: seq<string> := ["SPY", "QQQ", "AAPL", "MSFT", "GOOGL", "AMZN", "TSLA", "META"]

  /** The fields of a ticker's `info` the check reads; an absent or null field is `None`. */
  datatype Info = Info(
    preMarketPrice: Option<real>, currentPrice: Option<real>, regularMarketPrice: Option<real>,
    previousClose: Option<real>, regularMarketPreviousClose: Option<real>,
    preMarketVolume: Option<nat>, volume: Option<nat>, shortName: Option<string>)

  /** `PreMarketMover`. */
  datatype PreMarketMover = PreMarketMover(
    symbol: string, name: string, price: real, changePct: real, volume: nat,
    onWatchlist: bool, reason: string)

  /** `info.get('preMarketVolume') or info.get('volume') or 0`. */
  function VolumeOf(info: Info): nat {
    if TruthyNat(info.preMarketVolume) then info.preMarketVolume.value
    else if TruthyNat(info.volume) then info.volume.value
    else 0
  }

  /** `_check_ticker` over the ticker's fetched `info`. */
  function CheckTicker(ticker: string, onWatchlist: bool, info: Info): Option<PreMarketMover> {
    var regularPrice := Or(info.currentPrice, info.regularMarketPrice);
    var prevClose := Or(info.previousClose, info.regularMarketPreviousClose);
    if !Truthy(prevClose) then None
    else
      var currentPrice := Or(info.preMarketPrice, regularPrice);
      if !Truthy(currentPrice) then None
      else
        var changePct := (currentPrice.value - prevClose.value) / prevClose.value * 100.0;
        if Abs(changePct) < SIGNIFICANT_MOVE_PCT then None
        else
          Some(PreMarketMover(ticker, info.shortName.GetOr(ticker), Round(currentPrice.value, 2),
                              Round(changePct, 2), VolumeOf(info), onWatchlist, ""))
  }

  /** `all_tickers`: the watchlist and the extra symbols, each once. */
  function Tickers(watchlist: seq<string>): set<string> {
    (set t | t in watchlist) + (set t | t in ALWAYS_WATCH)
  }

  /** The check of one scanned ticker; a failed fetch yields nothing. */
  function Check(t: string, watchlist: seq<string>, infos: map<string, Info>): Option<PreMarketMover> {
    if t in infos then CheckTicker(t, t in watchlist, infos[t]) else None
  }

  /** The movers found among `tickers`, one per ticker that passes. */
  function MoversOf(tickers: set<string>, watchlist: seq<string>, infos: map<string, Info>): set<PreMarketMover> {
    set t | t in tickers && Check(t, watchlist, infos).Some? :: Check(t, watchlist, infos).value
  }

  function ByMove(a: PreMarketMover, b: PreMarketMover): bool {
    Abs(a.changePct) >= Abs(b.changePct)
  }

  lemma ByMoveTotal()
    ensures TotalPreorder(ByMove)
  {
  }

  /** Adding a ticker adds at most its own mover, which no other ticker yields. */
  lemma MoversStep(done: set<string>, t: string, watchlist: seq<string>, infos: map<string, Info>)
    requires t !in done
    ensures Check(t, watchlist, infos).None? ==>
              MoversOf(done + {t}, watchlist, infos) == MoversOf(done, watchlist, infos)
    ensures Check(t, watchlist, infos).Some? ==>
              MoversOf(done + {t}, watchlist, infos) == MoversOf(done, watchlist, infos) + {Check(t, watchlist, infos).value} &&
              Check(t, watchlist, infos).value !in MoversOf(done, watchlist, infos)
  {
  }

  lemma FoundStep(done: set<string>, t: string, watchlist: seq<string>, infos: map<string, Info>,
                  found: seq<PreMarketMover>)
    requires t !in done
    requires multiset(found) == multiset(MoversOf(done, watchlist, infos))
    ensures Check(t, watchlist, infos).None? ==>
              multiset(found) == multiset(MoversOf(done + {t}, watchlist, infos))
    ensures Check(t, watchlist, infos).Some? ==>
              multiset(found + [Check(t, watchlist, infos).value]) == multiset(MoversOf(done + {t}, watchlist, infos))
  {
    MoversStep(done, t, watchlist, infos);
    if Check(t, watchlist, infos).Some? {
      var m := Check(t, watchlist, infos).value;
      assert multiset(found + [m]) == multiset(found) + multiset{m};
      assert multiset(MoversOf(done, watchlist, infos) + {m}) == multiset(MoversOf(done, watchlist, infos)) + multiset{m};
    }
  }

  /** `PreMarketScanner.scan`, over the fetched `info` of each ticker. The source walks a
      set, whose order is unspecified, so the loop takes the tickers in any order. */
  method Scan(watchlist: seq<string>, infos: map<string, Info>) returns (movers: seq<PreMarketMover>)
    ensures multiset(movers) == multiset(MoversOf(Tickers(watchlist), watchlist, infos))
    ensures SortedBy(movers, ByMove)
  {
    var all := Tickers(watchlist);
    var remaining := all;
    var found: seq<PreMarketMover> := [];
    while remaining != {}
      invariant remaining <= all
      invariant multiset(found) == multiset(MoversOf(all - remaining, watchlist, infos))
      decreases |remaining|
    {
      var ticker :| ticker in remaining;
      var done := all - remaining;
      assert all - (remaining - {ticker}) == done + {ticker};
      var mover := Check(ticker, watchlist, infos);
      FoundStep(done, ticker, watchlist, infos, found);
      if mover.Some? {
        found := found + [mover.value];
      }
      remaining := remaining - {ticker};
    }
    assert all - remaining == all;
    ByMoveTotal();
    movers := SortBy(found, ByMove);
  }

  // ---- Properties ----

  /** A ticker is dropped exactly when it has no truthy previous close, no truthy price, or a
      move under three percent; the pre-market price takes precedence over the regular one,
      and the previous close falls back to the regular-market one. */
  lemma CheckTickerRule(ticker: string, onWatchlist: bool, info: Info)
    ensures var prevClose := Or(info.previousClose, info.regularMarketPreviousClose);
            var price := Or(info.preMarketPrice, Or(info.currentPrice, info.regularMarketPrice));
            var m := CheckTicker(ticker, onWatchlist, info);
            (m.Some? <==> Truthy(prevClose) && Truthy(price) &&
                          Abs((price.value - prevClose.value) / prevClose.value * 100.0) >= SIGNIFICANT_MOVE_PCT) &&
            (m.Some? ==>
               (Truthy(info.preMarketPrice) ==> price == info.preMarketPrice) &&
               m.value.price == Round(price.value, 2) &&
               m.value.symbol == ticker && m.value.onWatchlist == onWatchlist &&
               m.value.volume == VolumeOf(info))
  {
  }

  /** Every mover has moved at least three percent, even after rounding; exactly three is kept. */
  lemma MoverIsSignificant(ticker: string, onWatchlist: bool, info: Info)
    requires CheckTicker(ticker, onWatchlist, info).Some?
    ensures Abs(CheckTicker(ticker, onWatchlist, info).value.changePct) >= SIGNIFICANT_MOVE_PCT
  {
    var prevClose := Or(info.previousClose, info.regularMarketPreviousClose);
    var price := Or(info.preMarketPrice, Or(info.currentPrice, info.regularMarketPrice));
    var changePct := (price.value - prevClose.value) / prevClose.value * 100.0;
    RoundKeepsIntBound(changePct, 3, 2);
    RoundKeepsIntBound(changePct, -3, 2);
  }

  /** The volume falls back from the pre-market volume to the regular volume to zero. */
  lemma VolumeFallback(info: Info)
    ensures TruthyNat(info.preMarketVolume) ==> VolumeOf(info) == info.preMarketVolume.value
    ensures !TruthyNat(info.preMarketVolume) && TruthyNat(info.volume) ==> VolumeOf(info) == info.volume.value
    ensures !TruthyNat(info.preMarketVolume) && !TruthyNat(info.volume) ==> VolumeOf(info) == 0
  {
  }

  /** A mover is found exactly when some scanned ticker yields it; it is flagged as on the
      watchlist exactly when its symbol is in the watchlist; and no ticker yields two movers. */
  lemma MoversRule(watchlist: seq<string>, infos: map<string, Info>, m: PreMarketMover)
    ensures m in MoversOf(Tickers(watchlist), watchlist, infos) <==>
              (m.symbol in watchlist || m.symbol in ALWAYS_WATCH) && m.symbol in infos &&
              CheckTicker(m.symbol, m.symbol in watchlist, infos[m.symbol]) == Some(m)
    ensures m in MoversOf(Tickers(watchlist), watchlist, infos) ==> (m.onWatchlist <==> m.symbol in watchlist)
    ensures forall a, b :: (a in MoversOf(Tickers(watchlist), watchlist, infos) &&
                            b in MoversOf(Tickers(watchlist), watchlist, infos) && a.symbol == b.symbol) ==> a == b
  {
    if (m.symbol in watchlist || m.symbol in ALWAYS_WATCH) && m.symbol in infos &&
       CheckTicker(m.symbol, m.symbol in watchlist, infos[m.symbol]) == Some(m) {
      assert m.symbol in Tickers(watchlist) && Check(m.symbol, watchlist, infos) == Some(m);
    }
  }
}
