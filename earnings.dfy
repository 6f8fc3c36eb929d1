/** The earnings scanner (scanner/scanners/earnings.py): calendar entries of watchlist
    symbols, each with the beat rate and the average surprise of its last four reported
    quarters. */
module Earnings {
  import opened Wrappers
  import opened Numeric
  import opened Text
  import Lists

  /** Quarters of history the statistics look at. */
  const QUARTERS: nat := 4

  /** One quarter of the earnings history feed. */
  datatype HistoryEntry = HistoryEntry(actual: Option<real>, estimate: Option<real>)

  /** One entry of the earnings calendar feed. */
  datatype CalendarEntry = CalendarEntry(
    symbol: Option<string>, date: Option<string>, time: Option<string>,
    epsEstimated: Option<real>, revenueEstimated: Option<real>)

  /** `EarningsResult`. */
  datatype EarningsResult = EarningsResult(
    symbol: string, reportDate: string, reportTime: Option<string>,
    epsEstimate: Option<real>, revenueEstimate: Option<real>,
    beatRate: Option<real>, avgSurprisePct: Option<real>)

  // ---- Beat rate ----

  /** A quarter counts as a beat when both figures are present and non-zero and the
      actual exceeds the estimate. */
  predicate Beat(e: HistoryEntry) {
    Truthy(e.actual) && Truthy(e.estimate) && e.actual.value > e.estimate.value
  }

  /** The number of beats in `h`. */
  function Beats(h: seq<HistoryEntry>): (r: nat)
    ensures r <= |h|
    ensures r == |h| <==> forall i :: 0 <= i < |h| ==> Beat(h[i])
  {
    if h == [] then 0
    else
      var init := h[..|h| - 1];
      assert forall i :: 0 <= i < |init| ==> init[i] == h[i];
      Beats(init) + (if Beat(h[|h| - 1]) then 1 else 0)
  }

  /** `_calculate_beat_rate`. */
  function BeatRate(history: seq<HistoryEntry>): (r: Option<real>)
    ensures r.None? <==> history == []
    ensures r.Some? ==> 0.0 <= r.value <= 1.0
  {
    if history == [] then None
    else
      var recent := Prefix(history, QUARTERS);
      var total := Min(|history|, QUARTERS);
      assert total == |recent| > 0;
      Some(Beats(recent) as real / total as real)
  }

  // ---- Average surprise ----

  /** The surprise percentage of a quarter, when both figures are present and non-zero. */
  function Surprise(e: HistoryEntry): Option<real> {
    if Truthy(e.actual) && Truthy(e.estimate) && e.estimate.value != 0.0 then
      Some((e.actual.value - e.estimate.value) / Abs(e.estimate.value) * 100.0)
    else None
  }

  /** The surprises of the quarters in `h`, in order. */
  function Surprises(h: seq<HistoryEntry>): seq<real> {
    Lists.Keep(Surprise, h)
  }

  /** `_calculate_avg_surprise`. */
  function AvgSurprise(history: seq<HistoryEntry>): Option<real> {
    var s := Surprises(Prefix(history, QUARTERS));
    if s == [] then None else Some(Mean(s))
  }

  /** `EarningsScanner._calculate_avg_surprise`: the loop over the last four quarters. */
  method CalculateAvgSurprise(history: seq<HistoryEntry>) returns (avg: Option<real>)
    ensures avg == AvgSurprise(history)
  {
    if history == [] {
      return None;
    }
    var recent := Prefix(history, QUARTERS);
    var surprises: seq<real> := [];
    var i := 0;
    while i < |recent|
      invariant 0 <= i <= |recent|
      invariant surprises == Surprises(recent[..i])
    {
      assert recent[..i + 1][..i] == recent[..i];
      var actual := recent[i].actual;
      var estimate := recent[i].estimate;
      if Truthy(actual) && Truthy(estimate) && estimate.value != 0.0 {
        var surprisePct := (actual.value - estimate.value) / Abs(estimate.value) * 100.0;
        surprises := surprises + [surprisePct];
      }
      i := i + 1;
    }
    assert recent[..i] == recent;
    if surprises == [] {
      return None;
    }
    avg := Some(Sum(surprises) / |surprises| as real);
  }

  // ---- The scan ----

  /** A calendar entry is kept when its symbol, upper-cased, is an upper-cased watchlist entry. */
  predicate OnWatchlist(e: CalendarEntry, watchlist: seq<string>) {
    Upper(e.symbol.GetOr("")) in (set t | t in watchlist :: Upper(t))
  }

  function Selected(watchlist: seq<string>, e: CalendarEntry): Option<CalendarEntry> {
    if OnWatchlist(e, watchlist) then Some(e) else None
  }

  /** `watchlist_earnings`: the calendar filtered to the watchlist, in calendar order. */
  function WatchlistEarnings(calendar: seq<CalendarEntry>, watchlist: seq<string>): seq<CalendarEntry> {
    Lists.Keep(e => Selected(watchlist, e), calendar)
  }

  /** The report time, upper-cased, when the entry has a non-empty one. */
  function ReportTime(time: Option<string>): Option<string> {
    if time.Some? && time.value != "" then Some(Upper(time.value)) else None
  }

  /** The history fetched for a symbol; a failed fetch is an empty one. */
  function HistoryOf(histories: map<string, seq<HistoryEntry>>, symbol: string): seq<HistoryEntry> {
    if symbol in histories then histories[symbol] else []
  }

  /** The record the scan builds for a selected calendar entry. */
  function Record(e: CalendarEntry, histories: map<string, seq<HistoryEntry>>): EarningsResult {
    var symbol := e.symbol.GetOr("");
    var history := HistoryOf(histories, symbol);
    EarningsResult(symbol, e.date.GetOr(""), ReportTime(e.time), e.epsEstimated, e.revenueEstimated,
                   BeatRate(history), AvgSurprise(history))
  }

  function Records(entries: seq<CalendarEntry>, histories: map<string, seq<HistoryEntry>>): seq<EarningsResult> {
    Lists.Keep(e => Some(Record(e, histories)), entries)
  }

  /** What `scan` returns for the fetched calendar and histories. */
  function ScanResult(calendar: seq<CalendarEntry>, watchlist: seq<string>,
                      histories: map<string, seq<HistoryEntry>>): seq<EarningsResult> {
    Records(WatchlistEarnings(calendar, watchlist), histories)
  }

  /** The record `scan` appends for one selected entry. */
  method BuildRecord(e: CalendarEntry, histories: map<string, seq<HistoryEntry>>) returns (r: EarningsResult)
    ensures r == Record(e, histories)
  {
    var symbol := e.symbol.GetOr("");
    var history := HistoryOf(histories, symbol);
    var beatRate := BeatRate(history);
    var avgSurprise := CalculateAvgSurprise(history);
    r := EarningsResult(symbol, e.date.GetOr(""), ReportTime(e.time),
                        e.epsEstimated, e.revenueEstimated, beatRate, avgSurprise);
  }

  /** `EarningsScanner.scan`, over the fetched calendar and per-symbol histories. */
  method Scan(calendar: seq<CalendarEntry>, watchlist: seq<string>,
              histories: map<string, seq<HistoryEntry>>) returns (results: seq<EarningsResult>)
    ensures results == ScanResult(calendar, watchlist, histories)
  {
    var selected := WatchlistEarnings(calendar, watchlist);
    results := [];
    var i := 0;
    while i < |selected|
      invariant 0 <= i <= |selected|
      invariant results == Records(selected[..i], histories)
    {
      assert selected[..i + 1][..i] == selected[..i];
      var record := BuildRecord(selected[i], histories);
      results := results + [record];
      i := i + 1;
    }
    assert selected[..i] == selected;
  }

  // ---- Properties ----

  /** The beat rate is the share of beats among the first four quarters, and it is one
      exactly when all of them are beats. */
  lemma BeatRateRule(history: seq<HistoryEntry>)
    requires history != []
    ensures var recent := Prefix(history, QUARTERS);
            BeatRate(history) == Some(Beats(recent) as real / |recent| as real) &&
            (BeatRate(history) == Some(1.0) <==> forall i :: 0 <= i < |recent| ==> Beat(recent[i]))
            && (BeatRate(history) == Some(0.0) <==> Beats(recent) == 0)
  {
    var recent := Prefix(history, QUARTERS);
    var n := |recent| as real;
    var b := Beats(recent) as real;
    assert n > 0.0;
    if b / n == 1.0 {
      assert b == n;
    }
    if b / n == 0.0 {
      assert b == 0.0;
    }
  }

  /** Quarters after the fourth never change the statistics. */
  lemma StatisticsUseFourQuarters(history: seq<HistoryEntry>, older: seq<HistoryEntry>)
    requires |history| >= QUARTERS
    ensures BeatRate(history + older) == BeatRate(history)
    ensures AvgSurprise(history + older) == AvgSurprise(history)
  {
    assert Prefix(history + older, QUARTERS) == Prefix(history, QUARTERS);
  }

  /** The averaged terms are exactly the surprises of the quarters of `h` that have both
      figures present and non-zero. */
  lemma SurprisesMembers(h: seq<HistoryEntry>, x: real)
    ensures x in Surprises(h) <==>
              exists i :: 0 <= i < |h| && Truthy(h[i].actual) && Truthy(h[i].estimate) &&
                x == (h[i].actual.value - h[i].estimate.value) / Abs(h[i].estimate.value) * 100.0
  {
    Lists.KeepMembers(Surprise, h);
    if x in Surprises(h) {
      var i :| 0 <= i < |h| && Surprise(h[i]) == Some(x);
    }
  }

  /** The average surprise is absent exactly when no quarter among the first four has both
      figures present and non-zero. */
  lemma AvgSurpriseRule(history: seq<HistoryEntry>)
    ensures var recent := Prefix(history, QUARTERS);
            AvgSurprise(history).None? <==>
              forall i :: 0 <= i < |recent| ==> !(Truthy(recent[i].actual) && Truthy(recent[i].estimate))
  {
    var recent := Prefix(history, QUARTERS);
    Lists.KeepMembers(Surprise, recent);
    if Surprises(recent) != [] {
      assert Surprises(recent)[0] in Surprises(recent);
    }
  }

  /** A quarter's surprise has the sign of actual minus estimate. */
  lemma SurpriseSign(e: HistoryEntry)
    requires Surprise(e).Some?
    ensures Surprise(e).value > 0.0 <==> e.actual.value > e.estimate.value
    ensures Surprise(e).value == 0.0 <==> e.actual.value == e.estimate.value
  {
    var a := e.actual.value;
    var d := Abs(e.estimate.value);
    assert d > 0.0;
    var q := (a - e.estimate.value) / d;
    assert q * d == a - e.estimate.value;
  }

  /** When every counted quarter among the first four beat, the average surprise is positive. */
  lemma AllBeatsPositiveSurprise(history: seq<HistoryEntry>)
    requires AvgSurprise(history).Some?
    requires forall i :: 0 <= i < |Prefix(history, QUARTERS)| && Surprise(Prefix(history, QUARTERS)[i]).Some? ==>
               Beat(Prefix(history, QUARTERS)[i])
    ensures AvgSurprise(history).value > 0.0
  {
    var recent := Prefix(history, QUARTERS);
    var s := Surprises(recent);
    Lists.KeepMembers(Surprise, recent);
    forall k | 0 <= k < |s| ensures s[k] > 0.0 {
      assert s[k] in s;
      var i :| 0 <= i < |recent| && Surprise(recent[i]) == Some(s[k]);
      SurpriseSign(recent[i]);
    }
    assert s[0] > 0.0;
    SumNonNeg(s);
  }

  /** The calendar is filtered case-insensitively: an entry is kept exactly when some
      watchlist symbol equals its symbol up to case. */
  lemma WatchlistFilterRule(e: CalendarEntry, watchlist: seq<string>)
    ensures OnWatchlist(e, watchlist) <==> exists t :: t in watchlist && Upper(t) == Upper(e.symbol.GetOr(""))
  {
  }

  /** Filtering keeps calendar order: it distributes over concatenation of the calendar,
      and keeps exactly the entries on the watchlist. */
  lemma WatchlistEarningsOrder(c1: seq<CalendarEntry>, c2: seq<CalendarEntry>, watchlist: seq<string>)
    ensures WatchlistEarnings(c1 + c2, watchlist) == WatchlistEarnings(c1, watchlist) + WatchlistEarnings(c2, watchlist)
    ensures forall e :: e in WatchlistEarnings(c1, watchlist) <==> e in c1 && OnWatchlist(e, watchlist)
  {
    Lists.KeepAppend(e => Selected(watchlist, e), c1, c2);
    Lists.KeepMembers(e => Selected(watchlist, e), c1);
  }

  /** One record per selected entry, in order, with the entry's fields and the statistics of
      its symbol's history; a report time is present exactly when the entry's time is non-empty. */
  lemma ScanRecords(calendar: seq<CalendarEntry>, watchlist: seq<string>,
                    histories: map<string, seq<HistoryEntry>>)
    ensures var w := WatchlistEarnings(calendar, watchlist);
            var r := ScanResult(calendar, watchlist, histories);
            |r| == |w| &&
            forall i :: 0 <= i < |r| ==>
              r[i].symbol == w[i].symbol.GetOr("") && r[i].reportDate == w[i].date.GetOr("") &&
              (r[i].reportTime.Some? <==> w[i].time.Some? && w[i].time.value != "") &&
              r[i].beatRate == BeatRate(HistoryOf(histories, r[i].symbol)) &&
              r[i].avgSurprisePct == AvgSurprise(HistoryOf(histories, r[i].symbol))
  {
    RecordsPointwise(WatchlistEarnings(calendar, watchlist), histories);
  }

  lemma RecordsPointwise(entries: seq<CalendarEntry>, histories: map<string, seq<HistoryEntry>>)
    ensures |Records(entries, histories)| == |entries|
    ensures forall i :: 0 <= i < |entries| ==> Records(entries, histories)[i] == Record(entries[i], histories)
  {
    Lists.KeepTotal(e => Some(Record(e, histories)), entries);
  }
}
