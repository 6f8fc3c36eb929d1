/** The prompt sections and response handling of the analyzer (scanner/analyzer.py): the
    placeholder each section falls back to, the limits on what each section shows, the
    grouping and labelling of the options section, the extraction of a fenced reply, and
    the fallback for a sector summary given as a bare string. */
module Analyzer {
  import opened Wrappers
  import opened Text
  import opened Sorting
  import Lists
  import News
  import Earnings
  import Momentum
  import Technicals
  import PreMarket
  import OptionsFlow

  const NO_EARNINGS: string := "No earnings in the next 5 trading days for watchlist stocks."
  // Two literals, so that the verifier can read the characters of this long string.
  const NO_NEWS: string := "No significant news catalysts " + "in the last 48 hours."
  const NO_MOMENTUM: string := "No unusual momentum signals detected."
  const NO_OPTIONS: string := "No unusual options activity detected."
  const NO_TECHNICALS: string := "No notable technical signals."
  const NO_PREMARKET: string := "No significant pre-market moves (±3%)."

  const NEWS_SHOWN: nat := 15
  const KEYWORDS_SHOWN: nat := 3
  const MOVERS_SHOWN: nat := 10
  const SIGNALS_PER_SYMBOL: nat := 3

  /** A prompt section: its placeholder text, or the entries it renders, in order. */
  datatype Section<T> = Placeholder(text: string) | Shown(items: seq<T>)

  // ---- Sections printed entry by entry ----

  function EarningsSection(earnings: seq<Earnings.EarningsResult>): Section<Earnings.EarningsResult> {
    if earnings == [] then Placeholder(NO_EARNINGS) else Shown(earnings)
  }

  function MomentumSection(momentum: seq<Momentum.MomentumResult>): Section<Momentum.MomentumResult> {
    if momentum == [] then Placeholder(NO_MOMENTUM) else Shown(momentum)
  }

  function TechnicalsSection(technicals: seq<Technicals.TechnicalSignal>): Section<Technicals.TechnicalSignal> {
    if technicals == [] then Placeholder(NO_TECHNICALS) else Shown(technicals)
  }

  // ---- News ----

  function NewsIcon(s: News.Sentiment): string {
    match s
    case Bullish => "+"
    case Bearish => "-"
    case Neutral => "~"
  }

  /** The three lines of one news item; only its first three keywords are listed. */
  function NewsLines(n: News.NewsResult): seq<string> {
    ["[" + NewsIcon(n.sentiment) + "] " + n.symbol + ": " + n.title,
     "    Source: " + n.source + " | Keywords: " + Join(Prefix(n.keywordsMatched, KEYWORDS_SHOWN), ", "),
     "    URL: " + n.url]
  }

  /** The text `_format_news` returns. */
  function NewsText(news: seq<News.NewsResult>): string {
    if news == [] then NO_NEWS else Join(Lists.FlatMap(NewsLines, Prefix(news, NEWS_SHOWN)), "\n")
  }

  /** `ScannerAnalyzer._format_news`. */
  method FormatNews(news: seq<News.NewsResult>) returns (text: string)
    ensures text == NewsText(news)
  {
    if news == [] {
      return NO_NEWS;
    }
    var shown := Prefix(news, NEWS_SHOWN);
    var lines: seq<string> := [];
    var i := 0;
    while i < |shown|
      invariant 0 <= i <= |shown|
      invariant lines == Lists.FlatMap(NewsLines, shown[..i])
    {
      assert shown[..i + 1][..i] == shown[..i];
      assert Lists.FlatMap(NewsLines, shown[..i + 1]) == lines + NewsLines(shown[i]);
      var n := shown[i];
      var icon := if n.sentiment == News.Bullish then "+" else if n.sentiment == News.Bearish then "-" else "~";
      var keywords := Join(Prefix(n.keywordsMatched, KEYWORDS_SHOWN), ", ");
      lines := lines + ["[" + icon + "] " + n.symbol + ": " + n.title];
      lines := lines + ["    Source: " + n.source + " | Keywords: " + keywords];
      lines := lines + ["    URL: " + n.url];
      i := i + 1;
    }
    assert shown[..i] == shown;
    text := Join(lines, "\n");
  }

  // ---- Pre-market movers ----

  /** What one mover line shows besides its numbers: the direction arrow (up for a
      positive change) and whether it carries the "not on watchlist" tag. */
  datatype MoverLine = MoverLine(rising: bool, symbol: string, changePct: real, price: real, notOnWatchlist: bool)

  function MoverLineOf(m: PreMarket.PreMarketMover): MoverLine {
    MoverLine(m.changePct > 0.0, m.symbol, m.changePct, m.price, !m.onWatchlist)
  }

  function MoverLines(movers: seq<PreMarket.PreMarketMover>): seq<MoverLine> {
    Lists.Keep(m => Some(MoverLineOf(m)), movers)
  }

  function PremarketSection(movers: seq<PreMarket.PreMarketMover>): Section<MoverLine> {
    if movers == [] then Placeholder(NO_PREMARKET) else Shown(MoverLines(Prefix(movers, MOVERS_SHOWN)))
  }

  /** `ScannerAnalyzer._format_premarket`, up to number formatting. */
  method FormatPremarket(movers: seq<PreMarket.PreMarketMover>) returns (section: Section<MoverLine>)
    ensures section == PremarketSection(movers)
  {
    if movers == [] {
      return Placeholder(NO_PREMARKET);
    }
    var shown := Prefix(movers, MOVERS_SHOWN);
    var lines: seq<MoverLine> := [];
    var i := 0;
    while i < |shown|
      invariant 0 <= i <= |shown|
      invariant lines == MoverLines(shown[..i])
    {
      assert shown[..i + 1][..i] == shown[..i];
      var m := shown[i];
      lines := lines + [MoverLine(m.changePct > 0.0, m.symbol, m.changePct, m.price, !m.onWatchlist)];
      i := i + 1;
    }
    assert shown[..i] == shown;
    section := Shown(lines);
  }

  // ---- Options ----

  /** The symbols of the signals, in order. */
  function Symbols(options: seq<OptionsFlow.OptionsSignal>): (r: seq<string>)
    ensures |r| == |options|
  {
    if options == [] then [] else Symbols(options[..|options| - 1]) + [options[|options| - 1].symbol]
  }

  /** The signals of one symbol, in order. */
  function WithSymbol(options: seq<OptionsFlow.OptionsSignal>, k: string): (r: seq<OptionsFlow.OptionsSignal>)
    ensures r == [] <==> k !in Symbols(options)
    ensures forall o :: o in r ==> o in options && o.symbol == k
  {
    if options == [] then []
    else
      var init := WithSymbol(options[..|options| - 1], k);
      var o := options[|options| - 1];
      if o.symbol == k then init + [o] else init
  }

  /** Each value once, at its first appearance. */
  function FirstAppearances(s: seq<string>): (r: seq<string>)
    ensures forall x :: x in r <==> x in s
  {
    if s == [] then [] else
      var init := s[..|s| - 1];
      FirstAppearances(init) + (if s[|s| - 1] in init then [] else [s[|s| - 1]])
  }

  /** The `by_symbol` dictionary after the loop has seen `options`. */
  function Group(options: seq<OptionsFlow.OptionsSignal>): seq<(string, seq<OptionsFlow.OptionsSignal>)> {
    if options == [] then []
    else
      var g := Group(options[..|options| - 1]);
      var o := options[|options| - 1];
      Lists.Put(g, o.symbol, Lists.Lookup(g, o.symbol).GetOr([]) + [o])
  }

  /** The strongest signals of a symbol: by ratio descending, ties in input order, at most three. */
  function TopSignals(signals: seq<OptionsFlow.OptionsSignal>): seq<OptionsFlow.OptionsSignal> {
    OptionsFlow.ByRatioTotal();
    Prefix(SortBy(signals, OptionsFlow.ByRatio), SIGNALS_PER_SYMBOL)
  }

  function Tops(groups: seq<(string, seq<OptionsFlow.OptionsSignal>)>): seq<(string, seq<OptionsFlow.OptionsSignal>)> {
    Lists.Keep((g: (string, seq<OptionsFlow.OptionsSignal>)) => Some((g.0, TopSignals(g.1))), groups)
  }

  /** How a call/put ratio reads. */
  datatype Lean = Bullish | Bearish | Neutral

  /** `ratio > x`, where the infinite ratio exceeds every bound. */
  predicate Exceeds(r: OptionsFlow.Ratio, x: real) {
    r.Infinite? || r.value > x
  }

  /** `ratio < x`. */
  predicate Under(r: OptionsFlow.Ratio, x: real) {
    r.Finite? && r.value < x
  }

  function LeanOf(r: OptionsFlow.Ratio): (l: Lean)
    ensures l == Bullish <==> Exceeds(r, 1.5)
    ensures l == Bearish <==> Under(r, 0.7)
    ensures l == Neutral <==> r.Finite? && 0.7 <= r.value <= 1.5
  {
    if Exceeds(r, 1.5) then Bullish else if Under(r, 0.7) then Bearish else Neutral
  }

  /** Ratios compare by value, with the infinite ratio above all others. */
  function ByRatioValue(a: (string, OptionsFlow.Ratio), b: (string, OptionsFlow.Ratio)): bool {
    a.1.Infinite? || (b.1.Finite? && a.1.value >= b.1.value)
  }

  lemma ByRatioValueTotal()
    ensures TotalPreorder(ByRatioValue)
  {
  }

  function Labelled(ratios: seq<(string, OptionsFlow.Ratio)>): seq<(string, OptionsFlow.Ratio, Lean)> {
    Lists.Keep((p: (string, OptionsFlow.Ratio)) => Some((p.0, p.1, LeanOf(p.1))), ratios)
  }

  /** The ratio lines: highest ratio first, ties in dictionary order, each with its lean. */
  function RatioLines(ratios: seq<(string, OptionsFlow.Ratio)>): seq<(string, OptionsFlow.Ratio, Lean)> {
    ByRatioValueTotal();
    Labelled(SortBy(ratios, ByRatioValue))
  }

  /** The options section: the unusual activity per symbol and the ratio lines, either
      of which may be empty (and then its header is not printed). */
  datatype OptionsReport =
    | NoActivity
    | Report(unusual: seq<(string, seq<OptionsFlow.OptionsSignal>)>, ratios: seq<(string, OptionsFlow.Ratio, Lean)>)

  function OptionsSection(options: seq<OptionsFlow.OptionsSignal>, ratios: seq<(string, OptionsFlow.Ratio)>): OptionsReport {
    if options == [] && ratios == [] then NoActivity
    else Report(Tops(Group(options)), RatioLines(ratios))
  }

  /** The grouping loop of `_format_options`: each signal appended to its symbol's list. */
  method GroupBySymbol(options: seq<OptionsFlow.OptionsSignal>)
    returns (bySymbol: seq<(string, seq<OptionsFlow.OptionsSignal>)>)
    ensures bySymbol == Group(options)
  {
    bySymbol := [];
    var i := 0;
    while i < |options|
      invariant 0 <= i <= |options|
      invariant bySymbol == Group(options[..i])
    {
      assert options[..i + 1][..i] == options[..i];
      var o := options[i];
      var current := Lists.Lookup(bySymbol, o.symbol).GetOr([]);
      bySymbol := Lists.Put(bySymbol, o.symbol, current + [o]);
      i := i + 1;
    }
    assert options[..i] == options;
  }

  /** The per-symbol loop of `_format_options`: the strongest signals of each group. */
  method TopsOf(bySymbol: seq<(string, seq<OptionsFlow.OptionsSignal>)>)
    returns (unusual: seq<(string, seq<OptionsFlow.OptionsSignal>)>)
    ensures unusual == Tops(bySymbol)
  {
    unusual := [];
    var j := 0;
    while j < |bySymbol|
      invariant 0 <= j <= |bySymbol|
      invariant unusual == Tops(bySymbol[..j])
    {
      assert bySymbol[..j + 1][..j] == bySymbol[..j];
      var (symbol, signals) := bySymbol[j];
      unusual := unusual + [(symbol, TopSignals(signals))];
      j := j + 1;
    }
    assert bySymbol[..j] == bySymbol;
  }

  /** The ratio loop of `_format_options`: each sorted ratio with its lean. */
  method LabelRatios(sorted: seq<(string, OptionsFlow.Ratio)>) returns (lines: seq<(string, OptionsFlow.Ratio, Lean)>)
    ensures lines == Labelled(sorted)
  {
    lines := [];
    var k := 0;
    while k < |sorted|
      invariant 0 <= k <= |sorted|
      invariant lines == Labelled(sorted[..k])
    {
      assert sorted[..k + 1][..k] == sorted[..k];
      var (symbol, ratio) := sorted[k];
      var lean := if Exceeds(ratio, 1.5) then Bullish else if Under(ratio, 0.7) then Bearish else Neutral;
      lines := lines + [(symbol, ratio, lean)];
      k := k + 1;
    }
    assert sorted[..k] == sorted;
  }

  /** `ScannerAnalyzer._format_options`, up to number formatting. */
  method FormatOptions(options: seq<OptionsFlow.OptionsSignal>, ratios: seq<(string, OptionsFlow.Ratio)>)
    returns (report: OptionsReport)
    ensures report == OptionsSection(options, ratios)
  {
    if options == [] && ratios == [] {
      return NoActivity;
    }
    var bySymbol := GroupBySymbol(options);
    var unusual := TopsOf(bySymbol);
    ByRatioValueTotal();
    var sorted := SortBy(ratios, ByRatioValue);
    var lines := LabelRatios(sorted);
    report := Report(unusual, lines);
  }

  // ---- The reply ----

  const JSON_FENCE: string := "```json"
  const FENCE: string := "```"

  /** The reply text handed to the JSON decoder: the first fenced block if there is one. */
  function ExtractJson(reply: string): string {
    if Contains(reply, JSON_FENCE) then Before(SecondPiece(reply, JSON_FENCE), FENCE)
    else if Contains(reply, FENCE) then Before(SecondPiece(reply, FENCE), FENCE)
    else reply
  }

  /** A sector summary as the reply gives it: a record, or a bare string in the older format. */
  datatype SectorInfo =
    | Structured(outlook: Option<string>, overview: Option<string>, news: seq<SectorNews>)
    | Legacy(text: string)

  datatype SectorNews = SectorNews(title: string, url: string)

  datatype SectorSummary = SectorSummary(outlook: string, overview: string, news: seq<SectorNews>)

  function SummaryOf(info: SectorInfo): SectorSummary {
    match info
    case Structured(outlook, overview, news) => SectorSummary(outlook.GetOr("Neutral"), overview.GetOr(""), news)
    case Legacy(text) => SectorSummary(if Contains(text, " - ") then Before(text, " - ") else "Neutral", text, [])
  }

  function Summaries(raw: seq<(string, SectorInfo)>): seq<(string, SectorSummary)> {
    if raw == [] then []
    else
      var last := raw[|raw| - 1];
      Lists.Put(Summaries(raw[..|raw| - 1]), last.0, SummaryOf(last.1))
  }

  /** The loop of `analyze` that builds `sector_summaries` from the decoded reply. */
  method ParseSectors(raw: seq<(string, SectorInfo)>) returns (summaries: seq<(string, SectorSummary)>)
    ensures summaries == Summaries(raw)
  {
    summaries := [];
    var i := 0;
    while i < |raw|
      invariant 0 <= i <= |raw|
      invariant summaries == Summaries(raw[..i])
    {
      assert raw[..i + 1][..i] == raw[..i];
      var (sector, info) := raw[i];
      var summary: SectorSummary;
      match info {
        case Structured(outlook, overview, news) =>
          summary := SectorSummary(outlook.GetOr("Neutral"), overview.GetOr(""), news);
        case Legacy(text) =>
          var outlook := if Contains(text, " - ") then Before(text, " - ") else "Neutral";
          summary := SectorSummary(outlook, text, []);
      }
      summaries := Lists.Put(summaries, sector, summary);
      i := i + 1;
    }
    assert raw[..i] == raw;
  }

  // ---- Properties ----

  /** Every section falls back to its fixed placeholder exactly when its input is empty,
      and otherwise shows at most its limit of entries, the first ones. */
  lemma SectionsRule(earnings: seq<Earnings.EarningsResult>, momentum: seq<Momentum.MomentumResult>,
                     technicals: seq<Technicals.TechnicalSignal>, movers: seq<PreMarket.PreMarketMover>)
    ensures EarningsSection(earnings).Placeholder? <==> earnings == []
    ensures EarningsSection(earnings).Placeholder? ==> EarningsSection(earnings).text == NO_EARNINGS
    ensures EarningsSection(earnings).Shown? ==> EarningsSection(earnings).items == earnings
    ensures MomentumSection(momentum).Placeholder? <==> momentum == []
    ensures MomentumSection(momentum).Placeholder? ==> MomentumSection(momentum).text == NO_MOMENTUM
    ensures TechnicalsSection(technicals).Placeholder? <==> technicals == []
    ensures TechnicalsSection(technicals).Placeholder? ==> TechnicalsSection(technicals).text == NO_TECHNICALS
    ensures PremarketSection(movers).Placeholder? <==> movers == []
    ensures PremarketSection(movers).Placeholder? ==> PremarketSection(movers).text == NO_PREMARKET
  {
  }

  /** The pre-market section shows the first ten movers, one line each, rising exactly for a
      positive change and tagged exactly when the mover is not on the watchlist. */
  lemma {:induction false} MoverLinesRule(movers: seq<PreMarket.PreMarketMover>)
    ensures |MoverLines(movers)| == |movers|
    ensures forall i :: 0 <= i < |movers| ==>
              MoverLines(movers)[i].symbol == movers[i].symbol &&
              (MoverLines(movers)[i].rising <==> movers[i].changePct > 0.0) &&
              (MoverLines(movers)[i].notOnWatchlist <==> !movers[i].onWatchlist)
  {
    if movers != [] {
      var init := movers[..|movers| - 1];
      MoverLinesRule(init);
      assert forall i :: 0 <= i < |init| ==> init[i] == movers[i];
    }
  }

  lemma PremarketShowsTen(movers: seq<PreMarket.PreMarketMover>)
    ensures PremarketSection(movers).Shown? ==>
              |PremarketSection(movers).items| == |Prefix(movers, MOVERS_SHOWN)| <= MOVERS_SHOWN
  {
    MoverLinesRule(Prefix(movers, MOVERS_SHOWN));
  }

  /** Movers after the tenth never change the section. */
  lemma PremarketShowsFirstTen(movers: seq<PreMarket.PreMarketMover>, more: seq<PreMarket.PreMarketMover>)
    requires |movers| >= MOVERS_SHOWN
    ensures PremarketSection(movers + more) == PremarketSection(movers)
  {
    assert Prefix(movers + more, MOVERS_SHOWN) == Prefix(movers, MOVERS_SHOWN);
  }

  /** Item `i` of the news section is lines `3i` to `3i + 2`. */
  lemma {:induction false} NewsLinesLayout(shown: seq<News.NewsResult>)
    ensures |Lists.FlatMap(NewsLines, shown)| == 3 * |shown|
    ensures forall i, j :: 0 <= i < |shown| && 0 <= j < 3 ==>
              Lists.FlatMap(NewsLines, shown)[3 * i + j] == NewsLines(shown[i])[j]
  {
    if shown != [] {
      var init := shown[..|shown| - 1];
      var last := NewsLines(shown[|shown| - 1]);
      NewsLinesLayout(init);
      var prev := Lists.FlatMap(NewsLines, init);
      assert Lists.FlatMap(NewsLines, shown) == prev + last;
      forall i, j | 0 <= i < |shown| && 0 <= j < 3
        ensures Lists.FlatMap(NewsLines, shown)[3 * i + j] == NewsLines(shown[i])[j]
      {
        if i < |init| {
          assert init[i] == shown[i];
          assert (prev + last)[3 * i + j] == prev[3 * i + j];
        } else {
          assert (prev + last)[3 * i + j] == last[j];
        }
      }
    }
  }

  /** The news section is its placeholder exactly when there is no news; it lists at most
      fifteen items, three lines each, and at most three keywords per item. */
  lemma NewsRule(news: seq<News.NewsResult>)
    ensures NewsText(news) == NO_NEWS <==> news == []
    ensures news != [] ==>
              var lines := Lists.FlatMap(NewsLines, Prefix(news, NEWS_SHOWN));
              NewsText(news) == Join(lines, "\n") && |lines| == 3 * |Prefix(news, NEWS_SHOWN)| <= 3 * NEWS_SHOWN &&
              forall i :: 0 <= i < |Prefix(news, NEWS_SHOWN)| ==>
                lines[3 * i + 1] == "    Source: " + news[i].source + " | Keywords: " +
                                    Join(Prefix(news[i].keywordsMatched, KEYWORDS_SHOWN), ", ")
  {
    if news != [] {
      var shown := Prefix(news, NEWS_SHOWN);
      var lines := Lists.FlatMap(NewsLines, shown);
      NewsLinesLayout(shown);
      assert lines[0] == NewsLines(shown[0])[0];
      assert lines[0][0] == '[';
      JoinHead(lines, "\n");
      assert NewsText(news)[0] == '[';
      assert NO_NEWS[0] == 'N';
      forall i | 0 <= i < |shown| ensures lines[3 * i + 1] == NewsLines(news[i])[1] {
        assert shown[i] == news[i];
      }
    }
  }

  /** News items after the fifteenth never change the section. */
  lemma NewsShowsFifteen(news: seq<News.NewsResult>, more: seq<News.NewsResult>)
    requires |news| >= NEWS_SHOWN
    ensures NewsText(news + more) == NewsText(news)
  {
    assert Prefix(news + more, NEWS_SHOWN) == Prefix(news, NEWS_SHOWN);
  }

  /** The options are grouped by symbol in order of first appearance, and each group holds
      exactly that symbol's signals in input order. */
  lemma GroupRule(options: seq<OptionsFlow.OptionsSignal>, k: string)
    ensures Lists.Keys(Group(options)) == FirstAppearances(Symbols(options))
    ensures Lists.Distinct(Lists.Keys(Group(options)))
    ensures Lists.Lookup(Group(options), k) == if k in Symbols(options) then Some(WithSymbol(options, k)) else None
  {
    GroupKeys(options);
    GroupLookup(options, k);
  }

  lemma {:induction false} GroupKeys(options: seq<OptionsFlow.OptionsSignal>)
    ensures Lists.Keys(Group(options)) == FirstAppearances(Symbols(options))
    ensures Lists.Distinct(Lists.Keys(Group(options)))
  {
    if options != [] {
      var init := options[..|options| - 1];
      var o := options[|options| - 1];
      var g := Group(init);
      GroupKeys(init);
      GroupLookup(init, o.symbol);
      var v := Lists.Lookup(g, o.symbol).GetOr([]) + [o];
      Lists.PutKeys(g, o.symbol, v);
      Lists.PutDistinct(g, o.symbol, v);
    }
  }

  lemma {:induction false} GroupLookup(options: seq<OptionsFlow.OptionsSignal>, k: string)
    ensures Lists.Lookup(Group(options), k) == if k in Symbols(options) then Some(WithSymbol(options, k)) else None
  {
    if options != [] {
      var init := options[..|options| - 1];
      var o := options[|options| - 1];
      var g := Group(init);
      GroupLookup(init, k);
      GroupLookup(init, o.symbol);
      var v := Lists.Lookup(g, o.symbol).GetOr([]) + [o];
      assert v == WithSymbol(options, o.symbol);
      Lists.PutLookup(g, o.symbol, v, k);
    }
  }

  /** A symbol shows at most three signals, all of its own, ratio descending, and no
      signal left out has a higher ratio than one shown. */
  lemma TopSignalsRule(signals: seq<OptionsFlow.OptionsSignal>)
    ensures var top := TopSignals(signals);
            |top| == if |signals| < SIGNALS_PER_SYMBOL then |signals| else SIGNALS_PER_SYMBOL
    ensures var top := TopSignals(signals);
            forall i :: 0 <= i < |top| ==> top[i] in signals
    ensures var top := TopSignals(signals);
            forall i, j :: 0 <= i < j < |top| ==> top[i].volumeOiRatio >= top[j].volumeOiRatio
    ensures var top := TopSignals(signals);
            forall x :: x in signals && x !in top ==>
              forall i :: 0 <= i < |top| ==> top[i].volumeOiRatio >= x.volumeOiRatio
    ensures multiset(TopSignals(signals)) <= multiset(signals)
  {
    OptionsFlow.ByRatioTotal();
    var sorted := SortBy(signals, OptionsFlow.ByRatio);
    forall x ensures x in signals <==> x in sorted {
      assert x in multiset(signals) <==> x in multiset(sorted);
    }
    RankedPrefix(sorted, SIGNALS_PER_SYMBOL);
    PrefixSubMultiset(sorted, SIGNALS_PER_SYMBOL);
  }

  lemma PrefixSubMultiset<T>(s: seq<T>, n: nat)
    ensures multiset(Prefix(s, n)) <= multiset(s)
  {
    var p := Prefix(s, n);
    assert s == p + s[|p|..];
    assert multiset(s) == multiset(p) + multiset(s[|p|..]);
  }

  /** Signals of equal ratio are shown in their input order, and the ones shown are the
      first of them: the sort is stable and the cut keeps a prefix. */
  lemma TopSignalsStable(signals: seq<OptionsFlow.OptionsSignal>, x: OptionsFlow.OptionsSignal)
    ensures EquivalentTo(TopSignals(signals), x, OptionsFlow.ByRatio) <= EquivalentTo(signals, x, OptionsFlow.ByRatio)
  {
    OptionsFlow.ByRatioTotal();
    var sorted := SortBy(signals, OptionsFlow.ByRatio);
    var top := TopSignals(signals);
    assert sorted == top + sorted[|top|..];
    SortStable(signals, x, OptionsFlow.ByRatio);
    EquivalentToAppend(top, sorted[|top|..], x, OptionsFlow.ByRatio);
  }

  /** The first `n` of signals ranked by ratio outrank every signal after them. */
  lemma RankedPrefix(sorted: seq<OptionsFlow.OptionsSignal>, n: nat)
    requires SortedBy(sorted, OptionsFlow.ByRatio)
    ensures var top := Prefix(sorted, n);
            (forall i :: 0 <= i < |top| ==> top[i] in sorted) &&
            (forall i, j :: 0 <= i < j < |top| ==> top[i].volumeOiRatio >= top[j].volumeOiRatio) &&
            (forall x :: x in sorted && x !in top ==>
               forall i :: 0 <= i < |top| ==> top[i].volumeOiRatio >= x.volumeOiRatio)
  {
    var top := Prefix(sorted, n);
    assert top == sorted[..|top|];
    forall x | x in sorted && x !in top
      ensures forall i :: 0 <= i < |top| ==> top[i].volumeOiRatio >= x.volumeOiRatio
    {
      var j :| 0 <= j < |sorted| && sorted[j] == x;
      assert j >= |top|;
    }
  }

  /** The ratio lines hold every ratio once, highest first, each labelled by its lean. */
  lemma RatioLinesRule(ratios: seq<(string, OptionsFlow.Ratio)>)
    ensures |RatioLines(ratios)| == |ratios|
    ensures forall i :: 0 <= i < |RatioLines(ratios)| ==>
              (RatioLines(ratios)[i].0, RatioLines(ratios)[i].1) in ratios &&
              RatioLines(ratios)[i].2 == LeanOf(RatioLines(ratios)[i].1)
    ensures forall i, j :: 0 <= i < j < |RatioLines(ratios)| ==>
              ByRatioValue((RatioLines(ratios)[i].0, RatioLines(ratios)[i].1),
                           (RatioLines(ratios)[j].0, RatioLines(ratios)[j].1))
    ensures multiset(LinePairs(RatioLines(ratios))) == multiset(ratios)
  {
    ByRatioValueTotal();
    var sorted := SortBy(ratios, ByRatioValue);
    LabelledPointwise(sorted);
    forall i | 0 <= i < |sorted| ensures sorted[i] in ratios {
      assert sorted[i] in multiset(sorted);
    }
    assert LinePairs(RatioLines(ratios)) == sorted;
  }

  /** The symbol and ratio of each line, without the lean. */
  function LinePairs(lines: seq<(string, OptionsFlow.Ratio, Lean)>): (r: seq<(string, OptionsFlow.Ratio)>)
    ensures |r| == |lines|
  {
    seq(|lines|, i requires 0 <= i < |lines| => (lines[i].0, lines[i].1))
  }

  /** Entries of equal ratio keep their dictionary order. */
  lemma RatioLinesStable(ratios: seq<(string, OptionsFlow.Ratio)>, x: (string, OptionsFlow.Ratio))
    ensures EquivalentTo(LinePairs(RatioLines(ratios)), x, ByRatioValue) == EquivalentTo(ratios, x, ByRatioValue)
  {
    ByRatioValueTotal();
    var sorted := SortBy(ratios, ByRatioValue);
    LabelledPointwise(sorted);
    assert LinePairs(RatioLines(ratios)) == sorted;
    SortStable(ratios, x, ByRatioValue);
  }

  lemma {:induction false} LabelledPointwise(s: seq<(string, OptionsFlow.Ratio)>)
    ensures |Labelled(s)| == |s|
    ensures forall i :: 0 <= i < |s| ==> Labelled(s)[i] == (s[i].0, s[i].1, LeanOf(s[i].1))
  {
    if s != [] {
      var init := s[..|s| - 1];
      LabelledPointwise(init);
      assert forall i :: 0 <= i < |init| ==> init[i] == s[i];
    }
  }

  /** The options section is its placeholder exactly when there are neither signals nor
      ratios; the unusual-activity part is empty exactly when there are no signals. */
  lemma OptionsSectionRule(options: seq<OptionsFlow.OptionsSignal>, ratios: seq<(string, OptionsFlow.Ratio)>)
    ensures OptionsSection(options, ratios).NoActivity? <==> options == [] && ratios == []
    ensures OptionsSection(options, ratios).Report? ==>
              (OptionsSection(options, ratios).unusual == [] <==> options == []) &&
              (OptionsSection(options, ratios).ratios == [] <==> ratios == [])
  {
    if OptionsSection(options, ratios).Report? {
      GroupRule(options, "");
      Lists.KeepLength((g: (string, seq<OptionsFlow.OptionsSignal>)) => Some((g.0, TopSignals(g.1))), Group(options));
      RatioLinesRule(ratios);
      if options != [] {
        assert options[0].symbol in Symbols(options) by { SymbolsMembers(options); }
        assert Lists.Keys(Group(options)) != [];
      }
    }
  }

  lemma {:induction false} SymbolsMembers(options: seq<OptionsFlow.OptionsSignal>)
    ensures forall i :: 0 <= i < |options| ==> Symbols(options)[i] == options[i].symbol
  {
    if options != [] {
      SymbolsMembers(options[..|options| - 1]);
    }
  }

  /** `Before` never includes its separator. */
  lemma BeforeExcludesSep(s: string, sep: string)
    requires sep != []
    ensures !Contains(Before(s, sep), sep)
  {
    var r := Before(s, sep);
    var first := FindFrom(s, sep, 0);
    forall k | 0 <= k <= |r| - |sep| ensures !OccursAt(r, sep, k) {
      assert r[k..k + |sep|] == s[k..k + |sep|];
      if first.Some? {
        assert k < first.value;
      }
      assert !OccursAt(s, sep, k);
    }
  }

  /** Fence extraction: with a "```json" fence the result is what follows the first one,
      up to the next fence when no second "```json" intervenes; without one, the text
      between the first two plain fences; with no fence at all, the reply itself. In every
      fenced case the result holds no fence. */
  lemma ExtractJsonRule(reply: string)
    ensures Contains(reply, JSON_FENCE) ==> ExtractJson(reply) <= After(reply, JSON_FENCE)
    ensures Contains(reply, JSON_FENCE) && !Contains(After(reply, JSON_FENCE), JSON_FENCE) ==>
              ExtractJson(reply) == Before(After(reply, JSON_FENCE), FENCE)
    ensures !Contains(reply, JSON_FENCE) && Contains(reply, FENCE) ==>
              ExtractJson(reply) == Before(After(reply, FENCE), FENCE)
    ensures !Contains(reply, FENCE) ==> ExtractJson(reply) == reply
    ensures Contains(reply, FENCE) ==> !Contains(ExtractJson(reply), FENCE)
  {
    if !Contains(reply, FENCE) && Contains(reply, JSON_FENCE) {
      var i :| 0 <= i <= |reply| - |JSON_FENCE| && OccursAt(reply, JSON_FENCE, i);
      assert OccursAt(reply, FENCE, i) by {
        assert reply[i..i + 3] == reply[i..i + 7][..3];
      }
    }
    if Contains(reply, JSON_FENCE) {
      var y := After(reply, JSON_FENCE);
      FindFound(y, JSON_FENCE);
      BeforeExcludesSep(Before(y, JSON_FENCE), FENCE);
    } else if Contains(reply, FENCE) {
      var y := After(reply, FENCE);
      FindFound(y, FENCE);
      BeforeExcludesSep(Before(y, FENCE), FENCE);
      BeforeExcludesSep(y, FENCE);
      FindFound(Before(y, FENCE), FENCE);
    }
  }

  /** A bare-string sector summary: its outlook is the text before the first " - " (so the
      string is the outlook, " - " and the rest), or "Neutral" when it has none; the
      overview is the whole string and there are no news links. */
  lemma LegacySummaryRule(text: string)
    ensures var s := SummaryOf(Legacy(text));
            s.overview == text && s.news == [] &&
            (Contains(text, " - ") ==> text == s.outlook + " - " + After(text, " - ") && !Contains(s.outlook, " - ")) &&
            (!Contains(text, " - ") ==> s.outlook == "Neutral")
  {
    if Contains(text, " - ") {
      FindFound(text, " - ");
      var i := FindFrom(text, " - ", 0).value;
      assert text == text[..i] + text[i..i + 3] + text[i + 3..];
      BeforeExcludesSep(text, " - ");
    }
  }

  /** The summaries hold one entry per sector of the reply, with its summary. */
  lemma SummariesRule(raw: seq<(string, SectorInfo)>, sector: string)
    ensures Lists.Distinct(Lists.Keys(Summaries(raw)))
    ensures Lists.Lookup(Summaries(raw), sector).Some? <==> exists i :: 0 <= i < |raw| && raw[i].0 == sector
    ensures forall i :: 0 <= i < |raw| && raw[i].0 == sector && (forall j :: i < j < |raw| ==> raw[j].0 != sector) ==>
              Lists.Lookup(Summaries(raw), sector) == Some(SummaryOf(raw[i].1))
  {
    SummariesDistinct(raw);
    SummariesPresent(raw, sector);
    forall i | 0 <= i < |raw| && raw[i].0 == sector && (forall j :: i < j < |raw| ==> raw[j].0 != sector)
      ensures Lists.Lookup(Summaries(raw), sector) == Some(SummaryOf(raw[i].1))
    {
      SummariesLast(raw, sector, i);
    }
  }

  lemma {:induction false} SummariesPresent(raw: seq<(string, SectorInfo)>, sector: string)
    ensures Lists.Lookup(Summaries(raw), sector).Some? <==> exists i :: 0 <= i < |raw| && raw[i].0 == sector
  {
    if raw != [] {
      var init := raw[..|raw| - 1];
      SummariesPresent(init, sector);
      SummariesStep(raw, sector);
      if raw[|raw| - 1].0 != sector && exists i :: 0 <= i < |raw| && raw[i].0 == sector {
        var i :| 0 <= i < |raw| && raw[i].0 == sector;
        assert init[i] == raw[i];
      }
    }
  }

  lemma {:induction false} SummariesLast(raw: seq<(string, SectorInfo)>, sector: string, i: nat)
    requires i < |raw| && raw[i].0 == sector
    requires forall j :: i < j < |raw| ==> raw[j].0 != sector
    ensures Lists.Lookup(Summaries(raw), sector) == Some(SummaryOf(raw[i].1))
  {
    SummariesStep(raw, sector);
    if i < |raw| - 1 {
      var init := raw[..|raw| - 1];
      assert init[i] == raw[i];
      assert forall j :: i < j < |init| ==> init[j] == raw[j];
      SummariesLast(init, sector, i);
    }
  }

  lemma {:induction false} SummariesDistinct(raw: seq<(string, SectorInfo)>)
    ensures Lists.Distinct(Lists.Keys(Summaries(raw)))
  {
    if raw != [] {
      var last := raw[|raw| - 1];
      SummariesDistinct(raw[..|raw| - 1]);
      Lists.PutDistinct(Summaries(raw[..|raw| - 1]), last.0, SummaryOf(last.1));
    }
  }

  lemma SummariesStep(raw: seq<(string, SectorInfo)>, sector: string)
    requires raw != []
    ensures Lists.Lookup(Summaries(raw), sector) ==
              if raw[|raw| - 1].0 == sector then Some(SummaryOf(raw[|raw| - 1].1))
              else Lists.Lookup(Summaries(raw[..|raw| - 1]), sector)
  {
    var last := raw[|raw| - 1];
    Lists.PutLookup(Summaries(raw[..|raw| - 1]), last.0, SummaryOf(last.1), sector);
  }
}
