/** The keyword lists of the news sentiment scorer (scanner/scanners/news.py) and the
    facts about them that the scorer's properties use: no keyword is listed twice, and no
    keyword is both bullish and bearish. */
module NewsKeywords {
  import opened Lists

  // The bullish keywords, one constant per line of the source's list.
  const BULLISH_DEALS: seq<string> := ["acquisition", "acquire", "merger", "deal", "partnership"]
  const BULLISH_WINS: seq<string> := ["contract", "awarded", "patent", "fda approval", "breakthrough"]
  const BULLISH_RATINGS: seq<string> := ["upgrade", "outperform", "buy rating", "price target raised"]
  const BULLISH_RESULTS: seq<string> := ["beat", "exceeds", "record revenue", "guidance raised"]
  const BULLISH_TECH: seq<string> := ["ai", "artificial intelligence", "data center", "quantum"]
  const BULLISH_FRONTIER: seq<string> := ["nuclear", "smr", "uranium", "robot", "autonomous"]

  const BULLISH_KEYWORDS: seq<string> :=
    BULLISH_DEALS + BULLISH_WINS + BULLISH_RATINGS + BULLISH_RESULTS + BULLISH_TECH + BULLISH_FRONTIER

  const BEARISH_KEYWORDS: seq<string> := [
    "downgrade", "sell rating", "price target cut", "misses",
    "lawsuit", "investigation", "recall", "warning", "layoffs",
    "guidance cut", "below expectations", "delays", "loss",
    "bankruptcy", "default", "fraud", "sec probe"
  ]

  // Each line of the bullish list is checked against the lines before it and against the
  // bearish list, so that every fact below compares few literals.

  lemma DealsFacts()
    ensures Distinct(BULLISH_DEALS)
    ensures forall k :: k in BULLISH_DEALS ==> k !in BEARISH_KEYWORDS
  {
  }

  lemma WinsFacts()
    ensures Distinct(BULLISH_WINS)
    ensures forall k :: k in BULLISH_DEALS ==> k !in BULLISH_WINS
    ensures forall k :: k in BULLISH_WINS ==> k !in BEARISH_KEYWORDS
  {
  }

  lemma RatingsFacts()
    ensures Distinct(BULLISH_RATINGS)
    ensures forall k :: k in BULLISH_DEALS + BULLISH_WINS ==> k !in BULLISH_RATINGS
    ensures forall k :: k in BULLISH_RATINGS ==> k !in BEARISH_KEYWORDS
  {
  }

  lemma ResultsFacts()
    ensures Distinct(BULLISH_RESULTS)
    ensures forall k :: k in BULLISH_DEALS + BULLISH_WINS + BULLISH_RATINGS ==> k !in BULLISH_RESULTS
    ensures forall k :: k in BULLISH_RESULTS ==> k !in BEARISH_KEYWORDS
  {
  }

  lemma TechFacts()
    ensures Distinct(BULLISH_TECH)
    ensures forall k :: k in BULLISH_DEALS + BULLISH_WINS + BULLISH_RATINGS + BULLISH_RESULTS ==>
                        k !in BULLISH_TECH
    ensures forall k :: k in BULLISH_TECH ==> k !in BEARISH_KEYWORDS
  {
  }

  lemma FrontierFacts()
    ensures Distinct(BULLISH_FRONTIER)
    ensures forall k :: k in BULLISH_DEALS + BULLISH_WINS + BULLISH_RATINGS + BULLISH_RESULTS + BULLISH_TECH ==>
                        k !in BULLISH_FRONTIER
    ensures forall k :: k in BULLISH_FRONTIER ==> k !in BEARISH_KEYWORDS
  {
  }

  lemma BullishDistinct()
    ensures Distinct(BULLISH_KEYWORDS)
  {
    DealsFacts();
    WinsFacts();
    RatingsFacts();
    ResultsFacts();
    TechFacts();
    FrontierFacts();
    var p1 := BULLISH_DEALS + BULLISH_WINS;
    DistinctConcat(BULLISH_DEALS, BULLISH_WINS);
    var p2 := p1 + BULLISH_RATINGS;
    DistinctConcat(p1, BULLISH_RATINGS);
    var p3 := p2 + BULLISH_RESULTS;
    DistinctConcat(p2, BULLISH_RESULTS);
    var p4 := p3 + BULLISH_TECH;
    DistinctConcat(p3, BULLISH_TECH);
    DistinctConcat(p4, BULLISH_FRONTIER);
  }

  lemma BearishDistinct()
    ensures Distinct(BEARISH_KEYWORDS)
  {
  }

  lemma ListsDisjoint()
    ensures forall k :: k in BULLISH_KEYWORDS ==> k !in BEARISH_KEYWORDS
  {
    DealsFacts();
    WinsFacts();
    RatingsFacts();
    ResultsFacts();
    TechFacts();
    FrontierFacts();
  }

  /** No keyword is listed twice, and no keyword is both bullish and bearish. */
  lemma KeywordListsDistinct()
    ensures Distinct(BULLISH_KEYWORDS) && Distinct(BEARISH_KEYWORDS)
    ensures forall k :: k in BULLISH_KEYWORDS ==> k !in BEARISH_KEYWORDS
    ensures Distinct(BULLISH_KEYWORDS + BEARISH_KEYWORDS)
  {
    BullishDistinct();
    BearishDistinct();
    ListsDisjoint();
    DistinctConcat(BULLISH_KEYWORDS, BEARISH_KEYWORDS);
  }

  lemma DistinctConcat<T>(a: seq<T>, b: seq<T>)
    requires Distinct(a) && Distinct(b)
    requires forall k :: k in a ==> k !in b
    ensures Distinct(a + b)
  {
    var ab := a + b;
    forall i, j | 0 <= i < j < |ab| ensures ab[i] != ab[j] {
      if i < |a| && |a| <= j {
        assert ab[i] == a[i] && ab[j] == b[j - |a|];
        assert a[i] in a && b[j - |a|] in b;
      }
    }
  }
}

/** The news sentiment scorer (scanner/scanners/news.py): articles are scored by
    counting bullish and bearish keywords in their lower-cased headline and summary;
    only articles with a non-zero score are reported, strongest first. */
module News {
  import opened NewsKeywords
  import opened Wrappers
  import opened Text
  import opened Numeric
  import opened Sorting
  import opened Lists

  /** Articles examined per ticker. */
  const ARTICLES_PER_TICKER: nat := 5

  datatype Sentiment = Bullish | Bearish | Neutral

  /** What `_score_article` returns: the score, its label and the keywords reported. */
  datatype Score = Score(score: int, sentiment: Sentiment, keywords: seq<string>)

  /** One article as the news provider returns it; every field may be missing. */
  datatype Article = Article(
    datetime: Option<int>,
    headline: Option<string>,
    summary: Option<string>,
    url: Option<string>,
    source: Option<string>)

  datatype NewsResult = NewsResult(
    symbol: string,
    title: string,
    publishedAt: int,
    url: string,
    source: string,
    sentiment: Sentiment,
    sentimentScore: int,
    keywordsMatched: seq<string>)

  /** `a` is `b` with some elements left out (order kept). */
  predicate IsSubsequence<T(==)>(a: seq<T>, b: seq<T>) {
    if a == [] then true
    else if b == [] then false
    else IsSubsequence(a, b[..|b| - 1]) ||
         (a[|a| - 1] == b[|b| - 1] && IsSubsequence(a[..|a| - 1], b[..|b| - 1]))
  }

  /** The text that is scored: `f"{title} {summary}".lower()`. */
  function ArticleText(title: string, summary: string): string {
    Lower(title + " " + summary)
  }

  /** The keywords of `keywords` that occur in `text`, as the scoring loops collect them. */
  function Hits(keywords: seq<string>, text: string): seq<string> {
    if keywords == [] then []
    else
      var kw := keywords[|keywords| - 1];
      Hits(keywords[..|keywords| - 1], text) + (if Contains(text, kw) then [kw] else [])
  }

  /** The label rule: the sign of the score decides the label and which hits are reported. */
  function Judge(bullishHits: seq<string>, bearishHits: seq<string>): Score {
    var score := |bullishHits| - |bearishHits|;
    if score > 0 then Score(score, Bullish, bullishHits)
    else if score < 0 then Score(score, Bearish, bearishHits)
    else Score(score, Neutral, bullishHits + bearishHits)
  }

  function ScoreOf(title: string, summary: string): Score {
    var text := ArticleText(title, summary);
    Judge(Hits(BULLISH_KEYWORDS, text), Hits(BEARISH_KEYWORDS, text))
  }

  /** One keyword loop of `_score_article`: the keywords of `keywords` found in `text`. */
  method CollectHits(keywords: seq<string>, text: string) returns (hits: seq<string>)
    ensures hits == Hits(keywords, text)
  {
    hits := [];
    var i := 0;
    while i < |keywords|
      invariant 0 <= i <= |keywords|
      invariant hits == Hits(keywords[..i], text)
    {
      var kw := keywords[i];
      assert keywords[..i + 1][..i] == keywords[..i];
      if Contains(text, kw) {
        hits := hits + [kw];
      }
      i := i + 1;
    }
    assert keywords[..i] == keywords;
  }

  /** `NewsScanner._score_article`: two loops collect the hits, then the label rule. */
  method ScoreArticle(title: string, summary: string) returns (r: Score)
    ensures r == ScoreOf(title, summary)
  {
    var text := Lower(title + " " + summary);
    var bullishHits := CollectHits(BULLISH_KEYWORDS, text);
    var bearishHits := CollectHits(BEARISH_KEYWORDS, text);
    var score := |bullishHits| - |bearishHits|;
    if score > 0 {
      r := Score(score, Bullish, bullishHits);
    } else if score < 0 {
      r := Score(score, Bearish, bearishHits);
    } else {
      r := Score(score, Neutral, bullishHits + bearishHits);
    }
  }

  // ---- What the hits are ----

  /** A keyword is a hit exactly when it is in the list and occurs in the text. */
  lemma {:induction false} HitsMembers(keywords: seq<string>, text: string)
    ensures forall k :: k in Hits(keywords, text) <==> k in keywords && Contains(text, k)
    ensures |Hits(keywords, text)| <= |keywords|
  {
    if keywords != [] {
      var init := keywords[..|keywords| - 1];
      HitsMembers(init, text);
      assert keywords == init + [keywords[|keywords| - 1]];
    }
  }

  /** The hits come out in keyword-list order. */
  lemma {:induction false} HitsInListOrder(keywords: seq<string>, text: string)
    ensures IsSubsequence(Hits(keywords, text), keywords)
  {
    if keywords != [] {
      var init := keywords[..|keywords| - 1];
      var kw := keywords[|keywords| - 1];
      HitsInListOrder(init, text);
      assert keywords[..|keywords| - 1] == init;
      var h := Hits(keywords, text);
      if Contains(text, kw) {
        assert h[..|h| - 1] == Hits(init, text);
      } else {
        assert h == Hits(init, text);
        if h == [] {
          SubsequenceOfEmpty(keywords);
        } else {
          assert IsSubsequence(h, keywords[..|keywords| - 1]);
        }
      }
    }
  }

  lemma SubsequenceOfEmpty(b: seq<string>)
    ensures IsSubsequence([], b)
  {
  }

  /** A list without repeats yields hits without repeats. */
  lemma {:induction false} HitsDistinct(keywords: seq<string>, text: string)
    requires Distinct(keywords)
    ensures Distinct(Hits(keywords, text))
  {
    if keywords != [] {
      var init := keywords[..|keywords| - 1];
      var kw := keywords[|keywords| - 1];
      assert Distinct(init);
      HitsDistinct(init, text);
      HitsMembers(init, text);
      assert kw !in init;
    }
  }

  // ---- Properties of the score ----

  /** The score is bullish minus bearish hits, so it lies between -17 and 27. */
  lemma ScoreBounds(title: string, summary: string)
    ensures var text := ArticleText(title, summary);
            ScoreOf(title, summary).score ==
              |Hits(BULLISH_KEYWORDS, text)| - |Hits(BEARISH_KEYWORDS, text)|
    ensures -17 <= ScoreOf(title, summary).score <= 27
  {
    var text := ArticleText(title, summary);
    HitsMembers(BULLISH_KEYWORDS, text);
    HitsMembers(BEARISH_KEYWORDS, text);
  }

  /** The label follows the sign of the score, and names the hits of the winning list
      (both lists, bullish first, on a tie). */
  lemma LabelRule(title: string, summary: string)
    ensures var s := ScoreOf(title, summary);
            var text := ArticleText(title, summary);
            (s.sentiment == Bullish <==> s.score > 0) &&
            (s.sentiment == Bearish <==> s.score < 0) &&
            (s.sentiment == Neutral <==> s.score == 0) &&
            (s.score > 0 ==> s.keywords == Hits(BULLISH_KEYWORDS, text)) &&
            (s.score < 0 ==> s.keywords == Hits(BEARISH_KEYWORDS, text)) &&
            (s.score == 0 ==> s.keywords == Hits(BULLISH_KEYWORDS, text) + Hits(BEARISH_KEYWORDS, text))
  {
  }

  /** Every reported keyword occurs in the scored text and belongs to the active list. */
  lemma KeywordsMatchText(title: string, summary: string)
    ensures var s := ScoreOf(title, summary);
            forall k :: k in s.keywords ==>
              Contains(ArticleText(title, summary), k) &&
              (s.sentiment == Bullish ==> k in BULLISH_KEYWORDS) &&
              (s.sentiment == Bearish ==> k in BEARISH_KEYWORDS) &&
              (k in BULLISH_KEYWORDS || k in BEARISH_KEYWORDS)
  {
    var text := ArticleText(title, summary);
    HitsMembers(BULLISH_KEYWORDS, text);
    HitsMembers(BEARISH_KEYWORDS, text);
  }

  /** Reported keywords are never repeated and keep the order of their keyword list. */
  lemma KeywordsOrderedAndDistinct(title: string, summary: string)
    ensures var s := ScoreOf(title, summary);
            Distinct(s.keywords) &&
            (s.sentiment == Bullish ==> IsSubsequence(s.keywords, BULLISH_KEYWORDS)) &&
            (s.sentiment == Bearish ==> IsSubsequence(s.keywords, BEARISH_KEYWORDS))
  {
    var text := ArticleText(title, summary);
    KeywordListsDistinct();
    HitsDistinct(BULLISH_KEYWORDS, text);
    HitsDistinct(BEARISH_KEYWORDS, text);
    HitsMembers(BULLISH_KEYWORDS, text);
    HitsMembers(BEARISH_KEYWORDS, text);
    HitsInListOrder(BULLISH_KEYWORDS, text);
    HitsInListOrder(BEARISH_KEYWORDS, text);
    DistinctConcat(Hits(BULLISH_KEYWORDS, text), Hits(BEARISH_KEYWORDS, text));
  }

  // ---- The scan ----

  /** Hours of news the scan looks back over, and the cutoff it derives from the clock
      reading `now` (seconds since the epoch). */
  const SCAN_LOOKBACK_HOURS: nat := 24

  function Cutoff(now: int): int {
    now - SCAN_LOOKBACK_HOURS * 3600
  }

  /** What one article contributes: nothing when its timestamp is missing, zero or older
      than the cutoff, or when its score is zero; otherwise its result. */
  function ArticleResult(ticker: string, a: Article, cutoff: int): Option<NewsResult> {
    if a.datetime.None? || a.datetime.value == 0 || a.datetime.value < cutoff then None
    else
      var title := a.headline.GetOr("");
      var s := ScoreOf(title, a.summary.GetOr(""));
      if s.score == 0 then None
      else Some(NewsResult(ticker, title, a.datetime.value, a.url.GetOr(""),
                           a.source.GetOr("Unknown"), s.sentiment, s.score, s.keywords))
  }

  /** The feed of a ticker; a ticker whose fetch failed has an empty feed. */
  function Feed(feeds: map<string, seq<Article>>, ticker: string): seq<Article> {
    if ticker in feeds then feeds[ticker] else []
  }

  /** The results of a run of articles of one ticker, in article order. */
  function ArticleResults(ticker: string, articles: seq<Article>, cutoff: int): seq<NewsResult> {
    Keep(a => ArticleResult(ticker, a, cutoff), articles)
  }

  /** The results of one ticker: those of the first five articles of its feed. */
  function TickerResults(ticker: string, feeds: map<string, seq<Article>>, cutoff: int): seq<NewsResult> {
    ArticleResults(ticker, Prefix(Feed(feeds, ticker), ARTICLES_PER_TICKER), cutoff)
  }

  /** The results in collection order, ticker by ticker. */
  function Collected(watchlist: seq<string>, feeds: map<string, seq<Article>>, cutoff: int): seq<NewsResult> {
    FlatMap(t => TickerResults(t, feeds, cutoff), watchlist)
  }

  /** The order of the final sort: larger absolute score first. */
  function ByStrength(a: NewsResult, b: NewsResult): bool {
    AbsInt(a.sentimentScore) >= AbsInt(b.sentimentScore)
  }

  lemma ByStrengthTotal()
    ensures TotalPreorder(ByStrength)
  {
  }

  /** What `NewsScanner.scan` returns. */
  function ScanResult(watchlist: seq<string>, feeds: map<string, seq<Article>>, now: int): seq<NewsResult> {
    ByStrengthTotal();
    SortBy(Collected(watchlist, feeds, Cutoff(now)), ByStrength)
  }

  /** `NewsScanner.scan`: the fetched feeds are `feeds` and the clock reads `now`. */
  method Scan(watchlist: seq<string>, feeds: map<string, seq<Article>>, now: int)
    returns (results: seq<NewsResult>)
    ensures results == ScanResult(watchlist, feeds, now)
  {
    var cutoff := Cutoff(now);
    results := [];
    var t := 0;
    while t < |watchlist|
      invariant 0 <= t <= |watchlist|
      invariant results == Collected(watchlist[..t], feeds, cutoff)
    {
      var ticker := watchlist[t];
      var articles := Prefix(Feed(feeds, ticker), ARTICLES_PER_TICKER);
      assert watchlist[..t + 1][..t] == watchlist[..t];
      var found := ScanArticles(ticker, articles, cutoff);
      results := results + found;
      t := t + 1;
    }
    assert watchlist[..t] == watchlist;
    ByStrengthTotal();
    results := SortBy(results, ByStrength);
  }

  /** The article loop of `scan` for one ticker: the dated, recent articles with a
      non-zero score, in feed order. */
  method ScanArticles(ticker: string, articles: seq<Article>, cutoff: int) returns (found: seq<NewsResult>)
    ensures found == ArticleResults(ticker, articles, cutoff)
  {
    found := [];
    var i := 0;
    while i < |articles|
      invariant 0 <= i <= |articles|
      invariant found == ArticleResults(ticker, articles[..i], cutoff)
    {
      var article := articles[i];
      assert articles[..i + 1][..i] == articles[..i];
      if article.datetime.Some? && article.datetime.value != 0 && article.datetime.value >= cutoff {
        var title := article.headline.GetOr("");
        var s := ScoreArticle(title, article.summary.GetOr(""));
        if s.score != 0 {
          found := found + [NewsResult(ticker, title, article.datetime.value, article.url.GetOr(""),
                                       article.source.GetOr("Unknown"), s.sentiment, s.score, s.keywords)];
        }
      }
      i := i + 1;
    }
    assert articles[..i] == articles;
  }

  // ---- Properties of the scan ----

  /** A result is collected exactly when an article among the first five of the feed of
      some watchlist ticker yields it. */
  lemma CollectedMembers(watchlist: seq<string>, feeds: map<string, seq<Article>>, cutoff: int, r: NewsResult)
    ensures r in Collected(watchlist, feeds, cutoff) <==>
              exists t, i :: 0 <= t < |watchlist| && 0 <= i < |Feed(feeds, watchlist[t])| &&
                i < ARTICLES_PER_TICKER && ArticleResult(watchlist[t], Feed(feeds, watchlist[t])[i], cutoff) == Some(r)
  {
    FlatMapMembers(t => TickerResults(t, feeds, cutoff), watchlist);
    if r in Collected(watchlist, feeds, cutoff) {
      var t :| 0 <= t < |watchlist| && r in TickerResults(watchlist[t], feeds, cutoff);
      var i := TickerResultsMembers(watchlist[t], feeds, cutoff, r);
    }
    if exists t, i :: 0 <= t < |watchlist| && 0 <= i < |Feed(feeds, watchlist[t])| &&
         i < ARTICLES_PER_TICKER && ArticleResult(watchlist[t], Feed(feeds, watchlist[t])[i], cutoff) == Some(r) {
      var t, i :| 0 <= t < |watchlist| && 0 <= i < |Feed(feeds, watchlist[t])| &&
        i < ARTICLES_PER_TICKER && ArticleResult(watchlist[t], Feed(feeds, watchlist[t])[i], cutoff) == Some(r);
      TickerResultsFrom(watchlist[t], feeds, cutoff, r, i);
    }
  }

  /** A result of one ticker comes from one of the first five articles of its feed. */
  lemma TickerResultsMembers(ticker: string, feeds: map<string, seq<Article>>, cutoff: int, r: NewsResult)
    returns (i: nat)
    requires r in TickerResults(ticker, feeds, cutoff)
    ensures i < |Feed(feeds, ticker)| && i < ARTICLES_PER_TICKER
    ensures ArticleResult(ticker, Feed(feeds, ticker)[i], cutoff) == Some(r)
  {
    var articles := Prefix(Feed(feeds, ticker), ARTICLES_PER_TICKER);
    KeepMembers(a => ArticleResult(ticker, a, cutoff), articles);
    i :| 0 <= i < |articles| && ArticleResult(ticker, articles[i], cutoff) == Some(r);
    assert articles[i] == Feed(feeds, ticker)[i];
  }

  /** One of the first five articles of a ticker's feed yields its result for that ticker. */
  lemma TickerResultsFrom(ticker: string, feeds: map<string, seq<Article>>, cutoff: int, r: NewsResult, i: nat)
    requires i < |Feed(feeds, ticker)| && i < ARTICLES_PER_TICKER
    requires ArticleResult(ticker, Feed(feeds, ticker)[i], cutoff) == Some(r)
    ensures r in TickerResults(ticker, feeds, cutoff)
  {
    var articles := Prefix(Feed(feeds, ticker), ARTICLES_PER_TICKER);
    KeepMembers(a => ArticleResult(ticker, a, cutoff), articles);
    assert articles[i] == Feed(feeds, ticker)[i];
  }

  /** The scan reports exactly the collected results, each as often, strongest first,
      and results of equal strength keep their collection order. */
  lemma ScanIsStableSort(watchlist: seq<string>, feeds: map<string, seq<Article>>, now: int, x: NewsResult)
    ensures var c := Collected(watchlist, feeds, Cutoff(now));
            var r := ScanResult(watchlist, feeds, now);
            multiset(r) == multiset(c) &&
            (forall i, j :: 0 <= i < j < |r| ==> AbsInt(r[i].sentimentScore) >= AbsInt(r[j].sentimentScore)) &&
            EquivalentTo(r, x, ByStrength) == EquivalentTo(c, x, ByStrength)
  {
    ByStrengthTotal();
    SortStable(Collected(watchlist, feeds, Cutoff(now)), x, ByStrength);
  }

  /** A result is reported exactly when an article among the first five of the feed of
      some watchlist ticker yields it. */
  lemma ScanMembers(watchlist: seq<string>, feeds: map<string, seq<Article>>, now: int, r: NewsResult)
    ensures r in ScanResult(watchlist, feeds, now) <==>
              exists t, i :: 0 <= t < |watchlist| && 0 <= i < |Feed(feeds, watchlist[t])| &&
                i < ARTICLES_PER_TICKER && ArticleResult(watchlist[t], Feed(feeds, watchlist[t])[i], Cutoff(now)) == Some(r)
  {
    ByStrengthTotal();
    var c := Collected(watchlist, feeds, Cutoff(now));
    assert r in ScanResult(watchlist, feeds, now) <==> r in multiset(c);
    CollectedMembers(watchlist, feeds, Cutoff(now), r);
  }

  /** What passes: an article yields a result exactly when its timestamp is present,
      non-zero and not before the cutoff, and its score is non-zero; the result then has
      a non-neutral label and at least one keyword. */
  lemma ArticleResultRule(ticker: string, a: Article, cutoff: int)
    ensures var r := ArticleResult(ticker, a, cutoff);
            var s := ScoreOf(a.headline.GetOr(""), a.summary.GetOr(""));
            (r.Some? <==> a.datetime.Some? && a.datetime.value != 0 && a.datetime.value >= cutoff && s.score != 0) &&
            (r.Some? ==> r.value.symbol == ticker && r.value.publishedAt == a.datetime.value &&
                         r.value.sentimentScore == s.score && r.value.sentiment != Neutral &&
                         r.value.keywordsMatched != [] && r.value.keywordsMatched == s.keywords &&
                         r.value.source == a.source.GetOr("Unknown"))
  {
    var title := a.headline.GetOr("");
    var summary := a.summary.GetOr("");
    ScoreBounds(title, summary);
    LabelRule(title, summary);
  }
}
