# stockerino scanners in Dafny

This project models the signal-detection core of the stockerino market scanner. Each
scanner fetches market data (news, option chains, quotes, price history, calendars) and
then runs a small decision procedure over it: thresholds, keyword matching, filtering,
classification and ordering. The model states those procedures over already-fetched
data and proves what each promises. A fetch that fails, or a field that is missing,
is an `Option` value or an absent map entry.

Modules, one per source file:

- `News` (news.py):
  - the keyword sentiment score of an article;
  - the news scan: the first five articles per ticker, a cutoff 24 hours before the
    clock reading, only non-zero scores, strongest first.
- `OptionsFlow` (options.py):
  - the per-contract volume and open-interest filter with its ratio tiers;
  - the choice of near-term expiries;
  - the scan sorted by volume/OI ratio;
  - the call/put volume ratio with its infinity sentinel.
- `Momentum` (momentum.py): the four price signals per quote, the drop-if-empty rule,
  and the two-key ranking.
- `Technicals` (technicals.py):
  - the RSI with Wilder smoothing;
  - the 50- and 200-bar averages and the five-bar-lagged cross test;
  - the RSI, average and short-interest signal rules.
- `MacroCalendar` (macro_calendar.py):
  - the US and impact filter of economic events, with the Fed, jobs, inflation and GDP
    keyword families, the forced impact and the description priority;
  - the table of sector-moving earnings;
  - both lists sorted by date;
  - the warning text built from the first five of each.
- `Earnings` (earnings.py): beat rate and average surprise over the last four quarters,
  and the case-insensitive watchlist filter of the earnings calendar.
- `PreMarket` (premarket.py): the pre-market move filter, the union of the watchlist
  with the always-watched symbols, and the ordering by size of move.
- `MarketContext` (market_context.py): the percent-change rule, the risk-on / risk-off
  classification, and the sector ETF table.
- `Analyzer` (analyzer.py):
  - the placeholders and limits of the prompt sections;
  - the options grouping and ratio leans;
  - the extraction of a fenced reply and the legacy sector-summary fallback.
- `Watchlist` (main.py): flattening the sector-grouped watchlist.

Shared building blocks:

- `Wrappers`: `Option`, together with Python's truthiness and `or` on optional numbers.
- `Lists`:
  - `Keep` and `FlatMap`, the shapes of the scanners' append loops;
  - an insertion-ordered dictionary, used where the source fills a `dict`.
- `Text`: ASCII case mapping, substring search, `split` pieces, `join`, slicing and
  string order.
- `Numeric`: sums, means and Python's half-even `round`.
- `Sorting`: a stable insertion sort by a total preorder. It has the same result as
  Python's `list.sort` with a key and `reverse=True`.

Modelling conventions:

- Imperative source code is modelled by methods with loops. Each method is proved equal
  to a specification function, and the properties are lemmas about those functions.
- Prices and percentages are exact `real`s. Volumes and counts are `nat`s.
- A Python truthiness test (`if year_high`, `if rsi`, `x or y`) treats zero and a
  missing value alike, and so does the model.
- The clock is a parameter:
  - `now` is seconds since the epoch for the news cutoff;
  - `today` is a day number for option expiries.
- Parsed expiry dates are inputs, and a date that fails to parse is `None`.

## Model

| member | source | states |
|---|---|---|
| News.CollectHits | scanner/scanners/news.py:63-69 | one keyword loop computes `Hits`: the keywords of the list that occur in the text, in list order |
| News.ScoreArticle | scanner/scanners/news.py:56-83 | the two keyword loops and the label rule compute `ScoreOf` on the lower-cased `title + " " + summary` |
| News.HitsMembers | scanner/scanners/news.py:63-69 | a keyword is reported exactly when it is in its list and occurs in the scored text; there are never more hits than keywords |
| News.HitsInListOrder | scanner/scanners/news.py:63-69 | the hits are a subsequence of their keyword list, so they come out in list order |
| News.HitsDistinct | scanner/scanners/news.py:63-69 | a list without repeats yields hits without repeats |
| NewsKeywords.KeywordListsDistinct | scanner/scanners/news.py:12-26 | neither keyword list repeats a keyword, and no keyword is both bullish and bearish |
| News.ScoreBounds | scanner/scanners/news.py:71 | the score is bullish hits minus bearish hits, so it lies between -17 and 27 |
| News.LabelRule | scanner/scanners/news.py:73-81 | bullish exactly for a positive score, with the bullish hits; bearish exactly for a negative score, with the bearish hits; neutral exactly for zero, with bullish then bearish hits |
| News.KeywordsMatchText | scanner/scanners/news.py:58-69 | every reported keyword occurs in the scored text and belongs to the list of the label |
| News.KeywordsOrderedAndDistinct | scanner/scanners/news.py:63-81 | reported keywords never repeat, and follow the order of the winning list |
| News.ArticleResultRule | scanner/scanners/news.py:96-124 | an article yields a result exactly when its timestamp is present, non-zero and not before the cutoff, and its score is non-zero; a result is never neutral and has at least one keyword; the source defaults to "Unknown" |
| News.Scan | scanner/scanners/news.py:85-131 | the nested loops over tickers and their first five articles, followed by the sort, compute `ScanResult` |
| News.ScanArticles | scanner/scanners/news.py:96-126 | the article loop for one ticker computes `ArticleResults`: the dated articles no older than the cutoff whose score is non-zero, in feed order, with the unknown source written `Unknown` |
| News.CollectedMembers | scanner/scanners/news.py:93-124 | a result is collected exactly when one of the first five articles of some watchlist ticker yields it |
| News.ScanMembers | scanner/scanners/news.py:85-131 | a result is reported exactly when one of the first five articles of some watchlist ticker yields it, with a timestamp not before the 24-hour cutoff |
| News.ScanIsStableSort | scanner/scanners/news.py:129 | the report is a permutation of what was collected, ordered by absolute score descending, with ties in collection order |
| OptionsFlow.ScanChain | scanner/scanners/options.py:97-148 | the row loop computes `ChainSignals`: the rows that pass the filter, in chain order |
| OptionsFlow.ScreenRow | scanner/scanners/options.py:105-146 | the checks on one row compute `RowSignal`: nothing below the volume or open-interest floor or below the unusual ratio, otherwise a signal with the ratio rounded to two places, the IV as a percentage rounded to one place (none when missing or not positive), and sweep/strong exactly at the high ratio |
| OptionsFlow.RowSignalRule | scanner/scanners/options.py:105-146 | a row yields a signal exactly when volume >= 100, open interest >= 50 and volume >= open interest (an absent or `None` cell counts 0; a NaN cell is not modelled, see Left out); a sweep of that side is strong exactly when volume >= 2 x open interest, otherwise the signal is moderate unusual volume; the ratio is the rounded volume/OI |
| OptionsFlow.ImpliedVolatilityRule | scanner/scanners/options.py:128-132 | implied volatility is reported only when present and positive, as `round(iv*100, 1)` |
| OptionsFlow.NearTermRule | scanner/scanners/options.py:66-77 | an expiry is scanned exactly when it is among the first five listed, its date parsed, and the date is at most 30 days after today |
| OptionsFlow.ScanTicker | scanner/scanners/options.py:51-95 | the expiry loop and the chain loop compute `TickerSignals`: calls then puts of each near-term expiry whose chain was fetched |
| OptionsFlow.SelectNearTerm | scanner/scanners/options.py:70-77 | the expiry loop computes `NearTermOf`: the names of the expiries that parse and fall on or before the horizon, in listed order |
| OptionsFlow.TickerSignalsOrigin | scanner/scanners/options.py:80-93 | every signal of a ticker is about that ticker, comes from a near-term expiry whose chain was fetched, and comes from a row of that chain's side that passes the filter |
| OptionsFlow.Scan | scanner/scanners/options.py:34-49 | the ticker loop and the sort compute `ScanResult` |
| OptionsFlow.ScanMembers | scanner/scanners/options.py:38-44 | a signal is reported exactly when some listed ticker yields it |
| OptionsFlow.ScanSignalsAreUnusual | scanner/scanners/options.py:109-125 | every reported signal is about a listed ticker, has volume >= 100, open interest >= 50, volume >= open interest and ratio >= 1.0, and is strong exactly when volume >= 2 x open interest |
| OptionsFlow.ScanFailureIsolated | scanner/scanners/options.py:38-44 | a ticker whose data is missing does not change the signals reported for other tickers |
| OptionsFlow.ScanIsStableSort | scanner/scanners/options.py:46-47 | the report is a permutation of what was collected, ordered by volume/OI ratio descending, with ties in collection order |
| OptionsFlow.CallPutRatios | scanner/scanners/options.py:150-182 | the ticker loop and the volume-summing loop compute `Ratios` |
| OptionsFlow.SumVolumes | scanner/scanners/options.py:162-172 | the expiry loop computes `Totals`: call and put volume summed over the expiries whose chain was fetched, a missing volume counting zero |
| OptionsFlow.TickerRatioRule | scanner/scanners/options.py:166-177 | with put volume the ratio is the rounded call/put quotient, which is never negative; with call volume only it is infinite; with neither there is none |
| OptionsFlow.TickerRatioUsesFirstTwo | scanner/scanners/options.py:166 | expiries after the first two never change the ratio |
| OptionsFlow.RatiosLookup | scanner/scanners/options.py:152-180 | each ticker is in the dictionary at most once, and it is there exactly when it was listed and got a ratio, with that ratio |
| Momentum.DetectSignals | scanner/scanners/momentum.py:64-85 | the four tests compute `QuoteSignals`, in source order |
| Momentum.SignalRules | scanner/scanners/momentum.py:66-85 | a move signal exactly when the change exceeds 3% in absolute value (strictly); near-high exactly when the 52-week high is truthy and the price exceeds 95% of it; near-low exactly when the 52-week low is truthy and the price is below 105% of it; a gap exactly when previous close and open are truthy and the gap exceeds 2% |
| Momentum.PriceSignalContents | scanner/scanners/momentum.py:67-69 | at most one move signal, which records the direction and the absolute change |
| Momentum.TickerResultRule | scanner/scanners/momentum.py:48-98 | a ticker is reported exactly when its quote has a price and at least one signal; the result carries the price, the change (0 when missing), one to four signals and zero volumes |
| Momentum.Scan | scanner/scanners/momentum.py:44-103 | the ticker loop and the sort compute `ScanResult` |
| Momentum.ScanMembers | scanner/scanners/momentum.py:48-98 | a result is reported exactly when some watchlist ticker yields it |
| Momentum.ScanResultsHaveSignals | scanner/scanners/momentum.py:87-98 | every reported result is about a watchlist ticker and has one to four signals and zero volumes |
| Momentum.ScanIsStableSort | scanner/scanners/momentum.py:100-101 | the report is a permutation of the results, ranked by number of signals and then by absolute change, descending, with ties in watchlist order |
| Technicals.SmoothAverages | scanner/scanners/technicals.py:65-67 | the smoothing loop computes Wilder's recurrence `(avg*(period-1) + x)/period` over the moves after the first window |
| Technicals.CalculateRsi | scanner/scanners/technicals.py:49-75 | the whole calculation computes `Rsi` |
| Technicals.RsiNeedsHistory | scanner/scanners/technicals.py:51-52 | there is an RSI exactly when there are at least period + 1 prices |
| Technicals.RsiWithoutEarlyLoss | scanner/scanners/technicals.py:58-62 | when none of the first `period` moves is a loss, the RSI is 100 whatever follows |
| Technicals.RsiWithEarlyLoss | scanner/scanners/technicals.py:58-75 | for a period of at least 2 and a loss in the first window, the smoothed loss stays positive, the RSI is `round(100 - 100/(1 + g/l), 1)`, and it lies in [0, 100] |
| Technicals.FinalRsiBounds | scanner/scanners/technicals.py:72-75 | for a non-negative gain and a positive loss, the rounded RSI lies in [0, 100] |
| Technicals.RsiOf | scanner/scanners/technicals.py:72-73 | the unrounded RSI lies in [0, 100) |
| Technicals.BuildRsiSignal | scanner/scanners/technicals.py:124-128 | the RSI tests compute `RsiSignal` |
| Technicals.BuildAverageSignals | scanner/scanners/technicals.py:131-145 | the average and cross tests compute `AverageSignals` |
| Technicals.BuildSignals | scanner/scanners/technicals.py:120-149 | the signal list, in source order, computes `SignalsWith` |
| Technicals.AnalyzeTicker | scanner/scanners/technicals.py:94-162 | the analysis computes `Analyze` |
| Technicals.AnalyzeAverages | scanner/scanners/technicals.py:101-115 | no analysis under 50 closes; the 50-bar average is over the last 50 closes and its flag is missing exactly when that average is zero; the 200-bar average is the mean of the last 200 closes, rounded, and it and its flag are present exactly when there are 200 closes and that mean is non-zero |
| Technicals.RsiSignalRule | scanner/scanners/technicals.py:124-128 | at most one RSI signal: overbought exactly for a truthy RSI >= 70, oversold exactly for a truthy RSI <= 30; an RSI of exactly 0 gives none |
| Technicals.AverageSignalRule | scanner/scanners/technicals.py:131-145 | with both averages truthy, above-both exactly when the price exceeds both and below-both exactly when it exceeds neither; a golden cross when the 50-bar average is above the 200-bar one after being at or below it five bars back, a death cross in the mirror case; neither pair ever appears together |
| Technicals.CrossNeedsHistory | scanner/scanners/technicals.py:138-145 | a cross is only ever reported with at least 205 closes |
| Technicals.ShortSignalRule | scanner/scanners/technicals.py:148-149 | short interest is flagged exactly when the percent of float is present, non-zero and at least 10 |
| Technicals.Scan | scanner/scanners/technicals.py:34-47 | the ticker loop computes `ScanResult` |
| Technicals.ScanMembers | scanner/scanners/technicals.py:38-42 | an analysis is reported exactly when some ticker yields it and it has signals; there are never more results than tickers |
| Technicals.ScanResultsHaveSignals | scanner/scanners/technicals.py:41-42 | every reported analysis is about a listed ticker, has signals, and rests on at least 50 closes |
| MacroCalendar.GetEconomicCalendar | scanner/scanners/macro_calendar.py:64-102 | the item loop and the sort compute `EconomicCalendar` |
| MacroCalendar.ClassifyRule | scanner/scanners/macro_calendar.py:67-94 | an item is kept exactly when it is a US event of high or medium impact that is a Fed, jobs, inflation or GDP release or of high impact; Fed, inflation and jobs releases are forced to high impact; the description priority is Fed, then inflation, then jobs, else empty; the date is exactly the first ten characters of the time |
| MacroCalendar.MediumWithoutFamilyDropped | scanner/scanners/macro_calendar.py:79-80 | a medium-impact event matching no keyword family is dropped |
| MacroCalendar.EconomicCalendarSorted | scanner/scanners/macro_calendar.py:99-100 | the calendar is a permutation of the kept events, ascending by date string, with ties in feed order |
| MacroCalendar.EconomicCalendarMembers | scanner/scanners/macro_calendar.py:64-100 | an event is in the calendar exactly when some item of the feed classifies to it |
| MacroCalendar.GetMajorEarnings | scanner/scanners/macro_calendar.py:122-141 | the item loop and the sort compute `MajorEarnings` |
| MacroCalendar.EarningsRule | scanner/scanners/macro_calendar.py:124-133 | an earnings item is kept exactly when its symbol is a key of the sector-mover table; its sectors are then that entry and its company is the symbol |
| MacroCalendar.MajorEarningsSorted | scanner/scanners/macro_calendar.py:138-139 | the list is a permutation of the kept earnings, ascending by date, with ties in feed order |
| MacroCalendar.MajorEarningsMembers | scanner/scanners/macro_calendar.py:122-139 | a report is listed exactly when some item of the feed yields it, and every listed report carries the table's sectors for its symbol |
| MacroCalendar.BuildEconomicLines | scanner/scanners/macro_calendar.py:157-163 | the economic-event loop computes `EconomicLines`: nothing for no events, else the header and, for each of the first five, its date and name and then its description when non-empty |
| MacroCalendar.BuildEarningsLines | scanner/scanners/macro_calendar.py:166-171 | the earnings loop computes `EarningsLines`: nothing for no reports, else the header and one line per report among the first five, with its sectors joined by ", " |
| MacroCalendar.FormatWarnings | scanner/scanners/macro_calendar.py:150-176 | the two parts joined by newlines, or the fixed message when both are empty, compute `Warnings` |
| MacroCalendar.WarningsEmptyRule | scanner/scanners/macro_calendar.py:173-174 | the text is the fixed "No major macro events" message exactly when both lists are empty |
| MacroCalendar.WarningsShowFirstFive | scanner/scanners/macro_calendar.py:160-169 | entries after the fifth of either list never change the text, whatever the length of the other list |
| Earnings.Beats | scanner/scanners/earnings.py:53-54 | the number of beats never exceeds the number of quarters, and equals it exactly when every quarter beat |
| Earnings.BeatRate | scanner/scanners/earnings.py:48-56 | there is no beat rate exactly for an empty history; otherwise it lies in [0, 1] |
| Earnings.BeatRateRule | scanner/scanners/earnings.py:53-56 | the beat rate is the number of beats among the first four quarters divided by min(len, 4); it is 1 exactly when all of those beat, and 0 exactly when none did |
| Earnings.StatisticsUseFourQuarters | scanner/scanners/earnings.py:53-64 | quarters after the fourth never change either statistic |
| Earnings.CalculateAvgSurprise | scanner/scanners/earnings.py:58-71 | the loop computes `AvgSurprise` |
| Earnings.SurprisesMembers | scanner/scanners/earnings.py:64-69 | the averaged terms are exactly `(a - e)/abs(e)*100` for the first four quarters whose actual and estimate are present and non-zero |
| Earnings.AvgSurpriseRule | scanner/scanners/earnings.py:63-71 | there is no average surprise exactly when no quarter among the first four has a present, non-zero actual and estimate |
| Earnings.SurpriseSign | scanner/scanners/earnings.py:68 | a surprise is positive exactly when the actual beat the estimate, and zero exactly when they are equal |
| Earnings.AllBeatsPositiveSurprise | scanner/scanners/earnings.py:64-71 | when every counted quarter beat, the average surprise is positive |
| Earnings.WatchlistFilterRule | scanner/scanners/earnings.py:85-86 | a calendar entry is kept exactly when some watchlist symbol equals its symbol up to case |
| Earnings.WatchlistEarningsOrder | scanner/scanners/earnings.py:86 | the filter keeps calendar order (concatenated calendars are filtered piecewise) and keeps exactly the watchlist entries |
| Earnings.BuildRecord | scanner/scanners/earnings.py:97-105 | the record of one entry carries its symbol, date, upper-cased report time, estimates, and the beat rate and average surprise of its symbol's history (empty when not fetched), as `Record` states |
| Earnings.Scan | scanner/scanners/earnings.py:73-107 | the record loop computes `ScanResult` |
| Earnings.ScanRecords | scanner/scanners/earnings.py:88-105 | one record per kept entry, in order, carrying the entry's symbol and date and its symbol's statistics; the report time is present exactly when the entry's time is non-empty |
| PreMarket.CheckTickerRule | scanner/scanners/premarket.py:57-88 | a ticker is dropped exactly when it has no truthy previous close, no truthy pre-market or regular price, or a move under 3%; the pre-market price takes precedence; the result keeps the ticker and the watchlist flag |
| PreMarket.MoverIsSignificant | scanner/scanners/premarket.py:69-73 | every reported mover's rounded change is at least 3% in absolute value |
| PreMarket.VolumeFallback | scanner/scanners/premarket.py:76 | the volume is the pre-market volume, else the regular volume, else 0 |
| PreMarket.Scan | scanner/scanners/premarket.py:31-49 | the loop over the scanned tickers, taken in any order, reports each mover of `MoversOf` exactly once and sorts them by absolute change descending |
| PreMarket.MoversRule | scanner/scanners/premarket.py:36-42 | a mover is found exactly when its symbol is on the watchlist or always watched and its check passes; it is flagged on-watchlist exactly when its symbol is in the watchlist; no symbol yields two movers |
| MarketContext.SectorLoop | scanner/scanners/market_context.py:77-87 | the ETF loop computes `SectorPerformance` over the five configured ETFs |
| MarketContext.Scan | scanner/scanners/market_context.py:40-102 | the scan computes `ContextOf` |
| MarketContext.ContextRule | scanner/scanners/market_context.py:49-102 | there is no context exactly when an index fetch failed; otherwise the SPY and QQQ prices, all three changes and the VIX level are rounded to two places, the sentiment is classified on the unrounded values, and the sector table has each configured ETF at most once, present with its rounded change exactly when its fetch succeeded |
| MarketContext.PctChange | scanner/scanners/market_context.py:54 | the change is 0 when the previous value is 0, otherwise `(p - prev)/prev*100` |
| MarketContext.ChangeRule | scanner/scanners/market_context.py:52-62 | the change is 0 when the previous close is zero or missing, because it then defaults to the price |
| MarketContext.ClassifyRule | scanner/scanners/market_context.py:64-74 | VIX > 25 is risk-off whatever SPY and QQQ do; otherwise risk-on exactly when VIX < 15 with SPY up, or both changes > 0.5; risk-off exactly when VIX > 25, or both changes < -0.5 without the calm rule firing; the name is always one of three |
| MarketContext.SectorPerformanceRule | scanner/scanners/market_context.py:77-87 | the table's keys are exactly the fetched ETFs, once each, in configured order, each with its rounded change |
| MarketContext.SectorKeys | scanner/scanners/market_context.py:32-38 | an ETF is in the table exactly when it is configured and its fetch succeeded |
| Analyzer.SectionsRule | scanner/analyzer.py:26-176 | the earnings, momentum, technicals and pre-market sections fall back to their fixed placeholders exactly when their input is empty |
| Analyzer.FormatNews | scanner/analyzer.py:43-56 | the line loop computes `NewsText` |
| Analyzer.NewsRule | scanner/analyzer.py:45-56 | the news placeholder appears exactly when there is no news; otherwise at most 15 items of three lines each are shown, and the keyword line of item i lists only its first three keywords |
| Analyzer.NewsShowsFifteen | scanner/analyzer.py:49 | news items after the fifteenth never change the section |
| Analyzer.FormatPremarket | scanner/analyzer.py:164-176 | the line loop computes `PremarketSection` |
| Analyzer.MoverLinesRule | scanner/analyzer.py:171-174 | one line per mover, in order, rising exactly for a positive change and tagged exactly when the mover is off the watchlist |
| Analyzer.PremarketShowsTen | scanner/analyzer.py:171 | at most the first ten movers are shown |
| Analyzer.PremarketShowsFirstTen | scanner/analyzer.py:166-172 | movers after the tenth never change the pre-market section |
| Analyzer.FormatOptions | scanner/analyzer.py:71-109 | the grouping loop, the per-symbol selection and the ratio loop compute `OptionsSection` |
| Analyzer.GroupRule | scanner/analyzer.py:79-83 | groups come in order of first appearance, each symbol once, and each group holds exactly that symbol's signals in input order |
| Analyzer.TopSignalsRule | scanner/analyzer.py:90 | a symbol shows min(n, 3) of its signals, each at most as often as in the group, by ratio descending, and no signal left out has a higher ratio than one shown |
| Analyzer.TopSignalsStable | scanner/analyzer.py:90 | signals of equal ratio are shown in their input order, and those shown are the first of them in the group |
| Analyzer.LeanOf | scanner/analyzer.py:101-106 | bullish exactly above 1.5 (the infinite ratio included), bearish exactly below 0.7, neutral in between |
| Analyzer.RatioLinesRule | scanner/analyzer.py:97-107 | one line per ratio entry, the lines' (symbol, ratio) pairs a permutation of the entries, each labelled with its lean, sorted descending with the infinite ratio above every finite one |
| Analyzer.RatioLinesStable | scanner/analyzer.py:97-107 | entries of equal ratio keep their dictionary order in the lines |
| Analyzer.OptionsSectionRule | scanner/analyzer.py:73-97 | the placeholder appears exactly when there are neither signals nor ratios; the unusual-activity part is empty exactly when there are no signals, and the ratio part exactly when there are no ratios |
| Analyzer.ExtractJsonRule | scanner/analyzer.py:234-237 | after a "```json" fence the result is what follows it, up to the next fence when no second "```json" intervenes; otherwise it is the text between the first two plain fences, or the reply unchanged when there is no fence; a fenced result never contains a fence |
| Analyzer.LegacySummaryRule | scanner/analyzer.py:265-271 | a bare-string summary has as outlook the text before the first " - " (or "Neutral" when there is none), the whole string as overview, and no news |
| Analyzer.ParseSectors | scanner/analyzer.py:253-271 | the sector loop computes `Summaries` |
| Analyzer.SummariesRule | scanner/analyzer.py:255-271 | one summary per sector of the reply, each from that sector's last entry |
| Watchlist.FlattenLength | scanner/main.py:38-40 | the output has as many entries as all sectors list together |
| Watchlist.FlattenMembers | scanner/main.py:40 | a ticker is in the output exactly when some sector lists it |
| Watchlist.FlattenAppend | scanner/main.py:40 | sector order is kept, and within each sector the list order |
| Watchlist.DuplicatesKept | scanner/main.py:40 | a ticker listed by two sectors appears twice |
| Watchlist.FlattenEmpty | scanner/main.py:40 | the output is empty exactly when every sector is empty, in particular for an empty watchlist |

## Left out

- Network access is modelled as inputs, never performed. This covers every HTTP, Finnhub, FMP and yfinance call, including all the `_get_*` fetch helpers.
  - A failed fetch is a missing map entry, a `None`, or an empty sequence, depending on what the source returns on failure.
- Clock and dates are parameters: `now` for the news cutoff, and `today` plus parsed expiry dates for options. The model does not do date arithmetic, `strftime` or `strptime`. The news result keeps the raw timestamp instead of a `datetime`.
- Exceptions:
  - The scanners' `try`/`except` around a ticker or an article are modelled as that item being absent.
  - An optional field is an `Option`, and `None` stands for an absent key, read with the source's default. A key that is present with a JSON null is not modelled separately. The source treats such a null differently in each place:
    - Economic calendar, null `impact`: in the source, `.lower()` on `None` raises inside the one `try` that wraps the whole item loop (scanner/scanners/macro_calendar.py:50-96). The events appended before that item are kept and still sorted, and the rest of the feed is lost. The model reads the impact as `""`, so it drops only that item and goes on with the rest.
    - Pre-market, null `shortName`: in the source, `PreMarketMover(name=None)` fails validation (scanner/scanners/premarket.py:79-88), and the per-ticker `except` (lines 43-44) skips that ticker. The model reports the mover under the ticker's own name, as for an absent `shortName`.
    - Market context, null price in an index (`currentPrice` absent or falsy and `regularMarketPrice` null): in the source, the arithmetic or the `round` on `None` raises, and the whole scan returns `None` (scanner/scanners/market_context.py:52-54, 100-102). The model reads the price as 0, as for absent keys.
    - Market context, null price in a sector ETF (same condition): in the source, an ETF whose previous close is truthy raises and is skipped (lines 84-87), and one whose previous close is falsy is listed with change 0. The model reads the price as 0, as for absent keys, so an ETF with a non-zero previous close is listed with a change of -100%.
  - OptionsFlow.RowSignal and OptionsFlow.ScanTicker: in a pandas chain a missing `volume` or `openInterest` cell is NaN, not absent. `NaN or 0` is NaN, so the `int(...)` at scanner/scanners/options.py:105-106 raises. Then that side's `_scan_chain` returns nothing, and the per-expiry `except` (lines 92-93) drops that side's signals. A raise in the calls also loses that expiry's puts. The model has no NaN. It counts only an absent or `None` cell as 0, and it keeps the other rows of the chain.
- Floating point: the model uses exact real arithmetic, so there are no NaN or infinity values except the modelled infinite call/put ratio. numpy and pandas calls (`np.diff`, `np.mean`, `iterrows`, `.sum()`) become sequence functions.
- In-place sorts are modelled by a stable sort on a sequence, and the method assigns the sorted result. The array update itself is not modelled.
- Text rendering of signals: momentum and technical signals are kept as data (direction, percent, level), not as f-strings. This includes the `:.1f` and `:,` number formatting.
- The analyzer's line text for the earnings, momentum, technicals, options and pre-market sections is modelled as data. The model keeps which entries are shown and in what order, but not the formatted numbers and emoji.
- Case mapping: `lower`/`upper` are ASCII-only. Other Unicode case mappings are not modelled.
- The `_format_market_context` section, the sector-context title-casing and the default macro-warning text of `analyze` are not modelled. They are text formatting only.
- Pre-market placeholder: in the source file itself the `±` of the pre-market placeholder is stored mis-encoded, as `¬±` (scanner/analyzer.py:167). The model writes the intended `±`.
- LLM and JSON:
  - The request to the language model is not modelled.
  - Neither is `json.loads`, the `.strip()` before it, or building `Opportunity`/`WatchlistItem` records from the reply.
  - The reply's sector summaries are an input list of structured or bare-string entries. A summary that is neither a dict nor a string (where the source would call `str`) is not modelled.
- PreMarket.Scan: the source walks a `set`, whose order is unspecified, so the model leaves the order of equal-size moves unspecified too. `get_market_futures` is not part of this model.
- Technicals.CalculateRsi:
  - The period is a parameter of at least 1. The source only calls it with 14.
  - For period 1 the smoothed loss can reach zero after a non-zero first window, and the second `avg_loss == 0` test then returns 100.
  - Technicals.RsiWithEarlyLoss therefore states the positive-loss case only for periods of at least 2.
- MacroCalendar.FormatWarnings: the `days_ahead` argument only changes the fetched range, so it is not modelled. The fixed message always says five days, as in the source.
- Rendering, delivery and the command line are not modelled: the PDF report, email, Google Drive upload, the Rich console, `run_scan`, `main` and the loading of `watchlist.json`.
