/** The macro landmine detector (scanner/scanners/macro_calendar.py): US economic events
    of high or medium impact that are Fed, jobs, inflation or GDP releases (or of high
    impact anyway), earnings of a fixed table of sector movers, both sorted by date, and
    the warning text built from the first five of each. */
module MacroCalendar {
  import opened Wrappers
  import opened Text
  import opened Sorting
  import Lists

  const FED_KEYWORDS: seq<string> := ["fomc", "fed", "interest rate", "powell"]
  const JOBS_KEYWORDS: seq<string> := ["nonfarm", "employment", "jobless", "unemployment"]
  const INFLATION_KEYWORDS: seq<string> := ["cpi", "ppi", "inflation", "pce"]

  const FED_DESCRIPTION: string := "\U{26A0}\U{FE0F} Fed event - HIGH volatility expected, all bets risky"
  const INFLATION_DESCRIPTION: string := "\U{26A0}\U{FE0F} Inflation data - Can reverse market direction"
  const JOBS_DESCRIPTION: string := "\U{26A0}\U{FE0F} Jobs data - Market moving event"

  /** The earnings that move whole sectors, and the sectors they move. */
  const SECTOR_MOVERS: map<string, seq<string>> := map[
    "NVDA" := ["ai_semiconductors", "ai_infrastructure", "ai_software"],
    "AMD" := ["ai_semiconductors"],
    "MSFT" := ["ai_software", "ai_infrastructure"],
    "GOOGL" := ["ai_software", "ai_infrastructure"],
    "AMZN" := ["ai_software", "ai_infrastructure"],
    "META" := ["ai_software"],
    "AAPL" := ["ai_semiconductors"],
    "TSLA" := ["robotics_defense"],
    "LMT" := ["defense_aerospace"],
    "RTX" := ["defense_aerospace"],
    "CCJ" := ["nuclear_energy"]
  ]

  /** Events and earnings shown per kind by `format_warnings`. */
  const SHOWN_PER_KIND: nat := 5

  const ECONOMIC_HEADER: string := "\U{26A0}\U{FE0F} MACRO LANDMINES (Economic Events):"
  const EARNINGS_HEADER: string := "\n\U{26A0}\U{FE0F} SECTOR-MOVING EARNINGS:"
  const NO_EVENTS: string := "No major macro events in the next 5 days."

  /** An item of the economic calendar feed; a missing field is `None`. */
  datatype EconomicItem = EconomicItem(
    country: Option<string>, impact: Option<string>, event: Option<string>, time: Option<string>)

  /** An item of the earnings calendar feed. */
  datatype EarningsItem = EarningsItem(symbol: Option<string>, date: Option<string>)

  /** `MacroEvent`. */
  datatype MacroEvent = MacroEvent(date: string, event: string, impact: string, description: string)

  /** `EarningsEvent`. */
  datatype EarningsEvent = EarningsEvent(date: string, symbol: string, company: string, sectorImpact: seq<string>)

  // ---- Economic events ----

  function Description(isFed: bool, isInflation: bool, isJobs: bool): string {
    if isFed then FED_DESCRIPTION
    else if isInflation then INFLATION_DESCRIPTION
    else if isJobs then JOBS_DESCRIPTION
    else ""
  }

  /** What one calendar item contributes to `get_economic_calendar`. */
  function Classify(item: EconomicItem): Option<MacroEvent> {
    var country := item.country.GetOr("");
    var impact := Lower(item.impact.GetOr(""));
    if country == "US" && (impact == "high" || impact == "medium") then
      var eventName := item.event.GetOr("");
      var name := Lower(eventName);
      var isFed := AnyIn(FED_KEYWORDS, name);
      var isJobs := AnyIn(JOBS_KEYWORDS, name);
      var isInflation := AnyIn(INFLATION_KEYWORDS, name);
      var isGdp := Contains(name, "gdp");
      if isFed || isJobs || isInflation || isGdp || impact == "high" then
        Some(MacroEvent(
          Prefix(item.time.GetOr(""), 10), eventName,
          if isFed || isInflation || isJobs then "high" else impact,
          Description(isFed, isInflation, isJobs)))
      else None
    else None
  }

  /** Both lists are sorted ascending by their date string. */
  function EventByDate(a: MacroEvent, b: MacroEvent): bool {
    LexLe(a.date, b.date)
  }

  lemma EventByDateTotal()
    ensures TotalPreorder(EventByDate)
  {
    forall a: MacroEvent, b: MacroEvent ensures EventByDate(a, b) || EventByDate(b, a) {
      LexTotal(a.date, b.date);
    }
    forall a: MacroEvent, b: MacroEvent, c: MacroEvent | EventByDate(a, b) && EventByDate(b, c)
      ensures EventByDate(a, c)
    {
      LexTrans(a.date, b.date, c.date);
    }
  }

  function EconomicEvents(items: seq<EconomicItem>): seq<MacroEvent> {
    Lists.Keep(Classify, items)
  }

  /** What `get_economic_calendar` returns; a failed fetch is an empty feed. */
  function EconomicCalendar(items: seq<EconomicItem>): seq<MacroEvent> {
    EventByDateTotal();
    SortBy(EconomicEvents(items), EventByDate)
  }

  /** `MacroCalendar.get_economic_calendar`, over the fetched feed. */
  method GetEconomicCalendar(items: seq<EconomicItem>) returns (events: seq<MacroEvent>)
    ensures events == EconomicCalendar(items)
  {
    events := [];
    var i := 0;
    while i < |items|
      invariant 0 <= i <= |items|
      invariant events == EconomicEvents(items[..i])
    {
      assert items[..i + 1][..i] == items[..i];
      var item := items[i];
      var e := Classify(item);
      if e.Some? {
        events := events + [e.value];
      }
      i := i + 1;
    }
    assert items[..i] == items;
    EventByDateTotal();
    events := SortBy(events, EventByDate);
  }

  // ---- Sector-moving earnings ----

  function ToEarningsEvent(item: EarningsItem): Option<EarningsEvent> {
    var symbol := item.symbol.GetOr("");
    if symbol in SECTOR_MOVERS then
      Some(EarningsEvent(item.date.GetOr(""), symbol, symbol, SECTOR_MOVERS[symbol]))
    else None
  }

  function EarningsByDate(a: EarningsEvent, b: EarningsEvent): bool {
    LexLe(a.date, b.date)
  }

  lemma EarningsByDateTotal()
    ensures TotalPreorder(EarningsByDate)
  {
    forall a: EarningsEvent, b: EarningsEvent ensures EarningsByDate(a, b) || EarningsByDate(b, a) {
      LexTotal(a.date, b.date);
    }
    forall a: EarningsEvent, b: EarningsEvent, c: EarningsEvent | EarningsByDate(a, b) && EarningsByDate(b, c)
      ensures EarningsByDate(a, c)
    {
      LexTrans(a.date, b.date, c.date);
    }
  }

  function SectorEarnings(items: seq<EarningsItem>): seq<EarningsEvent> {
    Lists.Keep(ToEarningsEvent, items)
  }

  /** What `get_major_earnings` returns. */
  function MajorEarnings(items: seq<EarningsItem>): seq<EarningsEvent> {
    EarningsByDateTotal();
    SortBy(SectorEarnings(items), EarningsByDate)
  }

  /** `MacroCalendar.get_major_earnings`, over the fetched feed. */
  method GetMajorEarnings(items: seq<EarningsItem>) returns (events: seq<EarningsEvent>)
    ensures events == MajorEarnings(items)
  {
    events := [];
    var i := 0;
    while i < |items|
      invariant 0 <= i <= |items|
      invariant events == SectorEarnings(items[..i])
    {
      assert items[..i + 1][..i] == items[..i];
      var symbol := items[i].symbol.GetOr("");
      if symbol in SECTOR_MOVERS {
        events := events + [EarningsEvent(items[i].date.GetOr(""), symbol, symbol, SECTOR_MOVERS[symbol])];
      }
      i := i + 1;
    }
    assert items[..i] == items;
    EarningsByDateTotal();
    events := SortBy(events, EarningsByDate);
  }

  // ---- The warning text ----

  function EventLines(e: MacroEvent): seq<string> {
    ["  " + e.date + ": " + e.event] + (if e.description != "" then ["    " + e.description] else [])
  }

  function EarningsLine(e: EarningsEvent): seq<string> {
    ["  " + e.date + ": " + e.symbol + " - Impacts: " + Join(e.sectorImpact, ", ")]
  }

  function EconomicLines(events: seq<MacroEvent>): seq<string> {
    if events == [] then [] else [ECONOMIC_HEADER] + Lists.FlatMap(EventLines, Prefix(events, SHOWN_PER_KIND))
  }

  function EarningsLines(events: seq<EarningsEvent>): seq<string> {
    if events == [] then [] else [EARNINGS_HEADER] + Lists.FlatMap(EarningsLine, Prefix(events, SHOWN_PER_KIND))
  }

  /** The text `format_warnings` returns for the two lists. */
  function Warnings(econ: seq<MacroEvent>, earnings: seq<EarningsEvent>): string {
    var lines := EconomicLines(econ) + EarningsLines(earnings);
    if lines == [] then NO_EVENTS else Join(lines, "\n")
  }

  /** The economic-event part of `format_warnings`: its header, then the first five events. */
  method BuildEconomicLines(econ: seq<MacroEvent>) returns (lines: seq<string>)
    ensures lines == EconomicLines(econ)
  {
    lines := [];
    if econ != [] {
      lines := [ECONOMIC_HEADER];
      var shown := Prefix(econ, SHOWN_PER_KIND);
      var i := 0;
      while i < |shown|
        invariant 0 <= i <= |shown|
        invariant lines == [ECONOMIC_HEADER] + Lists.FlatMap(EventLines, shown[..i])
      {
        assert shown[..i + 1][..i] == shown[..i];
        var e := shown[i];
        lines := lines + ["  " + e.date + ": " + e.event];
        if e.description != "" {
          lines := lines + ["    " + e.description];
        }
        i := i + 1;
      }
      assert shown[..i] == shown;
    }
  }

  /** The earnings part of `format_warnings`: its header, then the first five reports. */
  method BuildEarningsLines(earnings: seq<EarningsEvent>) returns (lines: seq<string>)
    ensures lines == EarningsLines(earnings)
  {
    lines := [];
    if earnings != [] {
      lines := [EARNINGS_HEADER];
      var shown := Prefix(earnings, SHOWN_PER_KIND);
      var i := 0;
      while i < |shown|
        invariant 0 <= i <= |shown|
        invariant lines == [EARNINGS_HEADER] + Lists.FlatMap(EarningsLine, shown[..i])
      {
        assert shown[..i + 1][..i] == shown[..i];
        var e := shown[i];
        var sectors := Join(e.sectorImpact, ", ");
        lines := lines + ["  " + e.date + ": " + e.symbol + " - Impacts: " + sectors];
        i := i + 1;
      }
      assert shown[..i] == shown;
    }
  }

  /** `MacroCalendar.format_warnings`, given the two lists `get_landmines` returned. */
  method FormatWarnings(econ: seq<MacroEvent>, earnings: seq<EarningsEvent>) returns (text: string)
    ensures text == Warnings(econ, earnings)
  {
    var econLines := BuildEconomicLines(econ);
    var earningsLines := BuildEarningsLines(earnings);
    var lines := econLines + earningsLines;
    if lines == [] {
      return NO_EVENTS;
    }
    text := Join(lines, "\n");
  }

  // ---- Properties ----

  /** An item is kept exactly when it is a US event of high or medium impact that is a
      Fed, jobs, inflation or GDP release or of high impact; a kept event's impact is
      "high" for Fed, inflation and jobs releases and the item's own otherwise, its
      description follows the priority Fed, inflation, jobs, and its date is the first
      ten characters of the item's time. */
  lemma ClassifyRule(item: EconomicItem)
    ensures var impact := Lower(item.impact.GetOr(""));
            var eventName := item.event.GetOr("");
            var name := Lower(eventName);
            var isFed := AnyIn(FED_KEYWORDS, name);
            var isJobs := AnyIn(JOBS_KEYWORDS, name);
            var isInflation := AnyIn(INFLATION_KEYWORDS, name);
            var isGdp := Contains(name, "gdp");
            var e := Classify(item);
            (e.Some? <==> item.country == Some("US") && (impact == "high" || impact == "medium") &&
                          (isFed || isJobs || isInflation || isGdp || impact == "high")) &&
            (e.Some? ==>
               e.value.event == eventName &&
               (e.value.impact == "high" || e.value.impact == "medium") &&
               ((isFed || isInflation || isJobs) ==> e.value.impact == "high") &&
               (!(isFed || isInflation || isJobs) ==> e.value.impact == impact) &&
               (isFed ==> e.value.description == FED_DESCRIPTION) &&
               (!isFed && isInflation ==> e.value.description == INFLATION_DESCRIPTION) &&
               (!isFed && !isInflation && isJobs ==> e.value.description == JOBS_DESCRIPTION) &&
               (!isFed && !isInflation && !isJobs ==> e.value.description == "") &&
               e.value.date == Prefix(item.time.GetOr(""), 10))
  {
  }

  /** A medium-impact release that matches no family is dropped. */
  lemma MediumWithoutFamilyDropped(item: EconomicItem)
    requires Lower(item.impact.GetOr("")) == "medium"
    requires var name := Lower(item.event.GetOr(""));
             !AnyIn(FED_KEYWORDS, name) && !AnyIn(JOBS_KEYWORDS, name) &&
             !AnyIn(INFLATION_KEYWORDS, name) && !Contains(name, "gdp")
    ensures Classify(item).None?
  {
  }

  /** The calendar holds exactly the kept items, each as often, in ascending date order,
      with items of the same date in feed order. */
  lemma EconomicCalendarSorted(items: seq<EconomicItem>, x: MacroEvent)
    ensures var r := EconomicCalendar(items);
            multiset(r) == multiset(EconomicEvents(items)) &&
            (forall i, j :: 0 <= i < j < |r| ==> LexLe(r[i].date, r[j].date)) &&
            EquivalentTo(r, x, EventByDate) == EquivalentTo(EconomicEvents(items), x, EventByDate)
  {
    EventByDateTotal();
    SortStable(EconomicEvents(items), x, EventByDate);
  }

  /** An event is in the calendar exactly when some item of the feed classifies to it. */
  lemma EconomicCalendarMembers(items: seq<EconomicItem>, x: MacroEvent)
    ensures x in EconomicCalendar(items) <==> exists i :: 0 <= i < |items| && Classify(items[i]) == Some(x)
  {
    var r := EconomicCalendar(items);
    assert multiset(r) == multiset(EconomicEvents(items));
    assert x in r <==> x in multiset(r);
    assert x in EconomicEvents(items) <==> x in multiset(EconomicEvents(items));
    Lists.KeepMembers(Classify, items);
  }

  /** An earnings item is kept exactly when its symbol is in the table, and then carries the
      table's sectors. */
  lemma EarningsRule(item: EarningsItem)
    ensures var symbol := item.symbol.GetOr("");
            var e := ToEarningsEvent(item);
            (e.Some? <==> symbol in SECTOR_MOVERS) &&
            (e.Some? ==> e.value.symbol == symbol && e.value.company == symbol &&
                         e.value.sectorImpact == SECTOR_MOVERS[symbol] && e.value.date == item.date.GetOr(""))
  {
  }

  /** The earnings list holds exactly the table's symbols, in ascending date order. */
  lemma MajorEarningsSorted(items: seq<EarningsItem>, x: EarningsEvent)
    ensures var r := MajorEarnings(items);
            multiset(r) == multiset(SectorEarnings(items)) &&
            (forall i, j :: 0 <= i < j < |r| ==> LexLe(r[i].date, r[j].date)) &&
            EquivalentTo(r, x, EarningsByDate) == EquivalentTo(SectorEarnings(items), x, EarningsByDate)
  {
    EarningsByDateTotal();
    SortStable(SectorEarnings(items), x, EarningsByDate);
  }

  /** Every listed report carries the table's sectors for its symbol. */
  lemma MajorEarningsMembers(items: seq<EarningsItem>, x: EarningsEvent)
    ensures x in MajorEarnings(items) <==> exists i :: 0 <= i < |items| && ToEarningsEvent(items[i]) == Some(x)
    ensures x in MajorEarnings(items) ==> x.symbol in SECTOR_MOVERS && x.sectorImpact == SECTOR_MOVERS[x.symbol]
  {
    var r := MajorEarnings(items);
    assert multiset(r) == multiset(SectorEarnings(items));
    assert x in r <==> x in multiset(r);
    assert x in SectorEarnings(items) <==> x in multiset(SectorEarnings(items));
    Lists.KeepMembers(ToEarningsEvent, items);
    if x in r {
      var i :| 0 <= i < |items| && ToEarningsEvent(items[i]) == Some(x);
    }
  }

  /** The fixed message appears exactly when both lists are empty. */
  lemma WarningsEmptyRule(econ: seq<MacroEvent>, earnings: seq<EarningsEvent>)
    ensures Warnings(econ, earnings) == NO_EVENTS <==> econ == [] && earnings == []
  {
    var lines := EconomicLines(econ) + EarningsLines(earnings);
    if lines != [] {
      assert lines[0] == ECONOMIC_HEADER || lines[0] == EARNINGS_HEADER;
      JoinHead(lines, "\n");
      assert NO_EVENTS[0] == 'N';
    }
  }

  /** Only the first five of each list are shown: later entries change nothing. */
  lemma WarningsShowFirstFive(econ: seq<MacroEvent>, earnings: seq<EarningsEvent>,
                              moreEcon: seq<MacroEvent>, moreEarnings: seq<EarningsEvent>)
    requires |econ| >= SHOWN_PER_KIND || moreEcon == []
    requires |earnings| >= SHOWN_PER_KIND || moreEarnings == []
    ensures Warnings(econ + moreEcon, earnings + moreEarnings) == Warnings(econ, earnings)
  {
    if moreEcon == [] { assert econ + moreEcon == econ; }
    if moreEarnings == [] { assert earnings + moreEarnings == earnings; }
    assert Prefix(econ + moreEcon, SHOWN_PER_KIND) == Prefix(econ, SHOWN_PER_KIND);
    assert Prefix(earnings + moreEarnings, SHOWN_PER_KIND) == Prefix(earnings, SHOWN_PER_KIND);
  }
}
