/**
 * The history page (pages/History.tsx): which logged events pass the
 * filters, the summary statistics of the sampled data, the records handed
 * to the CSV export, the window of page buttons with its Previous/Next
 * clamps, and the page's own state (events, filters, current page).
 */
module History {
  import opened Types
  import opened Strings
  import opened HistoryFilters
  import opened HistoryUtils

  // ---------------------------------------------------------------------
  // Event filter
  // ---------------------------------------------------------------------

  /** The date part of a timestamp: its first piece when split on spaces. */
  function EventDate(timestamp: string): (date: string)
    ensures date == BeforeFirstSpace(timestamp)
    ensures date <= timestamp && ' ' !in date
  {
    SplitHead(timestamp);
    Split(timestamp, ' ')[0]
  }

  /** The filter callback: each test that fails rejects the event, in the source's order. */
  function Passes(f: FilterOptions, e: SystemEvent): bool
  {
    if f.eventType.Only? && e.eventType != f.eventType.value then false
    else if f.severity.Only? && e.severity != f.severity.value then false
    else if f.searchText != "" && !Includes(ToLower(e.message), ToLower(f.searchText)) then false
    else if f.startDate != "" && LexLess(EventDate(e.timestamp), f.startDate) then false
    else if f.endDate != "" && LexLess(f.endDate, EventDate(e.timestamp)) then false
    else true
  }

  /** `a <= b` on strings, read as "equal or lexically smaller". */
  predicate LexAtMost(a: string, b: string)
  {
    a == b || LexLess(a, b)
  }

  /**
   * An event passes exactly when all five conditions hold: the chosen type,
   * the chosen severity, the search text occurring case-insensitively in
   * the message, and its date on or after the start and on or before the
   * end, for each filter that is set.
   */
  lemma PassesIff(f: FilterOptions, e: SystemEvent)
    ensures Passes(f, e) <==>
      && (f.eventType == All || f.eventType == Only(e.eventType))
      && (f.severity == All || f.severity == Only(e.severity))
      && (f.searchText == "" || exists i :: OccursAt(ToLower(e.message), ToLower(f.searchText), i))
      && (f.startDate == "" || LexAtMost(f.startDate, EventDate(e.timestamp)))
      && (f.endDate == "" || LexAtMost(EventDate(e.timestamp), f.endDate))
  {
    var date := EventDate(e.timestamp);
    IncludesMeansOccurs(ToLower(e.message), ToLower(f.searchText));
    LexLessTrichotomy(date, f.startDate);
    LexLessTrichotomy(date, f.endDate);
    LexLessIrreflexive(date);
    assert (f.eventType == All || f.eventType == Only(e.eventType)) <==> !(f.eventType.Only? && e.eventType != f.eventType.value);
    assert (f.severity == All || f.severity == Only(e.severity)) <==> !(f.severity.Only? && e.severity != f.severity.value);
    assert (f.startDate == "" || LexAtMost(f.startDate, date)) <==> !(f.startDate != "" && LexLess(date, f.startDate));
    assert (f.endDate == "" || LexAtMost(date, f.endDate)) <==> !(f.endDate != "" && LexLess(f.endDate, date));
    assert (f.searchText == "" || exists i :: OccursAt(ToLower(e.message), ToLower(f.searchText), i))
      <==> !(f.searchText != "" && !Includes(ToLower(e.message), ToLower(f.searchText)));
    assert Passes(f, e) <==>
      && !(f.eventType.Only? && e.eventType != f.eventType.value)
      && !(f.severity.Only? && e.severity != f.severity.value)
      && !(f.searchText != "" && !Includes(ToLower(e.message), ToLower(f.searchText)))
      && !(f.startDate != "" && LexLess(date, f.startDate))
      && !(f.endDate != "" && LexLess(f.endDate, date));
  }

  /** With the same start and end date, the date tests keep exactly the events of that day. */
  lemma SingleDay(f: FilterOptions, e: SystemEvent)
    requires f.startDate != "" && f.startDate == f.endDate
    requires f.eventType == All && f.severity == All && f.searchText == ""
    ensures Passes(f, e) <==> EventDate(e.timestamp) == f.startDate
  {
    PassesIff(f, e);
    LexLessTrichotomy(EventDate(e.timestamp), f.startDate);
  }

  /** The search ignores the letter case of the search text. */
  lemma SearchIgnoresCase(f: FilterOptions, e: SystemEvent)
    ensures Passes(f, e) == Passes(f.(searchText := ToLower(f.searchText)), e)
  {
    var t := f.searchText;
    assert ToLower(ToLower(t)) == ToLower(t);
  }

  /** The default record, the one reset restores, lets every event through. */
  lemma DefaultPasses(e: SystemEvent)
    ensures Passes(DefaultFilters, e)
  {
  }

  /** Clearing any one filter can only let more events through. */
  lemma ClearingWidens(f: FilterOptions, u: FilterUpdate, e: SystemEvent)
    requires Holds(DefaultFilters, u)
    requires Passes(f, e)
    ensures Passes(HandleChange(f, u), e)
  {
    PassesIff(f, e);
    PassesIff(HandleChange(f, u), e);
  }

  /** The events that pass the filters, in log order. */
  function FilterEvents(f: FilterOptions, events: seq<SystemEvent>): (r: seq<SystemEvent>)
    ensures |r| <= |events|
    ensures forall e :: e in r <==> e in events && Passes(f, e)
  {
    if events == [] then []
    else (if Passes(f, events[0]) then [events[0]] else []) + FilterEvents(f, events[1..])
  }

  /** `a` is `b` with some elements left out and the rest in their order. */
  ghost predicate SubsequenceOf<T>(a: seq<T>, b: seq<T>)
    decreases |b|
  {
    if a == [] then true
    else if b == [] then false
    else if a[0] == b[0] then SubsequenceOf(a[1..], b[1..])
    else SubsequenceOf(a, b[1..])
  }

  /** The filtered list keeps the events' order. */
  lemma {:induction false} FilterSubsequence(f: FilterOptions, events: seq<SystemEvent>)
    ensures SubsequenceOf(FilterEvents(f, events), events)
  {
    if events != [] {
      FilterSubsequence(f, events[1..]);
      var rest := FilterEvents(f, events[1..]);
      if Passes(f, events[0]) {
        assert FilterEvents(f, events) == [events[0]] + rest;
        assert FilterEvents(f, events)[1..] == rest;
      } else {
        assert FilterEvents(f, events) == rest;
        if rest != [] {
          assert rest[0] in rest;
          assert rest[0] != events[0];
        }
      }
    }
  }

  /** Filtering a concatenation filters each part. */
  lemma {:induction false} FilterAppend(f: FilterOptions, a: seq<SystemEvent>, b: seq<SystemEvent>)
    ensures FilterEvents(f, a + b) == FilterEvents(f, a) + FilterEvents(f, b)
  {
    if a == [] {
      assert a + b == b;
    } else {
      assert (a + b)[0] == a[0];
      assert (a + b)[1..] == a[1..] + b;
      FilterAppend(f, a[1..], b);
    }
  }

  /** Under the default filters the list comes back whole. */
  lemma {:induction false} FilterDefault(events: seq<SystemEvent>)
    ensures FilterEvents(DefaultFilters, events) == events
  {
    if events != [] {
      FilterDefault(events[1..]);
      assert [events[0]] + events[1..] == events;
    }
  }

  /** Filtering twice with the same record is filtering once. */
  lemma {:induction false} FilterIdempotent(f: FilterOptions, events: seq<SystemEvent>)
    ensures FilterEvents(f, FilterEvents(f, events)) == FilterEvents(f, events)
  {
    if events != [] {
      FilterIdempotent(f, events[1..]);
      var head := if Passes(f, events[0]) then [events[0]] else [];
      FilterAppend(f, head, FilterEvents(f, events[1..]));
    }
  }

  // ---------------------------------------------------------------------
  // Statistics
  // ---------------------------------------------------------------------

  /** The sum of the values, added from the left, in exact arithmetic. */
  function Sum(xs: seq<real>): real
  {
    if xs == [] then 0.0 else Sum(xs[..|xs| - 1]) + xs[|xs| - 1]
  }

  /** The least of the values. */
  function Minimum(xs: seq<real>): (m: real)
    requires xs != []
    ensures m in xs
    ensures forall x :: x in xs ==> m <= x
  {
    if |xs| == 1 then xs[0]
    else
      var rest := Minimum(xs[1..]);
      assert forall x :: x in xs ==> x == xs[0] || x in xs[1..];
      if xs[0] <= rest then xs[0] else rest
  }

  /** The greatest of the values. */
  function Maximum(xs: seq<real>): (m: real)
    requires xs != []
    ensures m in xs
    ensures forall x :: x in xs ==> x <= m
  {
    if |xs| == 1 then xs[0]
    else
      var rest := Maximum(xs[1..]);
      assert forall x :: x in xs ==> x == xs[0] || x in xs[1..];
      if xs[0] >= rest then xs[0] else rest
  }

  /** The sum of `n` values lies between `n` times their least and `n` times their greatest. */
  lemma {:induction false} SumBetween(xs: seq<real>, lo: real, hi: real)
    requires forall x :: x in xs ==> lo <= x <= hi
    ensures |xs| as real * lo <= Sum(xs) <= |xs| as real * hi
  {
    if xs != [] {
      var init := xs[..|xs| - 1];
      assert forall x :: x in init ==> x in xs;
      assert xs[|xs| - 1] in xs;
      SumBetween(init, lo, hi);
    }
  }

  lemma MeanBounds(s: real, n: real, lo: real, hi: real)
    requires n > 0.0 && n * lo <= s <= n * hi
    ensures lo <= s / n <= hi
  {
    var q := s / n;
    assert s == q * n;
    assert (q - lo) * n >= 0.0;
    assert (hi - q) * n >= 0.0;
  }

  lemma AverageWithin(xs: seq<real>, lo: real, hi: real)
    requires xs != []
    requires forall x :: x in xs ==> lo <= x <= hi
    ensures lo <= Sum(xs) / |xs| as real <= hi
  {
    SumBetween(xs, lo, hi);
    MeanBounds(Sum(xs), |xs| as real, lo, hi);
  }

  /** The arithmetic mean, which lies between the least and greatest value. */
  function Mean(xs: seq<real>): (m: real)
    requires xs != []
    ensures Minimum(xs) <= m <= Maximum(xs)
  {
    AverageWithin(xs, Minimum(xs), Maximum(xs));
    Sum(xs) / |xs| as real
  }

  function Temperatures(data: seq<HistoricalDataPoint>): (ts: seq<real>)
    ensures |ts| == |data|
    ensures forall i :: 0 <= i < |data| ==> ts[i] == data[i].temperature
  {
    seq(|data|, i requires 0 <= i < |data| => data[i].temperature)
  }

  function Humidities(data: seq<HistoricalDataPoint>): (hs: seq<real>)
    ensures |hs| == |data|
    ensures forall i :: 0 <= i < |data| ==> hs[i] == data[i].humidity
  {
    seq(|data|, i requires 0 <= i < |data| => data[i].humidity)
  }

  datatype Stats = Stats(
    avgTemp: real, minTemp: real, maxTemp: real,
    avgHumidity: real, minHumidity: real, maxHumidity: real)

  /** Both ranges are ordered and each mean lies inside its range. */
  predicate Ordered(s: Stats)
  {
    && s.minTemp <= s.avgTemp <= s.maxTemp
    && s.minHumidity <= s.avgHumidity <= s.maxHumidity
  }

  /**
   * `stats`: nothing for an empty series; otherwise the mean, least and
   * greatest temperature and humidity, each mean inside its range.
   */
  function ComputeStats(data: seq<HistoricalDataPoint>): (s: Option<Stats>)
    ensures s.None? <==> data == []
    ensures s.Some? ==> Ordered(s.value)
  {
    if data == [] then None
    else
      var temps := Temperatures(data);
      var hums := Humidities(data);
      Some(Stats(
        Mean(temps), Minimum(temps), Maximum(temps),
        Mean(hums), Minimum(hums), Maximum(hums)))
  }

  /** Each reported extreme is one of the samples and bounds all of them. */
  lemma StatsExtremes(data: seq<HistoricalDataPoint>)
    requires data != []
    ensures var s := ComputeStats(data).value;
      && (forall i :: 0 <= i < |data| ==>
            && s.minTemp <= data[i].temperature <= s.maxTemp
            && s.minHumidity <= data[i].humidity <= s.maxHumidity)
      && (exists i :: 0 <= i < |data| && data[i].temperature == s.minTemp)
      && (exists i :: 0 <= i < |data| && data[i].temperature == s.maxTemp)
      && (exists i :: 0 <= i < |data| && data[i].humidity == s.minHumidity)
      && (exists i :: 0 <= i < |data| && data[i].humidity == s.maxHumidity)
  {
    var temps := Temperatures(data);
    var hums := Humidities(data);
    forall i | 0 <= i < |data|
      ensures Minimum(temps) <= data[i].temperature <= Maximum(temps)
      ensures Minimum(hums) <= data[i].humidity <= Maximum(hums)
    {
      assert temps[i] in temps && hums[i] in hums;
    }
    IndexOf(temps, Minimum(temps));
    IndexOf(temps, Maximum(temps));
    IndexOf(hums, Minimum(hums));
    IndexOf(hums, Maximum(hums));
  }

  lemma IndexOf(xs: seq<real>, x: real)
    requires x in xs
    ensures exists i :: 0 <= i < |xs| && xs[i] == x
  {
  }

  // ---------------------------------------------------------------------
  // Export
  // ---------------------------------------------------------------------

  const ExportHeaders: seq<string> := ["Data/Hora", "Tipo", "Mensagem", "Severidade"]

  /** The four columns handed to the CSV writer for one event. */
  function ExportRecord(e: SystemEvent): (r: Record)
    ensures Keys(r) == ExportHeaders
    ensures '\n' !in e.timestamp && '\n' !in e.message ==>
      forall k :: 0 <= k < |r| ==> '\n' !in r[k].0 && (r[k].1.Text? ==> '\n' !in r[k].1.s)
  {
    assert '\n' !in EventTypeName(e.eventType) && '\n' !in SeverityName(e.severity);
    [("Data/Hora", Text(e.timestamp)), ("Tipo", Text(EventTypeName(e.eventType))),
     ("Mensagem", Text(e.message)), ("Severidade", Text(SeverityName(e.severity)))]
  }

  /** Each export header finds the event's own field: time, type, message and severity. */
  lemma ExportColumns(e: SystemEvent)
    ensures Lookup(ExportRecord(e), "Data/Hora") == Some(Text(e.timestamp))
    ensures Lookup(ExportRecord(e), "Tipo") == Some(Text(EventTypeName(e.eventType)))
    ensures Lookup(ExportRecord(e), "Mensagem") == Some(Text(e.message))
    ensures Lookup(ExportRecord(e), "Severidade") == Some(Text(SeverityName(e.severity)))
  {
    var r := ExportRecord(e);
    assert r[0].0 != "Tipo" && r[0].0 != "Mensagem" && r[0].0 != "Severidade";
    assert r[1].0 != "Mensagem" && r[1].0 != "Severidade" && r[2].0 != "Severidade";
    LookupFirst(r, "Data/Hora", 0);
    LookupFirst(r, "Tipo", 1);
    LookupFirst(r, "Mensagem", 2);
    LookupFirst(r, "Severidade", 3);
  }

  function ExportRecords(events: seq<SystemEvent>): (rs: seq<Record>)
    ensures |rs| == |events|
    ensures forall i :: 0 <= i < |events| ==> rs[i] == ExportRecord(events[i])
  {
    if events == [] then [] else [ExportRecord(events[0])] + ExportRecords(events[1..])
  }

  lemma ExportHeaderLine()
    ensures Join(ExportHeaders, ',') == "Data/Hora,Tipo,Mensagem,Severidade"
  {
    var h := ExportHeaders;
    assert h[1..] == ["Tipo", "Mensagem", "Severidade"];
    assert h[1..][1..] == ["Mensagem", "Severidade"];
    assert h[1..][1..][1..] == ["Severidade"];
  }

  /**
   * Exporting a non-empty list of events whose timestamps and messages hold
   * no line break gives a header line naming the four columns, then one
   * line per event, in order.
   */
  lemma ExportLines(events: seq<SystemEvent>)
    requires events != []
    requires forall i :: 0 <= i < |events| ==> '\n' !in events[i].timestamp && '\n' !in events[i].message
    ensures var lines := Split(CsvContent(ExportRecords(events)).value, '\n');
      && |lines| == |events| + 1
      && lines[0] == "Data/Hora,Tipo,Mensagem,Severidade"
      && forall i :: 0 <= i < |events| ==> lines[i + 1] == Line(ExportHeaders, ExportRecord(events[i]))
  {
    var data := ExportRecords(events);
    ExportSingleLine(events);
    CsvLines(data);
    ExportHeaderLine();
    assert Keys(data[0]) == ExportHeaders;
  }

  lemma ExportSingleLine(events: seq<SystemEvent>)
    requires forall i :: 0 <= i < |events| ==> '\n' !in events[i].timestamp && '\n' !in events[i].message
    ensures SingleLine(ExportRecords(events))
  {
  }

  /** Nothing to export gives no file. */
  lemma ExportNothing()
    ensures CsvContent(ExportRecords([])) == None
  {
  }

  // ---------------------------------------------------------------------
  // Pagination controls
  // ---------------------------------------------------------------------

  const ItemsPerPage: nat := 50

  function MinInt(a: int, b: int): int
  {
    if a <= b then a else b
  }

  /** First page of the button window: 1, or two before the current page once it is past 3 of more than 5. */
  function WindowStart(totalPages: int, currentPage: int): int
  {
    if totalPages > 5 && currentPage > 3 then currentPage - 2 else 1
  }

  /** Buttons `i`..`count-1` of the window, each page past the last one dropped. */
  function Window(start: int, i: nat, count: nat, totalPages: int): (ps: seq<int>)
    requires i <= count
    ensures |ps| <= count - i
    ensures forall p :: p in ps <==> start + i <= p < start + count && p <= totalPages
    ensures forall k :: 0 <= k < |ps| ==> ps[k] == start + i + k
    decreases count - i
  {
    if i == count then []
    else (if start + i > totalPages then [] else [start + i]) + Window(start, i + 1, count, totalPages)
  }

  /**
   * The page buttons: at most min(5, totalPages) consecutive pages, all
   * between 1 and totalPages, always including the current page when that
   * page exists.
   */
  function PageButtons(totalPages: nat, currentPage: int): (ps: seq<int>)
    ensures |ps| <= MinInt(5, totalPages)
    ensures forall k :: 0 <= k < |ps| ==> 1 <= ps[k] <= totalPages
    ensures forall k :: 0 < k < |ps| ==> ps[k] == ps[k - 1] + 1
    ensures 1 <= currentPage <= totalPages ==> currentPage in ps
  {
    Window(WindowStart(totalPages, currentPage), 0, MinInt(5, totalPages), totalPages)
  }

  /** Away from both ends of a long list, the window is centred on the current page. */
  lemma CentredWindow(totalPages: nat, currentPage: int)
    requires totalPages > 5 && 3 < currentPage <= totalPages - 2
    ensures PageButtons(totalPages, currentPage) ==
      [currentPage - 2, currentPage - 1, currentPage, currentPage + 1, currentPage + 2]
  {
    var ps := PageButtons(totalPages, currentPage);
    assert currentPage + 2 in ps;
  }

  /** The page the Previous button moves to: one back, never below page 1. */
  function PreviousPage(currentPage: int): (p: int)
    ensures p >= 1
    ensures currentPage >= 1 ==> p <= currentPage
  {
    if currentPage - 1 >= 1 then currentPage - 1 else 1
  }

  /** The page the Next button moves to: one on, never past the last page. */
  function NextPage(totalPages: int, currentPage: int): (p: int)
    ensures p <= totalPages
    ensures currentPage <= totalPages ==> p >= currentPage
  {
    if currentPage + 1 <= totalPages then currentPage + 1 else totalPages
  }

  /** Next then Previous comes back, except on the last page. */
  lemma NextThenPrevious(totalPages: int, currentPage: int)
    requires 1 <= currentPage < totalPages
    ensures PreviousPage(NextPage(totalPages, currentPage)) == currentPage
  {
  }

  /** Previous then Next comes back, except on the first page. */
  lemma PreviousThenNext(totalPages: int, currentPage: int)
    requires 1 < currentPage <= totalPages
    ensures NextPage(totalPages, PreviousPage(currentPage)) == currentPage
  {
  }

  // ---------------------------------------------------------------------
  // The page's state
  // ---------------------------------------------------------------------

  /** The loaded events, the filter record and the current page. */
  class HistoryView {
    var events: seq<SystemEvent>
    var filters: FilterOptions
    var currentPage: int

    ghost predicate Valid()
      reads this
    {
      currentPage >= 1
    }

    function Filtered(): seq<SystemEvent>
      reads this
    {
      FilterEvents(filters, events)
    }

    function TotalPagesNow(): nat
      reads this
    {
      TotalPages(|Filtered()|, ItemsPerPage)
    }

    /** The table's rows: the current page of the filtered events. */
    function Visible(): seq<SystemEvent>
      reads this
      requires Valid()
    {
      PageItems(Filtered(), ItemsPerPage, currentPage)
    }

    constructor ()
      ensures Valid()
      ensures events == [] && filters == DefaultFilters && currentPage == 1
    {
      events := [];
      filters := DefaultFilters;
      currentPage := 1;
    }

    /** The event log arriving from the service. */
    method LoadEvents(es: seq<SystemEvent>)
      modifies this`events
      ensures events == es
    {
      events := es;
    }

    /** `onFiltersChange`: the new record replaces the old; the current page is kept as it is. */
    method ChangeFilters(f: FilterOptions)
      modifies this`filters
      ensures filters == f
    {
      filters := f;
    }

    /** Reset: default filters and page 1, which shows the first events of the whole log. */
    method ResetFilters()
      modifies this
      ensures Valid()
      ensures filters == DefaultFilters && currentPage == 1 && events == old(events)
      ensures Filtered() == events
      ensures Visible() == events[..MinInt(ItemsPerPage, |events|)]
    {
      filters := DefaultFilters;
      currentPage := 1;
      FilterDefault(events);
    }

    method GoToPrevious()
      requires Valid() && TotalPagesNow() > 1
      modifies this`currentPage
      ensures Valid()
      ensures currentPage == PreviousPage(old(currentPage))
    {
      currentPage := if currentPage - 1 >= 1 then currentPage - 1 else 1;
    }

    /** Next is only on screen when there is more than one page. */
    method GoToNext()
      requires Valid() && TotalPagesNow() > 1
      modifies this`currentPage
      ensures Valid() && currentPage <= TotalPagesNow()
      ensures currentPage == NextPage(TotalPagesNow(), old(currentPage))
    {
      var total := TotalPagesNow();
      currentPage := if currentPage + 1 <= total then currentPage + 1 else total;
    }

    /** A click on one of the page buttons on screen. */
    method GoToPage(p: int)
      requires p in PageButtons(TotalPagesNow(), currentPage)
      modifies this`currentPage
      ensures Valid() && currentPage <= TotalPagesNow()
      ensures currentPage == p
    {
      currentPage := p;
    }
  }
}
