/**
 * The filter record of the history page and its single-field update
 * (components/HistoryFilters.tsx). `All` stands for the source's 'ALL'
 * option; the other choices are exactly the event types and severities.
 */
module HistoryFilters {
  import opened Types

  datatype Choice<T> = All | Only(value: T)

  datatype FilterOptions = FilterOptions(
    startDate: string,
    endDate: string,
    eventType: Choice<EventType>,
    severity: Choice<Severity>,
    searchText: string
  )

  /** The record the page starts with and that "reset" restores. */
  const DefaultFilters := FilterOptions("", "", All, All, "")

  /** The five keys of the record. */
  datatype Field = StartDateField | EndDateField | EventTypeField | SeverityField | SearchTextField

  /** `handleChange(key, value)`: a key together with a value of that key's type. */
  datatype FilterUpdate =
    | SetStartDate(date: string)
    | SetEndDate(date: string)
    | SetEventType(eventType: Choice<EventType>)
    | SetSeverity(severity: Choice<Severity>)
    | SetSearchText(text: string)

  function FieldOf(u: FilterUpdate): Field
  {
    match u
    case SetStartDate(_) => StartDateField
    case SetEndDate(_) => EndDateField
    case SetEventType(_) => EventTypeField
    case SetSeverity(_) => SeverityField
    case SetSearchText(_) => SearchTextField
  }

  /** Whether two records hold the same value under key `k`. */
  predicate SameAt(f: FilterOptions, g: FilterOptions, k: Field)
  {
    match k
    case StartDateField => f.startDate == g.startDate
    case EndDateField => f.endDate == g.endDate
    case EventTypeField => f.eventType == g.eventType
    case SeverityField => f.severity == g.severity
    case SearchTextField => f.searchText == g.searchText
  }

  /** Whether `f` holds the value the update carries, under the update's key. */
  predicate Holds(f: FilterOptions, u: FilterUpdate)
  {
    match u
    case SetStartDate(d) => f.startDate == d
    case SetEndDate(d) => f.endDate == d
    case SetEventType(t) => f.eventType == t
    case SetSeverity(s) => f.severity == s
    case SetSearchText(t) => f.searchText == t
  }

  /** A copy of the record with one key replaced: that key holds the value, every other key is unchanged. */
  function HandleChange(f: FilterOptions, u: FilterUpdate): (r: FilterOptions)
    ensures Holds(r, u)
    ensures forall k :: k != FieldOf(u) ==> SameAt(r, f, k)
  {
    match u
    case SetStartDate(d) => f.(startDate := d)
    case SetEndDate(d) => f.(endDate := d)
    case SetEventType(t) => f.(eventType := t)
    case SetSeverity(s) => f.(severity := s)
    case SetSearchText(t) => f.(searchText := t)
  }

  /** Records that agree on every key are the same record. */
  lemma {:induction false} Extensional(f: FilterOptions, g: FilterOptions)
    requires forall k :: SameAt(f, g, k)
    ensures f == g
  {
    assert SameAt(f, g, StartDateField) && SameAt(f, g, EndDateField);
    assert SameAt(f, g, EventTypeField) && SameAt(f, g, SeverityField);
    assert SameAt(f, g, SearchTextField);
  }

  /** Two changes of the same key: the later one wins. */
  lemma LastWriteWins(f: FilterOptions, u: FilterUpdate, v: FilterUpdate)
    requires FieldOf(u) == FieldOf(v)
    ensures HandleChange(HandleChange(f, u), v) == HandleChange(f, v)
  {
    var a := HandleChange(HandleChange(f, u), v);
    var b := HandleChange(f, v);
    forall k ensures SameAt(a, b, k) {
      if k != FieldOf(v) {
        assert SameAt(HandleChange(f, u), f, k);
      }
    }
    Extensional(a, b);
  }

  /** Changes of two different keys commute. */
  lemma ChangesCommute(f: FilterOptions, u: FilterUpdate, v: FilterUpdate)
    requires FieldOf(u) != FieldOf(v)
    ensures HandleChange(HandleChange(f, u), v) == HandleChange(HandleChange(f, v), u)
  {
    var a := HandleChange(HandleChange(f, u), v);
    var b := HandleChange(HandleChange(f, v), u);
    forall k ensures SameAt(a, b, k) {
      if k != FieldOf(u) && k != FieldOf(v) {
        assert SameAt(HandleChange(f, u), f, k) && SameAt(HandleChange(f, v), f, k);
      }
    }
    Extensional(a, b);
  }

  /** Setting a key to the value it already holds gives back the same record. */
  lemma ChangeToSame(f: FilterOptions, u: FilterUpdate)
    requires Holds(f, u)
    ensures HandleChange(f, u) == f
  {
    var r := HandleChange(f, u);
    forall k ensures SameAt(r, f, k) {
    }
    Extensional(r, f);
  }

  /**
   * `hasActiveFilters`: some date or the search text is non-empty, or a
   * type or severity is chosen — which is to say, the record is not the
   * default one.
   */
  function HasActiveFilters(f: FilterOptions): (active: bool)
    ensures active <==> f != DefaultFilters
  {
    f.startDate != "" || f.endDate != "" || f.eventType != All || f.severity != All || f.searchText != ""
  }

  /** Setting any key to a non-default value makes the record active. */
  lemma ChangeActivates(f: FilterOptions, u: FilterUpdate)
    requires !Holds(DefaultFilters, u)
    ensures HasActiveFilters(HandleChange(f, u))
  {
  }
}
