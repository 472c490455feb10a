/**
 * The text side of CSV export and the pagination arithmetic
 * (utils/historyUtils.ts). A record is a list of (key, value) pairs in
 * insertion order, as `Object.keys` sees it.
 */
module HistoryUtils {
  import opened Types
  import opened Strings

  // ---------------------------------------------------------------------
  // CSV export
  // ---------------------------------------------------------------------

  datatype Value = Text(s: string) | Number(n: int)

  type Record = seq<(string, Value)>

  function Keys(r: Record): (ks: seq<string>)
    ensures |ks| == |r|
    ensures forall i :: 0 <= i < |r| ==> ks[i] == r[i].0
  {
    if r == [] then [] else [r[0].0] + Keys(r[1..])
  }

  /** `row[key]`: the value under the first occurrence of `key`, if any. */
  function Lookup(r: Record, key: string): (v: Option<Value>)
    ensures v.Some? <==> key in Keys(r)
  {
    if r == [] then None else if r[0].0 == key then Some(r[0].1) else Lookup(r[1..], key)
  }

  /** The value found is the one bound at the first occurrence of the key. */
  lemma {:induction false} LookupFirst(r: Record, key: string, k: nat)
    requires k < |r| && r[k].0 == key
    requires forall j :: 0 <= j < k ==> r[j].0 != key
    ensures Lookup(r, key) == Some(r[k].1)
  {
    if k > 0 {
      LookupFirst(r[1..], key, k - 1);
    }
  }

  function DigitChar(d: nat): (c: char)
    requires d < 10
    ensures '0' <= c <= '9'
  {
    ('0' as int + d) as char
  }

  /** Decimal text of a natural number. */
  function NatText(n: nat): (s: string)
    ensures |s| >= 1
    ensures forall i :: 0 <= i < |s| ==> '0' <= s[i] <= '9'
  {
    if n < 10 then [DigitChar(n)] else NatText(n / 10) + [DigitChar(n % 10)]
  }

  /** `String(value)`, with `undefined` for a key the row does not have. */
  function Stringify(v: Option<Value>): (t: string)
    ensures v.None? ==> t == "undefined"
    ensures v.Some? && v.value.Text? ==> t == v.value.s
    ensures v.Some? && v.value.Number? ==> ',' !in t && '"' !in t && '\n' !in t && t != []
  {
    match v
    case None => "undefined"
    case Some(Text(s)) => s
    case Some(Number(n)) => if n < 0 then "-" + NatText(-n) else NatText(n)
  }

  /** Every double quote doubled. */
  function EscapeQuotes(s: string): (e: string)
    ensures |e| >= |s|
    ensures forall c :: c != '"' ==> (c in e <==> c in s)
  {
    if s == [] then []
    else (if s[0] == '"' then ['"', '"'] else [s[0]]) + EscapeQuotes(s[1..])
  }

  /** Collapses every doubled quote back to one. */
  function UndoubleQuotes(e: string): string
  {
    if e == [] then []
    else if |e| >= 2 && e[0] == '"' && e[1] == '"' then ['"'] + UndoubleQuotes(e[2..])
    else [e[0]] + UndoubleQuotes(e[1..])
  }

  lemma {:induction false} UndoubleEscape(s: string)
    ensures UndoubleQuotes(EscapeQuotes(s)) == s
  {
    if s != [] {
      UndoubleEscape(s[1..]);
      var e := EscapeQuotes(s);
      if s[0] == '"' {
        assert e[2..] == EscapeQuotes(s[1..]);
      } else {
        assert e[1..] == EscapeQuotes(s[1..]);
      }
      assert [s[0]] + s[1..] == s;
    }
  }

  /** One CSV field: quotes doubled, then wrapped in quotes iff it holds a comma. */
  function EncodeField(text: string): (f: string)
    ensures ',' in f <==> ',' in text
    ensures '\n' in f <==> '\n' in text
    ensures ',' in text ==> f == "\"" + EscapeQuotes(text) + "\""
    ensures ',' !in text ==> f == EscapeQuotes(text)
  {
    var escaped := EscapeQuotes(text);
    if ',' in escaped then "\"" + escaped + "\"" else escaped
  }

  /** Reading one field back: unwrap if it holds a comma, then collapse doubled quotes. */
  function DecodeField(f: string): string
  {
    if ',' in f && |f| >= 2 then UndoubleQuotes(f[1..|f| - 1]) else UndoubleQuotes(f)
  }

  /** Every field reads back as the text it was made from. */
  lemma FieldRoundTrip(text: string)
    ensures DecodeField(EncodeField(text)) == text
  {
    UndoubleEscape(text);
    var f := EncodeField(text);
    if ',' in text {
      assert f[1..|f| - 1] == EscapeQuotes(text);
    }
  }

  function Fields(headers: seq<string>, row: Record): (fs: seq<string>)
    ensures |fs| == |headers|
    ensures forall i :: 0 <= i < |headers| ==> fs[i] == EncodeField(Stringify(Lookup(row, headers[i])))
  {
    if headers == [] then []
    else [EncodeField(Stringify(Lookup(row, headers[0])))] + Fields(headers[1..], row)
  }

  /** One data line: the row's value under each header, in header order. */
  function Line(headers: seq<string>, row: Record): string
  {
    Join(Fields(headers, row), ',')
  }

  function Lines(headers: seq<string>, data: seq<Record>): (ls: seq<string>)
    ensures |ls| == |data|
    ensures forall i :: 0 <= i < |data| ==> ls[i] == Line(headers, data[i])
  {
    if data == [] then [] else [Line(headers, data[0])] + Lines(headers, data[1..])
  }

  /**
   * The CSV text `exportToCSV` builds, or None when there is nothing to
   * export (the source shows a notice and produces no file).
   */
  function CsvContent(data: seq<Record>): (csv: Option<string>)
    ensures csv.None? <==> data == []
  {
    if data == [] then None
    else
      var headers := Keys(data[0]);
      Some(Join([Join(headers, ',')] + Lines(headers, data), '\n'))
  }

  lemma {:induction false} JoinWithout(xs: seq<string>, sep: char, c: char)
    requires c != sep
    requires forall i :: 0 <= i < |xs| ==> c !in xs[i]
    ensures c !in Join(xs, sep)
  {
    if |xs| > 1 {
      JoinWithout(xs[1..], sep, c);
    }
  }

  /** No value text holds a line break: the text of every row's fields. */
  ghost predicate SingleLine(data: seq<Record>)
  {
    && (forall i :: 0 <= i < |data| ==> forall k :: 0 <= k < |data[i]| ==> '\n' !in data[i][k].0)
    && (forall i :: 0 <= i < |data| ==> forall k :: 0 <= k < |data[i]| ==>
          data[i][k].1.Text? ==> '\n' !in data[i][k].1.s)
  }

  lemma LookupSingleLine(r: Record, key: string)
    requires forall k :: 0 <= k < |r| ==> r[k].1.Text? ==> '\n' !in r[k].1.s
    ensures '\n' !in Stringify(Lookup(r, key))
  {
    var v := Lookup(r, key);
    if v.Some? && v.value.Text? {
      LookupIn(r, key);
    }
  }

  lemma {:induction false} LookupIn(r: Record, key: string)
    requires Lookup(r, key).Some?
    ensures exists k :: 0 <= k < |r| && r[k].1 == Lookup(r, key).value
  {
    if r[0].0 != key {
      LookupIn(r[1..], key);
      var k :| 0 <= k < |r[1..]| && r[1..][k].1 == Lookup(r[1..], key).value;
      assert r[k + 1].1 == Lookup(r, key).value;
    }
  }

  /**
   * The text has a header line, the first record's keys joined by commas,
   * then exactly one line per record, in order, when no key or value holds
   * a line break.
   */
  lemma CsvLines(data: seq<Record>)
    requires data != []
    requires SingleLine(data)
    ensures var headers := Keys(data[0]);
      && Split(CsvContent(data).value, '\n') == [Join(headers, ',')] + Lines(headers, data)
      && |Split(CsvContent(data).value, '\n')| == |data| + 1
  {
    var headers := Keys(data[0]);
    var all := [Join(headers, ',')] + Lines(headers, data);
    JoinWithout(headers, ',', '\n');
    forall i | 0 <= i < |data| ensures '\n' !in Line(headers, data[i]) {
      var fs := Fields(headers, data[i]);
      forall j | 0 <= j < |fs| ensures '\n' !in fs[j] {
        LookupSingleLine(data[i], headers[j]);
      }
      JoinWithout(fs, ',', '\n');
    }
    assert forall i :: 0 <= i < |all| ==> '\n' !in all[i] by {
      forall i | 0 <= i < |all| ensures '\n' !in all[i] {
        if i > 0 { assert all[i] == Line(headers, data[i - 1]); }
      }
    }
    SplitJoin(all, '\n');
  }

  const ExampleRecord: Record := [("a", Number(1)), ("b", Text("x,y"))]

  lemma ExampleFields()
    ensures Line(["a", "b"], ExampleRecord) == "1,\"x,y\""
  {
    var r := ExampleRecord;
    assert Lookup(r, "a") == Some(Number(1));
    assert Lookup(r, "b") == Some(Text("x,y"));
    assert NatText(1) == "1";
    assert EscapeQuotes("1") == "1";
    assert EscapeQuotes("x,y") == "x,y";
    assert "x,y"[1] == ',';
    var fs := Fields(["a", "b"], r);
    assert fs[0] == "1" && fs[1] == "\"x,y\"";
    assert Join(fs, ',') == fs[0] + [','] + Join(fs[1..], ',');
  }

  lemma ExampleLines()
    ensures [Join(["a", "b"], ',')] + Lines(["a", "b"], [ExampleRecord]) == ["a,b", "1,\"x,y\""]
  {
    ExampleFields();
    var ls := Lines(["a", "b"], [ExampleRecord]);
    assert |ls| == 1 && ls[0] == Line(["a", "b"], ExampleRecord);
    assert Join(["a", "b"], ',') == "a" + [','] + Join(["b"], ',') == "a,b";
    assert ls == ["1,\"x,y\""];
  }

  lemma ExampleJoin()
    ensures Join(["a,b", "1,\"x,y\""], '\n') == "a,b\n1,\"x,y\""
  {
    var all := ["a,b", "1,\"x,y\""];
    assert all[1..] == ["1,\"x,y\""];
  }

  /** The single record {a: 1, b: "x,y"} exports as `a,b` then `1,"x,y"`. */
  lemma CsvExample()
    ensures CsvContent([ExampleRecord]) == Some("a,b\n1,\"x,y\"")
  {
    assert Keys([ExampleRecord][0]) == ["a", "b"];
    ExampleLines();
    ExampleJoin();
  }

  // ---------------------------------------------------------------------
  // Pagination
  // ---------------------------------------------------------------------

  /** The number of pages: the length divided by the page size, rounded up. */
  function TotalPages(length: nat, perPage: nat): (pages: nat)
    requires perPage >= 1
    ensures pages * perPage >= length
    ensures pages == 0 || (pages - 1) * perPage < length
  {
    (length + perPage - 1) / perPage
  }

  /** JavaScript's slice for non-negative bounds: bounds past the end are clamped to it. */
  function Slice<T>(items: seq<T>, start: nat, end: nat): (r: seq<T>)
    ensures start <= end <= |items| ==> r == items[start..end]
    ensures start <= |items| < end ==> r == items[start..]
    ensures start >= |items| ==> r == []
    ensures |r| <= if end >= start then end - start else 0
  {
    var from := if start < |items| then start else |items|;
    var to := if end < |items| then end else |items|;
    if to <= from then [] else items[from..to]
  }

  /** `getPaginatedItems(page)` for pages counted from 1. */
  function PageItems<T>(items: seq<T>, perPage: nat, page: nat): (r: seq<T>)
    requires perPage >= 1 && page >= 1
    ensures |r| <= perPage
    ensures page > TotalPages(|items|, perPage) ==> r == []
    ensures (page - 1) * perPage <= |items| ==>
              r == items[(page - 1) * perPage..if page * perPage <= |items| then page * perPage else |items|]
  {
    PageBounds(|items|, perPage, page);
    Slice(items, (page - 1) * perPage, page * perPage)
  }

  /** Page `page` ends where the next begins, and starts past the items once it is past the last page. */
  lemma PageBounds(length: nat, perPage: nat, page: nat)
    requires perPage >= 1 && page >= 1
    ensures (page - 1) * perPage + perPage == page * perPage
    ensures page > TotalPages(length, perPage) ==> (page - 1) * perPage >= length
  {
    var pages := TotalPages(length, perPage);
    if page > pages {
      MultiplyMonotone(pages, page - 1, perPage);
    }
  }

  lemma MultiplyMonotone(a: nat, b: nat, c: nat)
    requires a <= b
    ensures a * c <= b * c
  {
  }

  /** Pages 1..k laid end to end. */
  function FirstPages<T>(items: seq<T>, perPage: nat, k: nat): seq<T>
    requires perPage >= 1
  {
    if k == 0 then [] else FirstPages(items, perPage, k - 1) + PageItems(items, perPage, k)
  }

  lemma {:induction false} FirstPagesPrefix<T>(items: seq<T>, perPage: nat, k: nat)
    requires perPage >= 1
    ensures FirstPages(items, perPage, k) == items[..if k * perPage <= |items| then k * perPage else |items|]
  {
    if k > 0 {
      FirstPagesPrefix(items, perPage, k - 1);
      PageBounds(|items|, perPage, k);
      var a := (k - 1) * perPage;
      if a <= |items| {
        var b := if a + perPage <= |items| then a + perPage else |items|;
        assert PageItems(items, perPage, k) == items[a..b];
        assert items[..a] + items[a..b] == items[..b];
      } else {
        assert PageItems(items, perPage, k) == [];
      }
    }
  }

  /** Concatenating every page, first to last, gives back exactly the item list. */
  lemma AllPages<T>(items: seq<T>, perPage: nat)
    requires perPage >= 1
    ensures FirstPages(items, perPage, TotalPages(|items|, perPage)) == items
  {
    FirstPagesPrefix(items, perPage, TotalPages(|items|, perPage));
  }

  /** 120 items at 50 per page: 3 pages, 20 items on page 3, none on page 4. */
  lemma PaginationExample<T>(items: seq<T>)
    requires |items| == 120
    ensures TotalPages(|items|, 50) == 3
    ensures |PageItems(items, 50, 3)| == 20
    ensures PageItems(items, 50, 4) == []
  {
  }
}
