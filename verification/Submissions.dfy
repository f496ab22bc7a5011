/** Flattening SEC's columnar filing history and choosing the applicable filing
    (app/sec/submissions.py). */
module Submissions {
  import opened Wrappers

  datatype CalendarDate = CalendarDate(year: int, month: int, day: int)

  /** `datetime.date`: years 1 to 9999. */
  type Date = d: CalendarDate | 1 <= d.year <= 9999 witness CalendarDate(1, 1, 1)

  predicate Before(d: Date, e: Date) {
    d.year < e.year || (d.year == e.year && (d.month < e.month || (d.month == e.month && d.day < e.day)))
  }

  /** Days on a calendar with 31 days to the month. */
  function Ordinal(d: Date): int { (d.year * 12 + d.month) * 31 + d.day }

  /** On calendar dates `Before` is the order of the days. */
  lemma BeforeIsEarlier(d: Date, e: Date)
    requires 1 <= d.month <= 12 && 1 <= d.day <= 31 && 1 <= e.month <= 12 && 1 <= e.day <= 31
    ensures Before(d, e) <==> Ordinal(d) < Ordinal(e)
  {
  }

  datatype FilingRecord = FilingRecord(
    cik: string, form: string, filingDate: Date, accessionNumber: string, primaryDocument: string, companyName: string)

  /** The columns of `filings.recent`; an absent column is empty. */
  datatype Payload = Payload(
    cik: Option<string>, name: string,
    forms: seq<string>, dates: seq<string>, accessions: seq<string>, documents: seq<string>)

  datatype ParseError = KeyError | IndexError

  /** `date.fromisoformat`, as a parameter: None stands for ValueError. */
  type DateParser = string -> Option<Date>

  /** `s` after as many zeros as make it `width` characters, if it is shorter. */
  predicate ZeroPadded(z: string, s: string, width: nat) {
    && |z| == (if |s| >= width then |s| else width) && z[|z| - |s|..] == s
    && forall i | 0 <= i < |z| - |s| :: z[i] == '0'
  }

  function ZeroFill(s: string, width: nat): string
    decreases width - |s|
  {
    if |s| >= width then s else ZeroFill("0" + s, width)
  }

  lemma {:induction false} ZeroFillPads(s: string, width: nat)
    ensures ZeroPadded(ZeroFill(s, width), s, width)
    decreases width - |s|
  {
    if |s| < width {
      ZeroFillPads("0" + s, width);
      var z := ZeroFill(s, width);
      assert z[|z| - |s|..] == z[|z| - |s| - 1..][1..];
      assert forall i | 0 <= i < |z| - |s| - 1 :: z[i] == '0';
      assert z[|z| - |s| - 1] == z[|z| - |s| - 1..][0];
    }
  }

  // ----- parsing --------------------------------------------------------------

  /** Row `i` has a date cell and the cell is a date. */
  predicate Dated(p: Payload, iso: DateParser, i: nat) {
    i < |p.dates| && iso(p.dates[i]).Some?
  }

  function RecordAt(p: Payload, iso: DateParser, i: nat): FilingRecord
    requires p.cik.Some? && i < |p.forms| && i < |p.accessions| && Dated(p, iso, i)
  {
    FilingRecord(ZeroFill(p.cik.value, 10), p.forms[i], iso(p.dates[i]).value, p.accessions[i],
                 if i < |p.documents| then p.documents[i] else "", p.name)
  }

  /** The record's fields are the cells of row `i`, a missing document cell being empty. */
  predicate IsRow(p: Payload, iso: DateParser, i: nat, f: FilingRecord) {
    && i < |p.forms| && f.form == p.forms[i]
    && i < |p.dates| && iso(p.dates[i]) == Some(f.filingDate)
    && i < |p.accessions| && f.accessionNumber == p.accessions[i]
    && (if i < |p.documents| then f.primaryDocument == p.documents[i] else f.primaryDocument == "")
    && f.companyName == p.name && p.cik.Some? && ZeroPadded(f.cik, p.cik.value, 10)
  }

  /** The rows are those with a date, in order, and the records are those rows, one by one. */
  ghost predicate AreRows(p: Payload, iso: DateParser, rows: seq<nat>, records: seq<FilingRecord>) {
    && (forall i: nat :: i in rows <==> i < |p.forms| && i < |p.dates| && iso(p.dates[i]).Some?)
    && (forall k, l | 0 <= k < l < |rows| :: rows[k] < rows[l])
    && |rows| == |records| && forall k | 0 <= k < |rows| :: IsRow(p, iso, rows[k], records[k])
  }

  /** The dated rows among the first `n`, in order. */
  ghost function DatedRows(p: Payload, iso: DateParser, n: nat): (rows: seq<nat>)
    ensures forall k | 0 <= k < |rows| :: rows[k] < n && Dated(p, iso, rows[k])
    ensures forall k, l | 0 <= k < l < |rows| :: rows[k] < rows[l]
    ensures forall i: nat | i < n && Dated(p, iso, i) :: i in rows
  {
    if n == 0 then []
    else DatedRows(p, iso, n - 1) + if Dated(p, iso, n - 1) then [n - 1] else []
  }

  /** Every dated row has an accession number. */
  ghost predicate AccessionsCover(p: Payload, iso: DateParser) {
    forall i: nat | i < |p.forms| && Dated(p, iso, i) :: i < |p.accessions|
  }

  /** The records are exactly those of the dated rows, in order; a missing `cik` is a
      KeyError and a dated row without an accession number an IndexError. */
  method ParseSubmissions(p: Payload, iso: DateParser) returns (r: Result<seq<FilingRecord>, ParseError>)
    ensures r.Ok? <==> p.cik.Some? && AccessionsCover(p, iso)
    ensures r.Err? ==> r.error == if p.cik.None? then KeyError else IndexError
    ensures r.Ok? ==> r.value == Records(p, iso, |p.forms|)
    ensures r.Ok? ==> AreRows(p, iso, DatedRows(p, iso, |p.forms|), r.value)
  {
    if p.cik.None? {
      return Err(KeyError);
    }
    hide AreRows;
    var cik := ZeroFill(p.cik.value, 10);
    var records: seq<FilingRecord> := [];
    for i := 0 to |p.forms|
      invariant forall j: nat | j < i && Dated(p, iso, j) :: j < |p.accessions|
      invariant records == Records(p, iso, i)
    {
      if i >= |p.dates| || iso(p.dates[i]).None? {
        continue;
      }
      if i >= |p.accessions| {
        assert Dated(p, iso, i) && !AccessionsCover(p, iso);
        return Err(IndexError);
      }
      var document := if i < |p.documents| then p.documents[i] else "";
      records := records + [FilingRecord(cik, p.forms[i], iso(p.dates[i]).value, p.accessions[i], document, p.name)];
    }
    RecordsAreRows(p, iso);
    return Ok(records);
  }

  lemma RecordsAreRows(p: Payload, iso: DateParser)
    requires p.cik.Some? && AccessionsCover(p, iso)
    ensures AreRows(p, iso, DatedRows(p, iso, |p.forms|), Records(p, iso, |p.forms|))
  {
    hide IsRow, ZeroFill;
    var records := Records(p, iso, |p.forms|);
    forall k | 0 <= k < |records| ensures IsRow(p, iso, DatedRows(p, iso, |p.forms|)[k], records[k]) {
      RecordIsRow(p, iso, DatedRows(p, iso, |p.forms|)[k]);
    }
  }

  lemma RecordIsRow(p: Payload, iso: DateParser, i: nat)
    requires p.cik.Some? && i < |p.forms| && i < |p.accessions| && Dated(p, iso, i)
    ensures IsRow(p, iso, i, RecordAt(p, iso, i))
  {
    hide ZeroFill, ZeroPadded;
    ZeroFillPads(p.cik.value, 10);
  }

  /** What `ParseSubmissions` returns on success, as a function. */
  function Records(p: Payload, iso: DateParser, n: nat): (r: seq<FilingRecord>)
    requires p.cik.Some? && n <= |p.forms|
    requires forall i: nat | i < n && Dated(p, iso, i) :: i < |p.accessions|
    ensures |r| == |DatedRows(p, iso, n)|
    ensures forall k | 0 <= k < |r| :: r[k] == RecordAt(p, iso, DatedRows(p, iso, n)[k])
  {
    if n == 0 then []
    else Records(p, iso, n - 1) + if Dated(p, iso, n - 1) then [RecordAt(p, iso, n - 1)] else []
  }

  // ----- selection ------------------------------------------------------------

  datatype FilingSelector = FilingSelector(form: string, includeAmended: bool) {
    predicate Matches(f: string) {
      if includeAmended then f == form || f == form + "/A" else f == form
    }
  }

  function Filter<T>(s: seq<T>, p: T -> bool): seq<T> {
    if s == [] then []
    else Filter(s[..|s| - 1], p) + if p(s[|s| - 1]) then [s[|s| - 1]] else []
  }

  /** `max(candidates, key=filing_date)`: the first of the greatest. */
  function LatestOf(candidates: seq<FilingRecord>): FilingRecord
    requires candidates != []
  {
    var last := candidates[|candidates| - 1];
    if |candidates| == 1 then last
    else
      var m := LatestOf(candidates[..|candidates| - 1]);
      if Before(m.filingDate, last.filingDate) then last else m
  }

  function FormTest(selector: FilingSelector): FilingRecord -> bool { (f: FilingRecord) => selector.Matches(f.form) }

  function YearTest(year: int): FilingRecord -> bool { (f: FilingRecord) => f.filingDate.year == year }

  function DocumentTest(): FilingRecord -> bool { (f: FilingRecord) => f.primaryDocument != "" }

  function Candidates(filings: seq<FilingRecord>, selector: FilingSelector, year: Option<int>): seq<FilingRecord> {
    var matching := Filter(filings, FormTest(selector));
    var ofYear := if year.Some? then Filter(matching, YearTest(year.value)) else matching;
    Filter(ofYear, DocumentTest())
  }

  /** None stands for the PermanentSecError of an empty candidate list. */
  function SelectLatest(filings: seq<FilingRecord>, selector: FilingSelector, year: Option<int>): Option<FilingRecord> {
    var candidates := Candidates(filings, selector, year);
    if candidates == [] then None else Some(LatestOf(candidates))
  }

  // ----- correctness ------------------------------------------------------------

  /** The form asked for, or its amendment if amendments are included too. */
  predicate AskedFor(selector: FilingSelector, form: string) {
    form == selector.form || (selector.includeAmended && form == selector.form + "/A")
  }

  predicate Qualifies(f: FilingRecord, selector: FilingSelector, year: Option<int>) {
    AskedFor(selector, f.form) && (year.Some? ==> f.filingDate.year == year.value) && f.primaryDocument != ""
  }

  function QualifyTest(selector: FilingSelector, year: Option<int>): FilingRecord -> bool {
    (f: FilingRecord) => Qualifies(f, selector, year)
  }

  lemma {:induction false} FilterAppend<T>(s: seq<T>, x: T, p: T -> bool)
    ensures Filter(s + [x], p) == Filter(s, p) + if p(x) then [x] else []
  {
    assert (s + [x])[..|s|] == s;
  }

  lemma {:induction false} FilterTwice<T(!new)>(s: seq<T>, p: T -> bool, q: T -> bool, both: T -> bool)
    requires forall x: T :: both(x) == (p(x) && q(x))
    ensures Filter(Filter(s, p), q) == Filter(s, both)
  {
    if s != [] {
      var t, x := s[..|s| - 1], s[|s| - 1];
      FilterTwice(t, p, q, both);
      assert both(x) == (p(x) && q(x));
      if p(x) {
        FilterAppend(Filter(t, p), x, q);
        assert Filter(s, p) == Filter(t, p) + [x];
      } else {
        assert Filter(s, p) == Filter(t, p);
      }
    }
  }

  lemma CandidatesAreQualifying(filings: seq<FilingRecord>, selector: FilingSelector, year: Option<int>)
    ensures Candidates(filings, selector, year) == Filter(filings, QualifyTest(selector, year))
  {
    if year.Some? {
      var matchesInYear := (f: FilingRecord) => selector.Matches(f.form) && f.filingDate.year == year.value;
      FilterTwice(filings, FormTest(selector), YearTest(year.value), matchesInYear);
      FilterTwice(filings, matchesInYear, DocumentTest(), QualifyTest(selector, year));
    } else {
      FilterTwice(filings, FormTest(selector), DocumentTest(), QualifyTest(selector, year));
    }
  }

  /** Where the filtered elements came from: increasing positions, none missed. */
  ghost predicate Positions<T>(s: seq<T>, p: T -> bool, at: seq<nat>) {
    && |at| == |Filter(s, p)|
    && (forall k | 0 <= k < |at| :: at[k] < |s| && p(s[at[k]]) && Filter(s, p)[k] == s[at[k]])
    && (forall k, l | 0 <= k < l < |at| :: at[k] < at[l])
    && (forall i | 0 <= i < |s| && p(s[i]) :: i in at)
  }

  lemma {:induction false} FilterPositions<T>(s: seq<T>, p: T -> bool) returns (at: seq<nat>)
    ensures Positions(s, p, at)
  {
    if s == [] {
      at := [];
    } else {
      var t := s[..|s| - 1];
      at := FilterPositions(t, p);
      assert forall i | 0 <= i < |t| && p(s[i]) :: t[i] == s[i] && i in at;
      if p(s[|s| - 1]) {
        at := at + [|s| - 1];
      }
    }
  }

  lemma {:induction false} LatestOfIsFirstGreatest(c: seq<FilingRecord>) returns (k: nat)
    requires c != []
    ensures k < |c| && c[k] == LatestOf(c)
    ensures forall l | 0 <= l < |c| :: !Before(c[k].filingDate, c[l].filingDate)
    ensures forall l | 0 <= l < k :: Before(c[l].filingDate, c[k].filingDate)
  {
    if |c| == 1 {
      k := 0;
    } else {
      var t := c[..|c| - 1];
      k := LatestOfIsFirstGreatest(t);
      assert forall l | 0 <= l < |t| :: !Before(c[k].filingDate, t[l].filingDate) && t[l] == c[l];
      assert forall l | 0 <= l < k :: Before(t[l].filingDate, c[k].filingDate) && t[l] == c[l];
      if Before(c[k].filingDate, c[|c| - 1].filingDate) {
        k := |c| - 1;
      }
    }
  }

  /** Position `i` holds the latest qualifying filing, and the first of that date. */
  ghost predicate IsSelected(filings: seq<FilingRecord>, selector: FilingSelector, year: Option<int>, i: nat) {
    && i < |filings| && Qualifies(filings[i], selector, year)
    && (forall j | 0 <= j < |filings| && Qualifies(filings[j], selector, year) ::
          !Before(filings[i].filingDate, filings[j].filingDate)
          && (j < i ==> Before(filings[j].filingDate, filings[i].filingDate)))
  }

  lemma NothingQualifies(filings: seq<FilingRecord>, selector: FilingSelector, year: Option<int>)
    ensures SelectLatest(filings, selector, year).None? <==>
              forall i | 0 <= i < |filings| :: !Qualifies(filings[i], selector, year)
  {
    CandidatesAreQualifying(filings, selector, year);
    var p := QualifyTest(selector, year);
    var at := FilterPositions(filings, p);
    assert forall i | 0 <= i < |filings| :: Qualifies(filings[i], selector, year) ==> p(filings[i]) && i in at;
    if at != [] {
      assert p(filings[at[0]]);
    }
  }

  /** Selection returns the latest qualifying filing, the first of equals, and raises
      (see NothingQualifies) exactly when nothing qualifies. */
  lemma SelectLatestIsCorrect(filings: seq<FilingRecord>, selector: FilingSelector, year: Option<int>) returns (i: nat)
    requires SelectLatest(filings, selector, year).Some?
    ensures IsSelected(filings, selector, year, i) && filings[i] == SelectLatest(filings, selector, year).value
  {
    CandidatesAreQualifying(filings, selector, year);
    var p := QualifyTest(selector, year);
    var at := FilterPositions(filings, p);
    var c := Filter(filings, p);
    var k := LatestOfIsFirstGreatest(c);
    i := at[k];
    assert p(filings[i]);
    forall j | 0 <= j < |filings| && Qualifies(filings[j], selector, year)
      ensures !Before(filings[i].filingDate, filings[j].filingDate)
           && (j < i ==> Before(filings[j].filingDate, filings[i].filingDate))
    {
      assert p(filings[j]) && j in at;
      var l :| 0 <= l < |at| && at[l] == j;
      assert c[l] == filings[j];
      assert j < i ==> l < k;
    }
  }

  /** Row `i` of the columns is dated, of a form asked for, of the year asked for, and names a document. */
  predicate RowQualifies(p: Payload, iso: DateParser, selector: FilingSelector, year: Option<int>, i: nat) {
    && i < |p.forms| && AskedFor(selector, p.forms[i])
    && i < |p.dates| && iso(p.dates[i]).Some? && (year.Some? ==> iso(p.dates[i]).value.year == year.value)
    && i < |p.documents| && p.documents[i] != ""
  }

  /** It is the latest of those, and the first of its date. */
  ghost predicate RowSelected(p: Payload, iso: DateParser, selector: FilingSelector, year: Option<int>, i: nat) {
    && RowQualifies(p, iso, selector, year, i)
    && (forall j: nat | RowQualifies(p, iso, selector, year, j) ::
          var d, e := iso(p.dates[i]).value, iso(p.dates[j]).value;
          !Before(d, e) && (j < i ==> Before(e, d)))
  }

  lemma RowsOfRecords(p: Payload, iso: DateParser, selector: FilingSelector, year: Option<int>, i: nat)
    requires p.cik.Some? && AccessionsCover(p, iso) && i < |p.forms| && Dated(p, iso, i)
    ensures RowQualifies(p, iso, selector, year, i) <==> Qualifies(RecordAt(p, iso, i), selector, year)
  {
  }

  lemma RowOfRecord(p: Payload, iso: DateParser, j: nat) returns (l: nat)
    requires p.cik.Some? && AccessionsCover(p, iso) && j < |p.forms| && Dated(p, iso, j)
    ensures l < |DatedRows(p, iso, |p.forms|)| && DatedRows(p, iso, |p.forms|)[l] == j
    ensures Records(p, iso, |p.forms|)[l] == RecordAt(p, iso, j)
  {
    var rows := DatedRows(p, iso, |p.forms|);
    assert j in rows;
    l :| 0 <= l < |rows| && rows[l] == j;
    assert Records(p, iso, |p.forms|)[l] == RecordAt(p, iso, rows[l]);
  }

  /** Parse, then select, raises exactly when no row qualifies. */
  lemma ParseThenSelectRaises(p: Payload, iso: DateParser, selector: FilingSelector, year: Option<int>)
    requires p.cik.Some? && AccessionsCover(p, iso)
    ensures SelectLatest(Records(p, iso, |p.forms|), selector, year).None?
       <==> forall i: nat :: !RowQualifies(p, iso, selector, year, i)
  {
    var records, rows := Records(p, iso, |p.forms|), DatedRows(p, iso, |p.forms|);
    NothingQualifies(records, selector, year);
    forall j: nat ensures RowQualifies(p, iso, selector, year, j) ==>
        exists l :: 0 <= l < |records| && Qualifies(records[l], selector, year)
    {
      if RowQualifies(p, iso, selector, year, j) {
        RowsOfRecords(p, iso, selector, year, j);
        var l := RowOfRecord(p, iso, j);
        assert Qualifies(records[l], selector, year);
      }
    }
    forall l | 0 <= l < |records| && Qualifies(records[l], selector, year)
      ensures RowQualifies(p, iso, selector, year, rows[l])
    {
      assert records[l] == RecordAt(p, iso, rows[l]);
      RowsOfRecords(p, iso, selector, year, rows[l]);
    }
  }

  /** No qualifying row is later than a selected record, and none before it as late. */
  lemma RowNotLater(p: Payload, iso: DateParser, selector: FilingSelector, year: Option<int>, k: nat, j: nat)
    requires p.cik.Some? && AccessionsCover(p, iso)
    requires IsSelected(Records(p, iso, |p.forms|), selector, year, k)
    requires RowQualifies(p, iso, selector, year, j)
    ensures var i := DatedRows(p, iso, |p.forms|)[k];
            var d, e := iso(p.dates[i]).value, iso(p.dates[j]).value;
            !Before(d, e) && (j < i ==> Before(e, d))
  {
    var records, rows := Records(p, iso, |p.forms|), DatedRows(p, iso, |p.forms|);
    RowsOfRecords(p, iso, selector, year, j);
    var l := RowOfRecord(p, iso, j);
    assert records[k] == RecordAt(p, iso, rows[k]);
    assert Qualifies(records[l], selector, year);
    assert j < rows[k] ==> l < k;
  }

  /** Parse, then select: every field of the chosen record comes from one row of the
      columns, the first among the latest qualifying rows. */
  lemma ParseThenSelect(p: Payload, iso: DateParser, selector: FilingSelector, year: Option<int>) returns (i: nat)
    requires p.cik.Some? && AccessionsCover(p, iso)
    requires SelectLatest(Records(p, iso, |p.forms|), selector, year).Some?
    ensures RowSelected(p, iso, selector, year, i)
    ensures IsRow(p, iso, i, SelectLatest(Records(p, iso, |p.forms|), selector, year).value)
  {
    var records := Records(p, iso, |p.forms|);
    var k := SelectLatestIsCorrect(records, selector, year);
    i := DatedRows(p, iso, |p.forms|)[k];
    assert records[k] == RecordAt(p, iso, i);
    RowsOfRecords(p, iso, selector, year, i);
    RecordIsRow(p, iso, i);
    forall j: nat | RowQualifies(p, iso, selector, year, j)
      ensures !Before(iso(p.dates[i]).value, iso(p.dates[j]).value)
           && (j < i ==> Before(iso(p.dates[j]).value, iso(p.dates[i]).value))
    {
      RowNotLater(p, iso, selector, year, k, j);
    }
  }

  /** Asking for amendments as well never finds less, nor anything older. */
  lemma AmendmentsNeverOlder(filings: seq<FilingRecord>, form: string, year: Option<int>)
    requires SelectLatest(filings, FilingSelector(form, false), year).Some?
    ensures var base := SelectLatest(filings, FilingSelector(form, false), year).value;
            var widened := SelectLatest(filings, FilingSelector(form, true), year);
            widened.Some? && !Before(widened.value.filingDate, base.filingDate)
  {
    var narrow, wide := FilingSelector(form, false), FilingSelector(form, true);
    var i := SelectLatestIsCorrect(filings, narrow, year);
    assert Qualifies(filings[i], wide, year);
    NothingQualifies(filings, wide, year);
    var k := SelectLatestIsCorrect(filings, wide, year);
  }

  /** The filing year is the requested year, and the document is named. */
  lemma SelectedYear(filings: seq<FilingRecord>, selector: FilingSelector, year: Option<int>)
    requires SelectLatest(filings, selector, year).Some?
    ensures year.Some? ==> SelectLatest(filings, selector, year).value.filingDate.year == year.value
    ensures SelectLatest(filings, selector, year).value in filings
    ensures SelectLatest(filings, selector, year).value.primaryDocument != ""
  {
    var i := SelectLatestIsCorrect(filings, selector, year);
  }
}
