/** Report identity (app/reports/identity.py) and the Redis keys built from it
    (app/reports/repository.py). */
module Identity {
  import opened Wrappers
  import opened Strings

  /** Placeholder year of a request for the latest applicable filing. */
  const LATEST_YEAR_SENTINEL: int := 0

  datatype ReportIdentity = ReportIdentity(ticker: string, form: string, year: int, quarter: Option<string>)

  // ----- the grammar of tickers and forms ----------------------------------

  predicate TickerOk(s: string) {
    1 <= |s| <= 10 && IsUpperLetter(s[0]) && forall c | c in s[1..] :: IsUpperLetter(c) || c == '.' || c == '-'
  }

  predicate AlphaNumeric(s: string) {
    s != "" && forall c | c in s :: IsUpperLetter(c) || IsDigit(c)
  }

  /** One alphanumeric run, or two with a dash between them. */
  predicate BaseFormOk(s: string) {
    var i := IndexOf(s, '-');
    AlphaNumeric(s[..i]) && (i < |s| ==> AlphaNumeric(s[i + 1..]))
  }

  /** A base form, optionally followed by the amendment marker `/A`. */
  predicate FormOk(s: string) {
    if |s| >= 2 && s[|s| - 2..] == "/A" then BaseFormOk(s[..|s| - 2]) else BaseFormOk(s)
  }

  predicate ValidIdentity(i: ReportIdentity) {
    TickerOk(i.ticker) && FormOk(i.form)
  }

  /** The constructor: upper-cases ticker and form, then checks their grammar. */
  function MakeIdentity(ticker: string, form: string, year: int, quarter: Option<string>)
    : (r: Result<ReportIdentity, string>)
    ensures r.Ok? ==> ValidIdentity(r.value)
  {
    if !TickerOk(Upper(ticker)) then Err("Invalid ticker")
    else if !FormOk(Upper(form)) then Err("Invalid form")
    else Ok(ReportIdentity(Upper(ticker), Upper(form), year, quarter))
  }

  /** The same text with some letters in lower case. */
  predicate Lowered(s: string, t: string) {
    |s| == |t| && forall i | 0 <= i < |s| :: s[i] == t[i] || ('A' <= t[i] <= 'Z' && s[i] as int == t[i] as int + 32)
  }

  lemma UpperOfLowered(s: string, t: string)
    requires Lowered(s, t) && forall c | c in t :: !('a' <= c <= 'z')
    ensures Upper(s) == t
  {
    assert forall i | 0 <= i < |s| :: t[i] in t;
  }

  /** A valid ticker and form are accepted in any case, and kept in upper case; what is accepted is
      valid in upper case. */
  lemma CaseDoesNotMatter(i: ReportIdentity, ticker: string, form: string)
    ensures ValidIdentity(i) && Lowered(ticker, i.ticker) && Lowered(form, i.form) ==>
              MakeIdentity(ticker, form, i.year, i.quarter) == Ok(i)
    ensures MakeIdentity(ticker, form, i.year, i.quarter).Ok? <==> TickerOk(Upper(ticker)) && FormOk(Upper(form))
  {
    hide TickerOk, FormOk;
    if ValidIdentity(i) && Lowered(ticker, i.ticker) && Lowered(form, i.form) {
      TickerChars(i.ticker);
      FormChars(i.form);
      UpperOfLowered(ticker, i.ticker);
      UpperOfLowered(form, i.form);
    }
  }

  /** A letter and up to nine letters, dots or dashes. */
  lemma TickerGrammar(s: string)
    ensures TickerOk(s) <==>
            && 1 <= |s| <= 10 && 'A' <= s[0] <= 'Z'
            && forall k | 1 <= k < |s| :: 'A' <= s[k] <= 'Z' || s[k] == '.' || s[k] == '-'
  {
    if 1 <= |s| {
      assert forall k | 1 <= k < |s| :: s[k] in s[1..];
      assert forall c | c in s[1..] :: exists k :: 1 <= k < |s| && s[k] == c;
    }
  }

  /** One alphanumeric run, or two with a dash between them, and possibly `/A`. */
  lemma FormGrammar(s: string)
    ensures FormOk(s) <==> exists a, b, tail :: FormParts(s, a, b, tail)
  {
    hide FormOk, FormParts;
    if FormOk(s) {
      var a, b, tail := PartsOfForm(s);
    }
    if a, b, tail :| FormParts(s, a, b, tail) {
      PartsAreForm(s, a, b, tail);
    }
  }

  lemma PartsOfForm(s: string) returns (a: string, b: Option<string>, tail: string)
    requires FormOk(s)
    ensures FormParts(s, a, b, tail)
  {
    tail := if |s| >= 2 && s[|s| - 2..] == "/A" then "/A" else "";
    var base := s[..|s| - |tail|];
    assert s == base + tail && (tail == "" ==> base == s);
    a, b := PartsOfBase(base);
  }

  lemma PartsOfBase(base: string) returns (a: string, b: Option<string>)
    requires BaseFormOk(base)
    ensures FormParts(base, a, b, "")
  {
    var k := IndexOf(base, '-');
    a := base[..k];
    if k < |base| {
      b := Some(base[k + 1..]);
      assert base == a + ("-" + base[k + 1..]) + "";
    } else {
      b := None;
      assert base == a + "" + "";
    }
  }

  predicate FormParts(s: string, a: string, b: Option<string>, tail: string) {
    && s == a + (if b.Some? then "-" + b.value else "") + tail && (tail == "" || tail == "/A")
    && a != "" && (forall c | c in a :: 'A' <= c <= 'Z' || '0' <= c <= '9')
    && (b.Some? ==> b.value != "" && forall c | c in b.value :: 'A' <= c <= 'Z' || '0' <= c <= '9')
  }

  lemma PartsAreForm(s: string, a: string, b: Option<string>, tail: string)
    requires FormParts(s, a, b, tail)
    ensures FormOk(s)
  {
    var base := a + if b.Some? then "-" + b.value else "";
    assert s == base + tail && s[..|s| - |tail|] == base;
    PartsAreBase(base, a, b);
    hide BaseFormOk;
    if tail == "" {
      assert s == base;
      if |s| >= 2 {
        BaseFormChars(base);
        assert s[|s| - 2..][0] == s[|s| - 2] && s[|s| - 2] in base;
      }
    } else {
      assert s[|s| - 2..] == tail;
    }
  }

  lemma PartsAreBase(base: string, a: string, b: Option<string>)
    requires base == a + if b.Some? then "-" + b.value else ""
    requires AlphaNumeric(a) && (b.Some? ==> AlphaNumeric(b.value))
    ensures BaseFormOk(base)
  {
    IndexOfPrefix(a, if b.Some? then b.value else "", '-');
    if b.Some? {
      assert base == a + ['-'] + b.value;
      assert base[..|a|] == a && base[|a| + 1..] == b.value;
    } else {
      assert base == a && base[..|a|] == a;
    }
  }

  function EncodeForm(form: string): string { Replace(form, '/', '_') }

  function DecodeForm(encoded: string): string { Replace(encoded, '_', '/') }

  // ----- printer and parser -------------------------------------------------

  function Segments(i: ReportIdentity): seq<string> {
    [i.ticker, EncodeForm(i.form), IntToString(i.year)]
    + if i.quarter.Some? && i.quarter.value != "" then [i.quarter.value] else []
  }

  function LogicalPath(i: ReportIdentity): string {
    "/" + Join(Segments(i), '/')
  }

  /** The identity in a list of three or four path segments. */
  function FromSegments(segments: seq<string>): (r: Result<ReportIdentity, string>)
    requires |segments| == 3 || |segments| == 4
    ensures r.Ok? ==> ValidIdentity(r.value)
    ensures r.Ok? ==> r.value.quarter == if |segments| == 4 then Some(segments[3]) else None
  {
    match ParseInt(segments[2])
    case None => Err("Invalid year")
    case Some(year) =>
      MakeIdentity(segments[0], DecodeForm(segments[1]), year, if |segments| == 4 then Some(segments[3]) else None)
  }

  function Parse(path: string): Result<ReportIdentity, string> {
    var segments := SplitNonEmpty(path, '/');
    if |segments| != 3 && |segments| != 4 then Err("Invalid report path")
    else FromSegments(segments)
  }

  /** A quarter that is one path segment of its own. */
  predicate PlainQuarter(q: Option<string>) {
    q.None? || (q.value != "" && '/' !in q.value)
  }

  lemma TickerChars(s: string)
    requires TickerOk(s)
    ensures forall c | c in s :: IsUpperLetter(c) || c == '.' || c == '-'
  {
    assert s == [s[0]] + s[1..];
  }

  lemma BaseFormChars(s: string)
    requires BaseFormOk(s)
    ensures forall c | c in s :: IsUpperLetter(c) || IsDigit(c) || c == '-'
  {
    var i := IndexOf(s, '-');
    if i < |s| {
      assert s == s[..i] + ['-'] + s[i + 1..];
    } else {
      assert s == s[..i];
    }
  }

  lemma FormChars(s: string)
    requires FormOk(s)
    ensures s != ""
    ensures forall c | c in s :: IsUpperLetter(c) || IsDigit(c) || c == '-' || c == '/'
  {
    if |s| >= 2 && s[|s| - 2..] == "/A" {
      BaseFormChars(s[..|s| - 2]);
      assert s == s[..|s| - 2] + "/A";
    } else {
      BaseFormChars(s);
    }
  }

  /** Every segment of a valid identity except the quarter is non-empty and
      free of the separator and of the policy marker. */
  lemma SegmentChars(i: ReportIdentity)
    requires ValidIdentity(i)
    ensures forall k | 0 <= k < 3 :: Segments(i)[k] != "" && '/' !in Segments(i)[k] && '+' !in Segments(i)[k]
    ensures DecodeForm(EncodeForm(i.form)) == i.form
  {
    TickerChars(i.ticker);
    FormChars(i.form);
    var e := EncodeForm(i.form);
    assert '/' !in e && '+' !in e by {
      forall k | 0 <= k < |e| ensures e[k] != '/' && e[k] != '+' { assert i.form[k] in i.form; }
    }
    ReplaceBack(i.form, '/', '_');
  }

  /** Rebuilding an identity from its own fields changes nothing. */
  lemma MakeIdentityFixed(i: ReportIdentity)
    requires ValidIdentity(i)
    ensures MakeIdentity(i.ticker, i.form, i.year, i.quarter) == Ok(i)
  {
    TickerChars(i.ticker);
    FormChars(i.form);
    UpperFixed(i.ticker);
    UpperFixed(i.form);
  }

  lemma FromOwnSegments(i: ReportIdentity)
    requires ValidIdentity(i) && PlainQuarter(i.quarter)
    ensures FromSegments(Segments(i)) == Ok(i)
  {
    SegmentChars(i);
    ParseIntOfString(i.year);
    MakeIdentityFixed(i);
  }

  /** Printer and parser undo each other exactly when the quarter is a path
      segment of its own: absent, or non-empty and free of slashes. */
  lemma ParseUndoesLogicalPath(i: ReportIdentity)
    requires ValidIdentity(i)
    ensures Parse(LogicalPath(i)) == Ok(i) <==> PlainQuarter(i.quarter)
  {
    if PlainQuarter(i.quarter) {
      SegmentChars(i);
      SplitJoin(Segments(i), '/');
      SplitLeading(Join(Segments(i), '/'), '/');
      FromOwnSegments(i);
    } else {
      var segments := SplitNonEmpty(LogicalPath(i), '/');
      if |segments| == 4 {
        assert segments[3] in segments;
      }
    }
  }

  // ----- Redis keys -----------------------------------------------------------

  const AMENDED := "+amended"

  function PolicySuffix(includeAmended: bool): string {
    if includeAmended then AMENDED else ""
  }

  function LogicalKey(path: string, includeAmended: bool): string {
    "report:logical:" + path + PolicySuffix(includeAmended)
  }

  function PendingKey(path: string, includeAmended: bool): string {
    "report:pending:" + path + PolicySuffix(includeAmended)
  }

  /** No key of an artifact is that of a pending task. */
  lemma KeysAreApart(path: string, a: bool, other: string, b: bool)
    ensures LogicalKey(path, a) != PendingKey(other, b)
    ensures LogicalKey(path, a) == "report:logical:" + path + (if a then "+amended" else "")
    ensures PendingKey(path, a) == "report:pending:" + path + (if a then "+amended" else "")
  {
    assert LogicalKey(path, a)[7] == 'l' && PendingKey(other, b)[7] == 'p';
  }

  lemma StripPrefix(pre: string, s: string, t: string)
    requires pre + s == pre + t
    ensures s == t
  {
    assert s == (pre + s)[|pre|..] && t == (pre + t)[|pre|..];
  }

  lemma SamePolicyPath(pre: string, p: string, a: bool, q: string, b: bool)
    requires pre + p + PolicySuffix(a) == pre + q + PolicySuffix(b)
    ensures p + PolicySuffix(a) == q + PolicySuffix(b)
  {
    assert pre + p + PolicySuffix(a) == pre + (p + PolicySuffix(a));
    assert pre + q + PolicySuffix(b) == pre + (q + PolicySuffix(b));
    StripPrefix(pre, p + PolicySuffix(a), q + PolicySuffix(b));
  }

  /** What follows the year in a key. */
  function AfterYear(i: ReportIdentity, includeAmended: bool): string {
    (if i.quarter.Some? && i.quarter.value != "" then "/" + i.quarter.value else "") + PolicySuffix(includeAmended)
  }

  /** The first three segments of a path, and the rest. */
  lemma JoinLayout(segs: seq<string>, rest: string)
    requires |segs| == 3 || |segs| == 4
    requires rest == if |segs| == 4 then "/" + segs[3] else ""
    ensures Join(segs, '/') == segs[0] + ['/'] + (segs[1] + ['/'] + (segs[2] + rest))
  {
    assert segs[1..][1..] == segs[2..];
    if |segs| == 4 {
      assert segs[2..][1..] == segs[3..] == [segs[3]];
      assert Join(segs[2..], '/') == segs[2] + rest;
    } else {
      assert segs[2..] == [segs[2]];
      assert Join(segs[2..], '/') == segs[2] + rest;
    }
    assert Join(segs[1..], '/') == segs[1] + ['/'] + (segs[2] + rest);
  }

  lemma KeyLayout(i: ReportIdentity, includeAmended: bool)
    ensures LogicalPath(i) + PolicySuffix(includeAmended)
         == "/" + (i.ticker + ['/'] + (EncodeForm(i.form) + ['/'] + (IntToString(i.year) + AfterYear(i, includeAmended))))
  {
    var q := if i.quarter.Some? && i.quarter.value != "" then "/" + i.quarter.value else "";
    JoinLayout(Segments(i), q);
    Regroup(i.ticker, EncodeForm(i.form), IntToString(i.year), q, PolicySuffix(includeAmended));
  }

  lemma Regroup(t: string, f: string, y: string, q: string, s: string)
    ensures "/" + (t + ['/'] + (f + ['/'] + (y + q))) + s == "/" + (t + ['/'] + (f + ['/'] + (y + (q + s))))
  {
  }

  /** The first separator ends the first part, whatever follows. */
  lemma SamePrefix(p: string, r: string, q: string, t: string, sep: char)
    requires sep !in p && sep !in q
    requires p + [sep] + r == q + [sep] + t
    ensures p == q && r == t
  {
    IndexOfPrefix(p, r, sep);
    IndexOfPrefix(q, t, sep);
    assert p == (p + [sep] + r)[..|p|] && q == (q + [sep] + t)[..|q|];
    assert r == (p + [sep] + r)[|p| + 1..] && t == (q + [sep] + t)[|q| + 1..];
  }

  predicate Delimiter(rest: string) {
    rest == "" || !(IsDigit(rest[0]) || rest[0] == '-')
  }

  /** A run of digits and minus signs ends at the first delimiter. */
  lemma SameRun(y: string, r: string, z: string, t: string)
    requires y + r == z + t && Delimiter(r)
    requires forall c | c in z :: IsDigit(c) || c == '-'
    ensures |z| <= |y|
  {
    assert forall k | 0 <= k < |z| :: (z + t)[k] == z[k] && z[k] in z;
    assert r != "" ==> (y + r)[|y|] == r[0];
  }

  /** A printed year is delimited by whatever may follow it in a key. */
  lemma SameYear(i: ReportIdentity, a: bool, j: ReportIdentity, b: bool)
    requires IntToString(i.year) + AfterYear(i, a) == IntToString(j.year) + AfterYear(j, b)
    ensures i.year == j.year
  {
    var y, z := IntToString(i.year), IntToString(j.year);
    var r, t := AfterYear(i, a), AfterYear(j, b);
    SameRun(y, r, z, t);
    SameRun(z, t, y, r);
    assert y == (y + r)[..|y|] && z == (z + t)[..|z|];
    ParseIntOfString(i.year);
    ParseIntOfString(j.year);
  }

  lemma SameTail(t: string, f: string, u: string, t': string, f': string, u': string)
    requires '/' !in t && '/' !in t' && '/' !in f && '/' !in f'
    requires "/" + (t + ['/'] + (f + ['/'] + u)) == "/" + (t' + ['/'] + (f' + ['/'] + u'))
    ensures t == t' && f == f' && u == u'
  {
    StripPrefix("/", t + ['/'] + (f + ['/'] + u), t' + ['/'] + (f' + ['/'] + u'));
    SamePrefix(t, f + ['/'] + u, t', f' + ['/'] + u', '/');
    SamePrefix(f, u, f', u', '/');
  }

  /** A path with its policy suffix is made of the identity's parts, each recoverable. */
  lemma SameKeyParts(i: ReportIdentity, a: bool, j: ReportIdentity, b: bool)
    requires ValidIdentity(i) && ValidIdentity(j)
    requires LogicalPath(i) + PolicySuffix(a) == LogicalPath(j) + PolicySuffix(b)
    ensures i.ticker == j.ticker && i.form == j.form && i.year == j.year && AfterYear(i, a) == AfterYear(j, b)
  {
    KeyLayout(i, a);
    KeyLayout(j, b);
    SegmentChars(i);
    SegmentChars(j);
    assert '/' !in Segments(i)[0] && '/' !in Segments(j)[0] && '/' !in Segments(i)[1] && '/' !in Segments(j)[1];
    SameTail(i.ticker, EncodeForm(i.form), IntToString(i.year) + AfterYear(i, a),
             j.ticker, EncodeForm(j.form), IntToString(j.year) + AfterYear(j, b));
    SameYear(i, a, j, b);
    StripPrefix(IntToString(i.year), AfterYear(i, a), AfterYear(j, b));
  }

  /** The same, and back, under any key prefix. */
  lemma SamePrefixedKey(pre: string, i: ReportIdentity, a: bool, j: ReportIdentity, b: bool)
    requires ValidIdentity(i) && ValidIdentity(j)
    ensures pre + LogicalPath(i) + PolicySuffix(a) == pre + LogicalPath(j) + PolicySuffix(b)
       <==> i.ticker == j.ticker && i.form == j.form && i.year == j.year && AfterYear(i, a) == AfterYear(j, b)
  {
    KeyLayout(i, a);
    KeyLayout(j, b);
    hide LogicalPath, PolicySuffix, AfterYear, ValidIdentity;
    var p, q := LogicalPath(i), LogicalPath(j);
    assert pre + p + PolicySuffix(a) == pre + (p + PolicySuffix(a));
    assert pre + q + PolicySuffix(b) == pre + (q + PolicySuffix(b));
    if pre + p + PolicySuffix(a) == pre + q + PolicySuffix(b) {
      SamePolicyPath(pre, p, a, q, b);
      SameKeyParts(i, a, j, b);
    }
  }

  /** An empty quarter counts as none. */
  function Given(q: Option<string>): Option<string> { if q == Some("") then None else q }

  /** The quarter asked for without amendments reads like the other one with its policy suffix. */
  predicate ReadsAmended(plain: Option<string>, amended: Option<string>) {
    Given(amended).Some? && plain == Some(amended.value + AMENDED)
  }

  /** The same report under the same policy, or two quarters that the suffix makes alike. */
  predicate SameReport(i: ReportIdentity, a: bool, j: ReportIdentity, b: bool) {
    && i.ticker == j.ticker && i.form == j.form && i.year == j.year
    && ((a == b && Given(i.quarter) == Given(j.quarter))
        || (!a && b && ReadsAmended(i.quarter, j.quarter))
        || (a && !b && ReadsAmended(j.quarter, i.quarter)))
  }

  lemma AppendInjective(q: string, r: string, suffix: string)
    requires q + suffix == r + suffix
    ensures q == r
  {
    assert q == (q + suffix)[..|q|] && r == (r + suffix)[..|r|];
  }

  lemma QuarterTail(i: ReportIdentity)
    ensures AfterYear(i, false) == if Given(i.quarter).Some? then "/" + i.quarter.value else ""
    ensures AfterYear(i, true) == AfterYear(i, false) + AMENDED
  {
  }

  lemma SamePolicyTail(i: ReportIdentity, j: ReportIdentity, a: bool)
    ensures AfterYear(i, a) == AfterYear(j, a) <==> Given(i.quarter) == Given(j.quarter)
  {
    QuarterTail(i);
    QuarterTail(j);
    hide AfterYear;
    var q, r := AfterYear(i, false), AfterYear(j, false);
    if a && q + AMENDED == r + AMENDED {
      AppendInjective(q, r, AMENDED);
    }
    if q == r && q != "" {
      StripPrefix("/", i.quarter.value, j.quarter.value);
    }
  }

  lemma OtherPolicyTail(i: ReportIdentity, j: ReportIdentity)
    ensures AfterYear(i, false) == AfterYear(j, true) <==> ReadsAmended(i.quarter, j.quarter)
  {
    QuarterTail(i);
    QuarterTail(j);
    hide AfterYear;
    var t := AfterYear(j, false) + AMENDED;
    if Given(j.quarter).Some? {
      assert t == "/" + (j.quarter.value + AMENDED);
      if AfterYear(i, false) == t {
        assert t != "";
        StripPrefix("/", i.quarter.value, j.quarter.value + AMENDED);
      }
    } else {
      assert t == AMENDED && t[0] == '+';
    }
  }

  lemma TailsAgree(i: ReportIdentity, a: bool, j: ReportIdentity, b: bool)
    requires i.ticker == j.ticker && i.form == j.form && i.year == j.year
    ensures AfterYear(i, a) == AfterYear(j, b) <==> SameReport(i, a, j, b)
  {
    if a == b {
      SamePolicyTail(i, j, a);
    } else {
      OtherPolicyTail(i, j);
      OtherPolicyTail(j, i);
    }
  }

  /** Two keys are the same exactly when ticker, form and year agree, and either quarter and policy
      agree too, or the policies differ and the quarter asked for without amendments is the other
      quarter followed by `+amended`. */
  lemma KeysEqualExactly(i: ReportIdentity, a: bool, j: ReportIdentity, b: bool)
    requires ValidIdentity(i) && ValidIdentity(j)
    ensures PendingKey(LogicalPath(i), a) == PendingKey(LogicalPath(j), b) <==> SameReport(i, a, j, b)
    ensures LogicalKey(LogicalPath(i), a) == LogicalKey(LogicalPath(j), b) <==> SameReport(i, a, j, b)
  {
    SamePrefixedKey("report:pending:", i, a, j, b);
    SamePrefixedKey("report:logical:", i, a, j, b);
    hide LogicalPath, PolicySuffix, AfterYear, ValidIdentity;
    if i.ticker == j.ticker && i.form == j.form && i.year == j.year {
      TailsAgree(i, a, j, b);
    }
  }

  /** Absent, or non-empty and not another non-empty quarter followed by `+amended`. */
  predicate KeyQuarter(q: Option<string>) {
    q.Some? ==> q.value != "" && !(|q.value| > |AMENDED| && q.value[|q.value| - |AMENDED|..] == AMENDED)
  }

  /** For such quarters the policy-suffixed keys are injective in (identity, policy), so a cached
      or in-flight report is never served for another identity or another policy. */
  lemma KeysInjective(i: ReportIdentity, a: bool, j: ReportIdentity, b: bool)
    requires ValidIdentity(i) && ValidIdentity(j) && KeyQuarter(i.quarter) && KeyQuarter(j.quarter)
    requires PendingKey(LogicalPath(i), a) == PendingKey(LogicalPath(j), b)
          || LogicalKey(LogicalPath(i), a) == LogicalKey(LogicalPath(j), b)
    ensures i == j && a == b
  {
    KeysEqualExactly(i, a, j, b);
    NotAmended(i.quarter, j.quarter);
    NotAmended(j.quarter, i.quarter);
  }

  lemma NotAmended(plain: Option<string>, amended: Option<string>)
    requires KeyQuarter(plain)
    ensures !ReadsAmended(plain, amended)
  {
  }

  /** A quarter that ends like the policy suffix is not told from the policy. */
  lemma AmendedQuarterCollides(i: ReportIdentity, q: string)
    requires ValidIdentity(i) && q != ""
    ensures PendingKey(LogicalPath(i.(quarter := Some(q + AMENDED))), false)
         == PendingKey(LogicalPath(i.(quarter := Some(q))), true)
  {
    KeysEqualExactly(i.(quarter := Some(q + AMENDED)), false, i.(quarter := Some(q)), true);
  }

  /** Whatever the quarters are, equal artifact keys name the same year. In
      particular no artifact of a real year is found under the sentinel year. */
  lemma KeyDeterminesYear(i: ReportIdentity, a: bool, j: ReportIdentity, b: bool)
    requires ValidIdentity(i) && ValidIdentity(j)
    requires LogicalKey(LogicalPath(i), a) == LogicalKey(LogicalPath(j), b)
    ensures i.year == j.year
  {
    KeysEqualExactly(i, a, j, b);
  }
}
