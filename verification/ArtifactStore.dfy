/** Public artifact references and the physical layout behind them
    (app/storage/artifact_store.py). */
module ArtifactStore {
  import opened Wrappers
  import opened Strings
  import opened Identity

  // ----- references -------------------------------------------------------------

  /** Ten digits, two digits and a sequence number, separated by dashes. */
  predicate AccessionOk(a: string) {
    && |a| >= 15
    && AllDigits(a[..10]) && a[10] == '-'
    && AllDigits(a[11..13]) && a[13] == '-'
    && AllDigits(a[14..])
  }

  function RefFor(i: ReportIdentity, accession: string): string {
    Join(Segments(i) + [accession], '/')
  }

  function ParseRef(ref: string): (r: Result<(ReportIdentity, string), string>)
    ensures r.Ok? ==> ValidIdentity(r.value.0) && PlainQuarter(r.value.0.quarter) && AccessionOk(r.value.1)
  {
    var segments := SplitNonEmpty(ref, '/');
    if |segments| != 4 && |segments| != 5 then Err("Invalid artifact ref")
    else
      var logical, accession := segments[..|segments| - 1], segments[|segments| - 1];
      if !AccessionOk(accession) then Err("Invalid accession in ref")
      else
        assert |segments| == 5 ==> logical[3] in segments;
        match FromSegments(logical)
        case Err(e) => Err(e)
        case Ok(identity) => Ok((identity, accession))
  }

  // ----- physical layout ----------------------------------------------------------

  /** `os.path.join(a, b)` */
  function PathJoin(a: string, b: string): string {
    if b != "" && b[0] == '/' then b
    else if a == "" || a[|a| - 1] == '/' then a + b
    else a + "/" + b
  }

  datatype ArtifactPaths = ArtifactPaths(root: string, sourcePath: string, pdfPath: string, metadataPath: string)

  function AccessionDir(root: string, i: ReportIdentity, accession: string): string {
    PathJoin(PathJoin(PathJoin(PathJoin(root, i.ticker), EncodeForm(i.form)), IntToString(i.year)),
             "accession-" + accession)
  }

  function PathsFor(root: string, i: ReportIdentity, accession: string, extension: string): ArtifactPaths {
    var dir := AccessionDir(root, i, accession);
    ArtifactPaths(dir, PathJoin(dir, "filing" + extension), PathJoin(dir, "report.pdf"), PathJoin(dir, "metadata.json"))
  }

  function ResolvePdfPath(root: string, ref: string): Result<string, string> {
    match ParseRef(ref)
    case Err(e) => Err(e)
    case Ok((identity, accession)) => Ok(PathJoin(AccessionDir(root, identity, accession), "report.pdf"))
  }

  // ----- reference round trips ------------------------------------------------------

  lemma AccessionSegment(a: string)
    requires AccessionOk(a)
    ensures a != "" && '/' !in a
  {
    assert a == a[..10] + ['-'] + a[11..13] + ['-'] + a[14..];
  }

  function NonEmptyPart(p: string): seq<string> {
    if p == "" then [] else [p]
  }

  lemma SplitFirst(p: string, rest: string, sep: char)
    requires sep !in p
    ensures SplitNonEmpty(p + [sep] + rest, sep) == NonEmptyPart(p) + SplitNonEmpty(rest, sep)
    ensures SplitNonEmpty(p, sep) == NonEmptyPart(p)
  {
    IndexOfPrefix(p, rest, sep);
    var w := p + [sep] + rest;
    assert w[..|p|] == p && w[|p| + 1..] == rest;
    assert p[..|p|] == p;
  }

  lemma Regrouped(p: string, sep: char, r: string, t: string)
    ensures p + [sep] + r + [sep] + t == p + [sep] + (r + [sep] + t)
  {
  }

  lemma PartsRegrouped(a: seq<string>, b: seq<string>, c: seq<string>)
    ensures a + (b + c) == a + b + c
  {
  }

  /** Splitting a string at one of its separators splits both halves. */
  lemma {:induction false} SplitConcat(s: string, t: string, sep: char)
    ensures SplitNonEmpty(s + [sep] + t, sep) == SplitNonEmpty(s, sep) + SplitNonEmpty(t, sep)
    decreases |s|
  {
    var i := IndexOf(s, sep);
    if i == |s| {
      assert s[..i] == s;
      SplitFirst(s, t, sep);
    } else {
      var p, rest := s[..i], s[i + 1..];
      assert s == p + [sep] + rest;
      Regrouped(p, sep, rest, t);
      SplitFirst(p, rest + [sep] + t, sep);
      SplitFirst(p, rest, sep);
      SplitConcat(rest, t, sep);
      PartsRegrouped(NonEmptyPart(p), SplitNonEmpty(rest, sep), SplitNonEmpty(t, sep));
    }
  }

  /** The path segments a quarter contributes when a reference is read back. */
  function QuarterSegments(q: Option<string>): seq<string> {
    if q.None? then [] else SplitNonEmpty(q.value, '/')
  }

  lemma PlainQuarterSegments(q: Option<string>)
    ensures PlainQuarter(q) <==> QuarterSegments(q) == if q.None? then [] else [q.value]
  {
    if q.Some? {
      assert QuarterSegments(q) == [q.value] ==> q.value in SplitNonEmpty(q.value, '/');
      if PlainQuarter(q) {
        SplitJoin([q.value], '/');
      }
    }
  }

  /** Three plain segments, a quarter of any shape, and a plain last segment. */
  lemma SplitQuarterPath(head: seq<string>, q: string, a: string)
    requires |head| == 3 && a != "" && '/' !in a
    requires forall s | s in head :: s != "" && '/' !in s
    ensures SplitNonEmpty(Join(head + [q, a], '/'), '/') == head + SplitNonEmpty(q, '/') + [a]
  {
    JoinSnoc(head, q, '/');
    JoinSnoc(head + [q], a, '/');
    assert head + [q, a] == head + [q] + [a];
    assert Join(head + [q, a], '/') == Join(head, '/') + ['/'] + (q + ['/'] + a);
    SplitConcat(Join(head, '/'), q + ['/'] + a, '/');
    SplitConcat(q, a, '/');
    SplitJoin(head, '/');
    SplitFirst(a, "", '/');
  }

  lemma RefSegments(i: ReportIdentity, accession: string)
    requires ValidIdentity(i) && AccessionOk(accession)
    ensures SplitNonEmpty(RefFor(i, accession), '/') == Segments(i)[..3] + QuarterSegments(i.quarter) + [accession]
  {
    SegmentChars(i);
    AccessionSegment(accession);
    var head := Segments(i)[..3];
    assert forall s | s in head :: s != "" && '/' !in s;
    if |Segments(i)| == 3 {
      assert Segments(i) == head;
      SplitJoin(head + [accession], '/');
      assert QuarterSegments(i.quarter) == [];
    } else {
      assert Segments(i) + [accession] == head + [i.quarter.value, accession];
      SplitQuarterPath(head, i.quarter.value, accession);
    }
  }

  /** `parse_ref` undoes `ref_for` exactly when the quarter is a path segment of its own. */
  lemma ParseRefUndoesRefFor(i: ReportIdentity, accession: string)
    requires ValidIdentity(i) && AccessionOk(accession)
    ensures ParseRef(RefFor(i, accession)) == Ok((i, accession)) <==> PlainQuarter(i.quarter)
  {
    if PlainQuarter(i.quarter) {
      RefSegments(i, accession);
      PlainQuarterSegments(i.quarter);
      var segments := SplitNonEmpty(RefFor(i, accession), '/');
      assert segments[..|segments| - 1] == Segments(i);
      FromOwnSegments(i);
    }
  }

  /** Any accepted reference re-prints to one that is read as the same pair. */
  lemma AcceptedRefReprints(ref: string)
    requires ParseRef(ref).Ok?
    ensures var (i, a) := ParseRef(ref).value; ParseRef(RefFor(i, a)) == ParseRef(ref)
  {
    var (i, a) := ParseRef(ref).value;
    ParseRefUndoesRefFor(i, a);
  }

  /** The advertised reference leads to the file that was written, whatever its source
      extension, exactly when the quarter contributes at most one path segment. */
  lemma RefFindsWrittenFile(root: string, i: ReportIdentity, accession: string, extension: string)
    requires ValidIdentity(i) && AccessionOk(accession)
    ensures ResolvePdfPath(root, RefFor(i, accession)) == Ok(PathsFor(root, i, accession, extension).pdfPath)
       <==> |QuarterSegments(i.quarter)| <= 1
  {
    RefSegments(i, accession);
    var qs := QuarterSegments(i.quarter);
    var segments := SplitNonEmpty(RefFor(i, accession), '/');
    if |qs| <= 1 {
      var j := i.(quarter := if qs == [] then None else Some(qs[0]));
      assert segments[..|segments| - 1] == Segments(j);
      FromOwnSegments(j);
    }
  }

  // ----- the layout as structured keys -------------------------------------------------

  /** The directory of one accession; it does not depend on the quarter. */
  datatype Dir = Dir(ticker: string, form: string, year: int, accession: string)

  datatype FileName = Source(extension: string) | Pdf | Metadata

  datatype FileKey = FileKey(dir: Dir, name: FileName, tmp: bool)

  function DirOf(i: ReportIdentity, accession: string): Dir {
    Dir(i.ticker, i.form, i.year, accession)
  }

  function PdfKey(i: ReportIdentity, accession: string): FileKey {
    FileKey(DirOf(i, accession), Pdf, false)
  }

  function BaseName(name: FileName): string {
    match name
    case Source(extension) => "filing" + extension
    case Pdf => "report.pdf"
    case Metadata => "metadata.json"
  }

  function FileString(k: FileKey): string {
    BaseName(k.name) + if k.tmp then ".tmp" else ""
  }

  function Physical(root: string, k: FileKey): string {
    PathJoin(AccessionDir(root, ReportIdentity(k.dir.ticker, k.dir.form, k.dir.year, None), k.dir.accession), FileString(k))
  }

  function LastIndexOf(s: string, c: char): (i: int)
    ensures -1 <= i < |s|
    ensures i >= 0 ==> s[i] == c
    ensures forall k | i < k < |s| :: s[k] != c
  {
    if s == "" then -1
    else if s[|s| - 1] == c then |s| - 1
    else LastIndexOf(s[..|s| - 1], c)
  }

  predicate ExtensionOk(e: string) {
    e != "" && e[0] == '.' && '.' !in e[1..] && '/' !in e
  }

  /** `os.path.splitext(document)[1]`: from the last dot, provided it lies in the last
      component and something other than dots precedes it there. */
  function SplitExtension(document: string): (e: string)
    ensures e == "" || ExtensionOk(e)
  {
    var sep, dot := LastIndexOf(document, '/'), LastIndexOf(document, '.');
    if dot > sep && exists k | sep < k < dot :: document[k] != '.' then
      FromLastDot(document, sep, dot);
      document[dot..]
    else ""
  }

  /** The last dot of the last component is at `k`. */
  predicate LastDot(document: string, k: nat) {
    k < |document| && document[k] == '.' && forall i | k < i < |document| :: document[i] != '.' && document[i] != '/'
  }

  /** Something other than dots precedes position `k` in the last component. */
  predicate Named(document: string, k: nat)
    requires k <= |document|
  {
    exists j | 0 <= j < k :: document[j] != '.' && forall i | j <= i < k :: document[i] != '/'
  }

  /** A name precedes position `k` exactly when something other than a dot stands between the last
      separator and it. */
  lemma NamedAfterSeparator(document: string, sep: int, k: nat)
    requires -1 <= sep < k < |document| && (sep >= 0 ==> document[sep] == '/')
    requires forall i | sep < i < |document| :: document[i] != '/'
    ensures Named(document, k) <==> exists i | sep < i < k :: document[i] != '.'
  {
    if Named(document, k) {
      var j :| 0 <= j < k && document[j] != '.' && forall i | j <= i < k :: document[i] != '/';
      assert sep < j;
    }
  }

  lemma LastDotIsLast(document: string, k: nat)
    requires LastDot(document, k)
    ensures LastIndexOf(document, '.') == k && LastIndexOf(document, '/') < k
  {
    hide LastIndexOf;
    var sep, dot := LastIndexOf(document, '/'), LastIndexOf(document, '.');
    assert sep >= 0 ==> document[sep] == '/';
    assert dot >= 0 ==> document[dot] == '.';
  }

  /** The source extension is what the last dot of the last component starts, if a name precedes it there. */
  lemma ExtensionIsLast(document: string, k: nat)
    requires LastDot(document, k)
    ensures SourceExtension(document) == if Named(document, k) then document[k..] else ".html"
  {
    LastDotIsLast(document, k);
    NamedAfterSeparator(document, LastIndexOf(document, '/'), k);
    hide Named, LastIndexOf, LastDot, ExtensionOk;
  }

  /** Without such a dot it is `.html`. */
  lemma NoDotNoExtension(document: string)
    requires forall k :: !LastDot(document, k)
    ensures SourceExtension(document) == ".html"
  {
    hide LastIndexOf, ExtensionOk;
    assert !(0 <= LastIndexOf(document, '.')) || !LastDot(document, LastIndexOf(document, '.'));
  }

  lemma FromLastDot(s: string, sep: int, dot: int)
    requires -1 <= sep < dot < |s|
    requires (forall k | sep < k < |s| :: s[k] != '/') && s[dot] == '.' && forall k | dot < k < |s| :: s[k] != '.'
    ensures ExtensionOk(s[dot..])
  {
    assert forall k | 0 <= k < |s[dot..]| :: s[dot..][k] == s[dot + k];
    assert forall k | 0 <= k < |s[dot..][1..]| :: s[dot..][1..][k] == s[dot + 1 + k];
  }

  /** `ext or ".html"` */
  function SourceExtension(document: string): (e: string)
    ensures ExtensionOk(e)
  {
    if SplitExtension(document) == "" then ".html" else SplitExtension(document)
  }

  predicate ValidKey(k: FileKey) {
    && TickerOk(k.dir.ticker) && FormOk(k.dir.form) && '/' !in k.dir.accession
    && (k.name.Source? ==> ExtensionOk(k.name.extension))
  }

  lemma SourceNames(e: string, s: string, e': string, s': string)
    requires ExtensionOk(e) && ExtensionOk(e')
    requires s == "" || s == ".tmp"
    requires s' == "" || s' == ".tmp"
    requires e + s == e' + s'
    ensures e == e' && s == s'
  {
    assert forall k | 1 <= k < |e| :: e[k] == e[1..][k - 1] && e[k] != '.';
    assert forall k | 1 <= k < |e'| :: e'[k] == e'[1..][k - 1] && e'[k] != '.';
    assert s != "" ==> (e + s)[|e|] == '.';
    assert s' != "" ==> (e' + s')[|e'|] == '.';
    assert s == s';
    assert e == (e + s)[..|e|] && e' == (e' + s')[..|e'|];
  }

  function Suffix(tmp: bool): string { if tmp then ".tmp" else "" }

  lemma FileStringPlain(k: FileKey)
    requires ValidKey(k)
    ensures FileString(k) != "" && '/' !in FileString(k)
    ensures k.name.Source? ==> FileString(k)[0] == 'f' && FileString(k)[6..] == k.name.extension + Suffix(k.tmp)
    ensures k.name.Pdf? ==> FileString(k)[0] == 'r' && FileString(k) == "report.pdf" + Suffix(k.tmp)
    ensures k.name.Metadata? ==> FileString(k)[0] == 'm' && FileString(k) == "metadata.json" + Suffix(k.tmp)
  {
    if k.name.Source? {
      assert FileString(k) == "filing" + (k.name.extension + Suffix(k.tmp));
    }
  }

  lemma FileStringInjective(k: FileKey, l: FileKey)
    requires ValidKey(k) && ValidKey(l) && FileString(k) == FileString(l)
    ensures k.name == l.name && k.tmp == l.tmp
  {
    FileStringPlain(k);
    FileStringPlain(l);
    hide FileString, TickerOk, FormOk;
    if k.name.Source? {
      SourceNames(k.name.extension, Suffix(k.tmp), l.name.extension, Suffix(l.tmp));
    }
  }

  /** The root and the separator after it, as `os.path.join` puts them. */
  function Lead(root: string): string {
    if root == "" || root[|root| - 1] == '/' then root else root + "/"
  }

  predicate Component(s: string) { s != "" && '/' !in s }

  /** Joining one more component to a path that already has one. */
  lemma PathSnoc(lead: string, ss: seq<string>, x: string)
    requires ss != [] && Component(x) && EndsPlain(lead + Join(ss, '/'))
    ensures PathJoin(lead + Join(ss, '/'), x) == lead + Join(ss + [x], '/')
    ensures EndsPlain(lead + Join(ss + [x], '/'))
  {
    hide Join;
    JoinSnoc(ss, x, '/');
    var p := lead + Join(ss, '/');
    assert PathJoin(p, x) == p + "/" + x;
    assert (p + "/" + x)[|p + "/" + x| - 1] == x[|x| - 1];
  }

  predicate EndsPlain(s: string) { s != "" && s[|s| - 1] != '/' }

  lemma PathFirst(root: string, x: string)
    requires Component(x)
    ensures PathJoin(root, x) == Lead(root) + Join([x], '/') && EndsPlain(PathJoin(root, x))
  {
    assert PathJoin(root, x) == Lead(root) + x;
    assert (Lead(root) + x)[|Lead(root) + x| - 1] == x[|x| - 1];
  }

  lemma PathLayout(root: string, t: string, f: string, y: string, a: string, n: string)
    requires Component(t) && Component(f) && Component(y) && Component(a) && Component(n)
    ensures PathJoin(PathJoin(PathJoin(PathJoin(PathJoin(root, t), f), y), a), n)
         == Lead(root) + Join([t, f, y, a, n], '/')
  {
    hide Join, PathJoin, Component, EndsPlain, Lead;
    PathFirst(root, t);
    PathSnoc(Lead(root), [t], f);
    assert [t] + [f] == [t, f];
    PathSnoc(Lead(root), [t, f], y);
    assert [t, f] + [y] == [t, f, y];
    PathSnoc(Lead(root), [t, f, y], a);
    assert [t, f, y] + [a] == [t, f, y, a];
    PathSnoc(Lead(root), [t, f, y, a], n);
    assert [t, f, y, a] + [n] == [t, f, y, a, n];
  }

  lemma KeyComponents(k: FileKey)
    requires ValidKey(k)
    ensures Component(k.dir.ticker) && Component(EncodeForm(k.dir.form)) && Component(IntToString(k.dir.year))
    ensures Component("accession-" + k.dir.accession) && Component(FileString(k))
    ensures DecodeForm(EncodeForm(k.dir.form)) == k.dir.form
  {
    SegmentChars(ReportIdentity(k.dir.ticker, k.dir.form, k.dir.year, None));
    var i := ReportIdentity(k.dir.ticker, k.dir.form, k.dir.year, None);
    assert Component(Segments(i)[0]) && Component(Segments(i)[1]) && Component(Segments(i)[2]);
    FileStringPlain(k);
  }

  /** Five components of a path, each recoverable from the whole. */
  lemma SameComponents(root: string, p: seq<string>, q: seq<string>)
    requires forall s | s in p + q :: Component(s)
    requires Lead(root) + Join(p, '/') == Lead(root) + Join(q, '/')
    ensures p == q
  {
    StripPrefix(Lead(root), Join(p, '/'), Join(q, '/'));
    assert forall s | s in p :: s in p + q;
    assert forall s | s in q :: s in p + q;
    SplitJoin(p, '/');
    SplitJoin(q, '/');
  }

  /** Different keys are different files: in (ticker, form, year, accession), in the
      file within the directory, and in temporary against final name. */
  lemma PhysicalInjective(root: string, k: FileKey, l: FileKey)
    requires ValidKey(k) && ValidKey(l)
    requires Physical(root, k) == Physical(root, l)
    ensures k == l
  {
    PhysicalLayout(root, k);
    PhysicalLayout(root, l);
    hide Physical, FileString, Join, Lead, ValidKey;
    var p, q := Components(k), Components(l);
    SameComponents(root, p, q);
    assert p[0] == q[0] && p[1] == q[1] && p[2] == q[2] && p[3] == q[3] && p[4] == q[4];
    FileStringInjective(k, l);
    ParseIntOfString(k.dir.year);
    ParseIntOfString(l.dir.year);
    StripPrefix("accession-", k.dir.accession, l.dir.accession);
  }

  function Components(k: FileKey): seq<string> {
    [k.dir.ticker, EncodeForm(k.dir.form), IntToString(k.dir.year), "accession-" + k.dir.accession, FileString(k)]
  }

  lemma PhysicalLayout(root: string, k: FileKey)
    requires ValidKey(k)
    ensures Physical(root, k) == Lead(root) + Join(Components(k), '/')
    ensures forall s | s in Components(k) :: Component(s)
    ensures DecodeForm(EncodeForm(k.dir.form)) == k.dir.form
  {
    hide Join, Lead, PathJoin, Component, ValidKey, FileString;
    KeyComponents(k);
    PathLayout(root, k.dir.ticker, EncodeForm(k.dir.form), IntToString(k.dir.year), "accession-" + k.dir.accession, FileString(k));
  }

  /** The structured keys stand for the paths `paths_for` gives. */
  lemma KeysAreThePaths(root: string, i: ReportIdentity, accession: string, extension: string)
    ensures var paths := PathsFor(root, i, accession, extension);
            && paths.pdfPath == Physical(root, PdfKey(i, accession))
            && paths.sourcePath == Physical(root, FileKey(DirOf(i, accession), Source(extension), false))
            && paths.metadataPath == Physical(root, FileKey(DirOf(i, accession), Metadata, false))
  {
    var paths := PathsFor(root, i, accession, extension);
    assert forall name: FileName :: FileString(FileKey(DirOf(i, accession), name, false)) == BaseName(name);
  }
}
