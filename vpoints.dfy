/** The finding normaliser: pylint, bandit and radon results become one flat
    list of findings ("vpoints"). Nothing is deduplicated or sorted: pylint's
    findings come first, then bandit's, then radon's, each in input order. */
module VPoints {
  import opened Wrappers
  import opened Text
  import opened ToolResults
  import Seqs

  datatype Tool = Pylint | Bandit | Radon {
    function Name(): string {
      match this
      case Pylint => "pylint"
      case Bandit => "bandit"
      case Radon => "radon-cc"
    }
  }

  datatype Severity = Low | Medium | High {
    function Name(): string {
      match this
      case Low => "low"
      case Medium => "medium"
      case High => "high"
    }
  }

  /** One normalised finding; line and col are 1-based. */
  datatype Finding = Finding(
    tool: Tool,
    path: Option<string>,
    line: int,
    endLine: int,
    col: int,
    endCol: Option<int>,
    severity: Severity,
    code: Option<string>,
    message: Option<string>)

  /** `x or d` for an integer that may be None: None and 0 are falsy. */
  function IntOr(x: Option<int>, d: int): int {
    if x.Some? && x.value != 0 then x.value else d
  }

  /** `x or y` for strings that may be None: None and "" are falsy. */
  function StrOr(x: Option<string>, y: Option<string>): Option<string> {
    if x.Some? && x.value != "" then x else y
  }

  /** `_sev_from_bandit` */
  function SevFromBandit(level: Option<string>): Severity {
    var m := Lower(level.GetOr(""));
    if m == "high" then High
    else if m == "medium" || m == "med" then Medium
    else Low
  }

  /** `_sev_from_pylint` */
  function SevFromPylint(kind: Option<string>): Severity {
    var t := Lower(kind.GetOr(""));
    if t == "fatal" || t == "error" then High
    else if t == "warning" || t == "refactor" then Medium
    else Low
  }

  /** bandit's level is read case-insensitively; anything else, a missing
      level included, is low. */
  lemma SevFromBanditCases(level: Option<string>)
    ensures SevFromBandit(level) == High <==>
      level.Some? && CaseVariant(level.value, "high")
    ensures SevFromBandit(level) == Medium <==>
      level.Some? && (CaseVariant(level.value, "medium") || CaseVariant(level.value, "med"))
    ensures level.None? ==> SevFromBandit(level) == Low
  {
    var s := level.GetOr("");
    LowerEquals(s, "high");
    LowerEquals(s, "medium");
    LowerEquals(s, "med");
  }

  /** pylint's message type is read case-insensitively; conventions, info and
      a missing type are low. */
  lemma SevFromPylintCases(kind: Option<string>)
    ensures SevFromPylint(kind) == High <==>
      kind.Some? && (CaseVariant(kind.value, "fatal") || CaseVariant(kind.value, "error"))
    ensures SevFromPylint(kind) == Medium <==>
      kind.Some? && (CaseVariant(kind.value, "warning") || CaseVariant(kind.value, "refactor"))
    ensures kind.None? ==> SevFromPylint(kind) == Low
  {
    var s := kind.GetOr("");
    LowerEquals(s, "fatal");
    LowerEquals(s, "error");
    LowerEquals(s, "warning");
    LowerEquals(s, "refactor");
  }

  /** The finding for one pylint message. */
  function PylintPoint(it: PylintItem): (f: Finding)
    ensures f.tool == Pylint && f.path == it.path && f.message == it.message
    ensures f.line != 0 && f.endLine != 0
    ensures it.line.Some? && it.line.value != 0 ==> f.line == it.line.value
    ensures it.line.None? || it.line == Some(0) ==> f.line == 1
    ensures it.endLine.Some? && it.endLine.value != 0 ==> f.endLine == it.endLine.value
    ensures it.endLine.None? || it.endLine == Some(0) ==> f.endLine == f.line
    ensures f.col == it.column.GetOr(0) + 1 && f.endCol == it.endColumn
    ensures f.severity == SevFromPylint(it.kind)
    ensures f.code == (if it.messageId.Some? && it.messageId.value != "" then it.messageId else it.symbol)
  {
    Finding(
      Pylint,
      it.path,
      IntOr(it.line, 1),
      IntOr(it.endLine, IntOr(it.line, 1)),
      IntOr(it.column, 0) + 1,
      it.endColumn,
      SevFromPylint(it.kind),
      StrOr(it.messageId, it.symbol),
      it.message)
  }

  /** The finding for one bandit issue. */
  function BanditPoint(it: BanditIssue): (f: Finding)
    ensures f.tool == Bandit && f.path == it.filename && f.message == it.issueText
    ensures f.line == f.endLine && f.line != 0
    ensures it.lineNumber.Some? && it.lineNumber.value != 0 ==> f.line == it.lineNumber.value
    ensures it.lineNumber.None? || it.lineNumber == Some(0) ==> f.line == 1
    ensures f.col == 1 && f.endCol.None?
    ensures f.severity == SevFromBandit(it.issueSeverity)
    ensures f.code == it.testId
  {
    Finding(
      Bandit,
      it.filename,
      IntOr(it.lineNumber, 1),
      IntOr(it.lineNumber, 1),
      1,
      None,
      SevFromBandit(it.issueSeverity),
      it.testId,
      it.issueText)
  }

  /** The rank radon gave an entry, upper-cased, "C" when missing or empty. */
  function RankOf(e: CCEntry): string {
    Upper(if e.rank.Some? && e.rank.value != "" then e.rank.value else "C")
  }

  /** `rank >= "C"`: the entry is C or worse and becomes a finding. */
  predicate Noteworthy(e: CCEntry) {
    !StrLess(RankOf(e), "C")
  }

  /** The rank filter looks at the first letter of the rank only, ignoring its
      case, and lets a missing rank through. */
  lemma NoteworthyIff(e: CCEntry)
    ensures Noteworthy(e) <==>
      e.rank.None? || e.rank.value == "" || UpperChar(e.rank.value[0]) >= 'C'
  {
    var raw := if e.rank.Some? && e.rank.value != "" then e.rank.value else "C";
    UpperAt(raw, 0);
    AtLeastLetter(RankOf(e), 'C');
  }

  /** `str(complexity)`, with Python's spelling of a missing value. */
  function ComplexityRepr(c: Option<int>): string {
    match c
    case None => "None"
    case Some(n) => IntRepr(n)
  }

  /** The finding for one radon entry of the file at path. */
  function RadonPoint(path: string, e: CCEntry): Finding
  {
    var rank := RankOf(e);
    Finding(
      Radon,
      Some(path),
      IntOr(e.lineno, 1),
      IntOr(e.endline, IntOr(e.lineno, 1)),
      1,
      None,
      if rank == "C" || rank == "D" then Medium else High,
      Some("CC-" + rank),
      Some("High cyclomatic complexity (" + ComplexityRepr(e.complexity) + ") rank " + rank))
  }

  /** A radon finding has the entry's lines, falling back to 1; it is never
      low: C and D are medium, anything worse high; its code and message name
      the rank. */
  lemma RadonPointFacts(path: string, e: CCEntry)
    ensures var f := RadonPoint(path, e);
      && f.tool == Radon && f.path == Some(path)
      && f.line != 0 && f.endLine != 0 && f.col == 1 && f.endCol.None?
      && (e.lineno.Some? && e.lineno.value != 0 ==> f.line == e.lineno.value)
      && (e.lineno.None? || e.lineno == Some(0) ==> f.line == 1)
      && (e.endline.Some? && e.endline.value != 0 ==> f.endLine == e.endline.value)
      && (e.endline.None? || e.endline == Some(0) ==> f.endLine == f.line)
      && f.code == Some("CC-" + RankOf(e))
      && (f.severity == Medium <==> RankOf(e) == "C" || RankOf(e) == "D")
      && f.severity != Low
      && f.message == Some("High cyclomatic complexity (" + ComplexityRepr(e.complexity) + ") rank " + RankOf(e))
  {
  }

  function PairPoint(p: (string, CCEntry)): Finding {
    RadonPoint(p.0, p.1)
  }

  predicate NoteworthyPair(p: (string, CCEntry)) {
    Noteworthy(p.1)
  }

  /** radon's findings: one per noteworthy entry, files and entries in order. */
  function RadonPoints(d: CCData): seq<Finding> {
    Seqs.Map(PairPoint, Seqs.Filter(NoteworthyPair, Pairs(d)))
  }

  /** `(results.get("pylint", {}) or {}).get("items", []) or []` */
  function PylintItemsOf(results: AnalysisResults): seq<PylintItem> {
    results.pylint.OrDefault(EmptyPylint).items.OrDefault([])
  }

  /** The results list of bandit's report, every missing level read as empty. */
  function BanditIssuesOf(results: AnalysisResults): seq<BanditIssue> {
    results.bandit.OrDefault(EmptyBandit).report.OrDefault(BanditDocument(None)).results.GetOr([])
  }

  /** `((results.get("radon", {}) or {}).get("cc", {}) or {}).get("data", {})`:
      the one lookup without a null guard. */
  function CCDataOf(results: AnalysisResults): Field<CCData> {
    results.radon.OrDefault(EmptyRadon).cc.OrDefault(RadonCC(Absent)).data
  }

  /** What `build_vpoints` returns, or the exception it raises. */
  function VPointsOf(results: AnalysisResults): Outcome<seq<Finding>> {
    if CCDataOf(results).Null? then Raised(NoneItems)
    else
      Ok(Seqs.Map(PylintPoint, PylintItemsOf(results))
         + Seqs.Map(BanditPoint, BanditIssuesOf(results))
         + RadonPoints(CCDataOf(results).GetOr([])))
  }

  /** `build_vpoints`: three append loops, the last one nested over files. */
  method BuildVPoints(results: AnalysisResults) returns (r: Outcome<seq<Finding>>)
    ensures r == VPointsOf(results)
  {
    var out: seq<Finding> := [];

    var items := PylintItemsOf(results);
    var i := 0;
    while i < |items|
      invariant 0 <= i <= |items|
      invariant out == Seqs.Map(PylintPoint, items[..i])
    {
      assert items[..i + 1] == items[..i] + [items[i]];
      Seqs.MapSnoc(PylintPoint, items[..i], items[i]);
      out := out + [PylintPoint(items[i])];
      i := i + 1;
    }
    assert items[..i] == items;
    var head := out;

    var issues := BanditIssuesOf(results);
    var j := 0;
    while j < |issues|
      invariant 0 <= j <= |issues|
      invariant out == head + Seqs.Map(BanditPoint, issues[..j])
    {
      assert issues[..j + 1] == issues[..j] + [issues[j]];
      Seqs.MapSnoc(BanditPoint, issues[..j], issues[j]);
      Seqs.AppendAssoc(head, Seqs.Map(BanditPoint, issues[..j]), [BanditPoint(issues[j])]);
      out := out + [BanditPoint(issues[j])];
      j := j + 1;
    }
    assert issues[..j] == issues;

    var data := CCDataOf(results);
    if data.Null? {
      return Raised(NoneItems);
    }
    out := AppendRadonPoints(out, data.GetOr([]));
    r := Ok(out);
  }

  /** The outer radon loop of `build_vpoints`: file by file, in order. */
  method AppendRadonPoints(out: seq<Finding>, d: CCData) returns (r: seq<Finding>)
    ensures r == out + RadonPoints(d)
  {
    r := out;
    var f := 0;
    while f < |d|
      invariant 0 <= f <= |d|
      invariant r == out + RadonPoints(d[..f])
    {
      var entries := d[f].1.GetOr([]);
      r := AppendFilePoints(r, d[f].0, entries);
      RadonPointsSnoc(d, f);
      Seqs.AppendAssoc(out, RadonPoints(d[..f]), FilePoints(d[f].0, entries));
      f := f + 1;
    }
    assert d[..f] == d;
  }

  /** The inner radon loop of `build_vpoints`: the entries of one file, each
      appended when it passes the rank filter. */
  method AppendFilePoints(out: seq<Finding>, path: string, entries: seq<CCEntry>) returns (r: seq<Finding>)
    ensures r == out + FilePoints(path, entries)
  {
    r := out;
    var k := 0;
    while k < |entries|
      invariant 0 <= k <= |entries|
      invariant r == out + FilePoints(path, entries[..k])
    {
      var e := entries[k];
      assert entries[..k + 1] == entries[..k] + [e];
      FilePointsSnoc(path, entries[..k], e);
      if Noteworthy(e) {
        Seqs.AppendAssoc(out, FilePoints(path, entries[..k]), [RadonPoint(path, e)]);
        r := r + [RadonPoint(path, e)];
      } else {
        assert FilePoints(path, entries[..k + 1]) == FilePoints(path, entries[..k]);
      }
      k := k + 1;
    }
    assert entries[..k] == entries;
  }

  /** The findings of one file's entries. */
  function FilePoints(path: string, entries: seq<CCEntry>): seq<Finding> {
    Seqs.Map(PairPoint, Seqs.Filter(NoteworthyPair, FilePairs(path, entries)))
  }

  lemma FilePointsSnoc(path: string, entries: seq<CCEntry>, e: CCEntry)
    ensures FilePoints(path, entries + [e])
      == FilePoints(path, entries) + (if Noteworthy(e) then [RadonPoint(path, e)] else [])
  {
    var before := FilePairs(path, entries);
    Seqs.MapSnoc((x: CCEntry) => (path, x), entries, e);
    assert FilePairs(path, entries + [e]) == before + [(path, e)];
    Seqs.FilterSnoc(NoteworthyPair, before, (path, e));
    Seqs.MapConcat(PairPoint, Seqs.Filter(NoteworthyPair, before),
                   if Noteworthy(e) then [(path, e)] else []);
  }

  lemma RadonPointsSnoc(d: CCData, f: int)
    requires 0 <= f < |d|
    ensures RadonPoints(d[..f + 1]) == RadonPoints(d[..f]) + FilePoints(d[f].0, d[f].1.GetOr([]))
  {
    assert d[..f + 1][..f] == d[..f];
    var fp := FilePairs(d[f].0, d[f].1.GetOr([]));
    assert Pairs(d[..f + 1]) == Pairs(d[..f]) + fp;
    Seqs.FilterConcat(NoteworthyPair, Pairs(d[..f]), fp);
    Seqs.MapConcat(PairPoint, Seqs.Filter(NoteworthyPair, Pairs(d[..f])), Seqs.Filter(NoteworthyPair, fp));
  }

  /** The layout of the output: one pylint finding per item, then one bandit
      finding per issue, then the radon findings, each group in input order. */
  lemma VPointsLayout(results: AnalysisResults)
    requires VPointsOf(results).Ok?
    ensures var out := VPointsOf(results).value;
      var p := PylintItemsOf(results);
      var b := BanditIssuesOf(results);
      && |out| == |p| + |b| + |Seqs.Filter(NoteworthyPair, Pairs(CCDataOf(results).GetOr([])))|
      && (forall i :: 0 <= i < |p| ==> out[i] == PylintPoint(p[i]))
      && (forall i :: 0 <= i < |b| ==> out[|p| + i] == BanditPoint(b[i]))
      && out[|p| + |b|..] == RadonPoints(CCDataOf(results).GetOr([]))
  {
    var out := VPointsOf(results).value;
    var p := PylintItemsOf(results);
    var b := BanditIssuesOf(results);
    var pp := Seqs.Map(PylintPoint, p);
    var bp := Seqs.Map(BanditPoint, b);
    var rp := RadonPoints(CCDataOf(results).GetOr([]));
    assert out == pp + bp + rp;
    forall i | 0 <= i < |p|
      ensures out[i] == PylintPoint(p[i])
    {
      Seqs.MapAt(PylintPoint, p, i);
      assert out[i] == pp[i];
    }
    forall i | 0 <= i < |b|
      ensures out[|p| + i] == BanditPoint(b[i])
    {
      Seqs.MapAt(BanditPoint, b, i);
      assert out[|p| + i] == bp[i];
    }
    assert out[|p| + |b|..] == rp;
  }

  /** build_vpoints fails only when radon's cc data is an explicit null. */
  lemma VPointsFailsOnlyOnNullCC(results: AnalysisResults)
    ensures VPointsOf(results).Raised? <==> CCDataOf(results).Null?
    ensures results.radon.Absent? || results.radon.Null? ==> VPointsOf(results).Ok?
  {
  }

  /** Every radon finding comes from an entry of the cc data that passes the
      rank filter, and carries that entry's rank. */
  lemma RadonPointSource(d: CCData, k: int)
    requires 0 <= k < |RadonPoints(d)|
    ensures exists p :: p in Pairs(d) && Noteworthy(p.1) && RadonPoints(d)[k] == RadonPoint(p.0, p.1)
  {
    var kept := Seqs.Filter(NoteworthyPair, Pairs(d));
    Seqs.FilterAll(NoteworthyPair, Pairs(d), k);
    Seqs.MapAt(PairPoint, kept, k);
  }

  /** Every entry that passes the rank filter gives a finding. */
  lemma RadonPointComplete(d: CCData, path: string, e: CCEntry)
    requires (path, e) in Pairs(d) && Noteworthy(e)
    ensures RadonPoint(path, e) in RadonPoints(d)
  {
    var kept := Seqs.Filter(NoteworthyPair, Pairs(d));
    Seqs.FilterMembers(NoteworthyPair, Pairs(d), (path, e));
    var k :| 0 <= k < |kept| && kept[k] == (path, e);
    Seqs.MapAt(PairPoint, kept, k);
  }

  /** Entries of rank A or B (any case) never become findings. */
  lemma RankAOrBDropped(d: CCData, path: string, e: CCEntry)
    requires e.rank.Some? && e.rank.value != "" && UpperChar(e.rank.value[0]) in {'A', 'B'}
    ensures (path, e) !in Seqs.Filter(NoteworthyPair, Pairs(d))
  {
    NoteworthyIff(e);
    Seqs.FilterMembers(NoteworthyPair, Pairs(d), (path, e));
  }
}
