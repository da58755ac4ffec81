/** The raw result record that the analysis tools produce for one project:
    `{"pylint": ..., "bandit": ..., "radon": ...}`. Only the members the
    normaliser and the prompt digest read are kept. JSON objects that are
    iterated keep their document order, so they are association lists. */
module ToolResults {
  import opened Wrappers
  import Seqs

  /** One element of pylint's JSON message list. */
  datatype PylintItem = PylintItem(
    path: Option<string>,
    line: Option<int>,
    endLine: Option<int>,
    column: Option<int>,
    endColumn: Option<int>,
    kind: Option<string>,        // "type": convention, refactor, warning, error, fatal
    messageId: Option<string>,   // "message-id", e.g. C0116
    symbol: Option<string>,
    message: Option<string>)

  /** `{"items": [...], "score": 8.5}` */
  datatype PylintReport = PylintReport(items: Field<seq<PylintItem>>, score: Option<real>)

  /** One element of bandit's `results` list. */
  datatype BanditIssue = BanditIssue(
    filename: Option<string>,
    lineNumber: Option<int>,
    testId: Option<string>,
    issueText: Option<string>,
    issueSeverity: Option<string>,
    issueConfidence: Option<string>)

  /** bandit's JSON document: `{"results": [...], ...}` */
  datatype BanditDocument = BanditDocument(results: Option<seq<BanditIssue>>)

  /** `{"report": {...}}` */
  datatype BanditReport = BanditReport(report: Field<BanditDocument>)

  /** One function, method or class in radon's cyclomatic-complexity output. */
  datatype CCEntry = CCEntry(
    name: Option<string>,
    lineno: Option<int>,
    endline: Option<int>,
    complexity: Option<int>,
    rank: Option<string>)

  /** radon cc data: file path to its entry list (which may be null). */
  type CCData = seq<(string, Option<seq<CCEntry>>)>

  /** One file in radon's maintainability-index output. */
  datatype MIEntry = MIEntry(mi: Option<real>, rank: Option<string>)

  type MIData = seq<(string, MIEntry)>

  datatype RadonCC = RadonCC(data: Field<CCData>)

  datatype RadonMI = RadonMI(data: Field<MIData>)

  /** `{"cc": {"data": ...}, "mi": {"data": ...}}` */
  datatype RadonReport = RadonReport(cc: Field<RadonCC>, mi: Field<RadonMI>)

  /** The whole result record; every section may be missing or null. */
  datatype AnalysisResults = AnalysisResults(
    pylint: Field<PylintReport>,
    bandit: Field<BanditReport>,
    radon: Field<RadonReport>)

  const EmptyPylint := PylintReport(Absent, None)
  const EmptyBandit := BanditReport(Absent)
  const EmptyRadon := RadonReport(Absent, Absent)

  /** The entries of one file, each paired with the file's path. */
  function FilePairs(path: string, entries: seq<CCEntry>): seq<(string, CCEntry)> {
    Seqs.Map((e: CCEntry) => (path, e), entries)
  }

  /** Number of entries over all files, a null entry list counting as empty. */
  function EntryCount(d: CCData): nat {
    if d == [] then 0 else EntryCount(d[..|d| - 1]) + |d[|d| - 1].1.GetOr([])|
  }

  /** File by file, entry by entry: every (path, entry) of the cc data, a
      null entry list counting as empty. */
  function Pairs(d: CCData): (r: seq<(string, CCEntry)>)
    ensures |r| == EntryCount(d)
  {
    if d == [] then []
    else
      var n := |d| - 1;
      Pairs(d[..n]) + FilePairs(d[n].0, d[n].1.GetOr([]))
  }

  lemma {:induction false} PairsPrefix(d: CCData, i: int)
    requires 0 <= i <= |d|
    ensures Pairs(d[..i]) <= Pairs(d)
    decreases |d|
  {
    if i < |d| {
      var n := |d| - 1;
      assert d[..n][..i] == d[..i];
      PairsPrefix(d[..n], i);
    } else {
      assert d[..i] == d;
    }
  }

  /** Entry j of file i sits at position EntryCount(d[..i]) + j of Pairs(d). */
  lemma PairsAt(d: CCData, i: int, j: int)
    requires 0 <= i < |d| && 0 <= j < |d[i].1.GetOr([])|
    ensures EntryCount(d[..i]) + j < |Pairs(d)|
    ensures Pairs(d)[EntryCount(d[..i]) + j] == (d[i].0, d[i].1.GetOr([])[j])
  {
    assert d[..i + 1][..i] == d[..i];
    PairsPrefix(d, i + 1);
    var es := d[i].1.GetOr([]);
    Seqs.MapAt((e: CCEntry) => (d[i].0, e), es, j);
    assert Pairs(d[..i + 1]) == Pairs(d[..i]) + FilePairs(d[i].0, es);
  }
}
