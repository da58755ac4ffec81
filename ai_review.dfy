/** The AI review step: a bounded digest of the tool results that goes into
    the prompt, and the reading of the model's reply. The digest is the record
    that the source serialises to JSON; the serialiser and the chat call are
    not part of this model. */
module AiReview {
  import opened Wrappers
  import opened ToolResults
  import Seqs

  const MaxPylintItems: nat := 30
  const MaxBanditFindings: nat := 30
  const MaxCCRows: nat := 50

  datatype PylintDigestEntry = PylintDigestEntry(
    path: Option<string>, msg: Option<string>, symbol: Option<string>, line: Option<int>)

  datatype BanditDigestEntry = BanditDigestEntry(
    filename: Option<string>, testId: Option<string>, issueText: Option<string>,
    severity: Option<string>, confidence: Option<string>, line: Option<int>)

  datatype CCRow = CCRow(file: string, name: Option<string>, complexity: Option<int>, rank: Option<string>)

  /** The prompt payload, key by key: `pylint`, `pylint_score` (absent when
      None), `bandit`, `radon_mi`, `radon_cc`. */
  datatype Digest = Digest(
    pylint: seq<PylintDigestEntry>,
    pylintScore: Option<real>,
    bandit: seq<BanditDigestEntry>,
    radonMi: seq<(string, Option<real>)>,
    radonCc: seq<CCRow>)

  /** `s[:n]` */
  function Take<T>(s: seq<T>, n: nat): (r: seq<T>)
    ensures |r| == if |s| < n then |s| else n
    ensures r <= s
  {
    if |s| <= n then s else s[..n]
  }

  function PylintEntry(i: PylintItem): PylintDigestEntry {
    PylintDigestEntry(i.path, i.message, i.symbol, i.line)
  }

  function BanditEntry(f: BanditIssue): BanditDigestEntry {
    BanditDigestEntry(f.filename, f.testId, f.issueText, f.issueSeverity, f.issueConfidence, f.lineNumber)
  }

  function MiPair(p: (string, MIEntry)): (string, Option<real>) {
    (p.0, p.1.mi)
  }

  function RowOf(p: (string, CCEntry)): CCRow {
    CCRow(p.0, p.1.name, p.1.complexity, p.1.rank)
  }

  /** No file of the cc data has a null entry list. */
  predicate EntryListsPresent(d: CCData) {
    forall i :: 0 <= i < |d| ==> d[i].1.Some?
  }

  /** What `_summarize_for_prompt` builds, or the exception it raises, in the
      order the source evaluates its lookups. */
  function Summary(results: AnalysisResults): Outcome<Digest> {
    if results.pylint.Null? then Raised(NoneGet)
    else
      var py := results.pylint.GetOr(EmptyPylint);
      if py.items.Null? then Raised(NoneSubscript)
      else
        var items := Take(py.items.GetOr([]), MaxPylintItems);
        if results.bandit.Null? then Raised(NoneGet)
        else
          var bd := results.bandit.GetOr(EmptyBandit).report;
          if bd.Null? then Raised(NoneGet)
          else
            var findings := Take(bd.GetOr(BanditDocument(None)).results.GetOr([]), MaxBanditFindings);
            if results.radon.Null? then Raised(NoneGet)
            else
              var rd := results.radon.GetOr(EmptyRadon);
              if rd.mi.Null? || rd.cc.Null? then Raised(NoneGet)
              else
                var mi := rd.mi.GetOr(RadonMI(Absent)).data;
                var cc := rd.cc.GetOr(RadonCC(Absent)).data.OrDefault([]);
                if mi.Null? then Raised(NoneItems)
                else if !EntryListsPresent(cc) then Raised(NoneIter)
                else
                  Ok(Digest(
                    Seqs.Map(PylintEntry, items),
                    py.score,
                    Seqs.Map(BanditEntry, findings),
                    Seqs.Map(MiPair, mi.GetOr([])),
                    Take(Seqs.Map(RowOf, Pairs(cc)), MaxCCRows)))
  }

  /** `_summarize_for_prompt`: fills the payload key by key and flattens the
      cc data with a nested append loop. */
  method SummarizeForPrompt(results: AnalysisResults) returns (r: Outcome<Digest>)
    ensures r == Summary(results)
  {
    if results.pylint.Null? {
      return Raised(NoneGet);
    }
    var py := results.pylint.GetOr(EmptyPylint);
    if py.items.Null? {
      return Raised(NoneSubscript);
    }
    var items := Take(py.items.GetOr([]), MaxPylintItems);
    var pylint := Seqs.Map(PylintEntry, items);
    var score := py.score;

    if results.bandit.Null? {
      return Raised(NoneGet);
    }
    var bd := results.bandit.GetOr(EmptyBandit).report;
    if bd.Null? {
      return Raised(NoneGet);
    }
    var findings := Take(bd.GetOr(BanditDocument(None)).results.GetOr([]), MaxBanditFindings);
    var bandit := Seqs.Map(BanditEntry, findings);

    if results.radon.Null? {
      return Raised(NoneGet);
    }
    var rd := results.radon.GetOr(EmptyRadon);
    if rd.mi.Null? || rd.cc.Null? {
      return Raised(NoneGet);
    }
    var mi := rd.mi.GetOr(RadonMI(Absent)).data;
    var cc := rd.cc.GetOr(RadonCC(Absent)).data.OrDefault([]);
    if mi.Null? {
      return Raised(NoneItems);
    }
    var radonMi := Seqs.Map(MiPair, mi.GetOr([]));

    var ccFlat := FlattenCC(cc);
    if ccFlat.Raised? {
      return Raised(ccFlat.error);
    }
    r := Ok(Digest(pylint, score, bandit, radonMi, Take(ccFlat.value, MaxCCRows)));
  }

  /** The nested loop that builds `cc_flat`: file by file, function by
      function; a null function list raises. */
  method FlattenCC(cc: CCData) returns (r: Outcome<seq<CCRow>>)
    ensures EntryListsPresent(cc) ==> r == Ok(Seqs.Map(RowOf, Pairs(cc)))
    ensures !EntryListsPresent(cc) ==> r == Raised(NoneIter)
  {
    var ccFlat: seq<CCRow> := [];
    var f := 0;
    while f < |cc|
      invariant 0 <= f <= |cc|
      invariant EntryListsPresent(cc[..f])
      invariant ccFlat == Seqs.Map(RowOf, Pairs(cc[..f]))
    {
      var file := cc[f].0;
      if cc[f].1.None? {
        return Raised(NoneIter);
      }
      var funcs := cc[f].1.value;
      ccFlat := AppendRows(ccFlat, file, funcs);
      assert cc[..f + 1][..f] == cc[..f];
      assert Pairs(cc[..f + 1]) == Pairs(cc[..f]) + FilePairs(file, funcs);
      Seqs.MapConcat(RowOf, Pairs(cc[..f]), FilePairs(file, funcs));
      f := f + 1;
    }
    assert cc[..f] == cc;
    r := Ok(ccFlat);
  }

  /** The inner loop: one row per function of the file, in order. */
  method AppendRows(rows: seq<CCRow>, file: string, funcs: seq<CCEntry>) returns (r: seq<CCRow>)
    ensures r == rows + Seqs.Map(RowOf, FilePairs(file, funcs))
  {
    r := rows;
    var k := 0;
    while k < |funcs|
      invariant 0 <= k <= |funcs|
      invariant r == rows + Seqs.Map(RowOf, FilePairs(file, funcs[..k]))
    {
      assert funcs[..k + 1] == funcs[..k] + [funcs[k]];
      Seqs.MapSnoc((e: CCEntry) => (file, e), funcs[..k], funcs[k]);
      Seqs.MapSnoc(RowOf, FilePairs(file, funcs[..k]), (file, funcs[k]));
      Seqs.AppendAssoc(rows, Seqs.Map(RowOf, FilePairs(file, funcs[..k])), [RowOf((file, funcs[k]))]);
      r := r + [CCRow(file, funcs[k].name, funcs[k].complexity, funcs[k].rank)];
      k := k + 1;
    }
    assert funcs[..k] == funcs;
  }

  /** pylint's items as `_summarize_for_prompt` reads them, when it gets that far. */
  function StrictPylintItems(results: AnalysisResults): seq<PylintItem>
    requires !results.pylint.Null? && !results.pylint.GetOr(EmptyPylint).items.Null?
  {
    results.pylint.GetOr(EmptyPylint).items.GetOr([])
  }

  function StrictBanditIssues(results: AnalysisResults): seq<BanditIssue>
    requires !results.bandit.Null? && !results.bandit.GetOr(EmptyBandit).report.Null?
  {
    results.bandit.GetOr(EmptyBandit).report.GetOr(BanditDocument(None)).results.GetOr([])
  }

  /** The pylint digest is the first min(30, n) items, in order, each cut down
      to path, message, symbol and line; the score is there exactly when
      pylint reported one. */
  lemma SummaryPylint(results: AnalysisResults)
    requires Summary(results).Ok?
    ensures var d := Summary(results).value;
      var items := StrictPylintItems(results);
      && |d.pylint| == (if |items| < MaxPylintItems then |items| else MaxPylintItems)
      && (forall k :: 0 <= k < |d.pylint| ==> d.pylint[k] == PylintEntry(items[k]))
      && (d.pylintScore.Some? <==> results.pylint.Present? && results.pylint.value.score.Some?)
      && (d.pylintScore.Some? ==> d.pylintScore == results.pylint.value.score)
  {
    var d := Summary(results).value;
    var items := StrictPylintItems(results);
    forall k | 0 <= k < |d.pylint|
      ensures d.pylint[k] == PylintEntry(items[k])
    {
      Seqs.MapAt(PylintEntry, Take(items, MaxPylintItems), k);
    }
  }

  /** The bandit digest is the first min(30, n) issues, in order, each cut down
      to its six fields. */
  lemma SummaryBandit(results: AnalysisResults)
    requires Summary(results).Ok?
    ensures var d := Summary(results).value;
      var issues := StrictBanditIssues(results);
      && |d.bandit| == (if |issues| < MaxBanditFindings then |issues| else MaxBanditFindings)
      && (forall k :: 0 <= k < |d.bandit| ==> d.bandit[k] == BanditEntry(issues[k]))
  {
    var d := Summary(results).value;
    var issues := StrictBanditIssues(results);
    forall k | 0 <= k < |d.bandit|
      ensures d.bandit[k] == BanditEntry(issues[k])
    {
      Seqs.MapAt(BanditEntry, Take(issues, MaxBanditFindings), k);
    }
  }

  function Keys<V(==)>(s: seq<(string, V)>): set<string> {
    set p | p in s :: p.0
  }

  /** radon_mi has exactly the files of the MI data, in the same order, each
      mapped to its "mi" value. */
  lemma SummaryRadonMi(results: AnalysisResults, mi: MIData)
    requires Summary(results).Ok?
    requires results.radon.Present? && results.radon.value.mi.Present?
    requires results.radon.value.mi.value.data == Present(mi)
    ensures var d := Summary(results).value;
      && |d.radonMi| == |mi|
      && (forall k :: 0 <= k < |mi| ==> d.radonMi[k] == (mi[k].0, mi[k].1.mi))
      && Keys(d.radonMi) == Keys(mi)
  {
    var d := Summary(results).value;
    forall k | 0 <= k < |mi|
      ensures d.radonMi[k] == (mi[k].0, mi[k].1.mi)
    {
      Seqs.MapAt(MiPair, mi, k);
    }
    forall key | key in Keys(mi)
      ensures key in Keys(d.radonMi)
    {
      var p :| p in mi && p.0 == key;
      var k :| 0 <= k < |mi| && mi[k] == p;
      assert d.radonMi[k] in d.radonMi;
    }
    forall key | key in Keys(d.radonMi)
      ensures key in Keys(mi)
    {
      var p :| p in d.radonMi && p.0 == key;
      var k :| 0 <= k < |d.radonMi| && d.radonMi[k] == p;
      assert mi[k] in mi;
    }
  }

  /** Function j of file i is row EntryCount(cc[..i]) + j of radon_cc when
      that is below 50. */
  lemma SummaryRadonCc(results: AnalysisResults, cc: CCData, i: int, j: int)
    requires Summary(results).Ok?
    requires results.radon.Present? && results.radon.value.cc.Present?
    requires results.radon.value.cc.value.data == Present(cc)
    requires 0 <= i < |cc| && 0 <= j < |cc[i].1.GetOr([])|
    ensures var d := Summary(results).value;
      && EntryCount(cc[..i]) + j < EntryCount(cc)
      && (EntryCount(cc[..i]) + j < MaxCCRows ==>
            d.radonCc[EntryCount(cc[..i]) + j] == CCRow(cc[i].0, cc[i].1.value[j].name,
                                                       cc[i].1.value[j].complexity, cc[i].1.value[j].rank))
  {
    var rows := Seqs.Map(RowOf, Pairs(cc));
    PairsAt(cc, i, j);
    Seqs.MapAt(RowOf, Pairs(cc), EntryCount(cc[..i]) + j);
  }

  /** radon_cc is the first min(50, total) rows of the file-by-file,
      function-by-function flattening of the cc data, null or missing data
      read as empty (`cc or {}`). */
  lemma SummaryRadonCcLength(results: AnalysisResults)
    requires Summary(results).Ok?
    ensures var cc := results.radon.GetOr(EmptyRadon).cc.GetOr(RadonCC(Absent)).data.OrDefault([]);
      var d := Summary(results).value;
      && |d.radonCc| == (if EntryCount(cc) < MaxCCRows then EntryCount(cc) else MaxCCRows)
      && d.radonCc <= Seqs.Map(RowOf, Pairs(cc))
  {
  }

  /** Every lookup of `_summarize_for_prompt` that can meet a null: the three
      sections, pylint's items, bandit's report, radon's mi and cc, the mi
      data, and the function list of every file of the cc data. */
  predicate NoNullOnPath(results: AnalysisResults) {
    && !results.pylint.Null? && !results.pylint.GetOr(EmptyPylint).items.Null?
    && !results.bandit.Null? && !results.bandit.GetOr(EmptyBandit).report.Null?
    && !results.radon.Null?
    && !results.radon.GetOr(EmptyRadon).mi.Null? && !results.radon.GetOr(EmptyRadon).cc.Null?
    && !results.radon.GetOr(EmptyRadon).mi.GetOr(RadonMI(Absent)).data.Null?
    && EntryListsPresent(results.radon.GetOr(EmptyRadon).cc.GetOr(RadonCC(Absent)).data.OrDefault([]))
  }

  /** The digest fails exactly when one of its lookups meets a null; a null
      bandit results list or cc data is read as empty. */
  lemma SummaryFailsOnlyOnNull(results: AnalysisResults)
    ensures Summary(results).Ok? <==> NoNullOnPath(results)
  {
  }

  /** pylint's items are missing: no section, or no "items" key. */
  predicate NoPylintItems(results: AnalysisResults) {
    results.pylint.Absent? || (results.pylint.Present? && results.pylint.value.items.Absent?)
  }

  /** bandit's results are missing: no section, no "report", or no (or a null) "results". */
  predicate NoBanditIssues(results: AnalysisResults) {
    || results.bandit.Absent?
    || (results.bandit.Present? && results.bandit.value.report.Absent?)
    || (results.bandit.Present? && results.bandit.value.report.Present?
        && results.bandit.value.report.value.results.None?)
  }

  /** radon's MI data is missing: no section, no "mi", or no "data". */
  predicate NoMiData(results: AnalysisResults) {
    || results.radon.Absent?
    || (results.radon.Present? && results.radon.value.mi.Absent?)
    || (results.radon.Present? && results.radon.value.mi.Present? && results.radon.value.mi.value.data.Absent?)
  }

  /** radon's CC data is missing: no section, no "cc", or no (or a null) "data". */
  predicate NoCcData(results: AnalysisResults) {
    || results.radon.Absent?
    || (results.radon.Present? && results.radon.value.cc.Absent?)
    || (results.radon.Present? && results.radon.value.cc.Present? && !results.radon.value.cc.value.data.Present?)
  }

  /** A missing section, or a missing key inside one, gives an empty digest
      for that part. */
  lemma SummaryAbsentParts(results: AnalysisResults)
    requires Summary(results).Ok?
    ensures NoPylintItems(results) ==> Summary(results).value.pylint == []
    ensures results.pylint.Absent? ==> Summary(results).value.pylintScore.None?
    ensures NoBanditIssues(results) ==> Summary(results).value.bandit == []
    ensures NoMiData(results) ==> Summary(results).value.radonMi == []
    ensures NoCcData(results) ==> Summary(results).value.radonCc == []
  {
  }

  /** The digest is bounded whatever the size of the tool output. */
  lemma SummaryBounded(results: AnalysisResults)
    requires Summary(results).Ok?
    ensures var d := Summary(results).value;
      |d.pylint| <= MaxPylintItems && |d.bandit| <= MaxBanditFindings && |d.radonCc| <= MaxCCRows
  {
  }

  /** One entry of the checklist the model is asked for. */
  datatype ChecklistItem = ChecklistItem(title: string, why: string, how: string, severity: string)

  /** The review: the model's reply as decoded JSON, or, when it does not
      decode, the raw reply content (None when the reply has none) as the
      summary with empty lists. */
  datatype Review<J> =
    | Decoded(doc: J)
    | Undecoded(summary: Option<string>, checklist: seq<ChecklistItem>, topWins: seq<string>)

  /** `generate_review`. clientError is the exception raised building the
      client, if any; reply is the outcome of the chat call, its value the
      reply's content; parse is `json.loads` (None when it raises). The client
      is built first, then the digest, then the call is made; a reply that
      does not decode never fails. */
  function GenerateReview<J>(results: AnalysisResults, clientError: Option<string>,
                             reply: Outcome<Option<string>>, parse: string -> Option<J>): (r: Outcome<Review<J>>)
    ensures r.Raised? <==> clientError.Some? || Summary(results).Raised? || reply.Raised?
    ensures clientError.Some? ==> r == Raised(clientError.value)
    ensures clientError.None? && Summary(results).Raised? ==> r == Raised(Summary(results).error)
    ensures clientError.None? && Summary(results).Ok? && reply.Raised? ==> r == Raised(reply.error)
    ensures r.Ok? && reply.value.None? ==> r.value == Undecoded(None, [], [])
    ensures r.Ok? && reply.value.Some? && parse(reply.value.value).None? ==>
      r.value == Undecoded(reply.value, [], [])
    ensures r.Ok? && reply.value.Some? && parse(reply.value.value).Some? ==>
      r.value == Decoded(parse(reply.value.value).value)
  {
    if clientError.Some? then Raised(clientError.value)
    else
      match Summary(results)
      case Raised(e) => Raised(e)
      case Ok(_) =>
        match reply
        case Raised(e) => Raised(e)
        case Ok(content) =>
          if content.None? then Ok(Undecoded(None, [], []))
          else
            match parse(content.value)
            case Some(doc) => Ok(Decoded(doc))
            case None => Ok(Undecoded(content, [], []))
  }
}
