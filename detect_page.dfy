/** The analysis page: single and batch analysis of e-mails and the rows of
    its two PDF reports. Classification, confidence, ids and timestamps come
    from random draws and the clock, and the digests from a hashing library;
    all of them are inputs here. */
module DetectPage {
  import opened Common
  import opened Text

  datatype Classification = Spam | NotSpam | Phishing

  /** One stored analysis result. */
  datatype AnalysisResult = AnalysisResult(
    id: string,
    content: string,
    subject: Option<string>,
    sender: Option<string>,
    classification: Classification,
    confidence: real,
    threats: seq<string>,
    md5: string,
    sha256: string,
    timestamp: int)

  /** The values one analysis takes from `Math.random()` and the clock: the
      id string, the draw deciding the class, the draw scaled to a
      confidence, and the time. */
  datatype Draw = Draw(id: string, classDraw: real, confidenceDraw: real, timestamp: int)

  /** The two digest functions (MD5 and SHA-256 of a string). */
  datatype Digests = Digests(md5: string -> string, sha256: string -> string)

  /** One record of an uploaded batch file. */
  datatype BatchEmail = BatchEmail(body: string, subject: Option<string>, sender: Option<string>)

  /** The threats every analysis reports. */
  const FixedThreats: seq<string> := ["Suspicious Links", "Urgency Language"]

  /** `Math.random() > 0.5 ? 'Spam' : 'Not Spam'`. */
  function ClassOf(classDraw: real): (c: Classification)
    ensures c == Spam <==> classDraw > 0.5
    ensures c != Phishing
  {
    if classDraw > 0.5 then Spam else NotSpam
  }

  /** The result built for one piece of content: both digests are taken
      over exactly that content. */
  function MakeResult(content: string, subject: Option<string>, sender: Option<string>,
                      draw: Draw, digests: Digests): (r: AnalysisResult)
    ensures r.content == content && r.subject == subject && r.sender == sender
    ensures r.md5 == digests.md5(content) && r.sha256 == digests.sha256(content)
    ensures r.threats == FixedThreats && r.classification != Phishing
  {
    AnalysisResult(draw.id, content, subject, sender, ClassOf(draw.classDraw),
                   draw.confidenceDraw * 100.0, FixedThreats,
                   digests.md5(content), digests.sha256(content), draw.timestamp)
  }

  /** The results of a batch, the k-th from the k-th e-mail and the k-th draw. */
  function BatchResults(emails: seq<BatchEmail>, draws: nat -> Draw, digests: Digests): (rs: seq<AnalysisResult>)
    ensures |rs| == |emails|
    ensures forall k :: 0 <= k < |emails| ==>
      rs[k] == MakeResult(emails[k].body, emails[k].subject, emails[k].sender, draws(k), digests)
  {
    seq(|emails|, k requires 0 <= k < |emails| =>
      MakeResult(emails[k].body, emails[k].subject, emails[k].sender, draws(k), digests))
  }

  /** `(processed / total) * 100`, as an exact rational. */
  function Percentage(processed: nat, total: nat): (p: real)
    requires total > 0
  {
    (processed as real / total as real) * 100.0
  }

  /** The progress values a batch of `total` e-mails reports after each item. */
  function ProgressSteps(total: nat): (ps: seq<real>)
    ensures |ps| == total
    ensures forall k :: 0 <= k < total ==> ps[k] == Percentage(k + 1, total)
  {
    seq(total, k requires 0 <= k < total => Percentage(k + 1, total))
  }

  /** The page's state. `progressTrace` records every value the page passes
      to `setProgress`, in order. */
  class Page {
    var inputText: string
    var isAnalyzing: bool
    var progress: real
    var results: seq<AnalysisResult>
    ghost var progressTrace: seq<real>

    constructor ()
      ensures inputText == "" && !isAnalyzing && progress == 0.0 && results == []
      ensures progressTrace == []
    {
      inputText := "";
      isAnalyzing := false;
      progress := 0.0;
      results := [];
      progressTrace := [];
    }

    /** `setProgress`. */
    method SetProgress(value: real)
      modifies this`progress, this`progressTrace
      ensures progress == value && progressTrace == old(progressTrace) + [value]
    {
      progress := value;
      progressTrace := progressTrace + [value];
    }

    /** `analyzeBatch`: one result per e-mail in input order; after the k-th
        item the progress is k / total * 100; the batch goes in front of the
        earlier results, which keep their order. */
    method AnalyzeBatch(emails: seq<BatchEmail>, draws: nat -> Draw, digests: Digests)
      modifies this
      ensures results == BatchResults(emails, draws, digests) + old(results)
      ensures progressTrace == old(progressTrace) + [0.0] + ProgressSteps(|emails|)
      ensures progress == if |emails| == 0 then 0.0 else 100.0
      ensures !isAnalyzing && inputText == old(inputText)
    {
      isAnalyzing := true;
      SetProgress(0.0);

      var totalEmails := |emails|;
      var processed := 0;
      var newResults: seq<AnalysisResult> := [];

      while processed < totalEmails
        invariant 0 <= processed <= totalEmails
        invariant newResults == BatchResults(emails, draws, digests)[..processed]
        invariant progressTrace == old(progressTrace) + [0.0] + ProgressSteps(totalEmails)[..processed]
        invariant progress == if processed == 0 then 0.0 else Percentage(processed, totalEmails)
        invariant results == old(results) && inputText == old(inputText)
      {
        var email := emails[processed];
        var result := MakeResult(email.body, email.subject, email.sender, draws(processed), digests);
        assert BatchResults(emails, draws, digests)[..processed + 1]
            == BatchResults(emails, draws, digests)[..processed] + [result];
        assert ProgressSteps(totalEmails)[..processed + 1]
            == ProgressSteps(totalEmails)[..processed] + [Percentage(processed + 1, totalEmails)];
        newResults := newResults + [result];
        processed := processed + 1;
        SetProgress(Percentage(processed, totalEmails));
      }
      assert BatchResults(emails, draws, digests)[..processed] == BatchResults(emails, draws, digests);
      assert ProgressSteps(totalEmails)[..processed] == ProgressSteps(totalEmails);

      results := newResults + results;
      isAnalyzing := false;
    }

    /** `analyzeSingle`: nothing happens for input that is blank after
        trimming; otherwise one result over the untrimmed input goes in front
        of the earlier results and the input is cleared. Progress ends at 100
        and is reset to 0 by the deferred callback, whose effect is included. */
    method AnalyzeSingle(draw: Draw, digests: Digests)
      modifies this
      ensures Trim(old(inputText)) == "" ==>
        && results == old(results) && inputText == old(inputText)
        && progress == old(progress) && progressTrace == old(progressTrace)
        && isAnalyzing == old(isAnalyzing)
      ensures Trim(old(inputText)) != "" ==>
        && results == [MakeResult(old(inputText), None, None, draw, digests)] + old(results)
        && inputText == ""
        && progressTrace == old(progressTrace) + [0.0, 100.0, 0.0]
        && progress == 0.0 && !isAnalyzing
    {
      if Trim(inputText) == "" {
        return;
      }
      ghost var trace0 := progressTrace;
      isAnalyzing := true;
      SetProgress(0.0);

      var result := MakeResult(inputText, None, None, draw, digests);
      results := [result] + results;
      inputText := "";

      SetProgress(100.0);
      isAnalyzing := false;
      SetProgress(0.0);
      assert progressTrace == trace0 + [0.0, 100.0, 0.0];
    }
  }

  /** The Threats Detected cell of every analysis result. */
  lemma FixedThreatsJoined()
    ensures Join(FixedThreats, ", ") == "Suspicious Links, Urgency Language"
  {
  }

  /** The name a classification is shown under. */
  function ClassificationName(c: Classification): (name: string)
  {
    match c
    case Spam => "Spam"
    case NotSpam => "Not Spam"
    case Phishing => "Phishing"
  }

  /** The five rows every single report has, in this order. */
  function FixedRows(r: AnalysisResult): (rows: seq<Row>)
    ensures |rows| == 5
    ensures rows[0].0 == "Classification" && rows[1].0 == "Confidence" && rows[2].0 == "MD5 Hash"
    ensures rows[3].0 == "SHA-256 Hash" && rows[4].0 == "Threats Detected"
    ensures rows[0].1 == Str(ClassificationName(r.classification)) && rows[1].1 == Percent(r.confidence)
    ensures rows[2].1 == Str(r.md5) && rows[3].1 == Str(r.sha256)
    ensures rows[4].1 == Str(Join(r.threats, ", "))
  {
    [ ("Classification", Str(ClassificationName(r.classification))),
      ("Confidence", Percent(r.confidence)),
      ("MD5 Hash", Str(r.md5)),
      ("SHA-256 Hash", Str(r.sha256)),
      ("Threats Detected", Str(Join(r.threats, ", "))) ]
  }

  /** A one-row table for a truthy optional value, an empty one otherwise. */
  function OptionalRow(name: string, value: Option<string>): (rows: seq<Row>)
    ensures Truthy(value) ==> rows == [(name, Str(value.value))]
    ensures !Truthy(value) ==> rows == []
  {
    if Truthy(value) then [(name, Str(value.value))] else []
  }

  /** The "Property / Value" rows of a single report and its content table. */
  datatype SingleReport = SingleReport(properties: seq<Row>, content: string)

  /** `generateReport`: the five report rows, then Subject pushed on the
      front when truthy, then Sender pushed on the front when truthy. */
  method GenerateReport(result: AnalysisResult) returns (report: SingleReport)
    ensures report.properties ==
      OptionalRow("Sender", result.sender) + OptionalRow("Subject", result.subject) + FixedRows(result)
    ensures report.content == result.content
  {
    var tableData := FixedRows(result);
    if Truthy(result.subject) {
      tableData := [("Subject", Str(result.subject.value))] + tableData;
    }
    if Truthy(result.sender) {
      tableData := [("Sender", Str(result.sender.value))] + tableData;
    }
    report := SingleReport(tableData, result.content);
  }

  /** `subject || 'N/A'`: an absent or empty subject becomes "N/A". */
  function SubjectOrNA(subject: Option<string>): (s: string)
    ensures Truthy(subject) ==> s == subject.value
    ensures !Truthy(subject) ==> s == "N/A"
  {
    if Truthy(subject) then subject.value else "N/A"
  }

  /** One row of the batch report. */
  function BatchRow(r: AnalysisResult): (row: seq<Cell>)
  {
    [Str(SubjectOrNA(r.subject)), Str(ClassificationName(r.classification)),
     Percent(r.confidence), Str(Join(r.threats, ", "))]
  }

  /** `generateBatchReport`'s table: one row per result, in results order. */
  function BatchRows(results: seq<AnalysisResult>): (rows: seq<seq<Cell>>)
    ensures |rows| == |results|
    ensures forall k :: 0 <= k < |results| ==> rows[k] == BatchRow(results[k])
  {
    seq(|results|, k requires 0 <= k < |results| => BatchRow(results[k]))
  }

  // ---------------------------------------------------------------------
  // Properties

  /** The reported progress strictly increases and ends at 100. */
  lemma ProgressIncreases(total: nat)
    ensures forall i, j :: 0 <= i < j < total ==> ProgressSteps(total)[i] < ProgressSteps(total)[j]
    ensures total > 0 ==> ProgressSteps(total)[total - 1] == 100.0
  {
    forall i, j | 0 <= i < j < total
      ensures ProgressSteps(total)[i] < ProgressSteps(total)[j]
    {
      PercentageMonotone(i + 1, j + 1, total);
    }
  }

  lemma PercentageMonotone(a: nat, b: nat, total: nat)
    requires a < b && total > 0
    ensures Percentage(a, total) < Percentage(b, total)
  {
  }

  /** A single report has the five fixed rows last, in their order, one row
      more for a truthy subject and one more for a truthy sender; when both
      are present Sender comes first and Subject second. */
  lemma ReportRowLayout(r: AnalysisResult)
    ensures var rows := OptionalRow("Sender", r.sender) + OptionalRow("Subject", r.subject) + FixedRows(r);
      && |rows| == 5 + (if Truthy(r.subject) then 1 else 0) + (if Truthy(r.sender) then 1 else 0)
      && rows[|rows| - 5..] == FixedRows(r)
      && (Truthy(r.sender) ==> rows[0] == ("Sender", Str(r.sender.value)))
      && (Truthy(r.subject) && !Truthy(r.sender) ==> rows[0] == ("Subject", Str(r.subject.value)))
      && (Truthy(r.subject) && Truthy(r.sender) ==> rows[1] == ("Subject", Str(r.subject.value)))
      && (!Truthy(r.subject) && !Truthy(r.sender) ==> rows == FixedRows(r))
  {
  }

  /** The batch report of a list is the reports of its parts, one after the other. */
  lemma BatchRowsAppend(a: seq<AnalysisResult>, b: seq<AnalysisResult>)
    ensures BatchRows(a + b) == BatchRows(a) + BatchRows(b)
  {
  }

  /** After a batch, the batch report starts with one row per uploaded
      e-mail in upload order, its subject or "N/A" first, followed by the
      rows of the earlier results unchanged. */
  lemma BatchReportAfterBatch(emails: seq<BatchEmail>, draws: nat -> Draw, digests: Digests,
                              earlier: seq<AnalysisResult>)
    ensures var rows := BatchRows(BatchResults(emails, draws, digests) + earlier);
      && |rows| == |emails| + |earlier|
      && (forall k :: 0 <= k < |emails| ==> rows[k][0] == Str(SubjectOrNA(emails[k].subject)))
      && rows[|emails|..] == BatchRows(earlier)
  {
  }

  /** A subject prints as "N/A" exactly when it is absent, empty, or itself "N/A". */
  lemma SubjectNAIff(subject: Option<string>)
    ensures SubjectOrNA(subject) == "N/A" <==> !Truthy(subject) || subject.value == "N/A"
  {
  }

  /** Each result of a batch copies its e-mail and hashes that e-mail's body. */
  lemma BatchResultCopiesEmail(emails: seq<BatchEmail>, draws: nat -> Draw, digests: Digests, k: nat)
    requires k < |emails|
    ensures var r := BatchResults(emails, draws, digests)[k];
      && r.content == emails[k].body && r.subject == emails[k].subject && r.sender == emails[k].sender
      && r.md5 == digests.md5(emails[k].body) && r.sha256 == digests.sha256(emails[k].body)
  {
  }
}
