/** The single-email check page: it extracts the authentication signals of
    the entered text, asks the classifier for a verdict, applies the override
    rule to it and keeps the result for the downloadable report. */
module CheckPage {
  import opened Common
  import opened Protocols

  /** The classifier's JSON answer, with the fields the page adds to it. */
  datatype PredictionResponse = PredictionResponse(
    predictedClass: int,
    probabilities: seq<real>,
    blacklistWeight: Option<real>,
    linkAnomalies: Option<seq<string>>,
    hash: Option<string>,
    error: Option<string>,
    protocols: Option<ProtocolStatus>)

  /** What the request to the classifier yields: a thrown error (network
      failure, a status other than ok, a body that is not JSON) or the parsed body. */
  datatype FetchOutcome = Failed | Received(data: PredictionResponse)

  /** The message shown for every thrown error. */
  const FetchErrorMessage := "Error occurred while fetching data"

  /** The state the submit leaves behind: the stored response and the error. */
  datatype Submission = Submission(response: Option<PredictionResponse>, error: Option<string>)

  /** What `handleSubmit` stores for the text `input`: a truthy `error` in the
      answer is shown and nothing is stored; otherwise the answer is stored
      with the SHA-256 of the input, the overridden class and the extracted
      protocols. */
  function SubmissionOf(input: string, outcome: FetchOutcome, sha256: string -> string): (s: Submission)
    ensures s.response.Some? <==> s.error.None?
    ensures s.response.Some? <==> outcome.Received? && !Truthy(outcome.data.error)
    ensures outcome.Failed? ==> s.error == Some(FetchErrorMessage)
    ensures outcome.Received? && Truthy(outcome.data.error) ==> s.error == outcome.data.error
    ensures s.response.Some? ==>
      && s.response.value.predictedClass
           == OverrideSpamDetection(outcome.data.predictedClass, ProtocolsOf(input))
      && s.response.value.hash == Some(sha256(input))
      && s.response.value.protocols == Some(ProtocolsOf(input))
      && s.response.value.probabilities == outcome.data.probabilities
      && s.response.value.blacklistWeight == outcome.data.blacklistWeight
      && s.response.value.linkAnomalies == outcome.data.linkAnomalies
      && s.response.value.error == outcome.data.error
  {
    match outcome
    case Failed => Submission(None, Some(FetchErrorMessage))
    case Received(data) =>
      if Truthy(data.error) then Submission(None, data.error)
      else
        var protocols := ProtocolsOf(input);
        Submission(Some(data.(hash := Some(sha256(input)),
                              predictedClass := OverrideSpamDetection(data.predictedClass, protocols),
                              protocols := Some(protocols))), None)
  }

  /** The final label of the report: "Spam" exactly for class 1. */
  function FinalLabel(predictedClass: int): (name: string)
    ensures name == "Spam" <==> predictedClass == 1
    ensures name == "Not Spam" <==> predictedClass != 1
  {
    if predictedClass == 1 then "Spam" else "Not Spam"
  }

  /** `(probabilities[i] * 100).toFixed(2)` followed by "%"; a missing entry
      is `undefined`, whose product with 100 prints as "NaN". */
  function ProbabilityCell(probabilities: seq<real>, i: nat): (c: Cell)
    ensures i < |probabilities| ==> c == Percent(probabilities[i] * 100.0)
    ensures i >= |probabilities| ==> c == Str("NaN%")
  {
    if i < |probabilities| then Percent(probabilities[i] * 100.0) else Str("NaN%")
  }

  /** `value ?? "N/A"` for an optional number. */
  function NumberOrNA(value: Option<real>): (c: Cell)
    ensures value.None? <==> c == Str("N/A")
    ensures value.Some? ==> c == Num(value.value)
  {
    if value.Some? then Num(value.value) else Str("N/A")
  }

  /** `value ?? "N/A"` for an optional string: only an absent value is
      replaced, an empty string is kept. */
  function StringOrNA(value: Option<string>): (c: Cell)
    ensures value.None? ==> c == Str("N/A")
    ensures value.Some? ==> c == Str(value.value)
  {
    if value.Some? then Str(value.value) else Str("N/A")
  }

  /** The "Metric / Value" table of the report. */
  function MetricRows(response: PredictionResponse): (rows: seq<Row>)
    ensures |rows| == 5
    ensures [rows[0].0, rows[1].0, rows[2].0, rows[3].0, rows[4].0] ==
      ["Final Classification", "Spam Probability", "Not Spam Probability", "Blacklist Weight", "SHA-256 Hash"]
    ensures rows[0].1 == Str("Spam") <==> response.predictedClass == 1
    ensures rows[0].1 == Str("Not Spam") <==> response.predictedClass != 1
    ensures |response.probabilities| >= 2 ==>
      rows[1].1 == Percent(response.probabilities[1] * 100.0) &&
      rows[2].1 == Percent(response.probabilities[0] * 100.0)
    ensures rows[3].1 == Str("N/A") <==> response.blacklistWeight.None?
    ensures rows[3].1 == NumberOrNA(response.blacklistWeight)
    ensures response.hash.Some? ==> rows[4].1 == Str(response.hash.value)
    ensures response.hash.None? ==> rows[4].1 == Str("N/A")
  {
    [ ("Final Classification", Str(FinalLabel(response.predictedClass))),
      ("Spam Probability", ProbabilityCell(response.probabilities, 1)),
      ("Not Spam Probability", ProbabilityCell(response.probabilities, 0)),
      ("Blacklist Weight", NumberOrNA(response.blacklistWeight)),
      ("SHA-256 Hash", StringOrNA(response.hash)) ]
  }

  /** The name a status is stored under. */
  function StatusName(st: Status): (name: string)
  {
    match st
    case Safe => "Safe"
    case Unsafe => "Unsafe"
    case Unknown => "Unknown"
  }

  /** `Object.entries(protocols)`, in the record's key order. */
  function Entries(p: ProtocolStatus): (rows: seq<(string, string)>)
    ensures |rows| == 4
    ensures forall i :: 0 <= i < 4 ==> rows[i].1 == StatusName(Values(p)[i])
    ensures rows[0].0 == "SPF" && rows[1].0 == "DKIM" && rows[2].0 == "DMARC" && rows[3].0 == "TLS"
  {
    [("SPF", StatusName(p.spf)), ("DKIM", StatusName(p.dkim)),
     ("DMARC", StatusName(p.dmarc)), ("TLS", StatusName(p.tls))]
  }

  /** The "Protocol / Status" table: empty when no protocols are attached. */
  function ProtocolRows(response: PredictionResponse): (rows: seq<(string, string)>)
    ensures response.protocols.None? ==> rows == []
    ensures response.protocols.Some? ==> rows == Entries(response.protocols.value)
  {
    match response.protocols
    case None => []
    case Some(p) => Entries(p)
  }

  /** The data of the downloaded PDF: its two tables. */
  datatype CheckReport = CheckReport(metrics: seq<Row>, protocols: seq<(string, string)>)

  /** The page's state. */
  class Page {
    var inputText: string
    var response: Option<PredictionResponse>
    var error: Option<string>
    var loading: bool

    constructor ()
      ensures inputText == "" && response == None && error == None && !loading
    {
      inputText := "";
      response := None;
      error := None;
      loading := false;
    }

    /** `handleSubmit`: the classifier's answer `outcome` and the SHA-256
        digest function come from outside. The input text is left as it is. */
    method HandleSubmit(outcome: FetchOutcome, sha256: string -> string)
      modifies this
      ensures Submission(response, error) == SubmissionOf(old(inputText), outcome, sha256)
      ensures inputText == old(inputText) && !loading
    {
      loading := true;
      error := None;
      response := None;

      var protocols := AnalyzeProtocols(inputText);
      match outcome {
        case Failed =>
          error := Some(FetchErrorMessage);
        case Received(data) =>
          if Truthy(data.error) {
            error := data.error;
          } else {
            data := data.(hash := Some(sha256(inputText)));
            data := data.(predictedClass := OverrideSpamDetection(data.predictedClass, protocols));
            response := Some(data.(protocols := Some(protocols)));
          }
      }
      loading := false;
    }

    /** `handleDownloadReport`: nothing without a stored response, otherwise
        the rows of its two tables. */
    method HandleDownloadReport() returns (report: Option<CheckReport>)
      ensures response.None? ==> report.None?
      ensures response.Some? ==>
        report == Some(CheckReport(MetricRows(response.value), ProtocolRows(response.value)))
    {
      if response.None? {
        return None;
      }
      var r := response.value;
      report := Some(CheckReport(MetricRows(r), ProtocolRows(r)));
    }
  }

  // ---------------------------------------------------------------------
  // Submit and report together

  /** After a successful submit the report shows "Not Spam" whenever three or
      more protocols of the input are Safe, the input's SHA-256 digest, and
      the four protocol rows in key order. */
  lemma ReportAfterSubmit(input: string, data: PredictionResponse, sha256: string -> string)
    requires !Truthy(data.error)
    ensures var s := SubmissionOf(input, Received(data), sha256);
      && s.response.Some?
      && var rows := MetricRows(s.response.value);
      && (SafeCount(ProtocolsOf(input)) >= 3 ==> rows[0] == ("Final Classification", Str("Not Spam")))
      && (SafeCount(ProtocolsOf(input)) < 3 ==>
            (rows[0].1 == Str("Spam") <==> data.predictedClass == 1))
      && rows[4] == ("SHA-256 Hash", Str(sha256(input)))
      && ProtocolRows(s.response.value) == Entries(ProtocolsOf(input))
  {
  }

  /** An answer with a truthy `error` stores nothing, so no report can be
      produced from it; an empty error string does not count as an error. */
  lemma ErrorAnswerStoresNothing(input: string, data: PredictionResponse, sha256: string -> string)
    ensures data.error.Some? && data.error.value != "" ==>
      SubmissionOf(input, Received(data), sha256) == Submission(None, data.error)
    ensures data.error == Some("") ==>
      SubmissionOf(input, Received(data), sha256).response.Some?
  {
  }
}
