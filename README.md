# Email Shield decision layer, modelled in Dafny

This project models the decision logic of the Email Shield spam checker:

- **Authentication-signal extraction.** The check page searches the whole pasted e-mail, headers and body alike, case-insensitively, for fixed SPF, DKIM, DMARC and TLS phrases. It records each protocol as Safe, Unsafe or Unknown.
- **Override rule.** When at least three protocols are Safe, the classifier's verdict is forced to 0 (not spam).
- **Analysis-page bookkeeping.** The analysis page runs single and batch analyses, reports progress, keeps the list of results and builds the rows of its two PDF reports.
- **E-mail indexing.** The e-mails API route builds three dictionaries keyed by each record's `user_email` field, where a later e-mail overwrites an earlier one.

Files, one module each:

- `text.dfy` (`Text`): ASCII lower-casing, substring search, JavaScript white space and `trim`, and `join`.
- `common.dfy` (`Common`): optional values, truthiness of optional strings, report cells.
- `protocols.dfy` (`Protocols`): `analyzeProtocols` and `overrideSpamDetection`.
- `check_page.dfy` (`CheckPage`): the check page's `handleSubmit` and `handleDownloadReport`.
- `detect_page.dfy` (`DetectPage`): the analysis page's `analyzeBatch`, `analyzeSingle`, `generateReport` and `generateBatchReport`.
- `email_index.dfy` (`EmailIndex`): the `GET` handler of the e-mails route.

The regular expressions are modelled exactly as the code writes them.

- A pattern is its list of top-level alternatives. Alternation binds loosest, so `/SPF: fail|softfail|neutral/i` looks for `spf: fail`, `softfail` or `neutral` anywhere in the text. Only the TLS pass pattern groups its words, so it needs the `tls: ` prefix on both.
- The separator is the single literal space after the colon.
- The `i` flag is ASCII lower-casing of the text, and the alternatives are written already lower-cased. This is exact for these patterns: ECMAScript's case-insensitive comparison never maps a non-ASCII character onto an ASCII one.

The code matches a single literal space after each colon and uses ungrouped alternation. It has no per-item failure handling and no cancellation, and its threshold is the literal 3. The model follows it.

State that the pages keep in React state becomes a class: `CheckPage.Page` and `DetectPage.Page`. Their methods say the whole new state in terms of the old one.

- Randomness and the clock are inputs: ids, class and confidence draws, and timestamps come from a `Draw`, and the k-th e-mail of a batch uses the k-th draw.
- The MD5 and SHA-256 digests are function parameters, applied to the exact string the code hashes.
- The classifier's answer is a `FetchOutcome` parameter.
- `DetectPage.Page.progressTrace` is a ghost record of every value passed to `setProgress`.
- Progress is an exact rational (`real`), not a floating-point number.

## Model

| member | source | states |
|---|---|---|
| `Text.ContainsIff` | frontend/app/check/page.tsx:45 | the left-to-right substring search used for a pattern test holds exactly when the pattern occurs at some index of the text |
| `Text.TrimEmptyIff` | app/detect/page.tsx:70 | `text.trim()` is empty exactly when every character of the text is ECMAScript white space or a line terminator |
| `Text.TrimStartSpec` | app/detect/page.tsx:70 | trimming the front drops a white-space prefix only and leaves a suffix that does not start with white space |
| `Text.TrimEndSpec` | app/detect/page.tsx:70 | trimming the end drops a white-space suffix only and leaves a prefix that does not end with white space |
| `Text.TrimIsInfix` | app/detect/page.tsx:70 | the trimmed text is a contiguous slice of the original |
| `Text.Trim` | app/detect/page.tsx:70 | `text.trim()`: white space removed at the front, then at the end; its meaning is given by `Text.TrimStartSpec`, `Text.TrimEndSpec` and `Text.TrimEmptyIff` |
| `Text.Join` | app/detect/page.tsx:159 | `threats.join(', ')`: no items give the empty string, one item gives that item unchanged, and two items give the first, the separator and the second |
| `Text.JoinAppend` | app/detect/page.tsx:159 | joining the concatenation of two non-empty lists is the two joins with one separator between them |
| `Protocols.AnyOccursIff` | frontend/app/check/page.tsx:46 | a pattern of unbracketed alternatives matches exactly when one of its alternatives occurs in the lower-cased text |
| `Protocols.Matches` | frontend/app/check/page.tsx:45-56 | `/…/i.test(text)`: the pattern's top-level alternatives are tried, left to right, against the lower-cased text; `Protocols.AnyOccursIff` proves this is "some alternative occurs" |
| `Protocols.RulesAreLowerCase` | frontend/app/check/page.tsx:45-56 | every alternative of the four rules is unchanged by lower-casing, so matching lower-cased text against them is the case-insensitive test |
| `Protocols.StatusOf` | frontend/app/check/page.tsx:45-56 | Safe iff the pass pattern matches; Unsafe iff the pass pattern fails and the fail pattern matches; Unknown iff neither matches |
| `Protocols.AnalyzeProtocols` | frontend/app/check/page.tsx:37-59 | starting from all Unknown, each of SPF, DKIM, DMARC, TLS is overwritten by its first matching rule; the result is the record `ProtocolsOf(text)` |
| `Protocols.ProtocolsOf` | frontend/app/check/page.tsx:37-59 | the record the extractor returns: per protocol, the verdict of that protocol's pass-then-fail rule pair, in key order SPF, DKIM, DMARC, TLS |
| `Protocols.PatternsSpelledOut` | frontend/app/check/page.tsx:45-56 | each of the eight patterns matches exactly when the lower-cased text contains one of its literal alternatives, e.g. SPF fails on `spf: fail`, `softfail` or `neutral` |
| `Protocols.NoTriggerAllUnknown` | frontend/app/check/page.tsx:38-43 | a text that matches none of the patterns gives all four protocols Unknown and no Safe entry |
| `Protocols.VerdictNeedsEvidence` | frontend/app/check/page.tsx:38-58 | a Safe or Unsafe entry is always backed by a matching pattern of that protocol |
| `Protocols.PassRuleWins` | frontend/app/check/page.tsx:45-56 | when a pass trigger occurs (`spf: pass`, `dkim: pass`, `dmarc: reject`/`quarantine`, `tls: required`/`enforced`) the protocol is Safe, whatever fail substrings are also present |
| `Protocols.BareWordsTriggerUnsafe` | frontend/app/check/page.tsx:46-56 | without its pass trigger, SPF is Unsafe on bare `softfail`/`neutral`, DKIM on `none`, DMARC on `fail`, TLS on `optional`, anywhere in the text |
| `Protocols.QuarantineAnywhereTlsNeedsPrefix` | frontend/app/check/page.tsx:52-55 | bare `quarantine` anywhere makes DMARC Safe; TLS is Safe exactly on `tls: required` or `tls: enforced` |
| `Protocols.SpfFailAlsoFailsDmarc` | frontend/app/check/page.tsx:46-56 | the text `SPF: fail` in any case gives SPF Unsafe and, through DMARC's bare `fail`, DMARC Unsafe too, with DKIM and TLS Unknown |
| `Protocols.SafeCount` | frontend/app/check/page.tsx:65-67 | the number of Safe values among the four is the multiplicity of Safe in `Object.values(protocols)`, at most 4 |
| `Protocols.CountSafe` | frontend/app/check/page.tsx:65-67 | `filter(status === "Safe").length` is the multiplicity of Safe in the sequence, at most its length |
| `Protocols.SafeCountSpelledOut` | frontend/app/check/page.tsx:65-67 | the Safe count is the sum over SPF, DKIM, DMARC, TLS of one per Safe entry |
| `Protocols.OverrideSpamDetection` | frontend/app/check/page.tsx:61-69 | three or more Safe values force 0; fewer keep the original prediction |
| `Protocols.OverrideIsZeroOrOriginal` | frontend/app/check/page.tsx:68 | the override result is always either 0 or the original prediction |
| `Protocols.OverrideIdempotent` | frontend/app/check/page.tsx:68 | for fixed protocols, overriding the override's result changes nothing, and 0 stays 0 |
| `Protocols.ThreePassesForceNotSpam` | frontend/app/check/page.tsx:45-68 | text with `spf: pass`, `dkim: pass` and `dmarc: reject` has at least three Safe entries and any prediction becomes 0 |
| `Protocols.NoPassKeepsPrediction` | frontend/app/check/page.tsx:45-68 | text matching no pass pattern has no Safe entry and the prediction is returned unchanged |
| `Protocols.ExampleThreeSafeHeaders` | frontend/app/check/page.tsx:45-68 | the headers `SPF: pass / DKIM: pass / DMARC: reject / TLS: none`, in any case, turn prediction 1 into 0 |
| `CheckPage.SubmissionOf` | frontend/app/check/page.tsx:82-102 | a response is stored iff the fetch succeeded and the answer has no truthy `error`; then it carries the overridden class, the SHA-256 of the input and the input's protocols, its other fields unchanged; otherwise only the error is set, with the fixed message for a thrown error |
| `CheckPage.Page.HandleSubmit` | frontend/app/check/page.tsx:77-106 | the stored response and error are `SubmissionOf` the current input; the input is unchanged and loading ends false |
| `CheckPage.ErrorAnswerStoresNothing` | frontend/app/check/page.tsx:92 | an answer with a non-empty `error` stores nothing and shows that error; an empty `error` string is falsy, so the answer is stored |
| `CheckPage.FinalLabel` | frontend/app/check/page.tsx:119 | the label is "Spam" iff the class is exactly 1, otherwise "Not Spam" |
| `CheckPage.MetricRows` | frontend/app/check/page.tsx:116-131 | five rows in the fixed order; "Spam" iff class 1; probabilities as percentages; blacklist weight and hash shown as themselves, or as "N/A" exactly when absent |
| `CheckPage.ProbabilityCell` | frontend/app/check/page.tsx:121-128 | an existing probability is shown as that value times 100 with a percent sign; a missing entry prints "NaN%" |
| `CheckPage.NumberOrNA` | frontend/app/check/page.tsx:129 | `blacklist_weight ?? "N/A"`: "N/A" exactly when the weight is absent, otherwise the weight itself |
| `CheckPage.StringOrNA` | frontend/app/check/page.tsx:130 | `hash ?? "N/A"`: "N/A" when the hash is absent, otherwise the hash, the empty string included |
| `CheckPage.Entries` | frontend/app/check/page.tsx:139-142 | four protocol rows in the key order SPF, DKIM, DMARC, TLS, each with that protocol's status name |
| `CheckPage.ProtocolRows` | frontend/app/check/page.tsx:139-142 | no rows without a protocols record, otherwise the four entries in key order |
| `CheckPage.Page.HandleDownloadReport` | frontend/app/check/page.tsx:108-146 | no report without a stored response, otherwise its metric rows and protocol rows |
| `CheckPage.ReportAfterSubmit` | frontend/app/check/page.tsx:92-142 | after a successful submit the report says "Not Spam" when three or more protocols are Safe, otherwise "Spam" iff the classifier said 1; it shows the input's SHA-256 and the input's four protocol rows |
| `DetectPage.ClassOf` | app/detect/page.tsx:126 | the class is Spam iff the random draw exceeds 0.5, and is never Phishing |
| `DetectPage.MakeResult` | app/detect/page.tsx:84-95 | a result copies content, subject and sender, hashes exactly that content with both digests and lists the two fixed threats |
| `DetectPage.BatchResults` | app/detect/page.tsx:118-134 | one result per e-mail, the k-th built from the k-th e-mail's body, subject and sender |
| `DetectPage.BatchResultCopiesEmail` | app/detect/page.tsx:119-125 | each batch result's content is its e-mail's body, its subject and sender are copied, and both digests are over the body |
| `DetectPage.Page.AnalyzeBatch` | app/detect/page.tsx:109-142 | the results become the batch's results in input order followed by the earlier results; progress is reported as 0 and then k/total*100 after the k-th item, ending at 100 for a non-empty batch; analysing ends false |
| `DetectPage.Page.SetProgress` | app/detect/page.tsx:136 | `setProgress` stores the value as the current progress and appends it to the progress trace, changing nothing else |
| `DetectPage.ProgressSteps` | app/detect/page.tsx:135-136 | a batch of n e-mails reports n progress values, the k-th being (k+1)/n*100 |
| `DetectPage.ProgressIncreases` | app/detect/page.tsx:135-136 | the reported progress values strictly increase and the last is 100 |
| `DetectPage.Page.AnalyzeSingle` | app/detect/page.tsx:69-107 | blank input (after trimming) changes nothing; otherwise exactly one result over the untrimmed input is put in front, the input is cleared and progress goes 0, 100, 0 |
| `DetectPage.GenerateReport` | app/detect/page.tsx:144-178 | the property rows are an optional Sender row, then an optional Subject row, then the five fixed rows; the content table holds the result's content |
| `DetectPage.FixedRows` | app/detect/page.tsx:154-160 | five rows labelled Classification, Confidence, MD5 Hash, SHA-256 Hash, Threats Detected, showing the result's classification name, its confidence as a percentage, its own two digests and its threats joined by ", " |
| `DetectPage.FixedThreatsJoined` | app/detect/page.tsx:91 | the Threats Detected cell of every result reads "Suspicious Links, Urgency Language" |
| `DetectPage.ReportRowLayout` | app/detect/page.tsx:154-163 | a single report has 5 + [subject truthy] + [sender truthy] rows, ends with the five fixed rows, and puts Sender before Subject when both are present |
| `DetectPage.OptionalRow` | app/detect/page.tsx:162-163 | a truthy subject or sender adds exactly one row with its value; an absent or empty one adds none |
| `DetectPage.BatchRows` | app/detect/page.tsx:190-195 | one four-cell row per result, in results order, whose first cell is the subject or "N/A" |
| `DetectPage.SubjectOrNA` | app/detect/page.tsx:191 | `subject || 'N/A'`: a truthy subject is shown as is, an absent or empty one as "N/A" |
| `DetectPage.BatchRow` | app/detect/page.tsx:190-195 | one batch-report row: subject or "N/A", classification name, confidence, and the threats joined by ", " |
| `DetectPage.SubjectNAIff` | app/detect/page.tsx:191 | the subject cell reads "N/A" exactly when the subject is absent, empty or itself "N/A" |
| `DetectPage.BatchRowsAppend` | app/detect/page.tsx:190-195 | the batch report of a concatenation is the concatenation of the batch reports |
| `DetectPage.BatchReportAfterBatch` | app/detect/page.tsx:140 | after a batch, the batch report starts with one row per uploaded e-mail in upload order, showing its subject or "N/A", followed by the earlier results' rows unchanged |
| `EmailIndex.Get` | app/api/emails/route.ts:39-61 | a load failure answers "Failed to load data" with status 500; otherwise the three dictionaries are the last-write-wins indexes of header, links and text by `user_email` |
| `EmailIndex.IndexKeys` | app/api/emails/route.ts:51-55 | the keys of an index are exactly the `user_email` values of the list |
| `EmailIndex.IndexBy` | app/api/emails/route.ts:51-55 | the dictionary left after writing each e-mail's field under its `user_email`, in list order; its keys, values and size are given by `EmailIndex.IndexKeys`, `EmailIndex.IndexLastWins`, `EmailIndex.IndexValuesFromList` and `EmailIndex.IndexSize` |
| `EmailIndex.SameKeys` | app/api/emails/route.ts:51-55 | headers, links and texts have the same key set |
| `EmailIndex.IndexLastWins` | app/api/emails/route.ts:51-55 | an address maps to the field of the last e-mail with that address |
| `EmailIndex.IndexValuesFromList` | app/api/emails/route.ts:52-54 | every stored value is the unchanged field of the last e-mail with that key |
| `EmailIndex.IndexEmpty` | app/api/emails/route.ts:47-55 | an empty list gives an empty dictionary |
| `EmailIndex.IndexSize` | app/api/emails/route.ts:51-55 | a dictionary has at most as many keys as there are e-mails, and exactly as many when all addresses differ |

## Left out

- Hashing: MD5 and SHA-256 (the browser hashing library and Node's `crypto`) are foreign library calls. They are function parameters applied to the exact string the code hashes; their values are not modelled.
- The network and the classifier: the `fetch` to the prediction server and the BERT model behind it are outside the model. The answer is an input, and every thrown error (network failure, a non-ok status, a body that is not JSON) is the single `Failed` outcome.
- Floating point: probabilities, confidence and progress are exact rationals. The numerals `toFixed(2)` prints are stood for by the `Percent` cell without formatting, and floating-point rounding of `processed / total * 100` is not modelled.
- Randomness and clock: ids, the class and confidence draws, and timestamps are inputs (`Draw`). The date formatting of the report header is left out.
- `DetectPage.Page.AnalyzeSingle`: does not model the timer-driven progress ticks of `setInterval` (`min(prev + 10, 90)`) or the 2-second simulated delay. Its final state includes the effect of the deferred reset (`isAnalyzing` false, progress 0).
- `DetectPage.Page.AnalyzeBatch`: does not model the 100 ms pause between items, or any interleaving with other state updates during it. It also does not model a malformed record: every record is a `BatchEmail`, so every batch completes. In the code, a `null` entry in the uploaded `emails` array makes `email.body` throw inside the loop. `analyzeBatch` is not awaited, so the upload handler's `catch` never sees that error. The batch then stops with the analysing flag still true and progress stuck at the last k/total*100, and none of that batch's results are stored.
- PDF drawing and page rendering: only the rows of the tables are modelled, not page positions, fonts, file names or the JSX.
- File reading and JSON parsing: the batch upload handler and the route's file read are outside the model. A parsed list is an input. `None` stands for every path of the route that reaches its `catch`: a failed read or parse, a parsed value that is `null` or has no `emails` array, or a `null` record part-way through the list, whose earlier writes are then discarded. A batch record's `body` is taken as present; what the hashing library does with an undefined body is not modelled.
- `EmailIndex.Get`: the dictionaries are Dafny maps, not JavaScript plain objects. The model stores every `user_email` value as a key. In the code, the key `"__proto__"` triggers the inherited `__proto__` setter instead of creating an own property, so the serialised answer leaves that key out of all three dictionaries. `EmailIndex.IndexKeys`, `EmailIndex.IndexLastWins` and `EmailIndex.IndexValuesFromList` do not hold of the code for that one key. Nor does the "exactly as many" half of `EmailIndex.IndexSize`: with distinct addresses, one of them `"__proto__"`, the code's dictionaries have one key fewer than there are e-mails.
- `CheckPage.Page.HandleSubmit`: does not model that the inputs can change while the request is awaited. It runs as one step.
- Other files (the landing page, the data page, the chat and stub predict routes, the browser extension, the Python server) are glue or outside the core, and none of them is part of this model.
