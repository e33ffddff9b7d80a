# Vehicle damage detector: the orchestration core in Dafny

This project models the part of the AI vehicle damage detector that has
real control flow. The generative-model calls are abstract. The rest is
ordinary logic, which the model covers:

- **Records** (`Types`). A damage detail has a closed set of five damage
  types and three severities. An analysis has an ordered damage list, one
  reported total and its cost factors. An analysis result pairs one preview
  image with one analysis. The claims guide holds eligible claims, procedure
  steps and required documents.
- **Batch submission** (`Batch`). An empty batch returns at once. Otherwise:
  1. Every photograph is analysed, all-or-nothing.
  2. Analysis `i` is paired with preview `i`.
  3. One damage summary is built (`Summary`).
  4. If the summary is empty, the fixed "No Claim Recommended" guide is used.
     If not, the claims-guide service is asked exactly once with it.
  5. Any rejection becomes an error string, and loading ends once every
     request has settled.

  The module also models reset and the shell's screen priority: loading,
  then error, then report, then upload.
- **Chat assistant** (`Chatbot`). This covers:
  - the priming summary text, with its exact line format and the "None"
    fallback;
  - initialisation, with three outcomes: no API key, success, failure;
  - the guarded send, which appends the user turn at once, then exactly one
    reply turn or an apology turn;
  - the type-box lock, and the fact that history is append-only over any
    sequence of user events.
- **Report** (`DamageReport`). This covers:
  - the grand total, a left fold of the reported per-image totals from 0,
    checked against a separate sum definition;
  - the "Based on N analyzed image(s)." label;
  - the damage table, with one row per damage or a single placeholder row;
  - the tab selection.
- **JavaScript built-ins** (`Text`). These are `trim` (using the exact
  ECMAScript whitespace set), `join`, and the decimal rendering of an
  integral number in a template literal.

Every call into the model service is a function parameter that answers
`Success(value)` or `Failure(fault)`:

- `analyze` answers for one photograph;
- `guide` answers for one summary;
- `open` creates a chat and answers the priming message;
- `ask` answers one chat turn.

A fault is either an `Error` instance with its message, or any other
thrown value. The object-URL preview of a file is a parameter too
(`preview`). A submission returns three things: the states rendered at
each `await`, the final state, and the log of service requests. This log
is what "the claims service is called exactly once" is stated about.

Behaviours of the code that the model keeps as written:

- No enum or range validation of the model's JSON exists in the code. A
  response is parsed and cast, so no validator is modelled.
- An empty batch is handled inside the submission handler, as a no-op.
- A failed chat initialisation leaves the chat reference unchanged. It is
  not reset, but it is still empty for a fresh session.
- Blankness means `trim()` yields the empty string.
- Only a non-empty error string selects the error screen, because the
  empty string is falsy in JavaScript.

## Model

| member | source | states |
|---|---|---|
| Types.DamageTypeNamesDistinct | types.ts:3 | there are exactly five damage categories and their display names are pairwise distinct |
| Types.DamageTypeNameSpaces | types.ts:3 | a category's name contains a space exactly for "Broken Part" and "Paint Damage" |
| Types.SeverityNamesDistinct | types.ts:5 | there are exactly three severities, "Low", "Medium", "High", with distinct names |
| Types.SeverityNameShape | types.ts:5 | severity names are non-empty and contain no space |
| Text.TrimStart | components/Chatbot.tsx:62 | leading-whitespace removal returns a suffix whose dropped prefix is blank and which does not start with whitespace |
| Text.TrimEnd | components/Chatbot.tsx:62 | trailing-whitespace removal returns a prefix whose dropped suffix is blank and which does not end with whitespace |
| Text.TrimEmptyIffBlank | components/Chatbot.tsx:62 | `input.trim()` is empty exactly when every character of the input is ECMAScript whitespace |
| Text.BlankTrimsToEmpty | components/Chatbot.tsx:62 | a blank string trims to nothing |
| Text.TrimKeepsContent | components/Chatbot.tsx:62 | an input with any non-whitespace character does not trim to empty |
| Text.JoinAppend | App.tsx:42 | joining two non-empty lists puts exactly one separator at the seam |
| Text.JoinSnoc | App.tsx:42 | appending one part appends the separator and that part |
| Text.JoinLength | App.tsx:42 | the joined length is the total part length plus one separator per gap |
| Text.JoinEmptyIff | App.tsx:42-44 | with no empty part, the join is empty exactly when there are no parts |
| Text.JoinEnds | App.tsx:42 | the join starts with the first part and ends with the last part, so there is no leading or trailing separator |
| Text.DigitChar | components/Chatbot.tsx:32 | each digit value maps to the character with that digit value |
| Text.NatToString | components/Chatbot.tsx:32 | a count renders as a non-empty string of decimal digits with no leading zero, except "0" itself |
| Text.NatToStringRoundTrip | components/Chatbot.tsx:32 | reading the rendered digits back in base ten gives the count again |
| Text.NatToStringInjective | components/Chatbot.tsx:32 | distinct counts render differently |
| Text.IntToString | components/Chatbot.tsx:32 | an integral total renders with a leading minus exactly when negative, followed by the magnitude's digits |
| Text.IntToStringRoundTrip | components/Chatbot.tsx:32 | reading the rendered total back, with its sign, gives the total again |
| Summary.AllDamagesAppend | App.tsx:40 | flattening the damages distributes over concatenating result lists |
| Summary.AllDamagesIndex | App.tsx:39-40 | damage j of result i sits at position (damages of results before i) + j of the flattened list: result order first, then within-result order |
| Summary.AllDamagesEmptyIff | App.tsx:39-40 | the flattened list is empty exactly when no result has any damage |
| Summary.SummaryClauses | App.tsx:41 | there is one clause per damage in order, clause i being "<severity> <type> on <location>" for damage i |
| Summary.SummaryClausesAppend | App.tsx:41 | mapping damages to clauses distributes over concatenation |
| Summary.SummaryClauseShape | App.tsx:41 | every clause carries " on " right after "<severity> <type>", so no clause is empty |
| Summary.DamageSummaryEmptyIff | App.tsx:39-44 | the summary is the empty string exactly when no photograph has a damage |
| Summary.DamageSummaryAppend | App.tsx:39-42 | two batches' summaries combine with a single "; " when both have damages; a damage-free batch adds nothing |
| Summary.DamageSummaryExample | App.tsx:39-42 | "High Dent on front bumper" in one photograph and nothing in another gives exactly that clause |
| Batch.AnalyzeAll | App.tsx:28-30 | it succeeds iff every analysis succeeds, giving analysis i at position i; otherwise it carries the fault of a failing analysis with all earlier ones successful |
| Batch.PairResults | App.tsx:32-35 | there are as many results as previews, and result i pairs preview i with analysis i |
| Batch.AnalyzeCalls | App.tsx:29 | one analysis request per photograph, in photograph order |
| Batch.HandleFileAnalysis | App.tsx:17-62 | an empty batch changes nothing and requests nothing; otherwise every state rendered while waiting is loading, and loading has ended with an empty message afterwards |
| Batch.Reset | App.tsx:64-69 | after reset the upload form is shown, with no results, claims or error; the loading message is untouched |
| Batch.GuideRequestsAppend | App.tsx:45 | the claims requests of two call logs are those of each log in order |
| Batch.AnalyzeCallsHaveNoGuide | App.tsx:28-30 | the analysis fan-out issues no claims request |
| Batch.BatchShowsLoadingWhileWaiting | App.tsx:20-26 | while a submission waits the loading screen is shown, first with the analysis message; afterwards it is not |
| Batch.BatchAnalyzesEachImageOnce | App.tsx:28-30 | photograph i is requested exactly once at position i of the log, and any later request is a claims request (at most one) |
| Batch.BatchAllOrNothing | App.tsx:28-60 | if any analysis fails there are no results, no claims information and no claims request, and the error is the text of the fault of the lowest-index failing analysis |
| Batch.BatchResultsPaired | App.tsx:27-36 | when all analyses succeed there is one result per photograph, pairing photograph i's preview with its analysis |
| Batch.BatchGuideRequestedOnce | App.tsx:39-53 | the claims service gets exactly one request, the summary, when all analyses succeed and the summary is non-empty, and none otherwise |
| Batch.BatchNoDamageUsesFallback | App.tsx:44-53 | with no damage anywhere the fixed no-claim guide is set, there is no error and no claims request, and the report is shown |
| Batch.BatchGuideOutcome | App.tsx:36-57 | with some damage, a guide success becomes the claims information on the report; a guide failure keeps the results, leaves the claims empty and shows the error screen |
| Batch.UploadFirstAndAfterReset | App.tsx:64-96 | the shell starts on the upload form and returns to it on reset after any submission |
| Chatbot.ChatClauses | components/Chatbot.tsx:33 | there is one clause per damage in order, of the form "<severity> <type> on the <location>" |
| Chatbot.SummaryLines | components/Chatbot.tsx:31-34 | there is one summary line per result, in result order |
| Chatbot.DamagesTextNoneIff | components/Chatbot.tsx:33 | the damages part reads "None" exactly when the photograph has no damage, and is otherwise the clauses joined by ", " |
| Chatbot.SummaryLineCount | components/Chatbot.tsx:32 | a line starts "Image analysis found ", then the count's digits (which read back as the count), then a space |
| Chatbot.PrimingSummaryOrder | components/Chatbot.tsx:30-34 | the summary is the header alone for no results, header plus line for one, and each further result adds a newline and its line |
| Chatbot.Init | components/Chatbot.tsx:20-53 | after initialisation the history is exactly one model turn, loading is over and the text box is unchanged |
| Chatbot.InitOutcomes | components/Chatbot.tsx:21-52 | on a fresh session: no key gives only the configuration message and no chat; success gives [greeting] and the chat; failure gives [apology] and no chat |
| Chatbot.BeginSend | components/Chatbot.tsx:61-68 | a send is rejected iff the input is blank, there is no chat, or a send is in flight; if accepted, the untrimmed input is appended as a user turn and sent, the box is cleared and loading begins |
| Chatbot.CompleteSend | components/Chatbot.tsx:70-78 | completion appends exactly one model turn, the reply on success and the fixed apology on failure, keeps earlier turns and ends loading |
| Chatbot.EditInput | components/Chatbot.tsx:105-112 | an enabled box (a chat, no send in flight) takes the typed text; a disabled box changes nothing; typing never changes the chat, the history or the loading flag |
| Chatbot.HandleSend | components/Chatbot.tsx:61-79 | a rejected send changes nothing; an accepted one appends exactly [user input, reply or apology] and leaves the session ready |
| Chatbot.NoSendBeforeInit | components/Chatbot.tsx:13-16 | a fresh session, loading with no chat, rejects every send |
| Chatbot.SingleFlight | components/Chatbot.tsx:62-68 | a ready session with a non-blank input accepts the send; until it completes, a second send is rejected and typing has no effect |
| Chatbot.RecoversAfterFailedSend | components/Chatbot.tsx:70-78 | after an accepted send whose reply fails, the last turn is the fixed apology and the next non-blank question is accepted |
| Chatbot.HistoryAppendOnly | components/Chatbot.tsx:61-79 | over any sequence of typing and sends, the earlier history remains a prefix of the new one and the chat does not change |
| Chatbot.NoChatIgnoresEverything | components/Chatbot.tsx:62 | without a chat, no sequence of user events changes the session |
| Chatbot.MissingKeyIsFinal | components/Chatbot.tsx:21-25 | without an API key (undefined or empty), the history stays the single configuration message whatever the user does |
| DamageReport.FoldTotalsSeed | components/DamageReport.tsx:103 | the fold's seed can be taken out of the fold |
| DamageReport.GrandTotalAppend | components/DamageReport.tsx:103 | the grand total of two lists is the sum of their grand totals |
| DamageReport.GrandTotalIsSum | components/DamageReport.tsx:103 | the left fold from 0 equals the sum of the reported per-image totals |
| DamageReport.GrandTotalUsesReportedTotals | components/DamageReport.tsx:103 | two lists whose per-image reported totals agree have equal grand totals, whatever their itemised costs |
| DamageReport.GrandTotalExample | components/DamageReport.tsx:103 | totals 1500 and 2300 give 3800, and no results give the seed 0 |
| DamageReport.ImageCountLabelShape | components/DamageReport.tsx:130 | the label ends "images." iff there is more than one result, and its number reads back as the count |
| DamageReport.RowsOf | components/DamageReport.tsx:182-190 | there is one row per damage in order, showing that damage's cells |
| DamageReport.DamageRows | components/DamageReport.tsx:181-195 | the table has one row per damage, showing its type name, location, severity and cost; with no damage it has exactly one row, the "No damages detected" placeholder; a placeholder appears iff there is no damage |
| DamageReport.ActiveTabIsLastClicked | components/DamageReport.tsx:135-137 | the active tab is the last one clicked, or the starting tab if none was clicked |
| DamageReport.DetailsUntilClicked | components/DamageReport.tsx:64 | a new report shows the details tab until another tab is clicked |

## Left out

- services/geminiService.ts is not modelled beyond its interface. It holds
  the prompts, response schemas, model names, base64 file reading, the SDK
  calls and `JSON.parse` with a type cast. Each service call is an oracle
  parameter that may fail. The cast performs no validation, so none is
  modelled.
- Oracle answers are assumed to fit the records of types.ts, because the
  model's datatypes cannot hold anything else. The unchecked cast
  (services/geminiService.ts:87) lets through two inputs that are not
  represented here. One is a damage type outside the five, which the source
  would simply render. The other is a missing `damages` field. `flatMap`
  passes the `undefined` through, and the clause map at App.tsx:41 throws
  on it, after App.tsx:36 has already set the results.
- Every service call is assumed to settle, because a `Result` always
  answers. A call that never settles leaves the loading screen, or the
  chat lock, on forever. An example is a failed file read at
  services/geminiService.ts:15-16, where the promise has no reject path.
- Batch.AnalyzeAll: `Promise.all` rejects with the first rejection *in
  time*. The model has no time, so it fixes the failure with the lowest
  index, and Batch.BatchAllOrNothing states that this is the message shown.
  When several analyses fail, the source may show another failing
  analysis's message, depending on which answers first. The all-or-nothing
  outcome and the position-based pairing are the same in either order.
- The concurrency of the fan-out is left out, because order comes only
  from indexing.
- `URL.createObjectURL` is the `preview` parameter, because it creates a
  fresh browser URL.
- DamageReport.GrandTotalIsSum: costs are JavaScript doubles, and here they
  are unbounded integers. The sum properties assume exact arithmetic.
  Floating-point rounding is not modelled.
- Text.IntToString renders integral values only. JavaScript's exponent
  notation for magnitudes of 10^21 and above is not modelled, and neither
  is the rendering of fractional values.
- `toLocaleString('en-IN')` for amounts and the `toFixed(1)` percentage for
  confidence are not modelled, because they are locale and floating-point
  formatting. Table rows carry the raw numbers.
- PDF export (`handleDownloadPdf`, including html2canvas, jsPDF and the
  page loop) is not modelled, because it is library calls and
  floating-point layout.
- components/FileUpload.tsx and components/ClaimsGuide.tsx are not
  modelled, because they only render.
- JSX rendering in general is not modelled: styling, the per-image headings
  and cost-factor lists, the typing-indicator dots, scroll-into-view
  effects and drag events.
- Chatbot.Init is atomic. The intermediate `setIsLoading(true)` inside
  `initChat` is not a separate state. The `useEffect` re-run when results
  change and React's batching of state updates are not modelled either.
- The chat's system instruction text and the model names are not
  modelled, because they are SDK configuration.
- The service module throws at load time when the API key is missing. This
  is not modelled, because it happens outside the core's control flow.
- `console.error` logging is not modelled.
