/** The report's chat assistant: a session primed with a text summary of the
    analysed photographs, then accepting one user turn at a time.

    The chat SDK is an oracle. `open` creates the chat and answers the
    priming message with a greeting; `ask` answers one user turn on an open
    chat. Initialisation and sending are atomic transitions on a `Session`
    record. */
module Chatbot {
  import opened Results
  import opened Types
  import opened Text

  datatype Role = User | Model

  /** One turn of the conversation history. */
  datatype Message = Message(role: Role, text: string)

  /** The SDK's chat object, known only by identity. */
  datatype ChatHandle = ChatHandle(id: nat)

  /** The component's state hooks: the open chat (if any), the history shown,
      the text box, and whether a request is outstanding. */
  datatype Session = Session(
    chat: Option<ChatHandle>,
    messages: seq<Message>,
    input: string,
    isLoading: bool)

  /** A freshly mounted assistant: no chat, no history, loading until
      initialisation settles. */
  const InitialSession := Session(None, [], "", true)

  const MissingKeyText := "API Key is not configured. The chatbot cannot be initialized."
  const ConnectApology := "Sorry, I'm having trouble connecting right now. Please try again later."
  const SendApology := "I'm sorry, I encountered an error. Could you please rephrase your question?"
  const SummaryHeader := "Here is the vehicle damage assessment summary:\n"
  const GreetingRequest :=
    "\n\nPlease greet the user and let them know you are ready to help with any questions about their report."
  const LinePrefix := "Image analysis found "

  // ---------------------------------------------------------------------------
  // the priming summary
  // ---------------------------------------------------------------------------

  /** "<severity> <damage type> on the <location>". */
  function ChatClause(d: DamageDetail): string
  {
    SeverityName(d.severity) + " " + DamageTypeName(d.damageType) + " on the " + d.location
  }

  function ChatClauses(ds: seq<DamageDetail>): (r: seq<string>)
    ensures |r| == |ds|
    ensures forall i :: 0 <= i < |ds| ==> r[i] == ChatClause(ds[i])
  {
    if ds == [] then [] else [ChatClause(ds[0])] + ChatClauses(ds[1..])
  }

  /** The damage clauses joined by ", ", or "None" when that join is the
      empty string (a falsy value). */
  function DamagesText(ds: seq<DamageDetail>): string
  {
    var joined := Join(", ", ChatClauses(ds));
    if joined == "" then "None" else joined
  }

  /** The summary line of one photograph: damage count, total, damages. */
  function SummaryLine(r: AnalysisResult): string
  {
    LinePrefix + NatToString(|r.analysis.damages|)
    + " damages with a total estimated cost of INR " + IntToString(r.analysis.totalEstimatedCostINR) + ". "
    + "Damages include: " + DamagesText(r.analysis.damages) + "."
  }

  function SummaryLines(results: seq<AnalysisResult>): (r: seq<string>)
    ensures |r| == |results|
    ensures forall i :: 0 <= i < |results| ==> r[i] == SummaryLine(results[i])
  {
    if results == [] then [] else [SummaryLine(results[0])] + SummaryLines(results[1..])
  }

  /** The assessment summary: the header, then one line per photograph in
      order, lines separated by a newline. */
  function PrimingSummary(results: seq<AnalysisResult>): string
  {
    SummaryHeader + Join("\n", SummaryLines(results))
  }

  /** The first message sent on a new chat. */
  function PrimingMessage(results: seq<AnalysisResult>): string
  {
    PrimingSummary(results) + GreetingRequest
  }

  /** The damages part of a line reads "None" exactly when the photograph has
      no damages; otherwise it is the clauses joined by ", ". */
  lemma DamagesTextNoneIff(ds: seq<DamageDetail>)
    ensures DamagesText(ds) == "None" <==> ds == []
    ensures ds != [] ==> DamagesText(ds) == Join(", ", ChatClauses(ds))
  {
    if ds != [] {
      var cs := ChatClauses(ds);
      JoinLength(", ", cs);
      assert TotalLength(cs) >= |cs[0]| >= 8;
    }
  }

  /** The count at the start of a line reads back as the number of damages:
      right after the fixed prefix come exactly its decimal digits and then a
      space. */
  lemma SummaryLineCount(r: AnalysisResult)
    ensures var line := SummaryLine(r);
      var digits := NatToString(|r.analysis.damages|);
      var p := |LinePrefix|;
      && p + |digits| < |line|
      && line[..p] == LinePrefix
      && line[p..p + |digits|] == digits
      && line[p + |digits|] == ' '
      && DigitsValue(line[p..p + |digits|]) == |r.analysis.damages|
  {
    var digits := NatToString(|r.analysis.damages|);
    var lead := " damages with a total estimated cost of INR ";
    var tail := lead + IntToString(r.analysis.totalEstimatedCostINR)
      + ". " + "Damages include: " + DamagesText(r.analysis.damages) + ".";
    assert SummaryLine(r) == LinePrefix + digits + tail;
    assert lead[0] == ' ';
    assert tail[0] == lead[0];
    ThreePieces(LinePrefix, digits, tail);
    NatToStringRoundTrip(|r.analysis.damages|);
  }

  /** Where the middle piece of a three-piece string sits. */
  lemma ThreePieces(a: string, b: string, c: string)
    requires c != []
    ensures var s := a + b + c;
      && s[..|a|] == a && s[|a|..|a| + |b|] == b && s[|a| + |b|] == c[0]
  {
    var s := a + b + c;
    assert s[..|a|] == a;
    assert s[|a|..|a| + |b|] == b;
  }

  /** The summary lists the photographs in order: no photograph leaves only
      the header, and each further photograph adds a newline and its line. */
  lemma PrimingSummaryOrder(results: seq<AnalysisResult>, r: AnalysisResult)
    ensures PrimingSummary([]) == SummaryHeader
    ensures PrimingSummary([r]) == SummaryHeader + SummaryLine(r)
    ensures results != [] ==>
      PrimingSummary(results + [r]) == PrimingSummary(results) + "\n" + SummaryLine(r)
  {
    var line := SummaryLine(r);
    assert SummaryLines([r]) == [line];
    if results != [] {
      var lines := SummaryLines(results);
      SummaryLinesSnoc(results, r);
      JoinSnoc("\n", lines, line);
      var joined := Join("\n", lines);
      assert PrimingSummary(results + [r]) == SummaryHeader + (joined + "\n" + line);
      Regroup(SummaryHeader, joined, "\n", line);
    }
  }

  lemma Regroup(a: string, b: string, c: string, d: string)
    ensures a + (b + c + d) == a + b + c + d
  {
  }

  lemma SummaryLinesSnoc(results: seq<AnalysisResult>, r: AnalysisResult)
    ensures SummaryLines(results + [r]) == SummaryLines(results) + [SummaryLine(r)]
  {
    var a, b := SummaryLines(results + [r]), SummaryLines(results) + [SummaryLine(r)];
    assert |a| == |b|;
    forall i | 0 <= i < |a|
      ensures a[i] == b[i]
    {
      if i < |results| {
        assert (results + [r])[i] == results[i];
      }
    }
  }

  // ---------------------------------------------------------------------------
  // initialisation
  // ---------------------------------------------------------------------------

  /** A missing or empty key is falsy. */
  predicate HasApiKey(apiKey: Option<string>) {
    apiKey.Some? && apiKey.value != ""
  }

  /** Initialising the chat for `results`. Without a key nothing is requested;
      otherwise the chat is opened with the priming message. The history is
      replaced by one model turn in every case. */
  function Init(s: Session, apiKey: Option<string>, results: seq<AnalysisResult>,
                open: string -> Result<(ChatHandle, string)>): (r: Session)
    ensures !r.isLoading && r.input == s.input
    ensures |r.messages| == 1 && r.messages[0].role == Model
  {
    if !HasApiKey(apiKey) then
      s.(isLoading := false, messages := [Message(Model, MissingKeyText)])
    else
      match open(PrimingMessage(results))
      case Success((handle, greeting)) =>
        s.(messages := [Message(Model, greeting)], chat := Some(handle), isLoading := false)
      case Failure(_) =>
        s.(messages := [Message(Model, ConnectApology)], isLoading := false)
  }

  /** The three outcomes of initialising a fresh session. */
  lemma InitOutcomes(apiKey: Option<string>, results: seq<AnalysisResult>,
                     open: string -> Result<(ChatHandle, string)>)
    ensures var r := Init(InitialSession, apiKey, results, open);
      var answer := open(PrimingMessage(results));
      && (!HasApiKey(apiKey) ==> r == Session(None, [Message(Model, MissingKeyText)], "", false))
      && (HasApiKey(apiKey) && answer.Success? ==>
            r == Session(Some(answer.value.0), [Message(Model, answer.value.1)], "", false))
      && (HasApiKey(apiKey) && answer.Failure? ==>
            r == Session(None, [Message(Model, ConnectApology)], "", false))
  {
  }

  // ---------------------------------------------------------------------------
  // sending
  // ---------------------------------------------------------------------------

  /** The first half of a send: either rejected, or the user turn is shown,
      the text box cleared, and `message` is to be sent on `chat`. */
  datatype SendStart = Rejected | Accepted(pending: Session, chat: ChatHandle, message: string)

  /** The guard and optimistic update of a send. */
  function BeginSend(s: Session): (r: SendStart)
    ensures r.Rejected? <==> IsBlank(s.input) || s.chat.None? || s.isLoading
    ensures r.Accepted? ==>
      && r.pending == s.(messages := s.messages + [Message(User, s.input)], input := "", isLoading := true)
      && s.chat == Some(r.chat)
      && r.message == s.input
  {
    TrimEmptyIffBlank(s.input);
    if Trim(s.input) == "" || s.chat.None? || s.isLoading then Rejected
    else Accepted(s.(messages := s.messages + [Message(User, s.input)], input := "", isLoading := true),
                  s.chat.value, s.input)
  }

  /** The second half of a send: exactly one model turn is appended, the
      reply or the fixed apology, and loading ends. */
  function CompleteSend(s: Session, reply: Result<string>): (r: Session)
    ensures |r.messages| == |s.messages| + 1 && r.messages[..|s.messages|] == s.messages
    ensures r.messages[|s.messages|] ==
      Message(Model, match reply case Success(t) => t case Failure(_) => SendApology)
    ensures r.chat == s.chat && r.input == s.input && !r.isLoading
  {
    var text := match reply case Success(t) => t case Failure(_) => SendApology;
    s.(messages := s.messages + [Message(Model, text)], isLoading := false)
  }

  /** Typing in the text box; the box is disabled while loading or without
      a chat. */
  function EditInput(s: Session, text: string): (r: Session)
    ensures !s.isLoading && s.chat.Some? ==> r.input == text
    ensures s.isLoading || s.chat.None? ==> r == s
    ensures r.chat == s.chat && r.messages == s.messages && r.isLoading == s.isLoading
  {
    if s.isLoading || s.chat.None? then s else s.(input := text)
  }

  /** A whole send: guard, optimistic user turn, one reply or apology turn. */
  function HandleSend(s: Session, ask: (ChatHandle, string) -> Result<string>): (r: Session)
    ensures IsBlank(s.input) || s.chat.None? || s.isLoading ==> r == s
    ensures !(IsBlank(s.input) || s.chat.None? || s.isLoading) ==>
      && r.messages == s.messages + [Message(User, s.input),
                                     Message(Model, match ask(s.chat.value, s.input)
                                                    case Success(t) => t
                                                    case Failure(_) => SendApology)]
      && r.input == "" && !r.isLoading && r.chat == s.chat
  {
    match BeginSend(s)
    case Rejected => s
    case Accepted(pending, chat, message) => CompleteSend(pending, ask(chat, message))
  }

  /** A new session accepts no send before initialisation settles. */
  lemma NoSendBeforeInit()
    ensures BeginSend(InitialSession).Rejected?
  {
  }

  /** Once a send is accepted, neither a second send nor typing has any effect
      until the first completes. */
  lemma SingleFlight(s: Session, text: string)
    requires !IsBlank(s.input) && s.chat.Some? && !s.isLoading
    ensures BeginSend(s).Accepted?
    ensures BeginSend(BeginSend(s).pending).Rejected?
    ensures EditInput(BeginSend(s).pending, text) == BeginSend(s).pending
  {
  }

  /** A failed reply leaves the session usable: after the apology turn, any
      non-blank question is accepted again. */
  lemma RecoversAfterFailedSend(s: Session, fault: Fault, text: string)
    requires !IsBlank(s.input) && s.chat.Some? && !s.isLoading
    requires !IsBlank(text)
    ensures BeginSend(s).Accepted?
    ensures var after := CompleteSend(BeginSend(s).pending, Failure(fault));
      && after.messages[|after.messages| - 1] == Message(Model, SendApology)
      && BeginSend(EditInput(after, text)).Accepted?
  {
  }

  // ---------------------------------------------------------------------------
  // sequences of user events
  // ---------------------------------------------------------------------------

  /** What the user can do on an initialised session: type, or press send
      (whose reply is given as the event's outcome). */
  datatype Event = Edit(text: string) | Send(reply: Result<string>)

  function Step(s: Session, e: Event): Session
  {
    match e
    case Edit(t) => EditInput(s, t)
    case Send(reply) =>
      match BeginSend(s)
      case Rejected => s
      case Accepted(pending, _, _) => CompleteSend(pending, reply)
  }

  function Replay(s: Session, events: seq<Event>): Session
    decreases |events|
  {
    if events == [] then s else Replay(Step(s, events[0]), events[1..])
  }

  /** History is append-only and the chat never changes: whatever the user
      does, the earlier turns stay as they were. */
  lemma {:induction false} HistoryAppendOnly(s: Session, events: seq<Event>)
    ensures s.messages <= Replay(s, events).messages
    ensures Replay(s, events).chat == s.chat
    decreases |events|
  {
    if events != [] {
      var t := Step(s, events[0]);
      assert s.messages <= t.messages;
      HistoryAppendOnly(t, events[1..]);
    }
  }

  /** Without a chat (no key, or a failed initialisation) every event is
      ignored: the session never changes. */
  lemma {:induction false} NoChatIgnoresEverything(s: Session, events: seq<Event>)
    requires s.chat.None?
    ensures Replay(s, events) == s
    decreases |events|
  {
    if events != [] {
      assert Step(s, events[0]) == s;
      NoChatIgnoresEverything(s, events[1..]);
    }
  }

  /** Without a key (undefined or empty) the assistant shows only the
      configuration message, forever. */
  lemma MissingKeyIsFinal(apiKey: Option<string>, results: seq<AnalysisResult>,
                          open: string -> Result<(ChatHandle, string)>, events: seq<Event>)
    requires !HasApiKey(apiKey)
    ensures Replay(Init(InitialSession, apiKey, results, open), events).messages == [Message(Model, MissingKeyText)]
  {
    NoChatIgnoresEverything(Init(InitialSession, apiKey, results, open), events);
  }
}
