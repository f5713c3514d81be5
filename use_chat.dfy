/** The browser-side chat controller: the message list, the conversation
    state echoed to the server, the session id kept in local storage, and
    the scripted demo conversation that stands in for the server. */
module UseChat {
  import opened Wrappers
  import opened Text
  import opened Catalog
  import opened Conversation
  import opened ChatRoute

  datatype Sender = User | Ai

  /** The client's own notices. */
  datatype Notice = StartFailed | SendFailed | PdfDone | PdfFailed | DemoPdfReady

  function NoticeText(n: Notice): string {
    match n
    case StartFailed => "I'm sorry, there was an error starting our conversation. Please refresh the page and try again."
    case SendFailed => "I'm sorry, there was an error processing your message. Please try again."
    case PdfDone => "Your PDF has been generated and downloaded successfully!"
    case PdfFailed => "Sorry, there was an error generating your PDF. Please try again."
    case DemoPdfReady => "Your PDF has been generated and downloaded! This is a demo version. In the full application, this would be customized with your specific information."
  }

  /** What a message says: the user's text, a line of the assistant (with
      the next question after it, for the opening message), or a notice of
      the client's own. */
  datatype Bubble = Typed(text: string) | Said(line: Line, next: Option<Line>) | Notice(notice: Notice)

  /** The text a message shows: the line, then a blank line and the next
      question when there is one. */
  function BubbleText(b: Bubble): string {
    match b
    case Typed(text) => text
    case Said(line, next) => if next.Some? then Render(line) + "\n\n" + Render(next.value) else Render(line)
    case Notice(n) => NoticeText(n)
  }

  /** A message in the list; ids and timestamps are not modelled. */
  datatype ChatMessage = ChatMessage(content: Bubble, sender: Sender)

  // ---------------------------------------------------------------------
  // The session id

  const SessionKey: string := "legal_navigator_session_id"

  /** `generateSessionId`: the clock reading and the random base-36 suffix
      are inputs. */
  function GenerateSessionId(millis: nat, suffix: string): (id: string)
    ensures "session_" <= id
  {
    "session_" + NatToString(millis) + "_" + suffix
  }

  /** The window's local storage. */
  class BrowserStorage {
    var items: map<string, string>

    constructor ()
      ensures items == map[]
    {
      items := map[];
    }
  }

  /** The id `getSessionId` returns and the storage it leaves: the stored id
      when there is a non-empty one, otherwise the generated id, which is
      then stored. */
  function SessionFrom(items: map<string, string>, generated: string): (string, map<string, string>) {
    var stored := if SessionKey in items then Some(items[SessionKey]) else None;
    if Truthy(stored) then (stored.value, items) else (generated, items[SessionKey := generated])
  }

  /** Once an id is stored, later calls return it and leave the storage as
      it is, whatever they would have generated. */
  lemma SessionIdStable(items: map<string, string>, first: string, later: string)
    requires first != ""
    ensures var (id, items1) := SessionFrom(items, first);
      SessionKey in items1 && items1[SessionKey] == id && SessionFrom(items1, later) == (id, items1)
  {
  }

  /** A first call keeps a stored id, or stores the new one; other keys are
      untouched. */
  lemma SessionFromKeepsOtherKeys(items: map<string, string>, generated: string, key: string)
    requires key != SessionKey
    ensures var (_, items1) := SessionFrom(items, generated);
      (key in items1 <==> key in items) && (key in items ==> items1[key] == items[key])
  {
  }

  /** `getSessionId`: without a window (`storage == null`) a fresh id every
      time; otherwise the stored one, or the generated one, stored. */
  method GetSessionId(storage: BrowserStorage?, generated: string) returns (id: string)
    modifies storage
    ensures storage == null ==> id == generated
    ensures storage != null ==> (id, storage.items) == SessionFrom(old(storage.items), generated)
  {
    if storage == null {
      return generated;
    }
    var stored := if SessionKey in storage.items then Some(storage.items[SessionKey]) else None;
    if Truthy(stored) {
      id := stored.value;
    } else {
      id := generated;
      storage.items := storage.items[SessionKey := generated];
    }
  }

  // ---------------------------------------------------------------------
  // The demo script

  /** One scripted reply: its text, the state it installs, and its optional
      `nextQuestion`, `formCompleted` and `generatePdf` fields. */
  datatype DemoResponse = DemoResponse(
    response: Line,
    state: ConversationState,
    nextQuestion: Option<Line>,
    formCompleted: bool,
    generatePdf: bool)

  /** The answers the script pretends to have collected, in question order. */
  const DemoAnswers: seq<FormValue> := [
    Str("Marion"), Str("Superior Court"), Str("49D01-2024-EV-001234"),
    Str("ABC Property Management"), Str("John Smith"), Bool(true),
    Str("123 Main St, Indianapolis, IN 46202"), Str("(317) 555-0123"),
    Str("john.smith@email.com")]

  /** The field names the script's form data uses, in question order. */
  const DemoFields: seq<string> := [
    "county", "court", "caseNumber", "plaintiff", "defendant", "agreeToNotify",
    "mailingAddress", "phone", "email"]

  /** The form data of the script after `n` answers. */
  function DemoForm(n: nat): FormData
    requires n <= |DemoFields|
  {
    DemoFieldsDistinct();
    map i | 0 <= i < n :: DemoFields[i] := DemoAnswers[i]
  }

  /** A scripted state: step, the first `answers` answers, the completion
      flag, no ids. */
  function DemoState(step: int, answers: nat, completed: bool): ConversationState
    requires answers <= |DemoFields|
  {
    ConversationState(step, DemoForm(answers), completed, None, None)
  }

  /** The line scripted for entry `k`: the script's strings are the
      endpoint's texts, the first prompt after "Thank you! ". */
  function DemoLine(k: nat): Line
    requires k <= 10
  {
    match k
    case 0 => WelcomeLine
    case 1 => ThanksThenAsk(1)
    case 9 => CompletionLine
    case 10 => PdfLine
    case _ => Ask(k)
  }

  /** `DEMO_RESPONSES[k]` for the entries 0 to 10: entry `k` (entry 10: the
      entry 9 state again) sits at step `k` with the first `k` answers and
      is complete from 9 on; entry 0 carries the first question, entry 9
      the completion flag, entry 10 the PDF request. */
  function DemoTable(k: nat): DemoResponse
    requires k <= 10
  {
    DemoResponse(DemoLine(k), DemoStateAt(k), if k == 0 then Some(Ask(0)) else None, k == 9, k == 10)
  }

  /** The state entry `k` installs. */
  function DemoStateAt(k: nat): ConversationState
    requires k <= 10
  {
    var step := if k == 10 then 9 else k;
    DemoState(step, step, k >= 9)
  }

  /** `DEMO_RESPONSES[k]`: undefined outside 0 to 10. */
  function DemoEntry(k: int): (e: Option<DemoResponse>)
    ensures e.Some? <==> 0 <= k <= 10
    ensures e.Some? ==> e.value == DemoTable(k)
  {
    if 0 <= k <= 10 then Some(DemoTable(k)) else None
  }

  lemma DemoFieldsDistinct()
    ensures forall i, j :: 0 <= i < j < |DemoFields| ==> DemoFields[i] != DemoFields[j]
  {
  }

  /** The script's field names are the catalog's, so after `n` answers its
      form data holds exactly the fields of the first `n` questions. */
  lemma DemoFieldsAreCatalogFields(n: nat)
    requires n <= Count
    ensures |DemoFields| == Count
    ensures forall i :: 0 <= i < Count ==> DemoFields[i] == Questions[i].field
    ensures (set i | 0 <= i < n :: DemoFields[i]) == FieldsUpTo(n)
  {
  }

  /** Entry `k` sits at step `k` for `k` up to 9, entry 10 at step 9 again;
      only entry 9 completes the form and only entry 10 asks for the PDF. */
  lemma DemoEntrySteps(k: int)
    requires 0 <= k <= 10
    ensures DemoTable(k).state.currentStep == if k == 10 then 9 else k
    ensures DemoTable(k).state.completed <==> k >= 9
    ensures DemoTable(k).formCompleted <==> k == 9
    ensures DemoTable(k).generatePdf <==> k == 10
  {
  }

  /** `currentStep || 0` on an optional state. */
  function StepOf(state: Option<ConversationState>): int {
    if state.Some? then state.value.currentStep else 0
  }

  /** The demo's step rule: one step forward below 9; from 9 on, to the PDF
      entry when the message contains "yes" in any case; otherwise stay. */
  function DemoNextStep(current: int, text: string): int {
    if current < 9 then current + 1
    else if Contains(ToLower(text), "yes") then 10
    else current
  }

  /** From any step of the script the rule lands on an entry of the script,
      never moves back, and moves by one until step 9. */
  lemma DemoNextStepStaysInScript(current: int, text: string)
    requires 0 <= current <= 10
    ensures var next := DemoNextStep(current, text);
      DemoEntry(next).Some? && current <= next && (current < 9 ==> next == current + 1)
  {
  }

  /** A reply to an affirmative message at step 9 or later is always the PDF
      entry; a reply to any other message there stays on the same step. */
  lemma DemoAfterCompletion(current: int, text: string)
    requires current >= 9
    ensures DemoNextStep(current, text) == 10 <==> Contains(ToLower(text), "yes") || current == 10
    ensures !Contains(ToLower(text), "yes") ==> DemoNextStep(current, text) == current
  {
  }

  // ---------------------------------------------------------------------
  // The controller's state and its transitions

  /** What came back from a live request: nothing usable (the fetch or the
      JSON parse threw), or the endpoint's answer. */
  datatype Delivery = NetworkFailure | Delivered(response: Response)

  /** Everything the hook keeps: the messages, the echoed state, the
      completion flag, the session id; and, as effects, the demo PDF timers
      still pending, the form data sent to the PDF endpoint and the chat
      requests sent. */
  datatype View = View(
    messages: seq<ChatMessage>,
    state: Option<ConversationState>,
    formCompleted: bool,
    sessionId: string,
    pdfTimers: nat,
    pdfRequests: seq<FormData>,
    chatRequests: seq<ChatRequest>)

  /** The initialisation effect, after the session id is known. */
  function AfterInit(v: View, demo: bool, sessionId: string, delivery: Delivery): View {
    var v1 := v.(sessionId := sessionId);
    if demo then
      v1.(messages := [ChatMessage(Said(DemoTable(0).response, DemoTable(0).nextQuestion), Ai)],
          state := Some(DemoTable(0).state))
    else
      var v2 := v1.(chatRequests := v1.chatRequests + [Body(None, None, Some(sessionId))]);
      match delivery
      case NetworkFailure => v2.(messages := [ChatMessage(Notice(StartFailed), Ai)])
      case Delivered(ServerError) => v2
      case Delivered(Reply(t)) =>
        if Render(t.response) == "" then v2
        else v2.(messages := [ChatMessage(Said(t.response, t.nextQuestion), Ai)], state := Some(t.state))
  }

  /** The demo reply to a message, after the user message is shown. */
  function AfterDemoReply(v: View, text: string): View {
    match DemoEntry(DemoNextStep(StepOf(v.state), text))
    case None => v
    case Some(e) =>
      v.(messages := v.messages + [ChatMessage(Said(e.response, None), Ai)],
         state := Some(e.state),
         formCompleted := v.formCompleted || e.formCompleted,
         pdfTimers := if e.generatePdf then v.pdfTimers + 1 else v.pdfTimers)
  }

  /** The live reply to a message, after the user message is shown; an
      answer carrying `error` and a failed fetch both end in the one error
      message. */
  function AfterLiveReply(v: View, message: string, delivery: Delivery, pdfOk: bool): View {
    var v1 := v.(chatRequests := v.chatRequests + [Body(Some(message), v.state, Some(v.sessionId))]);
    match delivery
    case NetworkFailure => v1.(messages := v1.messages + [ChatMessage(Notice(SendFailed), Ai)])
    case Delivered(ServerError) => v1.(messages := v1.messages + [ChatMessage(Notice(SendFailed), Ai)])
    case Delivered(Reply(t)) =>
      var v2 := v1.(messages := v1.messages + [ChatMessage(Said(t.response, None), Ai)],
                    state := Some(t.state),
                    formCompleted := v1.formCompleted || t.formCompleted);
      if !t.generatePdf then v2
      else v2.(pdfRequests := v2.pdfRequests + [t.state.formData],
               messages := v2.messages + [ChatMessage(Notice(if pdfOk then PdfDone else PdfFailed), Ai)])
  }

  /** `handleSendMessage`: a blank message does nothing; otherwise the
      trimmed message is shown and answered by the script or the endpoint. */
  function AfterSend(v: View, demo: bool, text: string, delivery: Delivery, pdfOk: bool): View {
    if Trim(text) == "" then v
    else
      var v1 := v.(messages := v.messages + [ChatMessage(Typed(Trim(text)), User)]);
      if demo then AfterDemoReply(v1, text) else AfterLiveReply(v1, Trim(text), delivery, pdfOk)
  }

  // ---------------------------------------------------------------------
  // Properties of the transitions

  /** An empty or whitespace-only message changes nothing and sends
      nothing. */
  lemma BlankMessageIsNoOp(v: View, demo: bool, text: string, delivery: Delivery, pdfOk: bool)
    requires AllWhitespace(text)
    ensures AfterSend(v, demo, text, delivery, pdfOk) == v
  {
    TrimEmptyIffAllWhitespace(text);
  }

  /** The list with the user's trimmed message shown. */
  function Shown(v: View, text: string): View {
    v.(messages := v.messages + [ChatMessage(Typed(Trim(text)), User)])
  }

  lemma SendIsDemoReply(v: View, text: string, delivery: Delivery, pdfOk: bool)
    requires !AllWhitespace(text)
    ensures AfterSend(v, true, text, delivery, pdfOk) == AfterDemoReply(Shown(v, text), text)
  {
    TrimEmptyIffAllWhitespace(text);
  }

  lemma SendIsLiveReply(v: View, text: string, delivery: Delivery, pdfOk: bool)
    requires !AllWhitespace(text)
    ensures AfterSend(v, false, text, delivery, pdfOk) == AfterLiveReply(Shown(v, text), Trim(text), delivery, pdfOk)
  {
    TrimEmptyIffAllWhitespace(text);
  }

  lemma DemoReplyKeepsMessages(v: View, text: string)
    ensures v.messages <= AfterDemoReply(v, text).messages
  {
  }

  lemma LiveReplyKeepsMessages(v: View, message: string, delivery: Delivery, pdfOk: bool)
    ensures v.messages <= AfterLiveReply(v, message, delivery, pdfOk).messages
  {
  }

  /** Any other message is shown trimmed, after every earlier message,
      which stay as they were. */
  lemma MessageAppendedTrimmed(v: View, demo: bool, text: string, delivery: Delivery, pdfOk: bool)
    requires !AllWhitespace(text)
    ensures Trim(text) != ""
    ensures v.messages + [ChatMessage(Typed(Trim(text)), User)] <= AfterSend(v, demo, text, delivery, pdfOk).messages
  {
    TrimEmptyIffAllWhitespace(text);
    if demo {
      SendIsDemoReply(v, text, delivery, pdfOk);
      DemoReplyKeepsMessages(Shown(v, text), text);
    } else {
      SendIsLiveReply(v, text, delivery, pdfOk);
      LiveReplyKeepsMessages(Shown(v, text), Trim(text), delivery, pdfOk);
    }
  }

  /** The demo answers a shown message without sending anything: it
      shows the scripted entry's line and installs the entry's state only
      when that entry exists, and raises the completion flag only for an
      entry that carries it. */
  lemma DemoReplyFollowsScript(v: View, text: string)
    ensures var r := AfterDemoReply(v, text);
      var e := DemoEntry(DemoNextStep(StepOf(v.state), text));
      && r.chatRequests == v.chatRequests && r.pdfRequests == v.pdfRequests && r.sessionId == v.sessionId
      && r.messages == v.messages + (if e.Some? then [ChatMessage(Said(e.value.response, None), Ai)] else [])
      && r.state == (if e.Some? then Some(e.value.state) else v.state)
      && r.formCompleted == (v.formCompleted || (e.Some? && e.value.formCompleted))
      && r.pdfTimers == (if e.Some? && e.value.generatePdf then v.pdfTimers + 1 else v.pdfTimers)
  {
  }

  /** A live message is sent with its text, the current state and the
      session id; when the answer is an error or never arrives, exactly one
      error message follows and nothing else changes. */
  lemma LiveFailureAddsOneError(v: View, message: string, delivery: Delivery, pdfOk: bool)
    requires delivery == NetworkFailure || delivery == Delivered(ServerError)
    ensures var r := AfterLiveReply(v, message, delivery, pdfOk);
      && r.messages == v.messages + [ChatMessage(Notice(SendFailed), Ai)]
      && r.chatRequests == v.chatRequests + [Body(Some(message), v.state, Some(v.sessionId))]
      && r.state == v.state && r.formCompleted == v.formCompleted && r.sessionId == v.sessionId
      && r.pdfTimers == v.pdfTimers && r.pdfRequests == v.pdfRequests
  {
  }

  /** A live answer installs the state the endpoint sent back, shows its
      response, raises the completion flag only when the answer does, and
      when asked for the PDF sends the returned form data and reports the
      outcome in one more message. */
  lemma LiveReplyInstallsState(v: View, message: string, t: Turn, pdfOk: bool)
    ensures var r := AfterLiveReply(v, message, Delivered(Reply(t)), pdfOk);
      var shown := v.messages + [ChatMessage(Said(t.response, None), Ai)];
      && r.state == Some(t.state)
      && r.formCompleted == (v.formCompleted || t.formCompleted)
      && r.messages == (if t.generatePdf then shown + [ChatMessage(Notice(if pdfOk then PdfDone else PdfFailed), Ai)] else shown)
      && r.pdfRequests == (if t.generatePdf then v.pdfRequests + [t.state.formData] else v.pdfRequests)
      && r.chatRequests == v.chatRequests + [Body(Some(message), v.state, Some(v.sessionId))]
      && r.sessionId == v.sessionId && r.pdfTimers == v.pdfTimers
  {
  }

  /** The live greeting reads like the demo's: a fresh conversation answered
      with no message opens with the welcome, a blank line and the first
      question, exactly the demo's first message. */
  lemma LiveGreetingMatchesDemo(v: View, sessionId: string, s: ConversationState)
    requires s.currentStep == 0
    ensures var t := Advance(s, None);
      AfterInit(v, false, sessionId, Delivered(Reply(t))).messages
        == AfterInit(v, true, sessionId, NetworkFailure).messages
  {
    GreetingExactly(s, None);
    assert Render(WelcomeLine) != "" by { assert |Welcome| > 0; }
  }

  /** Whether live or scripted, the opening message shows exactly the text
      the endpoint logs for its greeting: the welcome, a blank line and the
      first question. */
  lemma OpeningShowsLoggedGreeting(v: View, demo: bool, sessionId: string, s: ConversationState)
    requires s.currentStep == 0
    ensures var r := AfterInit(v, demo, sessionId, Delivered(Reply(Advance(s, None))));
      |r.messages| == 1 && BubbleText(r.messages[0].content) == Render(LoggedGreeting)
  {
    GreetingExactly(s, None);
    assert Render(WelcomeLine) != "" by { assert |Welcome| > 0; }
    GreetingBubble();
  }

  /** The welcome followed by the first question reads as the logged greeting. */
  lemma GreetingBubble()
    ensures BubbleText(Said(WelcomeLine, Some(Ask(0)))) == Render(LoggedGreeting)
  {
  }

  /** One non-blank message moves the script from entry `j` to `j + 1`
      below entry 9, raising the completion flag on reaching entry 9. */
  lemma DemoStep(v: View, j: nat, text: string)
    requires j < 9 && v.state == Some(DemoStateAt(j)) && !AllWhitespace(text)
    ensures var r := AfterSend(v, true, text, NetworkFailure, false);
      r.state == Some(DemoStateAt(j + 1)) && r.formCompleted == (v.formCompleted || j + 1 == 9)
  {
    DemoEntrySteps(j);
    DemoEntrySteps(j + 1);
    SendIsDemoReply(v, text, NetworkFailure, false);
    DemoReplyFollowsScript(Shown(v, text), text);
  }

  // ---------------------------------------------------------------------
  // The hook, as an object

  class ChatClient {
    /** `isDemoMode`: the script answers instead of the endpoint. */
    const demo: bool
    var messages: seq<ChatMessage>
    var state: Option<ConversationState>
    var formCompleted: bool
    var sessionId: string
    var pdfTimers: nat
    var pdfRequests: seq<FormData>
    var chatRequests: seq<ChatRequest>

    function Snapshot(): View
      reads this
    {
      View(messages, state, formCompleted, sessionId, pdfTimers, pdfRequests, chatRequests)
    }

    /** The hook's initial state: no messages, no state, no session id. */
    constructor (demo: bool)
      ensures this.demo == demo
      ensures Snapshot() == View([], None, false, "", 0, [], [])
    {
      this.demo := demo;
      messages := [];
      state := None;
      formCompleted := false;
      sessionId := "";
      pdfTimers := 0;
      pdfRequests := [];
      chatRequests := [];
    }

    /** The mount effect: fix the session id, then show the opening message
      from the script or from the endpoint. */
    method Initialize(storage: BrowserStorage?, generated: string, delivery: Delivery)
      modifies this, storage
      ensures storage == null ==> sessionId == generated
      ensures storage != null ==> (sessionId, storage.items) == SessionFrom(old(storage.items), generated)
      ensures Snapshot() == AfterInit(old(Snapshot()), demo, sessionId, delivery)
    {
      var id := GetSessionId(storage, generated);
      sessionId := id;
      if demo {
        messages := [ChatMessage(Said(DemoTable(0).response, DemoTable(0).nextQuestion), Ai)];
        state := Some(DemoTable(0).state);
      } else {
        chatRequests := chatRequests + [Body(None, None, Some(id))];
        match delivery
        case NetworkFailure =>
          messages := [ChatMessage(Notice(StartFailed), Ai)];
        case Delivered(ServerError) =>
        case Delivered(Reply(t)) =>
          if Render(t.response) != "" {
            messages := [ChatMessage(Said(t.response, t.nextQuestion), Ai)];
            state := Some(t.state);
          }
      }
    }

    /** `handleSendMessage`: the endpoint's answer (or its absence) and the
      PDF download's outcome are inputs. */
    method SendMessage(text: string, delivery: Delivery, pdfOk: bool)
      modifies this
      ensures Snapshot() == AfterSend(old(Snapshot()), demo, text, delivery, pdfOk)
    {
      var message := Trim(text);
      if message == "" {
        return;
      }
      messages := messages + [ChatMessage(Typed(message), User)];
      if demo {
        DemoReply(text);
      } else {
        LiveReply(message, delivery, pdfOk);
      }
    }

    /** The scripted answer to the message just shown. */
    method DemoReply(text: string)
      modifies this
      ensures Snapshot() == AfterDemoReply(old(Snapshot()), text)
    {
      var entry := DemoEntry(DemoNextStep(StepOf(state), text));
      if entry.Some? {
        var e := entry.value;
        messages := messages + [ChatMessage(Said(e.response, None), Ai)];
        state := Some(e.state);
        if e.formCompleted {
          formCompleted := true;
        }
        if e.generatePdf {
          pdfTimers := pdfTimers + 1;
        }
      }
    }

    /** The request for the message just shown, and the endpoint's answer. */
    method LiveReply(message: string, delivery: Delivery, pdfOk: bool)
      modifies this
      ensures Snapshot() == AfterLiveReply(old(Snapshot()), message, delivery, pdfOk)
    {
      chatRequests := chatRequests + [Body(Some(message), state, Some(sessionId))];
      match delivery
      case NetworkFailure =>
        messages := messages + [ChatMessage(Notice(SendFailed), Ai)];
      case Delivered(ServerError) =>
        messages := messages + [ChatMessage(Notice(SendFailed), Ai)];
      case Delivered(Reply(t)) =>
        messages := messages + [ChatMessage(Said(t.response, None), Ai)];
        state := Some(t.state);
        if t.formCompleted {
          formCompleted := true;
        }
        if t.generatePdf {
          pdfRequests := pdfRequests + [t.state.formData];
          messages := messages + [ChatMessage(Notice(if pdfOk then PdfDone else PdfFailed), Ai)];
        }
    }

    /** A pending demo PDF timer fires: the demo download starts and its
      notice is shown. */
    method FirePdfTimer()
      requires pdfTimers > 0
      modifies this
      ensures Snapshot() == old(Snapshot()).(messages := old(messages) + [ChatMessage(Notice(DemoPdfReady), Ai)],
                                             pdfTimers := old(pdfTimers) - 1)
    {
      messages := messages + [ChatMessage(Notice(DemoPdfReady), Ai)];
      pdfTimers := pdfTimers - 1;
    }

    /** `handleDownloadPdf`: with a state, its form data goes to the PDF
      endpoint; a failure is only logged. */
    method DownloadPdf()
      modifies this
      ensures Snapshot() == if old(state).Some?
        then old(Snapshot()).(pdfRequests := old(pdfRequests) + [old(state).value.formData])
        else old(Snapshot())
    {
      if state.Some? {
        pdfRequests := pdfRequests + [state.value.formData];
      }
    }
  }
}
