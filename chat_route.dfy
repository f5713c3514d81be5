/** The chat endpoint: resolve the conversation state for the request,
    decide the turn, and write the messages and state changes it implies. */
module ChatRoute {
  import opened Wrappers
  import opened Catalog
  import opened Conversation
  import opened Database
  import opened Text

  /** The endpoint's answer: the turn's JSON body, or the generic
      "Internal server error" with status 500 for anything thrown. */
  datatype Response = Reply(turn: Turn) | ServerError

  /** The request body: JSON that cannot be read, or the message, the
      client's conversation state and the session id, each of which may be
      absent. */
  datatype ChatRequest =
    | Unreadable
    | Body(message: Option<string>, supplied: Option<ConversationState>, sessionId: Option<string>)

  const InternalError: string := "Internal server error"

  /** The state the turn starts from, the first message order to use, and
      the tables after resolution (which may have created a conversation). */
  datatype Resolved = Resolved(tables: Tables, state: ConversationState, order: nat)

  /** A stored conversation, as a state. */
  function FromRecord(id: string, rec: ConversationRecord): ConversationState {
    ConversationState(rec.currentStep, rec.formData, rec.completed, Some(id), Some(rec.sessionId))
  }

  /** Session resolution; None when a storage call throws. With neither a
      state nor a session id, a new conversation is created under a new
      session id; with a session id only, the stored conversation is
      rebuilt, or a new one created when none is found; otherwise the
      supplied state is used as it came. The order is the number of
      messages already logged for the conversation. */
  ghost function Resolve(configured: bool, db: Tables, supplied: Option<ConversationState>,
                         sessionId: Option<string>, newSessionId: string, newId: string): Option<Resolved>
  {
    if supplied.None? && !Truthy(sessionId) then
      if !configured then None
      else Some(Resolved(db.(conversations := db.conversations[newId := NewRecord(newSessionId)]),
                         Fresh(newSessionId, newId), 0))
    else if Truthy(sessionId) && supplied.None? then
      if !configured then None
      else match FindBySession(db, sessionId.value)
        case Some(id) =>
          Some(Resolved(db, FromRecord(id, db.conversations[id]), |MessagesOf(db.messages, id)|))
        case None =>
          Some(Resolved(db.(conversations := db.conversations[newId := NewRecord(newSessionId)]),
                        Fresh(newSessionId, newId), 0))
    else
      var s := supplied.value;
      if HasConversation(s) then
        if !configured then None
        else Some(Resolved(db, s, |MessagesOf(db.messages, s.conversationId.value)|))
      else Some(Resolved(db, s, 0))
  }

  function NewRecord(sessionId: string): ConversationRecord {
    ConversationRecord(sessionId, 0, map[], false)
  }

  /** Each save in `ws` is for conversation `cid`, the first at order `n`
      and each next at the following order. */
  predicate SavesFrom(ws: seq<Write>, cid: string, n: int)
    decreases |ws|
  {
    ws == [] ||
    match ws[0]
    case SaveMessage(m) => m.conversationId == cid && m.order == n && SavesFrom(ws[1..], cid, n + 1)
    case _ => SavesFrom(ws[1..], cid, n)
  }

  /** The messages a list of writes saves. */
  function Saved(ws: seq<Write>): seq<MessageRecord>
    decreases |ws|
  {
    if ws == [] then []
    else (if ws[0].SaveMessage? then [ws[0].message] else []) + Saved(ws[1..])
  }

  /** The writes a turn issues, in the order the endpoint issues them;
      none when the state has no conversation id. */
  function Plan(s: ConversationState, message: Option<string>, order: int): (ws: seq<Write>)
    ensures !HasConversation(s) ==> ws == []
    ensures HasConversation(s) ==> SavesFrom(ws, s.conversationId.value, order)
    // the stored row is brought up to the state the turn returns
    ensures forall k :: 0 <= k < |ws| && ws[k].UpdateConversation? ==>
              && ws[k].id == s.conversationId.value
              && ws[k] .currentStep == Advance(s, message).state.currentStep
              && ws[k].formData == Advance(s, message).state.formData
    ensures Advance(s, message).rule == Fallback ==> ws == []
  {
    if !HasConversation(s) then []
    else
      var cid := s.conversationId.value;
      var t := Advance(s, message);
      match t.rule
      case Greeting => [SaveMessage(MessageRecord(cid, Said(LoggedGreeting), Ai, order))]
      case Crash => [SaveMessage(MessageRecord(cid, Typed(message.value), User, order))]
      case Rejected =>
        [SaveMessage(MessageRecord(cid, Typed(message.value), User, order)),
         SaveMessage(MessageRecord(cid, Said(RePromptLine), Ai, order + 1))]
      case Advanced =>
        var ws := [SaveMessage(MessageRecord(cid, Typed(message.value), User, order)),
                   UpdateConversation(cid, t.state.currentStep, t.state.formData, None),
                   SaveMessage(MessageRecord(cid, Said(t.response), Ai, order + 1))];
        assert SavesFrom(ws[2..], cid, order + 1);
        assert SavesFrom(ws[1..], cid, order + 1);
        ws
      case Completed =>
        var ws := [SaveMessage(MessageRecord(cid, Typed(message.value), User, order)),
                   UpdateConversation(cid, t.state.currentStep, t.state.formData, None),
                   UpdateConversation(cid, t.state.currentStep, t.state.formData, Some(true)),
                   SaveMessage(MessageRecord(cid, Said(CompletionLine), Ai, order + 1))];
        assert SavesFrom(ws[3..], cid, order + 1);
        assert SavesFrom(ws[2..], cid, order + 1);
        assert SavesFrom(ws[1..], cid, order + 1);
        ws
      case ConfirmPdf =>
        var ws := [SaveMessage(MessageRecord(cid, Typed(message.value), User, order)),
                   CreateSubmission(FormSubmission(cid, AppearanceForm, s.formData, false)),
                   SaveMessage(MessageRecord(cid, Said(PdfLine), Ai, order + 1))];
        assert SavesFrom(ws[2..], cid, order + 1);
        assert SavesFrom(ws[1..], cid, order + 1);
        ws
      case Fallback => []
  }

  /** One request to the endpoint. `newSessionId` and `newId` stand for the
      generated session id and the key the database assigns a new row. An
      unreadable body throws before anything is written. */
  method Post(store: Store, request: ChatRequest, newSessionId: string, newId: string)
    returns (resp: Response)
    requires store.Valid() && newId != "" && Unused(store.Contents(), newId)
    modifies store
    ensures store.Valid()
    ensures request.Unreadable? ==> resp == ServerError && store.Contents() == old(store.Contents())
    ensures request.Body? ==>
      match Resolve(store.configured, old(store.Contents()), request.supplied, request.sessionId, newSessionId, newId)
      case None => resp == ServerError && store.Contents() == old(store.Contents())
      case Some(r) =>
        var t := Advance(r.state, request.message);
        var (db, ok) := ApplyAll(store.configured, r.tables, Plan(r.state, request.message, r.order));
        && store.Contents() == db
        && resp == (if ok && t.rule != Crash then Reply(t) else ServerError)
  {
    if request.Unreadable? {
      return ServerError;
    }
    var message, supplied, sessionId := request.message, request.supplied, request.sessionId;
    ghost var db0 := store.Contents();
    var state: ConversationState;
    var messageOrder: nat := 0;
    if supplied.None? && !Truthy(sessionId) {
      var created := store.CreateConversation(newId, newSessionId);
      if created.Failure? { return ServerError; }
      state := Fresh(newSessionId, newId);
    } else if Truthy(sessionId) && supplied.None? {
      var found := store.GetConversationBySessionId(sessionId.value);
      if found.Failure? { return ServerError; }
      if found.value.Some? {
        var id := found.value.value;
        state := FromRecord(id, store.conversations[id]);
        var count := store.CountMessages(id);
        messageOrder := count.value;
      } else {
        var created := store.CreateConversation(newId, newSessionId);
        state := Fresh(newSessionId, newId);
      }
    } else {
      state := supplied.value;
      if HasConversation(state) {
        var count := store.CountMessages(state.conversationId.value);
        if count.Failure? { return ServerError; }
        messageOrder := count.value;
      }
    }
    assert Resolve(store.configured, db0, supplied, sessionId, newSessionId, newId)
             == Some(Resolved(store.Contents(), state, messageOrder));
    resp := Respond(store, state, message, messageOrder);
  }

  /** The turn and its writes, for a resolved state. */
  method Respond(store: Store, state: ConversationState, message: Option<string>, order: nat)
    returns (resp: Response)
    requires store.Valid()
    modifies store
    ensures store.Valid()
    ensures var t := Advance(state, message);
      var (db, ok) := ApplyAll(store.configured, old(store.Contents()), Plan(state, message, order));
      && store.Contents() == db
      && resp == (if ok && t.rule != Crash then Reply(t) else ServerError)
  {
    if state.currentStep == 0 && !Truthy(message) {
      resp := RespondGreeting(store, state, message, order);
    } else if Truthy(message) && state.currentStep < Count {
      resp := RespondAnswer(store, state, message, order);
    } else if state.completed && Truthy(message) && Contains(ToLower(message.value), "yes") {
      resp := RespondPdf(store, state, message, order);
    } else {
      resp := Reply(Turn(Fallback, state, NotUnderstoodLine, None, false, false));
    }
  }

  /** Welcome message for the first interaction. */
  method RespondGreeting(store: Store, s: ConversationState, message: Option<string>, order: nat)
    returns (resp: Response)
    requires store.Valid() && s.currentStep == 0 && !Truthy(message)
    modifies store
    ensures store.Valid()
    ensures var t := Advance(s, message);
      var (db, ok) := ApplyAll(store.configured, old(store.Contents()), Plan(s, message, order));
      && store.Contents() == db
      && resp == (if ok && t.rule != Crash then Reply(t) else ServerError)
  {
    ghost var plan := Plan(s, message, order);
    if HasConversation(s) {
      var saved := store.SaveMessage(s.conversationId.value, Said(LoggedGreeting), Ai, order);
      ApplyAllCons(store.configured, old(store.Contents()), plan[0], []);
      if saved.Failure? { return ServerError; }
    }
    return Reply(Turn(Greeting, s, WelcomeLine, Some(Ask(0)), false, false));
  }

  /** Confirmation that the PDF should be generated: log the message, record
      a submission, log the reply. */
  method RespondPdf(store: Store, s: ConversationState, message: Option<string>, order: nat)
    returns (resp: Response)
    requires store.Valid() && !(s.currentStep == 0 && !Truthy(message)) && !Answering(s, message)
    requires s.completed && Truthy(message) && Contains(ToLower(message.value), "yes")
    modifies store
    ensures store.Valid()
    ensures var t := Advance(s, message);
      var (db, ok) := ApplyAll(store.configured, old(store.Contents()), Plan(s, message, order));
      && store.Contents() == db
      && resp == (if ok && t.rule != Crash then Reply(t) else ServerError)
  {
    ghost var plan := Plan(s, message, order);
    var messageOrder := order;
    if HasConversation(s) {
      var cid := s.conversationId.value;
      ghost var db0 := store.Contents();
      var saved := store.SaveMessage(cid, Typed(message.value), User, messageOrder);
      ApplyAllCons(store.configured, db0, plan[0], plan[1..]);
      if saved.Failure? { return ServerError; }
      messageOrder := messageOrder + 1;
      ghost var db1 := store.Contents();
      var submitted := store.CreateFormSubmission(cid, s.formData);
      ApplyAllCons(store.configured, db1, plan[1], plan[2..]);
      if submitted.Failure? { return ServerError; }
      ghost var db2 := store.Contents();
      var replied := store.SaveMessage(cid, Said(PdfLine), Ai, messageOrder);
      ApplyAllCons(store.configured, db2, plan[2], []);
      if replied.Failure? { return ServerError; }
    }
    return Reply(Turn(ConfirmPdf, s, PdfLine, None, false, true));
  }

  /** Answer to the current question: log it, coerce it, store it, advance,
      and ask the next question or announce completion. */
  method RespondAnswer(store: Store, state: ConversationState, message: Option<string>, order: nat)
    returns (resp: Response)
    requires store.Valid() && !(state.currentStep == 0 && !Truthy(message))
    requires Truthy(message) && state.currentStep < Count
    modifies store
    ensures store.Valid()
    ensures var t := Advance(state, message);
      var (db, ok) := ApplyAll(store.configured, old(store.Contents()), Plan(state, message, order));
      && store.Contents() == db
      && resp == (if ok && t.rule != Crash then Reply(t) else ServerError)
  {
    var cid := if HasConversation(state) then state.conversationId.value else "";
    ghost var db0 := store.Contents();
    AnswerPlanStart(state, message, order);
    if HasConversation(state) {
      var saved := store.SaveMessage(cid, Typed(message.value), User, order);
      ApplyAllCons(store.configured, db0, UserLog(state, message.value, order), Plan(state, message, order)[1..]);
      if saved.Failure? { return ServerError; }
    }
    if state.currentStep < 0 {
      // the question lookup is undefined and reading its field throws
      return ServerError;
    }
    var q := Questions[state.currentStep];
    var value := Coerce(q, message.value);
    if value.None? {
      RejectPlan(state, message, order);
      if HasConversation(state) {
        ghost var db1 := store.Contents();
        var saved := store.SaveMessage(cid, Said(RePromptLine), Ai, order + 1);
        ApplyAllCons(store.configured, db1, SaveMessage(MessageRecord(cid, Said(RePromptLine), Ai, order + 1)), []);
        if saved.Failure? { return ServerError; }
      }
      return Reply(Turn(Rejected, state, RePromptLine, None, false, false));
    }
    if state.currentStep < Count - 1 {
      resp := AcceptAndAsk(store, state, message, order, db0, value.value);
    } else {
      resp := AcceptLast(store, state, message, order, db0, value.value);
    }
  }

  /** Every turn that answers the current question first logs the user's
      message; a negative step stops right after it. */
  lemma AnswerPlanStart(s: ConversationState, message: Option<string>, order: int)
    requires Truthy(message) && s.currentStep < Count && !(s.currentStep == 0 && !Truthy(message))
    ensures HasConversation(s) ==>
      |Plan(s, message, order)| > 0 && Plan(s, message, order)[0] == UserLog(s, message.value, order)
    ensures s.currentStep < 0 ==> Advance(s, message).rule == Crash
    ensures s.currentStep < 0 && HasConversation(s) ==> Plan(s, message, order) == [UserLog(s, message.value, order)]
  {
  }

  /** An answer the yes/no question does not accept: the turn and its writes. */
  lemma RejectPlan(s: ConversationState, message: Option<string>, order: int)
    requires Truthy(message) && 0 <= s.currentStep < Count
    requires Coerce(Questions[s.currentStep], message.value).None?
    ensures Advance(s, message) == Turn(Rejected, s, RePromptLine, None, false, false)
    ensures HasConversation(s) ==>
      Plan(s, message, order) ==
        [UserLog(s, message.value, order), SaveMessage(MessageRecord(s.conversationId.value, Said(RePromptLine), Ai, order + 1))]
  {
  }

  /** The save of the user's message, which opens every answering turn. */
  function UserLog(s: ConversationState, text: string, order: int): Write
    requires HasConversation(s)
  {
    SaveMessage(MessageRecord(s.conversationId.value, Typed(text), User, order))
  }

  /** An accepted answer with questions left: the turn and its writes. */
  lemma AskPlan(s: ConversationState, message: Option<string>, order: int, v: FormValue)
    requires Truthy(message) && 0 <= s.currentStep < Count - 1
    requires Coerce(Questions[s.currentStep], message.value) == Some(v)
    ensures var next := s.(formData := s.formData[Questions[s.currentStep].field := v],
                           currentStep := s.currentStep + 1);
      var reply := ThanksThenAsk(next.currentStep);
      && Advance(s, message) == Turn(Advanced, next, reply, None, false, false)
      && (HasConversation(s) ==>
            Plan(s, message, order) ==
              [UserLog(s, message.value, order),
               UpdateConversation(s.conversationId.value, next.currentStep, next.formData, None),
               SaveMessage(MessageRecord(s.conversationId.value, Said(reply), Ai, order + 1))])
  {
  }

  /** The answer to the last question: the turn and its writes. */
  lemma LastPlan(s: ConversationState, message: Option<string>, order: int, v: FormValue)
    requires Truthy(message) && s.currentStep == Count - 1
    requires Coerce(Questions[s.currentStep], message.value) == Some(v)
    ensures var next := s.(formData := s.formData[Questions[s.currentStep].field := v],
                           currentStep := s.currentStep + 1);
      && Advance(s, message) == Turn(Completed, next.(completed := true), CompletionLine, None, true, false)
      && (HasConversation(s) ==>
            Plan(s, message, order) ==
              [UserLog(s, message.value, order),
               UpdateConversation(s.conversationId.value, next.currentStep, next.formData, None),
               UpdateConversation(s.conversationId.value, next.currentStep, next.formData, Some(true)),
               SaveMessage(MessageRecord(s.conversationId.value, Said(CompletionLine), Ai, order + 1))])
  {
  }

  /** An accepted answer that leaves questions open, after the user's
      message was logged: store the value, advance, write the row, and ask
      the next question. `db0` is the tables before the turn. */
  method AcceptAndAsk(store: Store, state: ConversationState, message: Option<string>, order: nat,
                      ghost db0: Tables, value: FormValue)
    returns (resp: Response)
    requires store.Valid() && Truthy(message) && 0 <= state.currentStep < Count - 1
    requires Coerce(Questions[state.currentStep], message.value) == Some(value)
    requires HasConversation(state) ==>
               ApplyWrite(store.configured, db0, UserLog(state, message.value, order)) == Some(store.Contents())
    requires !HasConversation(state) ==> store.Contents() == db0
    modifies store
    ensures store.Valid()
    ensures var t := Advance(state, message);
      var (db, ok) := ApplyAll(store.configured, db0, Plan(state, message, order));
      && store.Contents() == db
      && resp == (if ok && t.rule != Crash then Reply(t) else ServerError)
  {
    var q := Questions[state.currentStep];
    var s := state.(formData := state.formData[q.field := value], currentStep := state.currentStep + 1);
    var reply := ThanksThenAsk(s.currentStep);
    AskPlan(state, message, order, value);
    var t := Turn(Advanced, s, reply, None, false, false);
    assert Advance(state, message) == t;
    if !HasConversation(state) {
      return Reply(t);
    }
    var cid := state.conversationId.value;
    ghost var w0 := UserLog(state, message.value, order);
    ghost var w1 := UpdateConversation(cid, s.currentStep, s.formData, None);
    ghost var w2 := SaveMessage(MessageRecord(cid, Said(reply), Ai, order + 1));
    ApplyAllCons(store.configured, db0, w0, [w1, w2]);
    ghost var db1 := store.Contents();
    var updated := store.UpdateConversation(cid, s.currentStep, s.formData, None);
    ApplyAllCons(store.configured, db1, w1, [w2]);
    if updated.Failure? {
      assert !ApplyAll(store.configured, db0, Plan(state, message, order)).1;
      return ServerError;
    }
    ghost var db2 := store.Contents();
    var saved := store.SaveMessage(cid, Said(reply), Ai, order + 1);
    ApplyAllCons(store.configured, db2, w2, []);
    if saved.Failure? { return ServerError; }
    return Reply(t);
  }

  /** The answer to the last question, after the user's message was logged:
      store the value, advance, write the row, mark it complete and announce
      completion. `db0` is the tables before the turn. */
  method AcceptLast(store: Store, state: ConversationState, message: Option<string>, order: nat,
                    ghost db0: Tables, value: FormValue)
    returns (resp: Response)
    requires store.Valid() && Truthy(message) && state.currentStep == Count - 1
    requires Coerce(Questions[state.currentStep], message.value) == Some(value)
    requires HasConversation(state) ==>
               ApplyWrite(store.configured, db0, UserLog(state, message.value, order)) == Some(store.Contents())
    requires !HasConversation(state) ==> store.Contents() == db0
    modifies store
    ensures store.Valid()
    ensures var t := Advance(state, message);
      var (db, ok) := ApplyAll(store.configured, db0, Plan(state, message, order));
      && store.Contents() == db
      && resp == (if ok && t.rule != Crash then Reply(t) else ServerError)
  {
    var q := Questions[state.currentStep];
    var s := state.(formData := state.formData[q.field := value], currentStep := state.currentStep + 1);
    LastPlan(state, message, order, value);
    var t := Turn(Completed, s.(completed := true), CompletionLine, None, true, false);
    assert Advance(state, message) == t;
    if !HasConversation(state) {
      return Reply(t);
    }
    var cid := state.conversationId.value;
    ghost var w0 := UserLog(state, message.value, order);
    ghost var w1 := UpdateConversation(cid, s.currentStep, s.formData, None);
    ghost var w2 := UpdateConversation(cid, s.currentStep, s.formData, Some(true));
    ghost var w3 := SaveMessage(MessageRecord(cid, Said(CompletionLine), Ai, order + 1));
    assert [w1, w2, w3] == [w1] + [w2, w3];
    ApplyAllCons(store.configured, db0, w0, [w1, w2, w3]);
    ghost var db1 := store.Contents();
    var updated := store.UpdateConversation(cid, s.currentStep, s.formData, None);
    ApplyAllCons(store.configured, db1, w1, [w2, w3]);
    if updated.Failure? {
      assert !ApplyAll(store.configured, db0, Plan(state, message, order)).1;
      return ServerError;
    }
    var closed := MarkComplete(store, cid, s.currentStep, s.formData, order + 1);
    if !closed {
      assert !ApplyAll(store.configured, db0, Plan(state, message, order)).1;
      return ServerError;
    }
    return Reply(t);
  }

  /** The last two writes of a completed form: mark the row complete, then
      log the closing text; true when both went through. */
  method MarkComplete(store: Store, cid: string, step: int, fd: FormData, order: int) returns (ok: bool)
    requires store.Valid()
    modifies store
    ensures store.Valid()
    ensures var (db, done) := ApplyAll(store.configured, old(store.Contents()),
                                       [UpdateConversation(cid, step, fd, Some(true)),
                                        SaveMessage(MessageRecord(cid, Said(CompletionLine), Ai, order))]);
      store.Contents() == db && ok == done
  {
    ghost var w2 := UpdateConversation(cid, step, fd, Some(true));
    ghost var w3 := SaveMessage(MessageRecord(cid, Said(CompletionLine), Ai, order));
    ghost var db2 := store.Contents();
    var marked := store.UpdateConversation(cid, step, fd, Some(true));
    ApplyAllCons(store.configured, db2, w2, [w3]);
    if marked.Failure? { return false; }
    ghost var db3 := store.Contents();
    var saved := store.SaveMessage(cid, Said(CompletionLine), Ai, order);
    ApplyAllCons(store.configured, db3, w3, []);
    return saved.Success?;
  }

  // ---------------------------------------------------------------------
  // Session resolution

  /** Neither a state nor a session id: a fresh conversation at step 0 with
      empty form data, carrying the new conversation and session ids. */
  lemma ResolveNew(db: Tables, newSessionId: string, newId: string)
    ensures var r := Resolve(true, db, None, None, newSessionId, newId);
      && r.Some?
      && r.value.state == ConversationState(0, map[], false, Some(newId), Some(newSessionId))
      && r.value.order == 0
      && r.value.tables.conversations == db.conversations[newId := ConversationRecord(newSessionId, 0, map[], false)]
  {
  }

  /** A session id with a stored conversation: its stored step, form data
      and completion, with the row's ids, and ordering after its messages. */
  lemma ResolveKnownSession(db: Tables, sid: string, newSessionId: string, newId: string, id: string)
    requires sid != "" && FindBySession(db, sid) == Some(id)
    ensures var r := Resolve(true, db, None, Some(sid), newSessionId, newId);
      && r.Some? && r.value.tables == db
      && r.value.state.currentStep == db.conversations[id].currentStep
      && r.value.state.formData == db.conversations[id].formData
      && r.value.state.completed == db.conversations[id].completed
      && r.value.state.conversationId == Some(id)
      && r.value.state.sessionId == Some(sid)
      && r.value.order == |MessagesOf(db.messages, id)|
  {
    assert id in SessionMatches(db, sid);
  }

  /** An unknown session id starts afresh, exactly as no session id does. */
  lemma ResolveUnknownSessionIsNew(configured: bool, db: Tables, sid: string, newSessionId: string, newId: string)
    requires FindBySession(db, sid).None?
    ensures Resolve(configured, db, None, Some(sid), newSessionId, newId)
         == Resolve(configured, db, None, None, newSessionId, newId)
  {
  }

  /** A supplied state is used verbatim, whatever the session id. */
  lemma ResolveSuppliedVerbatim(configured: bool, db: Tables, s: ConversationState,
                                sessionId: Option<string>, newSessionId: string, newId: string)
    ensures var r := Resolve(configured, db, Some(s), sessionId, newSessionId, newId);
      && (r.Some? <==> configured || !HasConversation(s))
      && (r.Some? ==> r.value.state == s && r.value.tables == db)
  {
  }

  // ---------------------------------------------------------------------
  // Message order

  /** The user's message and its reply are logged together, at consecutive
      orders starting at the resolved one; the reply logged is the response
      sent (the greeting logs its question with it). */
  lemma LoggedPair(s: ConversationState, message: Option<string>, order: int)
    requires HasConversation(s)
    ensures var t := Advance(s, message);
      var cid := s.conversationId.value;
      var logged := Saved(Plan(s, message, order));
      && ((t.rule == Rejected || t.rule.Accepts() || t.rule == ConfirmPdf) ==>
            logged == [MessageRecord(cid, Typed(message.value), User, order), MessageRecord(cid, Said(t.response), Ai, order + 1)])
      && (t.rule == Greeting ==> logged == [MessageRecord(cid, Said(LoggedGreeting), Ai, order)])
      && (t.rule == Crash ==> logged == [MessageRecord(cid, Typed(message.value), User, order)])
      && (t.rule == Fallback ==> logged == [])
  {
    var plan := Plan(s, message, order);
    if |plan| > 1 {
      if |plan| > 2 {
        if |plan| > 3 {
          assert Saved(plan[4..]) == [];
          assert Saved(plan[3..]) == (if plan[3].SaveMessage? then [plan[3].message] else []);
        } else {
          assert Saved(plan[3..]) == [];
        }
        assert Saved(plan[2..]) == (if plan[2].SaveMessage? then [plan[2].message] else []) + Saved(plan[3..]);
      } else {
        assert Saved(plan[2..]) == [];
      }
      assert Saved(plan[1..]) == (if plan[1].SaveMessage? then [plan[1].message] else []) + Saved(plan[2..]);
    } else if plan != [] {
      assert Saved(plan[1..]) == [];
    }
  }

  /** Orders of one conversation's log run 0, 1, 2, ... in insertion order. */
  predicate DenseOrders(rows: seq<MessageRecord>, cid: string) {
    forall k :: 0 <= k < |MessagesOf(rows, cid)| ==> MessagesOf(rows, cid)[k].order == k
  }

  ghost predicate AllDense(rows: seq<MessageRecord>) {
    forall cid :: DenseOrders(rows, cid)
  }

  lemma {:induction false} NoMessagesOfUnused(rows: seq<MessageRecord>, id: string)
    requires forall k :: 0 <= k < |rows| ==> rows[k].conversationId != id
    ensures MessagesOf(rows, id) == []
    decreases |rows|
  {
    if rows != [] {
      NoMessagesOfUnused(rows[..|rows| - 1], id);
    }
  }

  /** Writes whose saves continue a conversation's log at its length keep
      every log dense. */
  lemma {:induction false} ApplyKeepsDense(configured: bool, db: Tables, ws: seq<Write>, cid: string)
    requires AllDense(db.messages)
    requires SavesFrom(ws, cid, |MessagesOf(db.messages, cid)|)
    ensures AllDense(ApplyAll(configured, db, ws).0.messages)
    decreases |ws|
  {
    if ws != [] {
      match ApplyWrite(configured, db, ws[0])
      case None =>
      case Some(db') =>
        if ws[0].SaveMessage? {
          var m := ws[0].message;
          forall c ensures DenseOrders(db'.messages, c) {
            MessagesOfAppend(db.messages, m, c);
            assert DenseOrders(db.messages, c);
          }
          MessagesOfAppend(db.messages, m, cid);
        }
        ApplyKeepsDense(configured, db', ws[1..], cid);
    }
  }

  /** Without concurrent requests, every turn keeps every conversation's
      message orders dense: the first order used is the number of messages
      already logged, and each save takes the next one. */
  lemma TurnKeepsOrdersDense(configured: bool, db: Tables, supplied: Option<ConversationState>,
                             sessionId: Option<string>, newSessionId: string, newId: string,
                             message: Option<string>)
    requires AllDense(db.messages) && Unused(db, newId)
    ensures var r := Resolve(configured, db, supplied, sessionId, newSessionId, newId);
      r.Some? ==> AllDense(ApplyAll(configured, r.value.tables, Plan(r.value.state, message, r.value.order)).0.messages)
  {
    var r := Resolve(configured, db, supplied, sessionId, newSessionId, newId);
    if r.Some? {
      var st := r.value.state;
      assert r.value.tables.messages == db.messages;
      if HasConversation(st) {
        var cid := st.conversationId.value;
        if cid == newId && r.value.order == 0 {
          NoMessagesOfUnused(db.messages, newId);
        }
        assert r.value.order == |MessagesOf(db.messages, cid)| by {
          if supplied.None? && Truthy(sessionId) && FindBySession(db, sessionId.value).None? {
            NoMessagesOfUnused(db.messages, newId);
          } else if supplied.None? && !Truthy(sessionId) {
            NoMessagesOfUnused(db.messages, newId);
          }
        }
        ApplyKeepsDense(configured, r.value.tables, Plan(st, message, r.value.order), cid);
      }
    }
  }

  // ---------------------------------------------------------------------
  // Stateless resume

  /** The stored row of `cid` after this turn's writes: step, form data
      and completion of the state the turn returns, session id kept. */
  function StoredAfter(db: Tables, cid: string, t: Turn): map<string, ConversationRecord>
    requires cid in db.conversations
  {
    db.conversations[cid := db.conversations[cid].(currentStep := t.state.currentStep,
                                                   formData := t.state.formData,
                                                   completed := t.state.completed)]
  }

  /** A row holding the state a turn starts from. */
  predicate RowHolds(rec: ConversationRecord, s: ConversationState) {
    rec.currentStep == s.currentStep && rec.formData == s.formData && rec.completed == s.completed
  }

  /** When every write of a turn goes through, the conversation's row holds
      the state the turn returned, and no other row changes. */
  lemma PlanStoresTurn(db: Tables, s: ConversationState, message: Option<string>, order: int)
    requires HasConversation(s) && s.conversationId.value in db.conversations
    requires RowHolds(db.conversations[s.conversationId.value], s)
    ensures var t := Advance(s, message);
      var (db2, ok) := ApplyAll(true, db, Plan(s, message, order));
      ok && t.rule != Crash ==> db2.conversations == StoredAfter(db, s.conversationId.value, t)
  {
    var cid := s.conversationId.value;
    var t := Advance(s, message);
    var plan := Plan(s, message, order);
    match t.rule
    case Greeting =>
      NoUpdateKeepsRows(true, db, plan);
      assert db.conversations[cid] == db.conversations[cid].(currentStep := t.state.currentStep,
        formData := t.state.formData, completed := t.state.completed);
    case Rejected =>
      NoUpdateKeepsRows(true, db, plan);
      assert db.conversations[cid] == db.conversations[cid].(currentStep := t.state.currentStep,
        formData := t.state.formData, completed := t.state.completed);
    case ConfirmPdf =>
      NoUpdateKeepsRows(true, db, plan);
      assert db.conversations[cid] == db.conversations[cid].(currentStep := t.state.currentStep,
        formData := t.state.formData, completed := t.state.completed);
    case Advanced => AdvancedStoresTurn(db, s, message, order);
    case Completed => CompletedStoresTurn(db, s, message, order);
    case Crash =>
    case Fallback =>
  }

  /** The writes of an accepted answer: the user's message, the row's new
      step and form data, the next prompt. */
  lemma AdvancedStoresTurn(db: Tables, s: ConversationState, message: Option<string>, order: int)
    requires HasConversation(s) && s.conversationId.value in db.conversations
    requires RowHolds(db.conversations[s.conversationId.value], s)
    requires Advance(s, message).rule == Advanced
    ensures var (db2, ok) := ApplyAll(true, db, Plan(s, message, order));
      ok ==> db2.conversations == StoredAfter(db, s.conversationId.value, Advance(s, message))
  {
    var cid := s.conversationId.value;
    var t := Advance(s, message);
    var m0 := MessageRecord(cid, Typed(message.value), User, order);
    var m2 := MessageRecord(cid, Said(t.response), Ai, order + 1);
    assert Plan(s, message, order) ==
      [SaveMessage(m0), UpdateConversation(cid, t.state.currentStep, t.state.formData, None), SaveMessage(m2)];
    SaveUpdateSave(db, m0, cid, t.state.currentStep, t.state.formData, m2);
  }

  /** The writes of the last answer: the user's message, the row's new
      step and form data, the row marked complete, the closing text. */
  lemma CompletedStoresTurn(db: Tables, s: ConversationState, message: Option<string>, order: int)
    requires HasConversation(s) && s.conversationId.value in db.conversations
    requires RowHolds(db.conversations[s.conversationId.value], s)
    requires Advance(s, message).rule == Completed
    ensures var (db2, ok) := ApplyAll(true, db, Plan(s, message, order));
      ok ==> db2.conversations == StoredAfter(db, s.conversationId.value, Advance(s, message))
  {
    var cid := s.conversationId.value;
    var t := Advance(s, message);
    var m0 := MessageRecord(cid, Typed(message.value), User, order);
    var m3 := MessageRecord(cid, Said(CompletionLine), Ai, order + 1);
    assert Plan(s, message, order) ==
      [SaveMessage(m0), UpdateConversation(cid, t.state.currentStep, t.state.formData, None),
       UpdateConversation(cid, t.state.currentStep, t.state.formData, Some(true)), SaveMessage(m3)];
    SaveUpdateCompleteSave(db, m0, cid, t.state.currentStep, t.state.formData, m3);
  }

  /** Save, update, save: the one row takes the new step and form data. */
  lemma SaveUpdateSave(db: Tables, m0: MessageRecord, cid: string, step: int, fd: FormData, m2: MessageRecord)
    requires cid in db.conversations
    ensures var (db2, ok) := ApplyAll(true, db, [SaveMessage(m0), UpdateConversation(cid, step, fd, None), SaveMessage(m2)]);
      ok && db2.conversations == db.conversations[cid := db.conversations[cid].(currentStep := step, formData := fd)]
  {
    var w0, w1, w2 := SaveMessage(m0), UpdateConversation(cid, step, fd, None), SaveMessage(m2);
    ApplyAllCons(true, db, w0, [w1, w2]);
    var d1 := ApplyWrite(true, db, w0).value;
    ApplyAllCons(true, d1, w1, [w2]);
    var d2 := ApplyWrite(true, d1, w1).value;
    ApplyAllCons(true, d2, w2, []);
  }

  /** Save, update, mark complete, save: the one row takes the new step and
      form data and is complete. */
  lemma SaveUpdateCompleteSave(db: Tables, m0: MessageRecord, cid: string, step: int, fd: FormData, m3: MessageRecord)
    requires cid in db.conversations
    ensures var (db2, ok) := ApplyAll(true, db, [SaveMessage(m0), UpdateConversation(cid, step, fd, None),
                                                 UpdateConversation(cid, step, fd, Some(true)), SaveMessage(m3)]);
      ok && db2.conversations ==
        db.conversations[cid := db.conversations[cid].(currentStep := step, formData := fd, completed := true)]
  {
    var w0, w1, w2, w3 := SaveMessage(m0), UpdateConversation(cid, step, fd, None),
                          UpdateConversation(cid, step, fd, Some(true)), SaveMessage(m3);
    ApplyAllCons(true, db, w0, [w1, w2, w3]);
    var d1 := ApplyWrite(true, db, w0).value;
    ApplyAllCons(true, d1, w1, [w2, w3]);
    var d2 := ApplyWrite(true, d1, w1).value;
    ApplyAllCons(true, d2, w2, [w3]);
    var d3 := ApplyWrite(true, d2, w2).value;
    ApplyAllCons(true, d3, w3, []);
  }

  /** A turn on a conversation resumed by session id is stored so that the
      next request with only that session id rebuilds exactly the state this
      turn sent back. */
  lemma ResumeAfterTurn(db: Tables, sid: string, newSessionId: string, newId: string, id: string,
                        message: Option<string>, nextSessionId: string, nextId: string)
    requires sid != "" && FindBySession(db, sid) == Some(id) && "" !in db.conversations
    ensures var r := Resolve(true, db, None, Some(sid), newSessionId, newId).value;
      var t := Advance(r.state, message);
      var (db2, ok) := ApplyAll(true, r.tables, Plan(r.state, message, r.order));
      ok && t.rule != Crash ==>
        var r2 := Resolve(true, db2, None, Some(sid), nextSessionId, nextId);
        r2.Some? && r2.value.state == t.state
  {
    ResolveKnownSession(db, sid, newSessionId, newId, id);
    assert id in SessionMatches(db, sid);
    var r := Resolve(true, db, None, Some(sid), newSessionId, newId).value;
    var t := Advance(r.state, message);
    var (db2, ok) := ApplyAll(true, r.tables, Plan(r.state, message, r.order));
    if ok && t.rule != Crash {
      PlanStoresTurn(db, r.state, message, r.order);
      assert SessionMatches(db2, sid) == SessionMatches(db, sid);
      ResolveKnownSession(db2, sid, nextSessionId, nextId, id);
    }
  }
}
