/** The persistence gateway the chat endpoint calls: three tables
    (conversations, messages, form submissions) behind six operations.
    The hosted database is not visible; this is the contract the endpoint
    relies on. When the backend is not configured every operation throws;
    a by-session lookup that does not find exactly one row yields null
    (the "not found" code of a single-row select); an update that matches
    no row throws. */
module Database {
  import opened Wrappers
  import opened Conversation

  datatype Sender = User | Ai

  /** A message's content: the user's own text, or one of the assistant's
      lines (the stored text is its `Render`). */
  datatype Content = Typed(text: string) | Said(line: Line)

  datatype MessageRecord = MessageRecord(conversationId: string, content: Content, sender: Sender, order: int)

  /** A conversation row; its id is the key it is stored under. */
  datatype ConversationRecord = ConversationRecord(sessionId: string, currentStep: int, formData: FormData, completed: bool)

  datatype FormSubmission = FormSubmission(conversationId: string, formType: string, formData: FormData, pdfGenerated: bool)

  datatype StoreError = NotConfigured | NoRow

  /** The contents of the three tables; messages in insertion order. */
  datatype Tables = Tables(
    conversations: map<string, ConversationRecord>,
    messages: seq<MessageRecord>,
    submissions: seq<FormSubmission>)

  const AppearanceForm: string := "appearance_form"

  /** One write the endpoint issues. */
  datatype Write =
    | SaveMessage(message: MessageRecord)
    | UpdateConversation(id: string, currentStep: int, formData: FormData, completed: Option<bool>)
    | CreateSubmission(submission: FormSubmission)

  /** The effect of one write, or None when it throws. */
  function ApplyWrite(configured: bool, db: Tables, w: Write): (r: Option<Tables>)
    ensures r.Some? <==> configured && (w.UpdateConversation? ==> w.id in db.conversations)
    ensures r.Some? ==> r.value.conversations.Keys == db.conversations.Keys
  {
    if !configured then None
    else match w
      case SaveMessage(m) => Some(db.(messages := db.messages + [m]))
      case UpdateConversation(id, step, data, done) =>
        if id !in db.conversations then None
        else
          var prev := db.conversations[id];
          var rec := prev.(currentStep := step, formData := data,
                          completed := if done.Some? then done.value else prev.completed);
          Some(db.(conversations := db.conversations[id := rec]))
      case CreateSubmission(sub) => Some(db.(submissions := db.submissions + [sub]))
  }

  /** Writes issued one after another until one throws: the tables
      afterwards, and whether every write went through. */
  function ApplyAll(configured: bool, db: Tables, ws: seq<Write>): (Tables, bool)
    decreases |ws|
  {
    if ws == [] then (db, true)
    else match ApplyWrite(configured, db, ws[0])
      case None => (db, false)
      case Some(db') => ApplyAll(configured, db', ws[1..])
  }

  lemma ApplyAllCons(configured: bool, db: Tables, w: Write, ws: seq<Write>)
    ensures ApplyAll(configured, db, [w] + ws) ==
              match ApplyWrite(configured, db, w)
              case None => (db, false)
              case Some(db') => ApplyAll(configured, db', ws)
  {
    assert ([w] + ws)[1..] == ws;
  }

  /** Writes that update no conversation leave every conversation row as it was. */
  lemma {:induction false} NoUpdateKeepsRows(configured: bool, db: Tables, ws: seq<Write>)
    requires forall k :: 0 <= k < |ws| ==> !ws[k].UpdateConversation?
    ensures ApplyAll(configured, db, ws).0.conversations == db.conversations
    decreases |ws|
  {
    if ws != [] {
      match ApplyWrite(configured, db, ws[0])
      case None =>
      case Some(d) =>
        assert d.conversations == db.conversations;
        NoUpdateKeepsRows(configured, d, ws[1..]);
    }
  }

  /** The messages logged for one conversation, in insertion order. */
  function MessagesOf(rows: seq<MessageRecord>, cid: string): (r: seq<MessageRecord>)
    ensures |r| <= |rows|
    ensures forall k :: 0 <= k < |r| ==> r[k].conversationId == cid
  {
    if rows == [] then []
    else MessagesOf(rows[..|rows| - 1], cid)
         + (if rows[|rows| - 1].conversationId == cid then [rows[|rows| - 1]] else [])
  }

  lemma MessagesOfAppend(rows: seq<MessageRecord>, m: MessageRecord, cid: string)
    ensures MessagesOf(rows + [m], cid) == MessagesOf(rows, cid) + (if m.conversationId == cid then [m] else [])
  {
    assert (rows + [m])[..|rows + [m]| - 1] == rows;
  }

  /** The ids of the conversations recorded under a session id. */
  function SessionMatches(db: Tables, sid: string): set<string> {
    set id | id in db.conversations && db.conversations[id].sessionId == sid
  }

  /** The single-row lookup by session id: the id of the one matching row,
      None when there is none or more than one. */
  ghost function FindBySession(db: Tables, sid: string): (r: Option<string>)
    ensures r.Some? <==> |SessionMatches(db, sid)| == 1
    ensures r.Some? ==> SessionMatches(db, sid) == {r.value}
  {
    var ids := SessionMatches(db, sid);
    if |ids| == 1 then
      var id :| id in ids;
      SingletonIs(ids, id);
      Some(id)
    else None
  }

  lemma SingletonIs<T>(s: set<T>, x: T)
    requires |s| == 1 && x in s
    ensures s == {x}
  {
    assert |s - {x}| == 0;
  }

  /** An id no row of any table refers to, as a new primary key is. */
  ghost predicate Unused(db: Tables, id: string) {
    && id !in db.conversations
    && (forall k :: 0 <= k < |db.messages| ==> db.messages[k].conversationId != id)
    && (forall k :: 0 <= k < |db.submissions| ==> db.submissions[k].conversationId != id)
  }

  /** The database handle: tables whose rows the endpoint's calls add to and
      update. */
  class Store {
    const configured: bool
    var conversations: map<string, ConversationRecord>
    var messages: seq<MessageRecord>
    var submissions: seq<FormSubmission>

    function Contents(): Tables
      reads this
    {
      Tables(conversations, messages, submissions)
    }

    /** Row ids are never empty. */
    ghost predicate Valid()
      reads this
    {
      "" !in conversations
    }

    constructor (configured: bool)
      ensures this.configured == configured && Valid()
      ensures Contents() == Tables(map[], [], [])
    {
      this.configured := configured;
      conversations, messages, submissions := map[], [], [];
    }

    /** Inserts a fresh conversation at step 0 with empty form data;
        `id` stands for the key the database generates. */
    method CreateConversation(id: string, sessionId: string) returns (r: Result<ConversationRecord, StoreError>)
      requires Valid() && id != "" && Unused(Contents(), id)
      modifies this
      ensures Valid()
      ensures !configured ==> r == Failure(NotConfigured) && Contents() == old(Contents())
      ensures configured ==>
                && r == Success(ConversationRecord(sessionId, 0, map[], false))
                && Contents() == old(Contents()).(conversations := old(conversations)[id := r.value])
    {
      if !configured { return Failure(NotConfigured); }
      var rec := ConversationRecord(sessionId, 0, map[], false);
      conversations := conversations[id := rec];
      r := Success(rec);
    }

    /** The one conversation stored under `sid`, with its id. */
    method GetConversationBySessionId(sid: string) returns (r: Result<Option<string>, StoreError>)
      ensures !configured ==> r == Failure(NotConfigured)
      ensures configured ==> r == Success(FindBySession(Contents(), sid))
    {
      if !configured { return Failure(NotConfigured); }
      var ids := set id | id in conversations && conversations[id].sessionId == sid;
      assert ids == SessionMatches(Contents(), sid);
      if |ids| == 1 {
        var id :| id in ids;
        SingletonIs(ids, id);
        r := Success(Some(id));
      } else {
        r := Success(None);
      }
    }

    /** Overwrites step and form data (and completion when given) of a row. */
    method UpdateConversation(id: string, step: int, formData: FormData, completed: Option<bool>)
      returns (r: Result<ConversationRecord, StoreError>)
      requires Valid()
      modifies this
      ensures Valid()
      ensures var w := ApplyWrite(configured, old(Contents()), Write.UpdateConversation(id, step, formData, completed));
        && (r.Success? <==> w.Some?)
        && Contents() == (if w.Some? then w.value else old(Contents()))
        && (r.Success? ==> id in conversations && r.value == conversations[id])
    {
      if !configured { return Failure(NotConfigured); }
      if id !in conversations { return Failure(NoRow); }
      var rec := conversations[id];
      rec := rec.(currentStep := step, formData := formData,
                  completed := if completed.Some? then completed.value else rec.completed);
      conversations := conversations[id := rec];
      r := Success(rec);
    }

    /** Appends one message to the log. */
    method SaveMessage(cid: string, content: Content, sender: Sender, order: int) returns (r: Result<MessageRecord, StoreError>)
      modifies this
      ensures var w := ApplyWrite(configured, old(Contents()), Write.SaveMessage(MessageRecord(cid, content, sender, order)));
        && (r.Success? <==> w.Some?)
        && Contents() == (if w.Some? then w.value else old(Contents()))
      ensures conversations == old(conversations)
    {
      if !configured { return Failure(NotConfigured); }
      var m := MessageRecord(cid, content, sender, order);
      messages := messages + [m];
      r := Success(m);
    }

    /** The number of messages logged for a conversation. */
    method CountMessages(cid: string) returns (r: Result<nat, StoreError>)
      ensures !configured ==> r == Failure(NotConfigured)
      ensures configured ==> r == Success(|MessagesOf(messages, cid)|)
    {
      if !configured { return Failure(NotConfigured); }
      r := Success(|MessagesOf(messages, cid)|);
    }

    /** Records a form submission of type "appearance_form", not yet rendered. */
    method CreateFormSubmission(cid: string, formData: FormData) returns (r: Result<FormSubmission, StoreError>)
      modifies this
      ensures var w := ApplyWrite(configured, old(Contents()), CreateSubmission(FormSubmission(cid, AppearanceForm, formData, false)));
        && (r.Success? <==> w.Some?)
        && Contents() == (if w.Some? then w.value else old(Contents()))
      ensures conversations == old(conversations)
    {
      if !configured { return Failure(NotConfigured); }
      var sub := FormSubmission(cid, AppearanceForm, formData, false);
      submissions := submissions + [sub];
      r := Success(sub);
    }
  }
}
