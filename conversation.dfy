/** The per-turn decision of the chat endpoint: given the conversation state
    and the user's message, which rule fires, what the new state is and what
    the assistant answers. The store writes that go with each rule are in
    module ChatRoute; this module is the pure state machine. */
module Conversation {
  import opened Wrappers
  import opened Text
  import opened Catalog

  /** A form value is a string, or a boolean for the yes/no question. */
  datatype FormValue = Str(text: string) | Bool(flag: bool)

  /** Form data: field name to value; an absent key is an unanswered field. */
  type FormData = map<string, FormValue>

  datatype ConversationState = ConversationState(
    currentStep: int,
    formData: FormData,
    completed: bool,
    conversationId: Option<string>,
    sessionId: Option<string>)

  /** `if (state.conversationId)`: the turn is backed by a stored conversation. */
  predicate HasConversation(s: ConversationState) {
    Truthy(s.conversationId)
  }

  /** The assistant's fixed lines. The endpoint only ever answers with one
      of these; `Render` is the text each one stands for. */
  datatype Line =
    | Silent                             // no text: the body of a turn that throws
    | WelcomeLine
    | Ask(question: QuestionIndex)       // a question's prompt
    | ThanksThenAsk(question: QuestionIndex)
    | LoggedGreeting                     // the welcome, a blank line, the first prompt
    | RePromptLine
    | CompletionLine
    | PdfLine
    | NotUnderstoodLine

  /** The text of each line. */
  function Render(l: Line): string {
    match l
    case Silent => ""
    case WelcomeLine => Welcome
    case Ask(i) => Prompt(i)
    case ThanksThenAsk(i) => "Thank you! " + Prompt(i)
    case LoggedGreeting => Welcome + "\n\n" + Prompt(0)
    case RePromptLine => "Please answer 'yes' or 'no' to whether you agree to notify the court of address changes."
    case CompletionLine => "Perfect! I've collected all the information needed for your Appearance form. Your form is now ready to be generated. Would you like me to create your PDF document?"
    case PdfLine => "Great! I'll generate your PDF now. Please wait a moment..."
    case NotUnderstoodLine => "I'm sorry, I didn't understand that. Could you please try again?"
  }

  const Welcome: string := "Hello! I'm here to help you fill out your Appearance form for your eviction case in Indiana. I'll ask you a series of questions to gather the information needed for your court documents. Let's get started!"

  /** The state a brand-new conversation starts in. */
  function Fresh(sessionId: string, conversationId: string): ConversationState {
    ConversationState(0, map[], false, Some(conversationId), Some(sessionId))
  }

  datatype YesNo = Yes | No | Unrecognised

  /** The yes/no gate: the lower-cased, trimmed message means yes when it
      contains "yes" or is "y", otherwise no when it contains "no" or is "n";
      the yes test is made first. */
  function ClassifyYesNo(message: string): YesNo {
    var lower := Trim(ToLower(message));
    if Contains(lower, "yes") || lower == "y" then Yes
    else if Contains(lower, "no") || lower == "n" then No
    else Unrecognised
  }

  /** The value an answer to `q` stores: the yes/no verdict for the
      agree-to-notify field, the trimmed text for every other field; None
      when the gate rejects the answer. */
  function Coerce(q: Question, message: string): (v: Option<FormValue>)
    ensures q.field != AgreeToNotify ==> v == Some(Str(Trim(message)))
    ensures q.field == AgreeToNotify ==> (v.None? <==> ClassifyYesNo(message) == Unrecognised)
    ensures q.field == AgreeToNotify && v.Some? ==> v.value == Bool(ClassifyYesNo(message) == Yes)
  {
    if q.field == AgreeToNotify then
      match ClassifyYesNo(message)
      case Yes => Some(Bool(true))
      case No => Some(Bool(false))
      case Unrecognised => None
    else Some(Str(Trim(message)))
  }

  /** Which rule of the endpoint fired. `Crash` is the TypeError thrown when a
      client-supplied state has a negative step (the question lookup yields
      `undefined`); the endpoint answers it with its generic server error. */
  datatype Rule = Greeting | Rejected | Advanced | Completed | ConfirmPdf | Fallback | Crash
  {
    /** The rules that take an answer. */
    predicate Accepts() {
      this == Advanced || this == Completed
    }
  }

  /** One turn: the rule, the state sent back, the response text and the
      optional `nextQuestion`, `formCompleted` and `generatePdf` fields. */
  datatype Turn = Turn(
    rule: Rule,
    state: ConversationState,
    response: Line,
    nextQuestion: Option<Line>,
    formCompleted: bool,
    generatePdf: bool)

  /** The rule that answers the message at the current question fires. */
  predicate Answering(s: ConversationState, message: Option<string>) {
    !(s.currentStep == 0 && !Truthy(message)) && Truthy(message) && s.currentStep < Count
  }

  /** The state machine, rules in their fixed precedence: greeting, answer
      processing (with the one yes/no gate), PDF confirmation, fallback. */
  function Advance(s: ConversationState, message: Option<string>): Turn
  {
    if s.currentStep == 0 && !Truthy(message) then
      Turn(Greeting, s, WelcomeLine, Some(Ask(0)), false, false)
    else if Truthy(message) && s.currentStep < Count then
      if s.currentStep < 0 then
        Turn(Crash, s, Silent, None, false, false)
      else
        var q := Questions[s.currentStep];
        match Coerce(q, message.value)
        case None => Turn(Rejected, s, RePromptLine, None, false, false)
        case Some(v) =>
          var next := s.(formData := s.formData[q.field := v], currentStep := s.currentStep + 1);
          if next.currentStep < Count then
            Turn(Advanced, next, ThanksThenAsk(next.currentStep), None, false, false)
          else
            Turn(Completed, next.(completed := true), CompletionLine, None, true, false)
    else if s.completed && Truthy(message) && Contains(ToLower(message.value), "yes") then
      Turn(ConfirmPdf, s, PdfLine, None, false, true)
    else
      Turn(Fallback, s, NotUnderstoodLine, None, false, false)
  }

  // ---------------------------------------------------------------------
  // Properties of a single turn

  /** What every turn keeps and changes. */
  lemma AdvanceFrame(s: ConversationState, message: Option<string>)
    // the step moves forward by one exactly on an accepted answer, and never back
    ensures Advance(s, message).state.currentStep == s.currentStep + (if Advance(s, message).rule.Accepts() then 1 else 0)
    // answers are only added: no field disappears, and only the asked one changes
    ensures s.formData.Keys <= Advance(s, message).state.formData.Keys
    ensures Advance(s, message).rule.Accepts() ==> 0 <= s.currentStep < Count
    ensures Advance(s, message).rule.Accepts() ==>
              forall f :: f in s.formData && f != Questions[s.currentStep].field ==> Advance(s, message).state.formData[f] == s.formData[f]
    // completion never reverts, and turns on only at the last answer
    ensures s.completed ==> Advance(s, message).state.completed
    ensures Advance(s, message).state.completed == (s.completed || Advance(s, message).rule == Completed)
    ensures Advance(s, message).rule == Completed ==> Advance(s, message).state.currentStep == Count
    // the identifiers travel unchanged
    ensures Advance(s, message).state.conversationId == s.conversationId && Advance(s, message).state.sessionId == s.sessionId
    // every rule but an accepted answer hands the state back as it came
    ensures !Advance(s, message).rule.Accepts() ==> Advance(s, message).state == s
  {
  }

  /** The greeting fires exactly at step 0 without a message; it hands the
      state back unchanged and offers the first question. */
  lemma GreetingExactly(s: ConversationState, message: Option<string>)
    ensures Advance(s, message).rule == Greeting <==> s.currentStep == 0 && !Truthy(message)
    ensures Advance(s, message).rule == Greeting ==>
              Advance(s, message) == Turn(Greeting, s, WelcomeLine, Some(Ask(0)), false, false)
  {
  }

  /** An accepted answer at question i stores its value under the question's
      field, leaves every other field alone and moves to step i + 1. */
  lemma AcceptedAnswer(s: ConversationState, message: Option<string>, v: FormValue)
    requires 0 <= s.currentStep < Count && Truthy(message)
    requires Coerce(Questions[s.currentStep], message.value) == Some(v)
    ensures Advance(s, message).rule.Accepts()
    ensures Advance(s, message).state.formData == s.formData[Questions[s.currentStep].field := v]
    ensures Advance(s, message).state.currentStep == s.currentStep + 1
  {
  }

  /** Every question but the yes/no one accepts any message: its trimmed text
      is stored. */
  lemma TextAnswerAlwaysAccepted(s: ConversationState, message: Option<string>)
    requires 0 <= s.currentStep < Count && s.currentStep != 5 && Truthy(message)
    ensures Advance(s, message).rule.Accepts()
    ensures Advance(s, message).state.formData
              == s.formData[Questions[s.currentStep].field := Str(Trim(message.value))]
  {
    YesNoFieldOnlyAtFive(s.currentStep);
  }

  /** After an accepted answer that leaves questions open, the reply thanks
      the user and asks the next question, and completion is untouched. */
  lemma ThanksAndNextQuestion(s: ConversationState, message: Option<string>)
    requires 0 <= s.currentStep < Count - 1 && Truthy(message)
    requires Coerce(Questions[s.currentStep], message.value).Some?
    ensures var t := Advance(s, message);
      && t.rule == Advanced
      && t.response == ThanksThenAsk(s.currentStep + 1)
      && t.state.completed == s.completed && !t.formCompleted && !t.generatePdf
  {
  }

  /** Answering the last question (step 8 to 9) completes the form. */
  lemma LastAnswerCompletes(s: ConversationState, message: Option<string>)
    requires s.currentStep == Count - 1 && Truthy(message)
    ensures var t := Advance(s, message);
      && t.rule == Completed && t.state.completed && t.formCompleted
      && t.state.currentStep == Count
      && t.response == CompletionLine
      && t.state.formData == s.formData["email" := Str(Trim(message.value))]
  {
  }

  /** The yes/no gate rejects without advancing: state unchanged, fixed
      re-prompt, and the same answer is rejected again, word for word. */
  lemma RejectWithoutAdvance(s: ConversationState, message: Option<string>)
    requires s.currentStep == 5 && Truthy(message)
    requires ClassifyYesNo(message.value) == Unrecognised
    ensures Advance(s, message) == Turn(Rejected, s, RePromptLine, None, false, false)
    ensures Advance(Advance(s, message).state, message) == Advance(s, message)
  {
    assert Questions[5].field == AgreeToNotify;
  }

  /** The only rejection is the yes/no gate's. */
  lemma RejectedOnlyAtYesNo(s: ConversationState, message: Option<string>)
    requires Advance(s, message).rule == Rejected
    ensures s.currentStep == 5 && Truthy(message) && ClassifyYesNo(message.value) == Unrecognised
  {
    if s.currentStep != 5 && 0 <= s.currentStep < Count {
      YesNoFieldOnlyAtFive(s.currentStep);
    }
  }

  /** The PDF confirmation fires exactly when no earlier rule applies, the
      form is completed and the message contains "yes" in any case; it keeps
      the state. */
  lemma PdfConfirmationExactly(s: ConversationState, message: Option<string>)
    ensures Advance(s, message).generatePdf <==>
              && !(s.currentStep == 0 && !Truthy(message))
              && !Answering(s, message)
              && s.completed && Truthy(message) && Contains(ToLower(message.value), "yes")
    ensures Advance(s, message).generatePdf ==>
              Advance(s, message) == Turn(ConfirmPdf, s, PdfLine, None, false, true)
  {
  }

  /** A "yes" to a conversation that is not completed is never taken as the
      PDF confirmation. */
  lemma NoPdfBeforeCompletion(s: ConversationState, message: Option<string>)
    requires !s.completed
    ensures !Advance(s, message).generatePdf
  {
  }

  /** Every other input gets the fixed fallback answer with the state unchanged. */
  lemma FallbackKeepsState(s: ConversationState, message: Option<string>)
    requires Advance(s, message).rule == Fallback
    ensures Advance(s, message) == Turn(Fallback, s, NotUnderstoodLine, None, false, false)
    ensures !Answering(s, message) && !(s.currentStep == 0 && !Truthy(message))
  {
  }

  /** The gate on a message that has no upper-case letter and no
      whitespace at either end: it is tested as it is. */
  lemma ClassifyBare(m: string)
    requires forall k :: 0 <= k < |m| ==> !('A' <= m[k] <= 'Z')
    requires m == [] || (!IsWhitespace(m[0]) && !IsWhitespace(m[|m| - 1]))
    ensures ClassifyYesNo(m) ==
              if Contains(m, "yes") || m == "y" then Yes
              else if Contains(m, "no") || m == "n" then No
              else Unrecognised
  {
    LowerKeepsNonUpper(m);
    TrimKeepsBare(m);
  }

  /** "yes" is a yes. */
  lemma YesIsYes()
    ensures ClassifyYesNo("yes") == Yes
  {
    ClassifyBare("yes");
    assert OccursAt("yes", "yes", 0);
  }

  /** A lone "Y" with spaces around it is a yes. */
  lemma UpperYIsYes()
    ensures ClassifyYesNo(" Y ") == Yes
  {
    var lower := ToLower(" Y ");
    assert lower[0] == ' ' && lower[1] == 'y' && lower[2] == ' ';
    assert lower == " y ";
    assert Trim(lower) == "y" by {
      assert TrimStart(" y ") == TrimStart("y ") == "y ";
      assert TrimEnd("y ") == TrimEnd("y") == "y";
    }
  }

  /** A message holding both words is a yes even when "no" comes first in
      it: the yes test is made first. */
  lemma YesBeforeNo()
    ensures Contains("no, yes", "no")
    ensures ClassifyYesNo("no, yes") == Yes
  {
    var m := "no, yes";
    assert m[..2] == "no" && m[4..] == "yes";
    assert OccursAt(m, "no", 0) && OccursAt(m, "yes", 4);
    NoYesIsBare();
    ClassifyBare(m);
  }

  /** The message has no capital letter and no white space at its ends. */
  lemma NoYesIsBare()
    ensures forall k :: 0 <= k < |"no, yes"| ==> !('A' <= "no, yes"[k] <= 'Z')
    ensures !IsWhitespace("no, yes"[0]) && !IsWhitespace("no, yes"[6])
  {
  }

  /** "No" is a no. */
  lemma NoIsNo()
    ensures ClassifyYesNo("No") == No
  {
    var lower := ToLower("No");
    assert lower[0] == 'n' && lower[1] == 'o';
    assert lower == "no";
    NoIsBareNo();
  }

  lemma NoIsBareNo()
    ensures ClassifyYesNo("no") == No
  {
    ClassifyBare("no");
    assert OccursAt("no", "no", 0);
  }

  /** "maybe" is refused by the gate. */
  lemma MaybeIsUnrecognised()
    ensures ClassifyYesNo("maybe") == Unrecognised
  {
    ClassifyBare("maybe");
    MaybeLacksYes();
    MaybeLacksNo();
  }

  lemma MaybeLacksYes()
    ensures !Contains("maybe", "yes")
  {
    forall k | 0 <= k <= 2 ensures !OccursAt("maybe", "yes", k) {
      assert "maybe"[k..k + 3][0] == "maybe"[k] && "maybe"[k..k + 3][1] == "maybe"[k + 1];
    }
  }

  lemma MaybeLacksNo()
    ensures !Contains("maybe", "no")
  {
    forall k | 0 <= k <= 3 ensures !OccursAt("maybe", "no", k) {
      assert "maybe"[k..k + 2][0] == "maybe"[k];
    }
  }

  /** From step 0 with `formData: {}`, "Marion County" fills the county and
      moves to the court question. */
  lemma FirstAnswerExample(sid: string, cid: string)
    ensures var t := Advance(Fresh(sid, cid), Some("Marion County"));
      && t.state.currentStep == 1
      && t.state.formData == map["county" := Str("Marion County")]
      && t.response == ThanksThenAsk(1)
  {
    var message := Some("Marion County");
    assert Trim("Marion County") == "Marion County" by {
      assert TrimStart("Marion County") == "Marion County";
      assert TrimEnd("Marion County") == "Marion County";
    }
    TextAnswerAlwaysAccepted(Fresh(sid, cid), message);
    ThanksAndNextQuestion(Fresh(sid, cid), message);
  }

  // ---------------------------------------------------------------------
  // Properties of a whole conversation

  /** The states the normal flow reaches from a fresh conversation: the step
      is within the catalog, the form is completed exactly at its end, and the
      fields set are exactly those of the questions answered so far. */
  predicate Consistent(s: ConversationState) {
    && 0 <= s.currentStep <= Count
    && (s.completed <==> s.currentStep == Count)
    && s.formData.Keys == FieldsUpTo(s.currentStep)
  }

  lemma FreshIsConsistent(sid: string, cid: string)
    ensures Consistent(Fresh(sid, cid))
  {
    assert FieldsUpTo(0) == {};
  }

  lemma FieldsUpToNext(n: nat)
    requires n < Count
    ensures FieldsUpTo(n + 1) == FieldsUpTo(n) + {Questions[n].field}
  {
  }

  /** One turn keeps a consistent state consistent. */
  lemma AdvancePreservesConsistent(s: ConversationState, message: Option<string>)
    requires Consistent(s)
    ensures Consistent(Advance(s, message).state)
  {
    var t := Advance(s, message);
    if t.rule.Accepts() {
      FieldsUpToNext(s.currentStep);
    }
  }

  /** The state after a sequence of turns. */
  function Run(s: ConversationState, messages: seq<Option<string>>): ConversationState
    decreases |messages|
  {
    if messages == [] then s else Run(Advance(s, messages[0]).state, messages[1..])
  }

  /** The rules fired along a sequence of turns. */
  function Rules(s: ConversationState, messages: seq<Option<string>>): seq<Rule>
    decreases |messages|
  {
    if messages == [] then []
    else [Advance(s, messages[0]).rule] + Rules(Advance(s, messages[0]).state, messages[1..])
  }

  /** The number of accepted answers along a sequence of turns. */
  function Accepted(s: ConversationState, messages: seq<Option<string>>): nat
    decreases |messages|
  {
    if messages == [] then 0
    else (if Advance(s, messages[0]).rule.Accepts() then 1 else 0)
         + Accepted(Advance(s, messages[0]).state, messages[1..])
  }

  /** Along any run the step is the start step plus the accepted answers,
      answered fields stay answered and completion never reverts. */
  lemma {:induction false} RunCountsAnswers(s: ConversationState, messages: seq<Option<string>>)
    ensures Run(s, messages).currentStep == s.currentStep + Accepted(s, messages)
    ensures s.formData.Keys <= Run(s, messages).formData.Keys
    ensures s.completed ==> Run(s, messages).completed
    decreases |messages|
  {
    if messages != [] {
      RunCountsAnswers(Advance(s, messages[0]).state, messages[1..]);
    }
  }

  /** Consistency holds along every run that starts consistent. */
  lemma {:induction false} RunPreservesConsistent(s: ConversationState, messages: seq<Option<string>>)
    requires Consistent(s)
    ensures Consistent(Run(s, messages))
    decreases |messages|
  {
    if messages != [] {
      AdvancePreservesConsistent(s, messages[0]);
      RunPreservesConsistent(Advance(s, messages[0]).state, messages[1..]);
    }
  }

  /** From a consistent state, the conversation is completed exactly when
      the answers accepted so far reach the catalog's length. */
  lemma CompletedIffAllAnswered(s: ConversationState, messages: seq<Option<string>>)
    requires Consistent(s)
    ensures Run(s, messages).completed <==> s.currentStep + Accepted(s, messages) == Count
  {
    RunCountsAnswers(s, messages);
    RunPreservesConsistent(s, messages);
  }

  /** Past step 0 the greeting never fires again. */
  lemma {:induction false} NoGreetingPastStepZero(s: ConversationState, messages: seq<Option<string>>)
    requires s.currentStep >= 1
    ensures Greeting !in Rules(s, messages)
    decreases |messages|
  {
    if messages != [] {
      NoGreetingPastStepZero(Advance(s, messages[0]).state, messages[1..]);
    }
  }

  /** Once a message has been answered at step 0, no later turn greets. */
  lemma GreetingOnlyBeforeFirstAnswer(s: ConversationState, first: Option<string>, rest: seq<Option<string>>)
    requires s.currentStep == 0 && Truthy(first)
    ensures Advance(s, first).state.currentStep == 1
    ensures Greeting !in Rules(Advance(s, first).state, rest)
  {
    NoGreetingPastStepZero(Advance(s, first).state, rest);
  }
}
