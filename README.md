# Legal form navigator — a Dafny model of its conversation core

The navigator walks a tenant through the nine questions of an Indiana
eviction Appearance form in a chat. It then offers to render the answers
into a PDF. This project models four pieces of it and proves what each one
promises:

- **The chat endpoint** (`app/api/chat/route.ts`).
  - `Catalog`: the fixed question catalog.
  - `Conversation`: the pure turn decision. It covers greeting, answer
    processing with the single yes/no gate, the PDF confirmation after
    completion, and the fallback.
  - `ChatRoute`: the imperative `POST`. It resolves the session, decides
    the turn, and issues the store writes in source order, with a running
    message-order counter.
  - `Database`: the persistence gateway the endpoint calls. It is a class
    over three tables. The hosted database is behind it and is not modelled.
- **The defense checklist** (`components/DefenseChecklist.tsx`), in
  `DefenseChecklist`:
  - the toggle rules in multiple- and single-selection mode;
  - the membership test;
  - the grouping `reduce`, an imperative loop into a map, with the fixed
    display order;
  - the "N defense(s) selected" summary.
- **The PDF filler** (`app/api/generate-pdf/route.ts`), in `PdfFill`:
  - which field text goes into which slot of the page;
  - the upper-cased court header;
  - the address line-breaking rule;
  - the check box;
  - the missing-form-data check.

  `fillUserData` is modelled as a method that draws stage by stage. It is
  proved against a table of what each slot must receive.
- **The browser controller** (`hooks/useChat.ts`), in `UseChat`:
  - the session id kept in local storage;
  - the blank-message guard;
  - the trimmed user message;
  - the scripted demo conversation, whose table comes from `lib/demo-mode.ts`;
  - the live round trip.

  `ChatClient` is a class with these fields, and each method is proved
  against a transition function on a `View` snapshot.

`Text` models the JavaScript string operations the core relies on: `trim`
with the ECMAScript white-space set, ASCII `toLowerCase`/`toUpperCase`,
`includes`, `split`, `join`, and decimal rendering of a count. `Wrappers`
holds `Option` and `Result`.

Every assistant text the endpoint can send is one of a few fixed strings.
It is modelled as a `Line` value, and the concrete text is its `Render`.
The state machine and the store writes are stated over lines. A stored
message's content is the user's own text (`Typed`) or a line (`Said`). On
the client, a `Bubble` also carries the client's own notices. The demo
table is written with the same lines: its strings are the endpoint's
texts, and its first prompt follows "Thank you! ".

## Model

| member | source | states |
|---|---|---|
| Catalog.CatalogShape | app/api/chat/route.ts:34-80 | The `Questions` constant, the source's catalog, has nine questions, no field is filled by two questions, and the only yes/no field is at index 5 |
| Catalog.Prompt | app/api/chat/route.ts:34-80 | The text of each of the nine questions; `GreetingExactly` and `ThanksAndNextQuestion` state when each one is asked, and `DemoTable` repeats them |
| Catalog.YesNoFieldOnlyAtFive | app/api/chat/route.ts:60-64 | A question fills `agreeToNotify` exactly when it is question 5 |
| Conversation.Coerce | app/api/chat/route.ts:162-186 | Every field but the yes/no one stores the trimmed answer; the yes/no field stores the gate's verdict and is rejected exactly when the gate does not recognise the answer |
| Conversation.HasConversation | app/api/chat/route.ts:131-260 | The `state.conversationId` guard: without a conversation id a turn writes nothing (`Plan`) and its resolution needs no database (`Resolve`) |
| Conversation.Render | app/api/chat/route.ts:138-266 | The endpoint's response texts, one per fixed line; which line each rule answers with is stated by the `Advance` lemmas |
| Conversation.ClassifyYesNo | app/api/chat/route.ts:167-172 | The yes/no gate on the lower-cased, trimmed message; its verdicts are stated by `ClassifyBare` and the example lemmas below |
| Conversation.Advance | app/api/chat/route.ts:137-266 | The turn decision, rules in their fixed precedence; what it does is stated by `AdvanceFrame`, `GreetingExactly`, `AcceptedAnswer`, `TextAnswerAlwaysAccepted`, `ThanksAndNextQuestion`, `LastAnswerCompletes`, `RejectWithoutAdvance`, `PdfConfirmationExactly` and `FallbackKeepsState` |
| Conversation.AdvanceFrame | app/api/chat/route.ts:137-266 | Over every turn: the step grows by one exactly on an accepted answer, answered fields stay and only the asked field changes, completion never reverts and turns on only at the last answer, the ids travel unchanged, and every other rule returns the state as it came |
| Conversation.GreetingExactly | app/api/chat/route.ts:138-153 | The greeting fires if and only if the step is 0 and the message is empty; it returns the state unchanged with the first question as `nextQuestion` |
| Conversation.AcceptedAnswer | app/api/chat/route.ts:156-198 | An accepted answer at a valid step stores its value under the asked field, leaves the rest of the form as it was, and moves the step on by exactly one |
| Conversation.TextAnswerAlwaysAccepted | app/api/chat/route.ts:162-165 | Every non-yes/no question accepts any non-empty message and stores it trimmed |
| Conversation.ThanksAndNextQuestion | app/api/chat/route.ts:200-213 | An answer that lands below the last step replies "Thank you! " plus the next prompt, and leaves `completed`, `formCompleted` and `generatePdf` unset |
| Conversation.LastAnswerCompletes | app/api/chat/route.ts:214-234 | The answer at step 8 stores the email, sets the step to 9 and `completed`, and returns the completion sentence with `formCompleted` |
| Conversation.RejectWithoutAdvance | app/api/chat/route.ts:173-186 | An unrecognised yes/no answer returns the re-prompt with the state unchanged, and repeating it changes nothing |
| Conversation.RejectedOnlyAtYesNo | app/api/chat/route.ts:167-186 | A rejection happens only at step 5, for a non-empty message the gate cannot classify |
| Conversation.PdfConfirmationExactly | app/api/chat/route.ts:238-260 | `generatePdf` is set if and only if no earlier rule matched, the form is complete, and the message contains "yes" in any case; the state comes back unchanged |
| Conversation.NoPdfBeforeCompletion | app/api/chat/route.ts:238 | An incomplete conversation never triggers the PDF |
| Conversation.FallbackKeepsState | app/api/chat/route.ts:263-266 | The fallback answers the fixed "didn't understand" sentence with the state unchanged, and only when neither the greeting nor answer processing applies |
| Conversation.ClassifyBare | app/api/chat/route.ts:168-172 | For a lower-case trimmed message the gate is "contains yes or is y" first, then "contains no or is n" |
| Conversation.YesIsYes | app/api/chat/route.ts:169-170 | "yes" classifies as yes |
| Conversation.UpperYIsYes | app/api/chat/route.ts:168-170 | " Y " classifies as yes, after lower-casing and trimming |
| Conversation.YesBeforeNo | app/api/chat/route.ts:169-172 | "no, yes" contains "no" before "yes" and still classifies as yes, because the yes test comes first |
| Conversation.NoIsNo | app/api/chat/route.ts:171-172 | "No" classifies as no |
| Conversation.NoIsBareNo | app/api/chat/route.ts:171-172 | "no" classifies as no |
| Conversation.MaybeIsUnrecognised | app/api/chat/route.ts:173-184 | "maybe" is neither yes nor no |
| Conversation.FirstAnswerExample | app/api/chat/route.ts:156-213 | A fresh conversation answered "Marion County" is at step 1 with only the county filled, and asks question 1 after "Thank you! " |
| Conversation.FreshIsConsistent | app/api/chat/route.ts:91-101 | A fresh state satisfies the invariant: a step within 0..9, exactly the first `step` fields answered, complete exactly at 9 |
| Conversation.AdvancePreservesConsistent | app/api/chat/route.ts:137-266 | Every turn keeps that invariant |
| Conversation.RunCountsAnswers | app/api/chat/route.ts:156-234 | Over any message sequence the step grows by the number of accepted answers, the form only gains fields, and completion stays set |
| Conversation.RunPreservesConsistent | app/api/chat/route.ts:137-266 | Any message sequence keeps the invariant |
| Conversation.CompletedIffAllAnswered | app/api/chat/route.ts:214-217 | From a consistent state, the conversation is complete after a run if and only if all nine answers have been accepted |
| Conversation.NoGreetingPastStepZero | app/api/chat/route.ts:138 | Once the step is at least 1, no later turn greets |
| Conversation.GreetingOnlyBeforeFirstAnswer | app/api/chat/route.ts:138-213 | After the first accepted answer no turn greets again |
| Database.ApplyWrite | lib/database.ts:14-165 | A write goes through exactly when the backend is configured and an update names an existing row; it never adds or removes a conversation row |
| Database.ApplyAllCons | lib/database.ts:14-165 | Writes apply one after another, and the first that throws stops the rest |
| Database.NoUpdateKeepsRows | lib/database.ts:77-165 | Writes without an update leave every conversation row unchanged |
| Database.MessagesOf | lib/database.ts:105-118 | A conversation's log holds only its own messages and is no longer than the table |
| Database.MessagesOfAppend | lib/database.ts:77-118 | Saving a message extends exactly the log of its own conversation |
| Database.FindBySession | lib/database.ts:37-53 | The single-row lookup finds a row exactly when one row matches the session id, and returns that row's id |
| Database.Store.constructor | lib/database.ts:1-165 | An empty store |
| Database.Store.CreateConversation | lib/database.ts:14-35 | Inserts a row at step 0 with empty form data under the new id; throws when not configured |
| Database.Store.GetConversationBySessionId | lib/database.ts:37-53 | Returns the one matching row or none, as `FindBySession`; throws when not configured |
| Database.Store.UpdateConversation | lib/database.ts:55-75 | Overwrites step and form data (and completion when given) as `ApplyWrite` does, and returns the row; throws for a missing row |
| Database.Store.SaveMessage | lib/database.ts:77-103 | Appends one message as `ApplyWrite` does; conversations are untouched |
| Database.Store.CountMessages | lib/database.ts:105-118 | Returns the length of the conversation's log |
| Database.Store.CreateFormSubmission | lib/database.ts:121-165 | Records one "appearance_form" submission, not yet generated |
| ChatRoute.Plan | app/api/chat/route.ts:156-266 | The writes of a turn: none without a conversation id or on the fallback; each save continues the log at the next order; every update writes exactly the state the turn returns |
| ChatRoute.Resolve | app/api/chat/route.ts:90-135 | Session resolution (state, first message order, tables); its cases are stated by `ResolveNew`, `ResolveKnownSession`, `ResolveUnknownSessionIsNew` and `ResolveSuppliedVerbatim`, and `Post` is proved against it |
| ChatRoute.Post | app/api/chat/route.ts:82-275 | A body that cannot be read gives the 500 answer with nothing written; otherwise the request resolves the session, issues the turn's writes in order, and returns the turn; a throw anywhere gives the 500 answer and keeps the writes made before it |
| ChatRoute.Respond | app/api/chat/route.ts:137-266 | Dispatches to the first matching rule; the store ends as the plan's writes leave it |
| ChatRoute.RespondGreeting | app/api/chat/route.ts:138-153 | Logs the welcome with the first prompt, then returns the greeting |
| ChatRoute.RespondPdf | app/api/chat/route.ts:238-260 | Logs the user's message, records a submission of the form data, logs the confirmation, and returns it with `generatePdf` |
| ChatRoute.RespondAnswer | app/api/chat/route.ts:156-235 | Logs the answer, then rejects, asks the next question, or completes, as the turn decides; a negative step throws after the log |
| ChatRoute.AnswerPlanStart | app/api/chat/route.ts:156-165 | Answer processing logs the user's message before anything else; a negative step stops after that write |
| ChatRoute.RejectPlan | app/api/chat/route.ts:173-186 | A rejected answer logs the message and the re-prompt at the next order, and changes no row |
| ChatRoute.AskPlan | app/api/chat/route.ts:188-213 | An accepted answer logs the message, updates the row to the new step and form, and logs the reply at the next order |
| ChatRoute.LastPlan | app/api/chat/route.ts:188-234 | The last answer also marks the row complete before logging the completion sentence |
| ChatRoute.AcceptAndAsk | app/api/chat/route.ts:188-213 | Issues those writes, and answers the 500 when one throws |
| ChatRoute.AcceptLast | app/api/chat/route.ts:188-234 | Issues those writes, and answers the 500 when one throws |
| ChatRoute.MarkComplete | app/api/chat/route.ts:214-232 | Marks the row complete and logs the completion sentence; it succeeds only when both writes go through |
| ChatRoute.ResolveNew | app/api/chat/route.ts:91-101 | Neither state nor session id gives step 0, empty form, not complete, the new ids, order 0, and a new row |
| ChatRoute.ResolveKnownSession | app/api/chat/route.ts:102-115 | A known session id rebuilds the stored step, form and completion, with order equal to the number of logged messages |
| ChatRoute.ResolveUnknownSessionIsNew | app/api/chat/route.ts:116-127 | An unknown session id resolves exactly as no session id does |
| ChatRoute.ResolveSuppliedVerbatim | app/api/chat/route.ts:128-135 | A supplied state is used as it came, whatever the session id |
| ChatRoute.LoggedPair | app/api/chat/route.ts:156-260 | The messages a turn logs: user message and reply at consecutive orders for an answer, a rejection or a PDF confirmation; the logged welcome alone for a greeting; nothing for the fallback |
| ChatRoute.ApplyKeepsDense | app/api/chat/route.ts:113-115 | Writes whose saves continue a log at its length keep every log's orders 0, 1, 2, … |
| ChatRoute.TurnKeepsOrdersDense | app/api/chat/route.ts:86-260 | Without concurrent requests, every turn keeps each conversation's message orders dense |
| ChatRoute.PlanStoresTurn | app/api/chat/route.ts:188-234 | When the turn's writes go through, the stored row afterwards holds the state the turn returns |
| ChatRoute.AdvancedStoresTurn | app/api/chat/route.ts:188-213 | The same, for an accepted answer before the last |
| ChatRoute.CompletedStoresTurn | app/api/chat/route.ts:188-234 | The same, for the last answer |
| ChatRoute.SaveUpdateSave | app/api/chat/route.ts:158-213 | On an existing row the three writes of an answer succeed and update only that row |
| ChatRoute.SaveUpdateCompleteSave | app/api/chat/route.ts:158-234 | On an existing row the four writes of the last answer succeed and leave it complete |
| ChatRoute.ResumeAfterTurn | app/api/chat/route.ts:102-115 | A later request with only the session id resumes exactly from the state the previous turn returned |
| DefenseChecklist.Filter | components/DefenseChecklist.tsx:28-30 | The kept elements satisfy the predicate and are no more than the input |
| DefenseChecklist.FilterIsOrderedSublist | components/DefenseChecklist.tsx:28-30 | A filter is an ordered sub-list that keeps every element satisfying the predicate |
| DefenseChecklist.FilterKeepsAll | components/DefenseChecklist.tsx:42 | Filtering with a predicate every element satisfies changes nothing |
| DefenseChecklist.FilterDropsAll | components/DefenseChecklist.tsx:42 | Filtering with a predicate no element satisfies leaves nothing |
| DefenseChecklist.InitialSelection | components/DefenseChecklist.tsx:28-30 | The starting selection; stated by `InitialSelectionIsFlagged`, `InitialSelectionUnique` and `InitialDrawnFrom` |
| DefenseChecklist.IsSelected | components/DefenseChecklist.tsx:56-58 | The membership test; how clicks change it is stated by `IsSelectedSnoc`, `WithoutKeepsOthers`, `MultipleDeselects`, `MultipleAppends`, `SingleSelectsOne` and `ToggleTwiceRestores` |
| DefenseChecklist.Without | components/DefenseChecklist.tsx:42 | Removing an id from the selection; stated by `WithoutKeepsOthers`, `WithoutKeepsId`, `WithoutKeepsUnique` and `WithoutDrawnFrom` |
| DefenseChecklist.InitialSelectionIsFlagged | components/DefenseChecklist.tsx:28-30 | The initial selection is exactly the flagged defenses, in input order |
| DefenseChecklist.InitialSelectionUnique | components/DefenseChecklist.tsx:28-30 | Defenses listed under distinct ids give an initial selection without a duplicate id |
| DefenseChecklist.FindById | components/DefenseChecklist.tsx:33-34 | Finds the first defense with the id, and fails exactly when none has it |
| DefenseChecklist.Toggle | components/DefenseChecklist.tsx:32-54 | A click changes nothing exactly when no defense has the id |
| DefenseChecklist.WithoutKeepsOthers | components/DefenseChecklist.tsx:42 | Removing an id unselects it, keeps every other id's membership, and keeps the rest in order |
| DefenseChecklist.WithoutKeepsId | components/DefenseChecklist.tsx:42 | Removing one id leaves the membership of any other id as it was |
| DefenseChecklist.MultipleDeselects | components/DefenseChecklist.tsx:38-43 | In multiple mode, clicking a selected id removes it and keeps the others in order |
| DefenseChecklist.MultipleAppends | components/DefenseChecklist.tsx:38-45 | In multiple mode, clicking an unselected id appends that defense with `selected` set, after the existing selection |
| DefenseChecklist.SingleSelectsOne | components/DefenseChecklist.tsx:46-50 | In single mode the selection afterwards holds at most one defense: the clicked one if it was unselected, none if it was selected |
| DefenseChecklist.IsSelectedSnoc | components/DefenseChecklist.tsx:44-58 | After an append, an id is selected exactly when it was before or is the appended one's |
| DefenseChecklist.ToggleKeepsIdsUnique | components/DefenseChecklist.tsx:32-54 | No click ever puts an id into the selection twice |
| DefenseChecklist.WithoutKeepsUnique | components/DefenseChecklist.tsx:42 | Removing an id keeps the ids distinct |
| DefenseChecklist.UniqueSnoc | components/DefenseChecklist.tsx:44 | Appending an id not yet selected keeps the ids distinct |
| DefenseChecklist.SelectionDrawnFromDefenses | components/DefenseChecklist.tsx:28-54 | The initial selection, and every selection a click makes from one, consists of listed defenses |
| DefenseChecklist.InitialDrawnFrom | components/DefenseChecklist.tsx:28-30 | The initial selection consists of listed defenses |
| DefenseChecklist.ToggleDrawnFrom | components/DefenseChecklist.tsx:32-54 | A click keeps the selection made of listed defenses |
| DefenseChecklist.FoundDrawnFrom | components/DefenseChecklist.tsx:33-50 | The clicked defense, flagged, is a listed defense |
| DefenseChecklist.WithoutDrawnFrom | components/DefenseChecklist.tsx:42 | Removing an id keeps the selection made of listed defenses |
| DefenseChecklist.ToggleTwiceRestores | components/DefenseChecklist.tsx:38-45 | In multiple mode two clicks on one listed id restore every id's membership, and restore the list itself when the id was unselected |
| DefenseChecklist.Checklist.constructor | components/DefenseChecklist.tsx:28-30 | The component starts from the initial selection, has notified nothing, and is valid: the selection is made of listed defenses and, when the listed ids are distinct, holds no id twice |
| DefenseChecklist.Checklist.HandleToggle | components/DefenseChecklist.tsx:32-54 | An unknown id changes nothing and does not notify; otherwise the selection becomes the toggle's result and exactly that list is passed to the callback; every click keeps the component valid, so with distinct listed ids the selection never holds a duplicate |
| DefenseChecklist.GroupByCategory | components/DefenseChecklist.tsx:61-68 | A key is in the grouping exactly when some defense falls under it, and its list is that key's defenses in input order |
| DefenseChecklist.EveryDefenseInOneGroup | components/DefenseChecklist.tsx:62 | Each defense falls under exactly one key: its category, or 'other' without one |
| DefenseChecklist.GroupKey | components/DefenseChecklist.tsx:62 | The group of a defense, its category or 'other'; stated by `EveryDefenseInOneGroup` and `GroupsPartition` |
| DefenseChecklist.ShownUpTo | components/DefenseChecklist.tsx:91-93 | Each shown section is a non-empty group, with its full list |
| DefenseChecklist.Keys | components/DefenseChecklist.tsx:91 | The keys of the sections shown, one for one |
| DefenseChecklist.ShownUpToHoldsGroups | components/DefenseChecklist.tsx:91-93 | The shown sections hold exactly the defenses of the groups considered |
| DefenseChecklist.ShownUpToKeys | components/DefenseChecklist.tsx:70-93 | Sections appear in the display order, with the empty groups skipped |
| DefenseChecklist.InGroupSnoc | components/DefenseChecklist.tsx:61-68 | Pushing a defense extends its own group only |
| DefenseChecklist.AllGroupsSnoc | components/DefenseChecklist.tsx:61-68 | Pushing a defense adds it to the groups exactly once |
| DefenseChecklist.GroupsPartition | components/DefenseChecklist.tsx:61-68 | The four groups together hold every defense exactly once |
| DefenseChecklist.ShownIsPermutation | components/DefenseChecklist.tsx:61-93 | What is shown is a permutation of the defenses, each section its group's defenses in input order, the sections in the display order with empty groups skipped |
| DefenseChecklist.GroupsHoldAll | components/DefenseChecklist.tsx:61-70 | The grouping's lists, taken in display order, hold exactly the defenses |
| DefenseChecklist.GroupsUpToAll | components/DefenseChecklist.tsx:70 | The display order names each of the four keys once |
| DefenseChecklist.Titles | components/DefenseChecklist.tsx:179 | The titles of the selection, one for one |
| DefenseChecklist.CountLabel | components/DefenseChecklist.tsx:176 | The count label; stated by `CountLabelReadsCount`, `CountLabelOne` and `CountLabelTwo` |
| DefenseChecklist.Summary | components/DefenseChecklist.tsx:172-180 | The summary is shown exactly when something is selected, and starts with the count label |
| DefenseChecklist.CountLabelReadsCount | components/DefenseChecklist.tsx:176 | The label starts with the count in decimal, which reads back as the count; it is "1 defense selected:" exactly for one, and "defenses" otherwise |
| DefenseChecklist.CountLabelOne | components/DefenseChecklist.tsx:176 | One item reads "1 defense selected:" |
| DefenseChecklist.CountLabelTwo | components/DefenseChecklist.tsx:176 | Two items read "2 defenses selected:" |
| DefenseChecklist.SummaryOfOne | components/DefenseChecklist.tsx:172-180 | One selected defense shows "1 defense selected: " and its title |
| DefenseChecklist.SummaryOfTwo | components/DefenseChecklist.tsx:172-180 | Two selected defenses show "2 defenses selected: " and both titles joined with ", " |
| DefenseChecklist.SingleSelectionSummary | components/DefenseChecklist.tsx:172-224 | Selecting the sample "Rent Was Paid" shows "1 defense selected: Rent Was Paid" |
| DefenseChecklist.MultipleModeSummary | components/DefenseChecklist.tsx:172-224 | Selecting two sample defenses shows "2 defenses selected: Improper Notice, Rent Was Paid" |
| DefenseChecklist.SingleModeLastClickWins | components/DefenseChecklist.tsx:46-50 | In single mode, on the sample defenses, a click on a second defense replaces the first |
| DefenseChecklist.MultipleModeKeepsBoth | components/DefenseChecklist.tsx:38-45 | In multiple mode, on the sample defenses, a second click keeps both, in click order |
| PdfFill.Utf8ThreeBytes | app/api/generate-pdf/route.ts:175 | The UTF-8 encoding of a three-byte character: a lead byte in 0xE0-0xEF, two continuation bytes in 0x80-0xBF, and their payload bits read back as the character |
| PdfFill.AddressLines | app/api/generate-pdf/route.ts:141-157 | The address line-breaking rule; what it computes in each case is stated by `LongAddressBreaksAtFirstComma`, `LongAddressWithoutCommaIsWhole` and `ShortOrMultilineAddress` |
| PdfFill.MarkAsWrittenIsMisdecoded | app/api/generate-pdf/route.ts:175 | The mark in the source is three characters, not U+2713: each is the Windows-1252 reading of one UTF-8 byte of U+2713 |
| PdfFill.LongAddressBreaksAtFirstComma | app/api/generate-pdf/route.ts:141-147 | A single-line address over 60 characters with a comma: line 1 is the text before the first comma, trimmed; line 2 is everything after it, trimmed |
| PdfFill.LongAddressWithoutCommaIsWhole | app/api/generate-pdf/route.ts:141-150 | A single-line address over 60 characters without a comma is written whole on line 1, and line 2 stays empty |
| PdfFill.ShortOrMultilineAddress | app/api/generate-pdf/route.ts:141-156 | A short or multi-line address writes its first line (the whole text when that line is empty) and its second line when it is non-empty; later lines are dropped |
| PdfFill.TextAtAppend | app/api/generate-pdf/route.ts:103-187 | A placement sets its own slot's text and no other |
| PdfFill.NoTextBefore | app/api/generate-pdf/route.ts:103-187 | A slot not drawn yet has no text |
| PdfFill.SlotAt | app/api/generate-pdf/route.ts:103-187 | The i-th slot in drawing order |
| PdfFill.LayoutNext | app/api/generate-pdf/route.ts:103-187 | Drawing one more slot extends the placements by that slot's draw |
| PdfFill.LayoutInOrder | app/api/generate-pdf/route.ts:103-187 | Drawing the slots one after another writes them in drawing order, each at most once |
| PdfFill.LayoutText | app/api/generate-pdf/route.ts:103-187 | Each slot drawn holds exactly its wanted text, or none |
| PdfFill.LayoutWritesTable | app/api/generate-pdf/route.ts:103-187 | The drawn placements are in order, and each slot holds its wanted text |
| PdfFill.Wanted | app/api/generate-pdf/route.ts:103-187 | One wanted text per slot |
| PdfFill.WhenPresent | app/api/generate-pdf/route.ts:122-171 | The per-slot `if (formData.x)` rule: an optional field is written exactly when it is truthy; used by `Fills` and `Wanted` |
| PdfFill.Fills | app/api/generate-pdf/route.ts:103-187 | What the page says in each slot, stated independently of the drawing order; `FillUserData` and `GeneratePdf` are proved against it, and `WantedIsFilled` shows the drawing table meets it |
| PdfFill.WantedIsFilled | app/api/generate-pdf/route.ts:103-187 | Drawing the wanted table fills the page as required |
| PdfFill.FillUserData | app/api/generate-pdf/route.ts:103-187 | Court and county upper-cased only when both are given; each optional field exactly when present; the address lines by the breaking rule; the box only for an explicit true; the defendant again at the signature; the date always; slots in drawing order |
| PdfFill.Header | app/api/generate-pdf/route.ts:112-116 | Draws court and county, upper-cased, only when both are given |
| PdfFill.Caption | app/api/generate-pdf/route.ts:119-135 | Draws plaintiff, case number and defendant, each only when present |
| PdfFill.Address | app/api/generate-pdf/route.ts:137-158 | Draws the address lines only when an address is given |
| PdfFill.DrawAddress | app/api/generate-pdf/route.ts:145-157 | Draws line 1, then line 2 when there is one |
| PdfFill.Contact | app/api/generate-pdf/route.ts:160-170 | Draws phone and email, each only when present |
| PdfFill.Closing | app/api/generate-pdf/route.ts:172-186 | Draws the mark only for an explicit true, then the defendant at the signature when present, then the date |
| PdfFill.GeneratePdf | app/api/generate-pdf/route.ts:189-253 | An unreadable body gives 500; a body without form data gives 400 "Form data is required"; otherwise the filled page |
| Text.TrimStart | app/api/chat/route.ts:164 | Drops leading white space only: the result is no longer and starts with a non-space |
| Text.TrimEnd | app/api/chat/route.ts:164 | Drops trailing white space only: the result is no longer and ends with a non-space |
| Text.TrimStartDropsWhitespace | app/api/chat/route.ts:164 | The result is a suffix of the input, and everything before it is white space |
| Text.TrimEndDropsWhitespace | app/api/chat/route.ts:164 | The result is a prefix of the input, and everything after it is white space |
| Text.Trim | app/api/chat/route.ts:164 | `String.prototype.trim`; stated by `TrimStartDropsWhitespace`, `TrimEndDropsWhitespace`, `TrimEmptyIffAllWhitespace`, `TrimKeepsBare` and `TrimIdempotent` |
| Text.TrimEmptyIffAllWhitespace | hooks/useChat.ts:138 | A text trims to empty if and only if it is all white space |
| Text.TrimKeepsBare | app/api/chat/route.ts:164 | Text without white space at either end trims to itself |
| Text.TrimIdempotent | hooks/useChat.ts:138-143 | Trimming twice is trimming once |
| Text.ToLower | app/api/chat/route.ts:168 | Lower-cases character by character, keeping the length |
| Text.LowerKeepsNonUpper | app/api/chat/route.ts:168 | Text without capitals is its own lower case |
| Text.Contains | app/api/chat/route.ts:169 | `String.prototype.includes`: some position where the text continues with the substring; used by `ClassifyBare`, `PdfConfirmationExactly` and `DemoAfterCompletion` |
| Text.ToUpper | app/api/generate-pdf/route.ts:114-115 | Upper-cases character by character, keeping the length |
| Text.IndexOf | app/api/generate-pdf/route.ts:141-144 | The first position of a character |
| Text.Split | app/api/generate-pdf/route.ts:141-144 | At least one piece, none containing the separator; the first piece is the text before the first separator |
| Text.JoinSplit | app/api/generate-pdf/route.ts:144-147 | Joining the pieces with the separator gives back the text |
| Text.Join | app/api/generate-pdf/route.ts:147 | `Array.prototype.join` with a separator of any length, used for the address tail (',') and the summary of titles (', '); stated by `JoinSplit`, `JoinCons` and `JoinTailIsRest` |
| Text.JoinCons | app/api/generate-pdf/route.ts:147 | Joining a list with a head is the head, the separator and the joined rest |
| Text.SplitAtFirst | app/api/generate-pdf/route.ts:141-147 | Splitting is the text before the first separator followed by the split of the rest |
| Text.SplitOnePiece | app/api/generate-pdf/route.ts:141-145 | There is just one piece exactly when the separator does not occur |
| Text.JoinTailIsRest | app/api/generate-pdf/route.ts:147 | Re-joining all pieces but the first gives the text after the first separator |
| Text.NatToString | components/DefenseChecklist.tsx:176 | A non-empty string of decimal digits |
| Text.NatToStringRoundTrip | components/DefenseChecklist.tsx:176 | The digits read back as the number |
| UseChat.GenerateSessionId | hooks/useChat.ts:22-24 | A session id starts with "session_" |
| UseChat.NoticeText | hooks/useChat.ts:124-262 | The client's five notice texts; `LiveFailureAddsOneError` and `LiveReplyInstallsState` state when each one is added |
| UseChat.BubbleText | hooks/useChat.ts:85-111 | A reply bubble's text: the response, then a blank line and the next question when there is one; `OpeningShowsLoggedGreeting` states what the opening bubble shows |
| UseChat.StepOf | hooks/useChat.ts:156 | `conversationState?.currentStep || 0`: the current step, or 0 with no state; `DemoStep` and `DemoReplyFollowsScript` build on it |
| UseChat.BrowserStorage.constructor | hooks/useChat.ts:27-36 | Empty local storage |
| UseChat.SessionIdStable | hooks/useChat.ts:27-36 | After one lookup the id is stored, and every later lookup returns it and stores nothing new |
| UseChat.SessionFromKeepsOtherKeys | hooks/useChat.ts:30-34 | The lookup touches no other storage key |
| UseChat.SessionFrom | hooks/useChat.ts:30-35 | The stored id when it is non-empty, otherwise the generated id, stored; stated by `SessionIdStable` and `SessionFromKeepsOtherKeys`, and `GetSessionId` is proved against it |
| UseChat.GetSessionId | hooks/useChat.ts:27-36 | Without storage, a new id; with it, the stored id when non-empty, otherwise the new id, which is stored |
| UseChat.DemoEntry | lib/demo-mode.ts:12-60 | The script has entries 0 to 10 and nothing else |
| UseChat.DemoTable | lib/demo-mode.ts:12-60 | The scripted replies; their shape is stated by `DemoEntrySteps`, `DemoFieldsAreCatalogFields` and `DemoFieldsDistinct` |
| UseChat.DemoNextStep | hooks/useChat.ts:156-164 | The demo step rule; stated by `DemoNextStepStaysInScript` and `DemoAfterCompletion` |
| UseChat.DemoFieldsDistinct | lib/demo-mode.ts:12-60 | The script's form fields are distinct |
| UseChat.DemoFieldsAreCatalogFields | lib/demo-mode.ts:12-60 | The script fills the endpoint's catalog fields, in catalog order |
| UseChat.DemoEntrySteps | lib/demo-mode.ts:12-60 | Entry k sits at step k (entry 10 at 9), is complete from 9 on, has `formCompleted` only at 9 and `generatePdf` only at 10 |
| UseChat.DemoNextStepStaysInScript | hooks/useChat.ts:156-166 | From any scripted step the next step has an entry, never goes back, and is the next one below 9 |
| UseChat.DemoAfterCompletion | hooks/useChat.ts:160-164 | From step 9 on, the next step is 10 exactly when the message contains "yes" (or it already was 10); otherwise it stays |
| UseChat.AfterInit | hooks/useChat.ts:72-135 | The opening of a conversation; stated by `LiveGreetingMatchesDemo`, and `ChatClient.Initialize` is proved against it |
| UseChat.AfterDemoReply | hooks/useChat.ts:166-198 | The scripted reply; stated by `DemoReplyFollowsScript`, `DemoReplyKeepsMessages` and `DemoStep` |
| UseChat.AfterLiveReply | hooks/useChat.ts:200-266 | The live reply; stated by `LiveFailureAddsOneError`, `LiveReplyInstallsState` and `LiveReplyKeepsMessages` |
| UseChat.AfterSend | hooks/useChat.ts:137-270 | Sending a message; stated by `BlankMessageIsNoOp`, `MessageAppendedTrimmed`, `SendIsDemoReply` and `SendIsLiveReply` |
| UseChat.BlankMessageIsNoOp | hooks/useChat.ts:138 | An empty or white-space message changes nothing and sends nothing |
| UseChat.SendIsDemoReply | hooks/useChat.ts:141-198 | In demo mode a message is shown, then the script answers |
| UseChat.SendIsLiveReply | hooks/useChat.ts:141-256 | In live mode a message is shown, then the trimmed text goes to the endpoint |
| UseChat.DemoReplyKeepsMessages | hooks/useChat.ts:166-198 | The demo reply only adds messages |
| UseChat.LiveReplyKeepsMessages | hooks/useChat.ts:200-266 | The live reply only adds messages |
| UseChat.MessageAppendedTrimmed | hooks/useChat.ts:141-148 | A non-blank message is appended, trimmed, after all existing messages |
| UseChat.DemoReplyFollowsScript | hooks/useChat.ts:156-198 | The demo reply shows the next entry's text, installs its state, sets `formCompleted` only from an entry that carries it, and starts a PDF timer only for the PDF entry; without an entry nothing changes |
| UseChat.LiveFailureAddsOneError | hooks/useChat.ts:215-266 | A failed request or an answer carrying `error` appends exactly one error message and changes nothing else |
| UseChat.LiveReplyInstallsState | hooks/useChat.ts:200-256 | A reply is shown and its state installed; `formCompleted` is kept or set; a PDF request carries the state's form data and adds the success or failure notice |
| UseChat.LiveGreetingMatchesDemo | hooks/useChat.ts:80-118 | The live opening message (the welcome, a blank line and the first prompt) is the demo's opening message |
| UseChat.OpeningShowsLoggedGreeting | hooks/useChat.ts:79-118 | In both modes the conversation opens with one message, and its text is exactly what the endpoint logs for its greeting (app/api/chat/route.ts:141): the welcome, a blank line, the first question |
| UseChat.GreetingBubble | hooks/useChat.ts:85 | The welcome bubble with the first question reads as the greeting the endpoint logs |
| UseChat.DemoStep | hooks/useChat.ts:156-183 | In demo mode each message before the end moves the script one entry on, and completes the form at 9 |
| UseChat.ChatClient.constructor | hooks/useChat.ts:64-69 | The hook starts with no messages, no state and no session id |
| UseChat.ChatClient.Initialize | hooks/useChat.ts:72-135 | Reads or creates the session id, then opens the conversation from the script or the endpoint |
| UseChat.ChatClient.SendMessage | hooks/useChat.ts:137-270 | The message transition, as `AfterSend` |
| UseChat.ChatClient.DemoReply | hooks/useChat.ts:152-198 | The demo reply, as `AfterDemoReply` |
| UseChat.ChatClient.LiveReply | hooks/useChat.ts:200-266 | The live reply, as `AfterLiveReply` |
| UseChat.ChatClient.FirePdfTimer | hooks/useChat.ts:185-196 | A pending demo timer appends the demo PDF notice |
| UseChat.ChatClient.DownloadPdf | hooks/useChat.ts:272-280 | A download with a state sends its form data to the PDF endpoint; without a state nothing happens |

## Left out

- Network, database and browser effects: `fetch`, the hosted database client, `localStorage`, timers, blob downloads and React rendering. The store is the `Database.Store` class. A request's outcome is a `Delivery` parameter. Local storage is `UseChat.BrowserStorage`. A demo timer is a pending count that `FirePdfTimer` fires.
- `Date.now()` and `Math.random()`. The generated session id and the key of a new row are parameters. Message ids and timestamps are not modelled.
- `isDemoMode` is a constructor parameter of `ChatClient`.
- Concurrency. Two requests on one session can interleave their writes and collide on message orders; the code has no guard. `ChatRoute.TurnKeepsOrdersDense` holds for one request at a time only.
- The PDF document: PDFKit, `drawFormLayout`, coordinates, fonts and the byte stream. A placement names its slot instead of a position.
- The client's `generatePdf` response handling. It is reduced to a success flag (`pdfOk`).
- Unicode case mapping. `ToLower` and `ToUpper` map ASCII letters only. The yes/no gate and the "yes" test compare only ASCII letters, so their verdicts agree with full case mapping. `ToUpper` is weaker than `toUpperCase` on non-ASCII court and county names.
- Strings are sequences of Unicode scalar values, not UTF-16 code units. The 60-character length test counts characters, so it differs from the source only for text outside the Basic Multilingual Plane.
- JSON values other than strings and booleans in form data. A message that is not a string is not modelled.
- Database errors other than a missing configuration and an update of a missing row, such as network failures and constraint violations. In the source any of these is thrown, and the chat endpoint turns it into the 500 answer (app/api/chat/route.ts:268-274).
- A client-supplied `conversationState` is taken to be well-typed: an integer step, a form-data object and a boolean `completed`. In the source, a fractional `currentStep` makes `QUESTIONS[currentStep]` undefined, so reading `.field` throws after the user message was saved (the route answers 500, as for the modelled negative step). A missing `formData` throws when the answer is stored (app/api/chat/route.ts:189). A non-boolean `completed` is read by its truthiness. None of these cases is modelled.
- The signature date `new Date().toLocaleDateString('en-US')` (app/api/generate-pdf/route.ts:185-186) is the `date` parameter of `FillUserData` and `GeneratePdf`; its format is not modelled, only that it is written, always, on the date line.
- DefenseChecklist.InitialSelectionUnique: requires distinct ids among the listed defenses. With two flagged defenses sharing an id, the source starts the selection with that id twice (components/DefenseChecklist.tsx:28-30), and `Checklist.Valid` then promises no absence of duplicates.
- The database's ordering of a conversation's messages by `message_order`. The model keeps insertion order, which is the same order while orders stay dense.
- Category keys other than the three categories and 'other'. Each category is a datatype constructor, so a defense cannot carry an unknown category string.
- The demo table's concrete strings. The table is written with the endpoint's `Line` values, and character-for-character equality with `lib/demo-mode.ts` is not proved.
- `isLoading` and the other UI flags of the hook, and the components that only render.
- ChatRoute.ResumeAfterTurn: requires that no stored row has the empty id, which the database never assigns.
- Database.FindBySession: stated over the ids matching the session, because which row `.single()` returns is fixed by the database. Exactly one match is required, as `.single()` requires.
- UseChat.ChatClient.Initialize: its contract uses `old` and is stated against `AfterInit`. The thrown-error path of initialisation is the `NetworkFailure` delivery.

## Findings

| source | as written | input that shows it | evidently intended | confidence | as-written member | corrected member |
|---|---|---|---|---|---|---|
| app/api/generate-pdf/route.ts:175 | The check box is drawn with the three characters U+00E2 U+0153 U+201C, the UTF-8 bytes of U+2713 read as Windows-1252 | `agreeToNotify: true` draws "âœ“" into the box | U+2713 CHECK MARK, one character | not executed | PdfFill.MarkAsWrittenIsMisdecoded | PdfFill.FillUserData |
