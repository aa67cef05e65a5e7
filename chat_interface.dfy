/**
 * The conversation state controller of src/components/ChatInterface.tsx:
 * the message list of the open conversation, the composer (input text and
 * attached files), the pending flag and the edit-and-regenerate mode.
 *
 * The document store and the router are outside the model. Every call the
 * controller makes to them, and every request it sends to the AI action, is
 * appended to the `effects` log instead; which awaited call throws (a store
 * write, or the AI action's request when it fails to reach the server) is
 * chosen by the caller (`failing`). The AI service is a parameter: `service`
 * answers the awaited requests and `titleService` the detached title request,
 * so a new chat's title and answer are two separate calls whose outcomes are
 * unrelated, even when their contents are equal.
 */
module ChatInterface {
  import opened Common
  import opened Actions
  import JsText

  /** Attachment metadata kept on a message: `{name, type}`. */
  datatype Attachment = Attachment(name: string, mediaType: string)

  /** A message's `attachment` field: absent, a single entry, or a list. */
  datatype AttachmentField = NoAttachment | Single(one: Attachment) | Many(all: seq<Attachment>)

  /** A message as the controller holds it (its store timestamp is not modelled). */
  datatype Message = Message(role: string, content: string, attachment: AttachmentField)

  /** The most files that may be attached to one message. */
  const MaxAttachments: nat := 5

  /** The title a new chat is created with, until its summary arrives. */
  const PlaceholderTitle: string := "..."

  const AttachmentLimitToast: string := "Not more than 5 attachments allowed."

  /** The most tokens of a reply kept as a chat title. */
  const TitleWords: nat := 5

  /** What the controller asks of the outside world. */
  datatype Effect =
    | CreateChat(chatId: string, owner: string, title: string)  // setDoc of a new chat
    | AddMessage(chatId: string, message: Message)               // addDoc into the chat's messages
    | SetTitle(chatId: string, title: string)                    // updateDoc of the chat's title
    | AskAi(conversation: seq<Turn>, files: seq<FileBlob>)       // awaited generateGeminiResponse
    | AskSummary(conversation: seq<Turn>)                        // getFiveWordSummary's request, not awaited
    | Navigate(path: string)                                     // router.push
  {
    /** A call awaited inside the submit `try`, whose rejection aborts the rest:
        a store write, or the AI request (a server action, whose network call
        can reject before the action's own error handling runs). */
    predicate IsAwaited() {
      CreateChat? || AddMessage? || AskAi?
    }
  }

  function Min(a: int, b: int): int {
    if a < b then a else b
  }

  // ---------------------------------------------------------------------
  // Submitting a message
  // ---------------------------------------------------------------------

  /** The handler's guard: a signed-in user, and a non-blank input or some file. */
  predicate SubmitAllowed(user: Option<string>, input: string, files: seq<FileBlob>) {
    user.Some? && !(JsText.Trim(input) == "" && |files| == 0)
  }

  /** Submitting goes ahead exactly when someone is signed in and the input holds
      a character that is not white space or at least one file is attached. */
  lemma SubmitGuard(user: Option<string>, input: string, files: seq<FileBlob>)
    ensures SubmitAllowed(user, input, files) <==>
      user.Some? && (|files| > 0 || exists i :: 0 <= i < |input| && !JsText.IsWhitespace(input[i]))
  {
    JsText.TrimEmptyIffBlank(input);
  }

  /** The `{name, type}` metadata of each file, in order. */
  function AttachmentsOf(files: seq<FileBlob>): seq<Attachment> {
    seq(|files|, i requires 0 <= i < |files| => Attachment(files[i].name, files[i].mimeType))
  }

  /** The user's message as appended and persisted: the raw input, with attachment
      metadata only when files are attached. */
  function UserMessage(input: string, files: seq<FileBlob>): (m: Message)
    ensures m.role == UserRole && m.content == input
    ensures |files| == 0 <==> m.attachment == NoAttachment
    ensures |files| > 0 ==> m.attachment.Many? && |m.attachment.all| == |files|
    ensures |files| > 0 ==> forall i :: 0 <= i < |files| ==>
      m.attachment.all[i].name == files[i].name && m.attachment.all[i].mediaType == files[i].mimeType
  {
    Message(UserRole, input, if |files| > 0 then Many(AttachmentsOf(files)) else NoAttachment)
  }

  /** The (role, content) turns of a list of messages. */
  function TurnsOf(ms: seq<Message>): seq<Turn> {
    seq(|ms|, i requires 0 <= i < |ms| => Turn(ms[i].role, ms[i].content))
  }

  /** `!chatId`: no chat yet (null, or the empty string). */
  predicate IsNewChat(chatId: Option<string>) {
    chatId.None? || chatId.value == ""
  }

  /** The conversation sent with a submitted input; `prior` is the message list
      as it stood before the optimistic append. */
  function SubmitHistory(chatId: Option<string>, prior: seq<Message>, input: string): seq<Turn> {
    if IsNewChat(chatId) then [Turn(UserRole, input)]
    else TurnsOf(prior) + [Turn(UserRole, input)]
  }

  /** A new chat sends only the new user turn; an existing chat sends every prior
      message's role and content, in order, then the new user turn. */
  lemma SubmitHistoryShape(chatId: Option<string>, prior: seq<Message>, input: string)
    ensures var h := SubmitHistory(chatId, prior, input);
      && (IsNewChat(chatId) ==> h == [Turn(UserRole, input)])
      && (!IsNewChat(chatId) ==>
            && |h| == |prior| + 1
            && (forall i :: 0 <= i < |prior| ==> h[i].role == prior[i].role && h[i].content == prior[i].content)
            && h[|prior|] == Turn(UserRole, input))
  {
  }

  /** `getFiveWordSummary`: the first five tokens of the reply joined by single
      spaces, or nothing when the request failed or the reply is empty. */
  function FiveWordSummary(r: GenerateResult): Option<string> {
    var text := ReplyText(r);
    if text == "" then None
    else
      var words := JsText.Split(text);
      Some(JsText.Join(words[..Min(TitleWords, |words|)]))
  }

  /** A summary is present exactly for a successful non-empty reply; it is never
      empty, and splitting it again yields the reply's first (at most five) tokens. */
  lemma SummaryIsFirstFiveTokens(r: GenerateResult)
    ensures FiveWordSummary(r).Some? <==> r.Success? && r.text != ""
    ensures FiveWordSummary(r).Some? ==>
      var t := FiveWordSummary(r).value;
      var words := JsText.Split(r.text);
      && t != ""
      && JsText.Split(t) == words[..Min(TitleWords, |words|)]
      && |JsText.Split(t)| <= TitleWords
  {
    if r.Success? && r.text != "" {
      var words := JsText.Split(r.text);
      var n := Min(TitleWords, |words|);
      JsText.SplitWellFormed(r.text);
      JsText.PrefixWellFormed(words, n);
      JsText.SplitJoin(words[..n]);
    }
  }

  /** As written, a reply that starts with white space splits into an empty
      first token, so its title starts with a space and keeps at most four words. */
  lemma SummaryOfIndentedReply(r: GenerateResult)
    requires r.Success? && r.text != "" && JsText.IsWhitespace(r.text[0])
    ensures FiveWordSummary(r).Some?
    ensures var t := FiveWordSummary(r).value;
      t != "" && t[0] == ' ' && JsText.Split(t)[0] == "" && |JsText.Split(t)| <= TitleWords
  {
    var words := JsText.Split(r.text);
    var tail := JsText.Split(JsText.TrimStart(r.text[1..]));
    assert words == [""] + tail;
    assert |tail| >= 1;
    var n := Min(TitleWords, |words|);
    assert n >= 2;
    var head := words[..n];
    assert head[0] == "";
    var t := JsText.Join(head);
    assert t == head[0] + " " + JsText.Join(head[1..]);
    assert ReplyText(r) == r.text;
    assert FiveWordSummary(r) == Some(t);
    JsText.SplitWellFormed(r.text);
    JsText.PrefixWellFormed(words, n);
    JsText.SplitJoin(head);
  }

  /** What a submit hands over to its asynchronous part: the input and files at
      submit time, and the message list before the optimistic append. */
  datatype Submission = Submission(input: string, files: seq<FileBlob>, prior: seq<Message>)

  /** The single-turn request whose reply becomes a new chat's title. */
  function TitleRequest(input: string): seq<Turn> {
    [Turn(UserRole, input)]
  }

  /** The persisted AI reply, if the reply is non-empty. */
  function ReplyWrite(chatId: string, reply: string): seq<Effect> {
    if reply != "" then [AddMessage(chatId, Message(ModelRole, reply, NoAttachment))] else []
  }

  /** The effects of a submit when nothing throws, in order. */
  function SubmitPlan(chatId: Option<string>, uid: string, newChatId: string, s: Submission,
                      service: Service, titleService: Service): seq<Effect>
  {
    if IsNewChat(chatId) then NewChatPlan(uid, newChatId, s, service, titleService)
    else ExistingChatPlan(chatId.value, s, service)
  }

  /** A new chat: created with the placeholder title, given the user's message,
      retitled if a summary comes back, answered, and navigated to. */
  function NewChatPlan(uid: string, newChatId: string, s: Submission,
                       service: Service, titleService: Service): seq<Effect> {
    [CreateChat(newChatId, uid, PlaceholderTitle)]
    + ([AddMessage(newChatId, UserMessage(s.input, s.files))]
    + NewChatTail(newChatId, s, service, titleService))
  }

  /** What a new chat does once its first message is written; the title
      request is answered by `titleService`, the reply request by `service`. */
  function NewChatTail(newChatId: string, s: Submission, service: Service, titleService: Service): seq<Effect> {
    var history := SubmitHistory(None, s.prior, s.input);
    var title := FiveWordSummary(GenerateResponse(TitleRequest(s.input), [], titleService));
    [AskSummary(TitleRequest(s.input))]
    + (TitleWrite(newChatId, title)
    + (AnswerPlan(newChatId, history, s.files, service)
    + [Navigate("/c/" + newChatId)]))
  }

  /** An existing chat: given the user's message, then answered. */
  function ExistingChatPlan(chatId: string, s: Submission, service: Service): seq<Effect> {
    [AddMessage(chatId, UserMessage(s.input, s.files))]
    + AnswerPlan(chatId, SubmitHistory(Some(chatId), s.prior, s.input), s.files, service)
  }

  /** The retitling of a new chat, when a summary came back. */
  function TitleWrite(chatId: string, title: Option<string>): seq<Effect> {
    if title.Some? then [SetTitle(chatId, title.value)] else []
  }

  /** The reply request, then the reply's write when it is non-empty. */
  function AnswerPlan(chatId: string, history: seq<Turn>, files: seq<FileBlob>,
                      service: Service): seq<Effect> {
    [AskAi(history, files)] + ReplyWrite(chatId, ReplyText(GenerateResponse(history, files, service)))
  }

  /** The effects that actually happen when the awaited call number `failing`
      (counting from `done`) throws: the plan up to that call. */
  function Performed(plan: seq<Effect>, failing: Option<nat>, done: nat): seq<Effect> {
    if plan == [] then []
    else if plan[0].IsAwaited() && failing == Some(done) then []
    else [plan[0]] + Performed(plan[1..], failing, if plan[0].IsAwaited() then done + 1 else done)
  }

  /** What happens is always a prefix of the plan. */
  lemma {:induction false} PerformedIsPrefix(plan: seq<Effect>, failing: Option<nat>, done: nat)
    ensures var r := Performed(plan, failing, done);
      |r| <= |plan| && r == plan[..|r|]
    decreases |plan|
  {
    if plan != [] && !(plan[0].IsAwaited() && failing == Some(done)) {
      PerformedIsPrefix(plan[1..], failing, if plan[0].IsAwaited() then done + 1 else done);
    }
  }

  /** The number of awaited calls in a plan. */
  function AwaitedCount(plan: seq<Effect>): nat {
    if plan == [] then 0 else (if plan[0].IsAwaited() then 1 else 0) + AwaitedCount(plan[1..])
  }

  /** The whole plan happens exactly when none of its awaited calls is the one that throws. */
  lemma {:induction false} PerformedWhole(plan: seq<Effect>, failing: Option<nat>, done: nat)
    ensures Performed(plan, failing, done) == plan <==>
      (failing.None? || failing.value < done || failing.value >= done + AwaitedCount(plan))
    decreases |plan|
  {
    if plan != [] {
      var next := if plan[0].IsAwaited() then done + 1 else done;
      PerformedWhole(plan[1..], failing, next);
      if Performed(plan, failing, done) == plan && !(plan[0].IsAwaited() && failing == Some(done)) {
        assert Performed(plan[1..], failing, next) == plan[1..];
      }
    }
  }

  /** A new chat is created with the placeholder title, and the only retitling is
      to the summary, when there is one: a failed summary leaves "...". */
  lemma NewChatTitle(uid: string, newChatId: string, s: Submission, service: Service, titleService: Service,
                     chatId: Option<string>)
    requires IsNewChat(chatId)
    ensures var plan := SubmitPlan(chatId, uid, newChatId, s, service, titleService);
      var summary := FiveWordSummary(GenerateResponse(TitleRequest(s.input), [], titleService));
      && plan[0] == CreateChat(newChatId, uid, PlaceholderTitle)
      && (forall e :: e in plan && e.SetTitle? ==> summary.Some? && e == SetTitle(newChatId, summary.value))
      && (summary.Some? ==> SetTitle(newChatId, summary.value) in plan)
  {
  }

  /** The title request and the reply request are separate calls: a title
      request that throws leaves "..." as the title, and the reply is still
      persisted when it is non-empty. */
  lemma FailedTitleKeepsAnswer(uid: string, newChatId: string, s: Submission, service: Service,
                               titleService: Service, chatId: Option<string>)
    requires IsNewChat(chatId)
    requires titleService(BuildContents(TitleRequest(s.input), [])).Threw?
    ensures var plan := SubmitPlan(chatId, uid, newChatId, s, service, titleService);
      var reply := ReplyText(GenerateResponse(SubmitHistory(chatId, s.prior, s.input), s.files, service));
      && (forall e :: e in plan ==> !e.SetTitle?)
      && (reply != "" <==> AddMessage(newChatId, Message(ModelRole, reply, NoAttachment)) in plan)
  {
    NewChatTitle(uid, newChatId, s, service, titleService, chatId);
    SubmitAsksWithHistory(chatId, uid, newChatId, s, service, titleService);
  }

  /** The reply request of a submit carries the conversation of `SubmitHistory`
      and the submitted files; its answer is persisted to the right chat only
      when it is non-empty, and a new chat is navigated to last. */
  lemma SubmitAsksWithHistory(chatId: Option<string>, uid: string, newChatId: string, s: Submission,
                              service: Service, titleService: Service)
    ensures var plan := SubmitPlan(chatId, uid, newChatId, s, service, titleService);
      var history := SubmitHistory(chatId, s.prior, s.input);
      var reply := ReplyText(GenerateResponse(history, s.files, service));
      var target := if IsNewChat(chatId) then newChatId else chatId.value;
      && AskAi(history, s.files) in plan
      && (reply != "" <==> AddMessage(target, Message(ModelRole, reply, NoAttachment)) in plan)
      && (IsNewChat(chatId) <==> plan[|plan| - 1] == Navigate("/c/" + newChatId))
  {
    if IsNewChat(chatId) {
      NewChatAsks(uid, newChatId, s, service, titleService);
    } else {
      ExistingChatAsks(chatId.value, s, service);
      assert chatId == Some(chatId.value);
    }
  }

  /** The new-chat half of `SubmitAsksWithHistory`. */
  lemma NewChatAsks(uid: string, newChatId: string, s: Submission, service: Service, titleService: Service)
    ensures var plan := NewChatPlan(uid, newChatId, s, service, titleService);
      var history := SubmitHistory(None, s.prior, s.input);
      var reply := ReplyText(GenerateResponse(history, s.files, service));
      && AskAi(history, s.files) in plan
      && (reply != "" <==> AddMessage(newChatId, Message(ModelRole, reply, NoAttachment)) in plan)
      && plan[|plan| - 1] == Navigate("/c/" + newChatId)
  {
    var history := SubmitHistory(None, s.prior, s.input);
    var reply := ReplyText(GenerateResponse(history, s.files, service));
    var written := AddMessage(newChatId, Message(ModelRole, reply, NoAttachment));
    var tail := NewChatTail(newChatId, s, service, titleService);
    NewChatTailAsks(newChatId, s, service, titleService);
    var mine := AddMessage(newChatId, UserMessage(s.input, s.files));
    assert mine != written by {
      assert UserMessage(s.input, s.files).role == UserRole;
    }
    var plan := NewChatPlan(uid, newChatId, s, service, titleService);
    assert plan == [CreateChat(newChatId, uid, PlaceholderTitle)] + ([mine] + tail);
    assert plan[|plan| - 1] == tail[|tail| - 1];
  }

  /** What a new chat does after its first message asks for the answer, writes
      it when it is non-empty, and ends with the navigation. */
  lemma NewChatTailAsks(newChatId: string, s: Submission, service: Service, titleService: Service)
    ensures var tail := NewChatTail(newChatId, s, service, titleService);
      var history := SubmitHistory(None, s.prior, s.input);
      var reply := ReplyText(GenerateResponse(history, s.files, service));
      && AskAi(history, s.files) in tail
      && (reply != "" <==> AddMessage(newChatId, Message(ModelRole, reply, NoAttachment)) in tail)
      && tail[|tail| - 1] == Navigate("/c/" + newChatId)
  {
    var history := SubmitHistory(None, s.prior, s.input);
    var reply := ReplyText(GenerateResponse(history, s.files, service));
    var answer := AnswerPlan(newChatId, history, s.files, service);
    var written := AddMessage(newChatId, Message(ModelRole, reply, NoAttachment));
    assert answer == [AskAi(history, s.files)] + ReplyWrite(newChatId, reply);
    assert written in answer <==> reply != "";
    var title := TitleWrite(newChatId, FiveWordSummary(GenerateResponse(TitleRequest(s.input), [], titleService)));
    var nav := Navigate("/c/" + newChatId);
    var tail := NewChatTail(newChatId, s, service, titleService);
    assert tail == [AskSummary(TitleRequest(s.input))] + (title + (answer + [nav]));
    assert written !in title;
  }

  /** The existing-chat half of `SubmitAsksWithHistory`. */
  lemma ExistingChatAsks(chatId: string, s: Submission, service: Service)
    ensures var plan := ExistingChatPlan(chatId, s, service);
      var history := SubmitHistory(Some(chatId), s.prior, s.input);
      var reply := ReplyText(GenerateResponse(history, s.files, service));
      && AskAi(history, s.files) in plan
      && (reply != "" <==> AddMessage(chatId, Message(ModelRole, reply, NoAttachment)) in plan)
      && !plan[|plan| - 1].Navigate?
  {
    var history := SubmitHistory(Some(chatId), s.prior, s.input);
    var reply := ReplyText(GenerateResponse(history, s.files, service));
    var answer := AnswerPlan(chatId, history, s.files, service);
    var written := AddMessage(chatId, Message(ModelRole, reply, NoAttachment));
    assert answer == [AskAi(history, s.files)] + ReplyWrite(chatId, reply);
    assert written in answer <==> reply != "";
    var mine := AddMessage(chatId, UserMessage(s.input, s.files));
    assert mine != written by {
      assert UserMessage(s.input, s.files).role == UserRole;
    }
    var plan := ExistingChatPlan(chatId, s, service);
    assert plan == [mine] + answer;
    assert plan[|plan| - 1] == answer[|answer| - 1];
  }


  /** When the reply request of a submit rejects, the `catch` skips the rest:
      the reply is not written and a new chat is not navigated to; only the
      steps before the request have happened. */
  lemma RejectedReplyStopsSubmit(chatId: Option<string>, uid: string, newChatId: string, s: Submission,
                                 service: Service, titleService: Service)
    ensures var plan := SubmitPlan(chatId, uid, newChatId, s, service, titleService);
      var history := SubmitHistory(chatId, s.prior, s.input);
      var target := if IsNewChat(chatId) then newChatId else chatId.value;
      var before := if IsNewChat(chatId)
        then [CreateChat(newChatId, uid, PlaceholderTitle), AddMessage(newChatId, UserMessage(s.input, s.files)),
              AskSummary(TitleRequest(s.input))]
             + TitleWrite(newChatId, FiveWordSummary(GenerateResponse(TitleRequest(s.input), [], titleService)))
        else [AddMessage(target, UserMessage(s.input, s.files))];
      Performed(plan, Some(if IsNewChat(chatId) then 2 else 1), 0) == before
  {
    if IsNewChat(chatId) {
      NewChatRejectedReply(uid, newChatId, s, service, titleService);
    } else {
      assert chatId == Some(chatId.value);
      var answer := AnswerPlan(chatId.value, SubmitHistory(chatId, s.prior, s.input), s.files, service);
      assert Performed(answer, Some(1), 1) == [];
    }
  }

  /** The new-chat half of `RejectedReplyStopsSubmit`: the reply request is the
      third awaited call, after the chat's creation and the user's message. */
  lemma NewChatRejectedReply(uid: string, newChatId: string, s: Submission, service: Service, titleService: Service)
    ensures Performed(NewChatPlan(uid, newChatId, s, service, titleService), Some(2), 0) ==
      [CreateChat(newChatId, uid, PlaceholderTitle), AddMessage(newChatId, UserMessage(s.input, s.files)),
       AskSummary(TitleRequest(s.input))]
      + TitleWrite(newChatId, FiveWordSummary(GenerateResponse(TitleRequest(s.input), [], titleService)))
  {
    var title := TitleWrite(newChatId, FiveWordSummary(GenerateResponse(TitleRequest(s.input), [], titleService)));
    var tail := NewChatTail(newChatId, s, service, titleService);
    var mine := AddMessage(newChatId, UserMessage(s.input, s.files));
    var create := CreateChat(newChatId, uid, PlaceholderTitle);
    NewChatTailRejected(newChatId, s, service, titleService);
    assert NewChatPlan(uid, newChatId, s, service, titleService) == [create] + ([mine] + tail);
    assert Performed([mine] + tail, Some(2), 1) == [mine] + Performed(tail, Some(2), 2);
    assert Performed([create] + ([mine] + tail), Some(2), 0) == [create] + Performed([mine] + tail, Some(2), 1);
    assert [create] + ([mine] + ([AskSummary(TitleRequest(s.input))] + title))
      == [create, mine, AskSummary(TitleRequest(s.input))] + title;
  }

  /** After the first message, a rejected reply request (the next awaited call)
      leaves only the summary request and the retitling. */
  lemma NewChatTailRejected(newChatId: string, s: Submission, service: Service, titleService: Service)
    ensures Performed(NewChatTail(newChatId, s, service, titleService), Some(2), 2) ==
      [AskSummary(TitleRequest(s.input))]
      + TitleWrite(newChatId, FiveWordSummary(GenerateResponse(TitleRequest(s.input), [], titleService)))
  {
    var history := SubmitHistory(None, s.prior, s.input);
    var answer := AnswerPlan(newChatId, history, s.files, service);
    assert answer[0] == AskAi(history, s.files);
    var f := Some(2);
    var title := TitleWrite(newChatId, FiveWordSummary(GenerateResponse(TitleRequest(s.input), [], titleService)));
    var t3 := answer + [Navigate("/c/" + newChatId)];
    assert Performed(t3, f, 2) == [];
    TitleUnawaited(title, t3, f, 2);
    var t1 := [AskSummary(TitleRequest(s.input))] + (title + t3);
    assert NewChatTail(newChatId, s, service, titleService) == t1;
    assert t1[0] == AskSummary(TitleRequest(s.input)) && t1[1..] == title + t3;
  }

  /** The retitling is not awaited, so it passes through `Performed` whole. */
  lemma TitleUnawaited(title: seq<Effect>, tail: seq<Effect>, failing: Option<nat>, done: nat)
    requires |title| <= 1 && (title != [] ==> title[0].SetTitle?)
    requires Performed(tail, failing, done) == []
    ensures Performed(title + tail, failing, done) == title
  {
    if title != [] {
      assert (title + tail)[1..] == tail;
    } else {
      assert title + tail == tail;
    }
  }

  // ---------------------------------------------------------------------
  // Editing a message
  // ---------------------------------------------------------------------

  /** `ms` with the content of message `i` replaced. */
  function WithContent(ms: seq<Message>, i: nat, content: string): seq<Message>
    requires i < |ms|
  {
    ms[i := ms[i].(content := content)]
  }

  /** The saved edit triggers a regeneration when the next message is the model's. */
  predicate Regenerates(ms: seq<Message>, i: nat) {
    i + 1 < |ms| && ms[i + 1].role == ModelRole
  }

  /** The history a regeneration sends: the edited list up to and including message `i`. */
  function RegenerationRequest(ms: seq<Message>, i: nat, content: string): seq<Turn>
    requires i < |ms|
  {
    TurnsOf(WithContent(ms, i, content)[..i + 1])
  }

  /** The message list once a saved edit and its regeneration are done. */
  function AfterEdit(ms: seq<Message>, i: nat, content: string, service: Service): seq<Message>
    requires i < |ms|
  {
    var edited := WithContent(ms, i, content);
    if Regenerates(ms, i) then
      var reply := ReplyText(GenerateResponse(RegenerationRequest(ms, i, content), [], service));
      if reply != "" then WithContent(edited, i + 1, reply) else edited
    else edited
  }

  /** A saved edit changes the content of message `i` and nothing else, except
      that a model reply right after it gets the regenerated text when one comes back. */
  lemma EditChangesOnlyTwoContents(ms: seq<Message>, i: nat, content: string, service: Service)
    requires i < |ms|
    ensures var after := AfterEdit(ms, i, content, service);
      var reply := ReplyText(GenerateResponse(RegenerationRequest(ms, i, content), [], service));
      && |after| == |ms|
      && (forall j :: 0 <= j < |ms| ==> after[j].role == ms[j].role && after[j].attachment == ms[j].attachment)
      && after[i].content == content
      && (forall j :: 0 <= j < |ms| && j != i && j != i + 1 ==> after[j] == ms[j])
      && (i + 1 < |ms| ==>
            after[i + 1].content == if Regenerates(ms, i) && reply != "" then reply else ms[i + 1].content)
  {
  }

  /** The regeneration request is the edited message's prefix: every earlier
      message as it was, then the edited message with its new content. */
  lemma RegenerationRequestShape(ms: seq<Message>, i: nat, content: string)
    requires i < |ms|
    ensures var h := RegenerationRequest(ms, i, content);
      && |h| == i + 1
      && (forall j :: 0 <= j < i ==> h[j] == Turn(ms[j].role, ms[j].content))
      && h[i] == Turn(ms[i].role, content)
  {
  }

  // ---------------------------------------------------------------------
  // Attachments
  // ---------------------------------------------------------------------

  /** The file list after picking `picked`: unchanged when the total would pass
      the cap, otherwise the picked files appended in order (the `slice(0, 5)`
      never cuts, because the guard has already bounded the total). */
  function AfterPick(current: seq<FileBlob>, picked: seq<FileBlob>): (r: seq<FileBlob>)
    ensures |current| + |picked| > MaxAttachments ==> r == current
    ensures |current| + |picked| <= MaxAttachments ==> r == current + picked
    ensures |current| <= MaxAttachments ==> |r| <= MaxAttachments
  {
    if |current| + |picked| > MaxAttachments then current
    else (current + picked)[..Min(MaxAttachments, |current| + |picked|)]
  }

  /** `files.filter((_, i) => i !== idx)`. */
  function WithoutIndex(files: seq<FileBlob>, idx: int): (r: seq<FileBlob>)
    ensures 0 <= idx < |files| ==> |r| == |files| - 1
    ensures 0 <= idx < |files| ==> forall j :: 0 <= j < idx ==> r[j] == files[j]
    ensures 0 <= idx < |files| ==> forall j :: idx <= j < |r| ==> r[j] == files[j + 1]
    ensures !(0 <= idx < |files|) ==> r == files
    decreases |files|
  {
    if files == [] then []
    else (if idx == 0 then [] else [files[0]]) + WithoutIndex(files[1..], idx - 1)
  }

  // ---------------------------------------------------------------------
  // The controller
  // ---------------------------------------------------------------------

  class ChatController {
    /** The open chat (`null` before the first message of a new chat). */
    const chatId: Option<string>
    /** The signed-in user's uid. */
    const user: Option<string>

    var messages: seq<Message>
    var input: string
    var files: seq<FileBlob>
    var isPending: bool
    var editingIndex: Option<nat>
    var editValue: string
    var toast: Option<string>
    /** Everything asked of the store, the router and the AI action so far. */
    var effects: seq<Effect>

    /** The attachment cap holds. */
    ghost predicate Valid()
      reads this
    {
      |files| <= MaxAttachments
    }

    constructor (chatId: Option<string>, user: Option<string>, initialMessages: seq<Message>)
      ensures Valid()
      ensures this.chatId == chatId && this.user == user && messages == initialMessages
      ensures input == "" && files == [] && !isPending && editingIndex == None && editValue == ""
      ensures toast == None && effects == []
    {
      this.chatId := chatId;
      this.user := user;
      messages := initialMessages;
      input := "";
      files := [];
      isPending := false;
      editingIndex := None;
      editValue := "";
      toast := None;
      effects := [];
    }

    /** The effect that copies the container's messages in whenever they change. */
    method SyncInitialMessages(initialMessages: seq<Message>)
      modifies this`messages
      ensures messages == initialMessages
    {
      messages := initialMessages;
    }

    /** Typing into the composer. */
    method SetInput(text: string)
      modifies this`input
      ensures input == text
    {
      input := text;
    }

    /** The synchronous part of `handleSubmit`: the guard, the optimistic append,
        and clearing the composer while the request is pending. */
    method BeginSubmit() returns (started: bool, s: Submission)
      requires Valid()
      modifies this`messages, this`isPending, this`input, this`files
      ensures Valid()
      ensures started == SubmitAllowed(user, old(input), old(files))
      ensures !started ==>
        messages == old(messages) && isPending == old(isPending) && input == old(input) && files == old(files)
      ensures started ==> s == Submission(old(input), old(files), old(messages))
      ensures started ==> messages == old(messages) + [UserMessage(old(input), old(files))]
      ensures started ==> isPending && input == "" && files == []
    {
      started := SubmitAllowed(user, input, files);
      s := Submission(input, files, messages);
      if !started {
        return;
      }
      messages := messages + [UserMessage(s.input, s.files)];
      isPending := true;
      input := "";
      files := [];
    }

    /** One step of a plan `[e] + tail`: performs `e` unless it is the awaited
        write that throws, in which case nothing more of the plan happens. */
    method Step(e: Effect, done: nat, failing: Option<nat>, ghost tail: seq<Effect>)
      returns (ok: bool, done': nat)
      modifies this`effects
      ensures ok <==> !(e.IsAwaited() && failing == Some(done))
      ensures done' == if e.IsAwaited() then done + 1 else done
      ensures ok ==> effects == old(effects) + [e]
      ensures ok ==> old(effects) + Performed([e] + tail, failing, done) == effects + Performed(tail, failing, done')
      ensures !ok ==> effects == old(effects) && effects == old(effects) + Performed([e] + tail, failing, done)
    {
      ok := !(e.IsAwaited() && failing == Some(done));
      done' := if e.IsAwaited() then done + 1 else done;
      assert ([e] + tail)[0] == e && ([e] + tail)[1..] == tail;
      if ok {
        assert Performed([e] + tail, failing, done) == [e] + Performed(tail, failing, done');
        effects := effects + [e];
      } else {
        assert Performed([e] + tail, failing, done) == [];
      }
    }

    /** The awaited part of `handleSubmit`, run inside its `try`/`finally`:
        whatever throws, pending ends false. */
    method FinishSubmit(s: Submission, newChatId: string, service: Service, titleService: Service,
                        failing: Option<nat>)
      requires user.Some?
      modifies this`effects, this`isPending
      ensures effects == old(effects) +
        Performed(SubmitPlan(chatId, user.value, newChatId, s, service, titleService), failing, 0)
      ensures !isPending
    {
      if IsNewChat(chatId) {
        SubmitNewChat(s, newChatId, service, titleService, failing);
      } else {
        SubmitToChat(s, service, failing);
      }
      isPending := false;
    }

    /** The new-chat branch: each awaited store write in turn, the detached title
        summary, then the answer and navigation. */
    method SubmitNewChat(s: Submission, newChatId: string, service: Service, titleService: Service,
                         failing: Option<nat>)
      requires user.Some?
      modifies this`effects
      ensures effects == old(effects) +
        Performed(NewChatPlan(user.value, newChatId, s, service, titleService), failing, 0)
    {
      ghost var t0 := [AddMessage(newChatId, UserMessage(s.input, s.files))]
        + NewChatTail(newChatId, s, service, titleService);
      assert NewChatPlan(user.value, newChatId, s, service, titleService)
        == [CreateChat(newChatId, user.value, PlaceholderTitle)] + t0;
      var ok, done := Step(CreateChat(newChatId, user.value, PlaceholderTitle), 0, failing, t0);
      if !ok { return; }
      ok, done := Step(AddMessage(newChatId, UserMessage(s.input, s.files)), done, failing,
                       NewChatTail(newChatId, s, service, titleService));
      if !ok { return; }
      SummarizeAnswerNavigate(newChatId, s, service, titleService, failing, done);
    }

    /** The new-chat branch after the first message is written: the summary request,
        the retitling, the answer and the navigation. */
    method SummarizeAnswerNavigate(newChatId: string, s: Submission, service: Service, titleService: Service,
                                   failing: Option<nat>, done: nat)
      modifies this`effects
      ensures effects == old(effects) + Performed(NewChatTail(newChatId, s, service, titleService), failing, done)
    {
      var history := SubmitHistory(None, s.prior, s.input);
      var summary := FiveWordSummary(GenerateResponse(TitleRequest(s.input), [], titleService));
      ghost var t3 := AnswerPlan(newChatId, history, s.files, service) + [Navigate("/c/" + newChatId)];
      ghost var t2 := TitleWrite(newChatId, summary) + t3;
      assert NewChatTail(newChatId, s, service, titleService) == [AskSummary(TitleRequest(s.input))] + t2;
      var ok, done' := Step(AskSummary(TitleRequest(s.input)), done, failing, t2);
      TitleStep(newChatId, summary, done', failing, t3);
      AnswerAndNavigate(newChatId, history, s.files, service, failing, done');
    }

    /** The retitling write, which is not awaited and so never stops the plan. */
    method TitleStep(target: string, summary: Option<string>, done: nat, failing: Option<nat>,
                     ghost tail: seq<Effect>)
      modifies this`effects
      ensures old(effects) + Performed(TitleWrite(target, summary) + tail, failing, done)
        == effects + Performed(tail, failing, done)
    {
      if summary.Some? {
        assert TitleWrite(target, summary) + tail == [SetTitle(target, summary.value)] + tail;
        var ok, done' := Step(SetTitle(target, summary.value), done, failing, tail);
      } else {
        assert TitleWrite(target, summary) + tail == tail;
      }
    }

    /** The tail of the new-chat branch: the answer, then navigation to the chat. */
    method AnswerAndNavigate(target: string, history: seq<Turn>, files: seq<FileBlob>,
                             service: Service, failing: Option<nat>, done: nat)
      modifies this`effects
      ensures effects == old(effects) +
        Performed(AnswerPlan(target, history, files, service) + [Navigate("/c/" + target)], failing, done)
    {
      var ok, done' := Answer(target, history, files, service, failing, done, [Navigate("/c/" + target)]);
      if !ok { return; }
      assert [Navigate("/c/" + target)] + [] == [Navigate("/c/" + target)];
      var navigated, done'' := Step(Navigate("/c/" + target), done', failing, []);
      assert Performed([], failing, done'') == [];
    }

    /** The awaited reply request and, when the reply is non-empty, its awaited
        write; `ok` is false when either throws, and then nothing more happens. */
    method Answer(target: string, history: seq<Turn>, files: seq<FileBlob>,
                  service: Service, failing: Option<nat>,
                  done: nat, ghost tail: seq<Effect>) returns (ok: bool, done': nat)
      modifies this`effects
      ensures ok ==>
        old(effects) + Performed(AnswerPlan(target, history, files, service) + tail, failing, done)
        == effects + Performed(tail, failing, done')
      ensures !ok ==>
        effects == old(effects) + Performed(AnswerPlan(target, history, files, service) + tail, failing, done)
    {
      var reply := ReplyText(GenerateResponse(history, files, service));
      ghost var rest := ReplyWrite(target, reply) + tail;
      assert AnswerPlan(target, history, files, service) + tail == [AskAi(history, files)] + rest;
      ok, done' := Step(AskAi(history, files), done, failing, rest);
      if !ok { return; }
      if reply != "" {
        var answer := AddMessage(target, Message(ModelRole, reply, NoAttachment));
        assert rest == [answer] + tail;
        ok, done' := Step(answer, done', failing, tail);
      } else {
        assert rest == tail;
      }
    }

    /** The existing-chat branch: the user's message is written, then answered. */
    method SubmitToChat(s: Submission, service: Service, failing: Option<nat>)
      requires !IsNewChat(chatId)
      modifies this`effects
      ensures effects == old(effects) + Performed(ExistingChatPlan(chatId.value, s, service), failing, 0)
    {
      var history := SubmitHistory(chatId, s.prior, s.input);
      assert chatId == Some(chatId.value);
      ghost var rest := AnswerPlan(chatId.value, history, s.files, service);
      assert ExistingChatPlan(chatId.value, s, service) == [AddMessage(chatId.value, UserMessage(s.input, s.files))] + rest;
      var ok, done := Step(AddMessage(chatId.value, UserMessage(s.input, s.files)), 0, failing, rest);
      if !ok { return; }
      assert rest + [] == rest;
      var answered, done' := Answer(chatId.value, history, s.files, service, failing, done, []);
      assert Performed([], failing, done') == [];
    }

    /** `handleSubmit`: a no-op unless the guard passes; otherwise the optimistic
        append, then the awaited steps, and pending false at the end. */
    method HandleSubmit(newChatId: string, service: Service, titleService: Service, failing: Option<nat>)
      requires Valid()
      modifies this`messages, this`isPending, this`input, this`files, this`effects
      ensures Valid()
      ensures !SubmitAllowed(user, old(input), old(files)) ==>
        messages == old(messages) && isPending == old(isPending) && input == old(input)
        && files == old(files) && effects == old(effects)
      ensures SubmitAllowed(user, old(input), old(files)) ==>
        && messages == old(messages) + [UserMessage(old(input), old(files))]
        && input == "" && files == [] && !isPending
        && effects == old(effects) + Performed(
             SubmitPlan(chatId, user.value, newChatId, Submission(old(input), old(files), old(messages)),
                        service, titleService),
             failing, 0)
    {
      var started, s := BeginSubmit();
      if started {
        FinishSubmit(s, newChatId, service, titleService, failing);
      }
    }

    /** `handleEditMessage`: enter edit mode on message `index` with its content. */
    method HandleEditMessage(index: nat)
      requires index < |messages|
      modifies this`editingIndex, this`editValue
      ensures editingIndex == Some(index) && editValue == messages[index].content
    {
      editingIndex := Some(index);
      editValue := messages[index].content;
    }

    /** Typing into the edit box. */
    method SetEditValue(text: string)
      modifies this`editValue
      ensures editValue == text
    {
      editValue := text;
    }

    /** `handleSaveEdit`: nothing without edit mode (nor when the index no longer
        exists, where the assignment throws); otherwise the edited content is
        shown, edit mode ends, and a following model reply is regenerated from the
        edited prefix and overwritten on success. `rejects` says whether the
        awaited regeneration request rejects, which leaves the edit alone in place. */
    method HandleSaveEdit(service: Service, rejects: bool)
      modifies this`messages, this`editingIndex, this`effects
      ensures old(editingIndex).None? || old(editingIndex).value >= |old(messages)| ==>
        messages == old(messages) && editingIndex == old(editingIndex) && effects == old(effects)
      ensures old(editingIndex).Some? && old(editingIndex).value < |old(messages)| ==>
        var i := old(editingIndex).value;
        && editingIndex == None
        && messages == (if rejects then WithContent(old(messages), i, editValue)
                        else AfterEdit(old(messages), i, editValue, service))
        && effects == old(effects) +
             if Regenerates(old(messages), i) then [AskAi(RegenerationRequest(old(messages), i, editValue), [])] else []
    {
      if editingIndex.None? {
        return;
      }
      var i := editingIndex.value;
      if i >= |messages| {
        return;
      }
      var updated := WithContent(messages, i, editValue);
      var before := messages;
      messages := updated;
      editingIndex := None;
      if Regenerates(before, i) {
        var conversation := TurnsOf(updated[..i + 1]);
        effects := effects + [AskAi(conversation, [])];
        if rejects {
          return;
        }
        var reply := ReplyText(GenerateResponse(conversation, [], service));
        if reply != "" {
          updated := WithContent(updated, i + 1, reply);
          messages := updated;
        }
      }
    }

    /** `handleCancelEdit`. */
    method HandleCancelEdit()
      modifies this`editingIndex, this`editValue
      ensures editingIndex == None && editValue == ""
    {
      editingIndex := None;
      editValue := "";
    }

    /** The file input's change handler: nothing when no files were picked; a
        toast and no change when the cap would be passed; the picked files appended otherwise. */
    method AddFiles(picked: Option<seq<FileBlob>>)
      requires Valid()
      modifies this`files, this`toast
      ensures Valid()
      ensures picked.None? ==> files == old(files) && toast == old(toast)
      ensures picked.Some? && |old(files)| + |picked.value| > MaxAttachments ==>
        files == old(files) && toast == Some(AttachmentLimitToast)
      ensures picked.Some? && |old(files)| + |picked.value| <= MaxAttachments ==>
        files == old(files) + picked.value && toast == old(toast)
    {
      if picked.None? {
        return;
      }
      if |files| + |picked.value| > MaxAttachments {
        toast := Some(AttachmentLimitToast);
        return;
      }
      files := AfterPick(files, picked.value);
    }

    /** The remove button of attachment `idx`. */
    method RemoveFile(idx: int)
      requires Valid()
      modifies this`files
      ensures Valid()
      ensures files == WithoutIndex(old(files), idx)
    {
      files := WithoutIndex(files, idx);
    }
  }
}
