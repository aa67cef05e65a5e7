/**
 * The server action that forwards a conversation to the hosted generative
 * model (`generateGeminiResponse` in src/app/actions.ts). Everything before
 * the model call is a pure transformation, modelled here; the call itself,
 * and reading each attachment's bytes, are the outside world: the model
 * receives what the service answers for the built request as a function
 * parameter `service`.
 */
module Actions {
  import Base64

  /** One turn of the conversation the caller passes in. JavaScript does not
      check the "user" | "model" annotation, so the role is any string. */
  datatype Turn = Turn(role: string, content: string)

  /** An attached file: its name, its media type and its bytes. */
  datatype FileBlob = FileBlob(name: string, mimeType: string, bytes: seq<Base64.byte>)

  /** A part of a request turn: text, or inline binary data tagged with its media type. */
  datatype Part = Text(text: string) | InlineData(data: string, mimeType: string)

  /** A turn as the model service expects it. */
  datatype Content = Content(role: string, parts: seq<Part>)

  /** What the service call does: answers with a text, or throws. */
  datatype ServiceOutcome = Replied(text: string) | Threw

  /** The model service: what one request with these contents comes back with.
      Each request is answered by its own `Service` value, so two requests
      (even with equal contents) need not have related outcomes. */
  type Service = seq<Content> -> ServiceOutcome

  /** The action's result: `{success: true, text}` or `{success: false, error}`. */
  datatype GenerateResult = Success(text: string) | Failure(error: string)

  const UserRole: string := "user"
  const ModelRole: string := "model"

  /** The identity preamble injected in front of a single-turn conversation. */
  const SystemPrompt: string :=
    "\nYou are Pluxie, the helpful and friendly AI assistant of Project UnCorp by ybtheflash. You are powered by Google Gemini. Not all the time but introduce yourself as Pluxie if asked your name, and mention your project and technology if relevant."

  /** The only error the action ever reports. */
  const FailureMessage: string := "Failed to generate response from AI."

  /** The conversation with the preamble prepended as a "user" turn, exactly
      when the conversation has one turn. */
  function WithSystem(conversation: seq<Turn>): (w: seq<Turn>)
    ensures |conversation| == 1 ==> w == [Turn(UserRole, SystemPrompt)] + conversation
    ensures |conversation| != 1 ==> w == conversation
  {
    if |conversation| == 1 then [Turn(UserRole, SystemPrompt)] + conversation else conversation
  }

  /** The position of the caller's first turn in the built request. */
  function Shift(conversation: seq<Turn>): nat {
    if |conversation| == 1 then 1 else 0
  }

  /** The role sent for a turn: "model" stays "model", anything else is "user". */
  function OutputRole(role: string): (r: string)
    ensures r == ModelRole || r == UserRole
    ensures r == ModelRole <==> role == ModelRole
  {
    if role == ModelRole then ModelRole else UserRole
  }

  /** `fileToGenerativePart`: the file's bytes in base 64, tagged with its media type. */
  function FilePart(f: FileBlob): (p: Part)
    ensures p.InlineData? && p.mimeType == f.mimeType
    ensures Base64.Decode(p.data) == f.bytes
  {
    Base64.DecodeEncode(f.bytes);
    InlineData(Base64.Encode(f.bytes), f.mimeType)
  }

  /** One file part per file, in file order. */
  function FileParts(files: seq<FileBlob>): (ps: seq<Part>)
    ensures |ps| == |files|
    ensures forall i :: 0 <= i < |files| ==> ps[i] == FilePart(files[i])
  {
    seq(|files|, i requires 0 <= i < |files| => FilePart(files[i]))
  }

  /** Whether the files go with turn `idx` of the request `w`: files are given,
      it is the last turn and its role is "user". */
  predicate CarriesFiles(w: seq<Turn>, idx: int, files: seq<FileBlob>)
    requires 0 <= idx < |w|
  {
    |files| > 0 && idx == |w| - 1 && w[idx].role == UserRole
  }

  /** The request turn built from turn `idx` of `w`. */
  function ContentAt(w: seq<Turn>, idx: int, files: seq<FileBlob>): Content
    requires 0 <= idx < |w|
  {
    if CarriesFiles(w, idx, files) then
      Content(UserRole, [Text(w[idx].content)] + FileParts(files))
    else
      Content(OutputRole(w[idx].role), [Text(w[idx].content)])
  }

  /** The `contents` handed to the model: one request turn per turn of the
      conversation with the preamble (see the lemmas below). */
  function BuildContents(conversation: seq<Turn>, files: seq<FileBlob>): (r: seq<Content>)
    ensures |r| == |conversation| + Shift(conversation)
  {
    var w := WithSystem(conversation);
    seq(|w|, i requires 0 <= i < |w| => ContentAt(w, i, files))
  }

  /** The preamble is the first request turn, a "user" text turn, exactly when
      the conversation has one turn; so the request has n + 1 turns for n = 1
      and n turns otherwise. */
  lemma PreambleOnlyForSingleTurn(conversation: seq<Turn>, files: seq<FileBlob>)
    ensures |conversation| == 1 ==>
      var r := BuildContents(conversation, files);
      |r| == 2 && r[0] == Content(UserRole, [Text(SystemPrompt)])
    ensures |conversation| != 1 ==> |BuildContents(conversation, files)| == |conversation|
  {
  }

  /** Turn order is kept: the caller's turn `i` becomes request turn
      `Shift + i`, with its role mapped and its text as the first part. */
  lemma {:induction false} TurnsInOrder(conversation: seq<Turn>, files: seq<FileBlob>, i: nat)
    requires i < |conversation|
    ensures var c := BuildContents(conversation, files)[Shift(conversation) + i];
      && c.role == OutputRole(conversation[i].role)
      && |c.parts| >= 1
      && c.parts[0] == Text(conversation[i].content)
  {
    var w := WithSystem(conversation);
    assert w[Shift(conversation) + i] == conversation[i];
  }

  /** Every request turn but the last has exactly one part, its text; the last
      turn's parts after its text are the file parts, in file order, when files
      are given and the caller's last turn is the user's, and nothing otherwise. */
  lemma {:induction false} FilesOnlyOnFinalUserTurn(conversation: seq<Turn>, files: seq<FileBlob>)
    ensures var r := BuildContents(conversation, files);
      forall i :: 0 <= i < |r| - 1 ==> |r[i].parts| == 1
    ensures |conversation| > 0 ==>
      var r := BuildContents(conversation, files);
      r[|r| - 1].parts[1..] ==
        if |files| > 0 && conversation[|conversation| - 1].role == UserRole then FileParts(files) else []
  {
    var w := WithSystem(conversation);
    var r := BuildContents(conversation, files);
    if |conversation| > 0 {
      assert w[|w| - 1] == conversation[|conversation| - 1];
      assert r[|r| - 1] == ContentAt(w, |w| - 1, files);
    }
  }

  /** `generateGeminiResponse`: any exception becomes the fixed failure
      result; otherwise the service's text is returned as a success. */
  function GenerateResponse(conversation: seq<Turn>, files: seq<FileBlob>,
                            service: Service): (r: GenerateResult)
    ensures r.Failure? <==> service(BuildContents(conversation, files)).Threw?
    ensures r.Failure? ==> r.error == FailureMessage
    ensures r.Success? ==> r.text == service(BuildContents(conversation, files)).text
  {
    match service(BuildContents(conversation, files))
    case Threw => Failure(FailureMessage)
    case Replied(text) => Success(text)
  }

  /** How callers read a result (`result.success && result.text`): a reply
      exists only for a success with a non-empty text. */
  function ReplyText(r: GenerateResult): (t: string)
    ensures t != "" ==> r.Success? && t == r.text
    ensures r.Success? && r.text != "" ==> t == r.text
  {
    if r.Success? then r.text else ""
  }
}
