/**
 The view state of the PDF chat bot and the transitions its handlers make.

 The component keeps four state cells: the selected files, the question
 being typed, the message transcript and an "uploading" flag. Each handler
 step is one event here, and each React state setter is applied at once as a
 functional update of the state record.

 The two requests the view sends, file upload and question asking, are not
 executed: issuing one records it as in flight, and its settlement arrives
 later as an event of its own carrying the outcome. Several requests can be
 in flight together and may settle in any order, so the model keeps a count
 of uploads in flight and a multiset of the question texts that were sent.
 */
module ChatState {
  import opened JsText

  datatype Option<T> = None | Some(value: T)

  /** A selected file; only its display name matters to the view. */
  datatype File = File(name: string)

  datatype Author = User | Bot

  /** One transcript entry. Entries are appended and never edited. */
  datatype Message = Message(author: Author, text: string)

  /** The bot entry appended when an upload fails. */
  const UploadFailedText: string := "Failed to upload files."
  /** The bot entry appended when a successful answer carries no answer text. */
  const NoAnswerText: string := "No answer received."
  /** The bot entry appended when asking fails. */
  const AskFailedText: string := "Failed to get an answer."

  /** How an upload request settled: a 2xx response, another status, or a
      thrown exception (network failure). */
  datatype UploadOutcome = UploadOk | UploadNotOk | UploadThrew

  /** How an ask request settled: a 2xx response whose JSON body has an
      optional `answer`, another status, or an exception (a network failure,
      or a body that is not JSON). */
  datatype AskOutcome = AskOk(answer: Option<string>) | AskNotOk | AskThrew

  /** What a key press in the question box does. */
  datatype KeyAction = SubmitQuestion | DefaultAction

  datatype State = State(
    files: seq<File>,
    question: string,
    messages: seq<Message>,
    isUploading: bool,
    uploadsInFlight: nat,
    asksInFlight: multiset<string>)

  datatype Event =
    | SelectFiles(selection: Option<seq<File>>)  // `e.target.files`, possibly null
    | UploadSettled(upload: UploadOutcome)
    | EditQuestion(text: string)                 // the textarea's change event
    | SubmitClicked                              // the Ask button
    | KeyDown(key: string, shiftKey: bool)       // a key press in the textarea
    | AskSettled(asked: string, ask: AskOutcome)

  /** The state the component is mounted with. */
  function Init(): (s: State)
    ensures s.files == [] && s.messages == [] && s.question == ""
    ensures !s.isUploading && s.uploadsInFlight == 0 && s.asksInFlight == multiset{}
  {
    State([], "", [], false, 0, multiset{})
  }

  /** A settlement can only arrive for a request that is in flight. */
  predicate Enabled(s: State, e: Event) {
    match e
    case UploadSettled(_) => s.uploadsInFlight > 0
    case AskSettled(q, _) => q in s.asksInFlight
    case _ => true
  }

  /** The texts of the user entries of a transcript, oldest first. */
  function UserTexts(ms: seq<Message>): seq<string>
  {
    if ms == [] then []
    else
      var last := ms[|ms| - 1];
      UserTexts(ms[..|ms| - 1]) + (if last.author == User then [last.text] else [])
  }

  /** Appending one entry extends the user texts by that entry's text when
      the entry is the user's, and leaves them alone otherwise. */
  lemma UserTextsAppend(ms: seq<Message>, m: Message)
    ensures UserTexts(ms + [m]) == UserTexts(ms) + (if m.author == User then [m.text] else [])
  {
    assert (ms + [m])[..|ms|] == ms;
  }

  /** The view invariant: the upload flag is never set while no upload is in
      flight, and every question in flight is already shown as a user entry
      (as many times as it is in flight). */
  predicate Inv(s: State) {
    && (s.isUploading ==> s.uploadsInFlight > 0)
    && s.asksInFlight <= multiset(UserTexts(s.messages))
  }

  /** The first half of `handleFileUpload`, up to the request. A null file
      list changes nothing; any list, even an empty one, is appended after
      the files already held, raises the upload flag and issues a request. */
  function SelectFilesStep(s: State, selection: Option<seq<File>>): (t: State)
    ensures selection.None? ==> t == s
    ensures selection.Some? ==>
      && |t.files| == |s.files| + |selection.value|
      && t.files[..|s.files|] == s.files
      && t.files[|s.files|..] == selection.value
      && t.isUploading
      && t.uploadsInFlight == s.uploadsInFlight + 1
    ensures t.messages == s.messages && t.question == s.question
    ensures t.asksInFlight == s.asksInFlight
  {
    match selection
    case None => s
    case Some(chosen) =>
      s.(files := s.files + chosen, isUploading := true,
         uploadsInFlight := s.uploadsInFlight + 1)
  }

  /** The bot entries an upload settlement appends: none on success, one
      failure notice on a non-2xx status or an exception. */
  function UploadReply(outcome: UploadOutcome): (entries: seq<Message>)
    ensures |entries| <= 1
    ensures entries == [] <==> outcome == UploadOk
    ensures entries != [] ==> entries[0] == Message(Bot, UploadFailedText)
  {
    if outcome == UploadOk then [] else [Message(Bot, UploadFailedText)]
  }

  /** The second half of `handleFileUpload`: whatever the outcome, the
      `finally` block lowers the one shared upload flag. */
  function SettleUploadStep(s: State, outcome: UploadOutcome): (t: State)
    requires s.uploadsInFlight > 0
    ensures !t.isUploading
    ensures t.uploadsInFlight == s.uploadsInFlight - 1
    ensures t.messages == s.messages + UploadReply(outcome)
    ensures t.files == s.files && t.question == s.question
    ensures t.asksInFlight == s.asksInFlight
  {
    s.(messages := s.messages + UploadReply(outcome), isUploading := false,
       uploadsInFlight := s.uploadsInFlight - 1)
  }

  /** The textarea's change handler replaces the pending question. */
  function EditStep(s: State, text: string): (t: State)
    ensures t.question == text
    ensures t.files == s.files && t.messages == s.messages
    ensures t.isUploading == s.isUploading && t.uploadsInFlight == s.uploadsInFlight
    ensures t.asksInFlight == s.asksInFlight
  {
    s.(question := text)
  }

  /** The first half of `handleAskQuestion`, up to the request. A question
      that trims to nothing is ignored. Otherwise the untrimmed question is
      captured, appended as a user entry, the input is cleared, and a
      request carrying the captured text is put in flight. */
  function AskStep(s: State): (t: State)
    ensures IsBlank(s.question) ==> t == s
    ensures !IsBlank(s.question) ==>
      && t.messages == s.messages + [Message(User, s.question)]
      && t.question == ""
      && t.asksInFlight == s.asksInFlight + multiset{s.question}
    ensures t.files == s.files && t.isUploading == s.isUploading
    ensures t.uploadsInFlight == s.uploadsInFlight
  {
    if Trim(s.question) == "" then s
    else
      var captured := s.question;
      s.(messages := s.messages + [Message(User, captured)], question := "",
         asksInFlight := s.asksInFlight + multiset{captured})
  }

  /** The text of the bot entry an ask settlement appends:
      `data.answer || "No answer received."` on a 2xx response, and the
      failure notice otherwise. It is never empty. */
  function ReplyText(outcome: AskOutcome): (text: string)
    ensures text != ""
    ensures outcome.AskOk? && outcome.answer.Some? && outcome.answer.value != "" ==>
      text == outcome.answer.value
    ensures outcome.AskOk? && (outcome.answer.None? || outcome.answer.value == "") ==>
      text == NoAnswerText
    ensures !outcome.AskOk? ==> text == AskFailedText
  {
    match outcome
    case AskOk(Some(answer)) => if answer != "" then answer else NoAnswerText
    case AskOk(None) => NoAnswerText
    case _ => AskFailedText
  }

  /** The second half of `handleAskQuestion`: the request for `asked`
      settles and exactly one bot entry is appended. */
  function SettleAskStep(s: State, asked: string, outcome: AskOutcome): (t: State)
    requires asked in s.asksInFlight
    ensures t.messages == s.messages + [Message(Bot, ReplyText(outcome))]
    ensures t.asksInFlight == s.asksInFlight - multiset{asked}
    ensures |t.asksInFlight| == |s.asksInFlight| - 1
    ensures t.files == s.files && t.question == s.question
    ensures t.isUploading == s.isUploading && t.uploadsInFlight == s.uploadsInFlight
  {
    s.(messages := s.messages + [Message(Bot, ReplyText(outcome))],
       asksInFlight := s.asksInFlight - multiset{asked})
  }

  /** The textarea's key handler: Enter without Shift submits (and
      suppresses the newline); every other key, Shift+Enter included, keeps
      its default effect. Holding Shift never submits. */
  function RouteKey(key: string, shiftKey: bool): (action: KeyAction)
    ensures shiftKey ==> action == DefaultAction
    ensures action == SubmitQuestion <==> key == "Enter" && !shiftKey
  {
    if key == "Enter" && !shiftKey then SubmitQuestion else DefaultAction
  }

  /** One transition of the view. The transcript and the file list only
      ever grow at the end, and each event appends at most one entry. */
  function Step(s: State, e: Event): (t: State)
    requires Enabled(s, e)
    ensures s.messages <= t.messages && |t.messages| <= |s.messages| + 1
    ensures s.files <= t.files
  {
    match e
    case SelectFiles(selection) => SelectFilesStep(s, selection)
    case UploadSettled(outcome) => SettleUploadStep(s, outcome)
    case EditQuestion(text) => EditStep(s, text)
    case SubmitClicked => AskStep(s)
    case KeyDown(key, shiftKey) =>
      if RouteKey(key, shiftKey) == SubmitQuestion then AskStep(s) else s
    case AskSettled(asked, outcome) => SettleAskStep(s, asked, outcome)
  }

  /** Every transition keeps the view invariant. */
  lemma StepKeepsInv(s: State, e: Event)
    requires Enabled(s, e) && Inv(s)
    ensures Inv(Step(s, e))
  {
    match e
    case UploadSettled(outcome) =>
      UserTextsAppend(s.messages, Message(Bot, UploadFailedText));
      assert s.messages + [] == s.messages;
    case SubmitClicked =>
      UserTextsAppend(s.messages, Message(User, s.question));
    case KeyDown(_, _) =>
      UserTextsAppend(s.messages, Message(User, s.question));
    case AskSettled(asked, outcome) =>
      UserTextsAppend(s.messages, Message(Bot, ReplyText(outcome)));
    case _ =>
  }
}
