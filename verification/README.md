# PDF chat bot view state, modelled in Dafny

The PDF chat bot front end is one React component, `PDFChatBotUI`. It lets a
user pick PDF files to upload to a remote service and then ask questions
about them in a chat transcript. Almost all of it is rendering and `fetch`
plumbing. The logic behind it is a small event-driven state machine over four
state cells: the selected files, the question being typed, the message
transcript and an `isUploading` flag.

This project models that state machine:

- `js_text.dfy` (module `JsText`): JavaScript's `String.prototype.trim`, used
  to reject blank questions. It covers the full ECMAScript whitespace and
  line-terminator set.
- `class_names.dfy` (module `ClassNames`): the `cn` helper,
  `classes.filter(Boolean).join(" ")`. Two lemmas fix the order of the
  kept names and their single-space separation for every input. When no
  argument contains a space, `split(" ")` also recovers the kept names.
- `chat_state.dfy` (module `ChatState`): the state record, the events, one
  pure transition function per handler step, and `Step`, which dispatches an
  event to its handler step.
- `chat_runs.dfy` (module `ChatRuns`): sequences of events (`Run`), the
  append-only and counting properties across them, and concrete runs that
  show behaviour a reader of the component might not expect.

Requests are not executed. Issuing an upload or an ask records it as in
flight: uploads as a counter, asks as a multiset of the question texts that
were sent. Its settlement arrives later as its own event carrying the
outcome: ok, non-ok status, or exception; for an ask, "ok" carries an
optional answer string. A settlement is only enabled while a matching
request is in flight. Settlements of different requests may arrive in any
order. Each React state setter is applied at once, as a functional update of
the state record.

## Behaviour worth knowing

In each of these cases the model follows the code, not the behaviour one might expect:

- An empty file selection is not a no-op. An empty `FileList` is truthy, so
  the handler still raises `isUploading` and sends a request. Only a null
  `files` value does nothing (`ChatRuns.EmptySelectionStillUploads`).
- `isUploading` is not "true exactly while an upload is in flight". All
  uploads share one boolean, so the first settlement lowers it while another
  upload is still pending (`ChatRuns.SharedUploadFlag`). What does hold is
  the weaker `ChatState.Inv`: the flag is never set when nothing is in flight.
- Asks are not serialised, so answers are appended in the order they arrive
  (`ChatRuns.AnswersInArrivalOrder`).

## Model

| member | source | states |
|---|---|---|
| ChatState.Init | src/PDFChatBotUI.tsx:10-13 | The component mounts with no files, an empty question, an empty transcript, the upload flag down and nothing in flight |
| ChatState.SelectFilesStep | src/PDFChatBotUI.tsx:15-21 | A null file list changes nothing. Any other list, even an empty one, is appended after the files already held, in selection order. It also raises the upload flag and puts one upload in flight; the transcript, the question and the asks are untouched |
| ChatState.UploadReply | src/PDFChatBotUI.tsx:29-38 | A successful upload adds no transcript entry. A non-ok status is treated like an exception: exactly one bot entry "Failed to upload files." |
| ChatState.SettleUploadStep | src/PDFChatBotUI.tsx:23-41 | Every upload settlement, whatever its outcome, lowers the upload flag and retires one upload. It appends the upload reply and changes nothing else |
| ChatState.EditStep | src/PDFChatBotUI.tsx:134 | Typing replaces the pending question and changes nothing else |
| ChatState.AskStep | src/PDFChatBotUI.tsx:45-49 | A question that is blank after trimming changes nothing. Any other question is appended untrimmed as exactly one user entry, the input is cleared to "", and one ask carrying that captured text is put in flight |
| ChatState.ReplyText | src/PDFChatBotUI.tsx:60-74 | The bot reply is never empty. A non-empty answer is shown as is; a missing or empty answer on an ok response gives "No answer received."; a non-ok status or exception gives "Failed to get an answer." |
| ChatState.SettleAskStep | src/PDFChatBotUI.tsx:64-74 | An ask settlement appends exactly one bot entry, the reply for its outcome, and retires that one ask from the in-flight multiset |
| ChatState.UserTextsAppend | src/PDFChatBotUI.tsx:48 | Appending a user entry extends the list of user question texts by that text; appending a bot entry leaves it unchanged |
| ChatState.RouteKey | src/PDFChatBotUI.tsx:135-140 | A key submits exactly when it is Enter without Shift, and holding Shift never submits. Its partners are `ChatRuns.EnterSubmits` and `ChatRuns.OtherKeysDoNotSubmit` |
| ChatState.Step | src/PDFChatBotUI.tsx:15-76 | Every transition keeps the old transcript and the old file list as prefixes of the new ones, and appends at most one transcript entry |
| ChatState.StepKeepsInv | src/PDFChatBotUI.tsx:19-48 | Every transition keeps the invariant: the upload flag is set only while some upload is in flight, and every ask in flight already appears as a user entry, as many times as it is in flight |
| ChatRuns.RunAppendOnly | src/PDFChatBotUI.tsx:18-74 | Over any run of events, entries and files are never edited or removed: the earlier transcript and file list are prefixes of the later ones |
| ChatRuns.RunFiles | src/PDFChatBotUI.tsx:17-18 | After any run, the file list is the old list followed by every selected list, concatenated in order, with no de-duplication |
| ChatRuns.RunKeepsInv | src/PDFChatBotUI.tsx:19-48 | The view invariant holds after any run that starts from a state satisfying it |
| ChatRuns.StepCounts | src/PDFChatBotUI.tsx:35-74 | One transition adds a user entry exactly when it adds an ask in flight. An ask settlement retires one ask and adds one bot entry; a failed upload adds one bot entry |
| ChatRuns.UserTextsCount | src/PDFChatBotUI.tsx:48 | The user question texts number exactly the user entries of the transcript |
| ChatRuns.RunCounts | src/PDFChatBotUI.tsx:35-74 | Across any run, user entries grow by the asks added to the in-flight multiset plus those settled. Bot entries grow by the ask settlements plus the failed uploads |
| ChatRuns.TranscriptBalance | src/PDFChatBotUI.tsx:45-76 | From the mounted state, user entries equal answered asks plus asks in flight. Bot entries equal answered asks plus failed uploads. The view invariant holds |
| ChatRuns.SubmitNoOpIffBlank | src/PDFChatBotUI.tsx:46 | Submitting leaves the whole state unchanged exactly when the pending question is whitespace only |
| ChatRuns.SubmitSendsCapturedText | src/PDFChatBotUI.tsx:47-57 | An accepted submit clears the input. The request carries the captured, untrimmed question, not the cleared input, and the last transcript entry is that question |
| ChatRuns.EnterSubmits | src/PDFChatBotUI.tsx:135-139 | Enter without Shift has exactly the effect of the Ask button |
| ChatRuns.OtherKeysDoNotSubmit | src/PDFChatBotUI.tsx:135-140 | Shift+Enter and every other key never submit; they leave the state unchanged |
| ChatRuns.EmptySelectionStillUploads | src/PDFChatBotUI.tsx:16-19 | An empty selection leaves the file list unchanged, yet raises the upload flag and puts a request in flight |
| ChatRuns.SharedUploadFlag | src/PDFChatBotUI.tsx:19-41 | With two uploads in flight, the first settlement lowers the flag while one upload is still pending |
| ChatRuns.AnswersInArrivalOrder | src/PDFChatBotUI.tsx:45-75 | When the second question is answered first, its answer is appended first, after both questions |
| ChatRuns.UploadScenarios | src/PDFChatBotUI.tsx:15-41 | Selecting a.pdf and b.pdf with a successful upload keeps both files in order, lowers the flag and adds no entry. Selecting c.pdf with a non-ok status adds exactly the bot entry "Failed to upload files." |
| ChatRuns.AskScenarios | src/PDFChatBotUI.tsx:45-75 | "What is X?" answered with no `answer` field gives the user entry then "No answer received."; an exception gives "Failed to get an answer."; submitting "   " leaves the transcript and the question unchanged |
| JsText.Trim | src/PDFChatBotUI.tsx:46 | `trim` keeps a slice of the input and removes only whitespace. The result is empty exactly when the input is blank; otherwise it neither starts nor ends with whitespace |
| JsText.TrimIdempotent | src/PDFChatBotUI.tsx:46 | Trimming twice gives the same as trimming once |
| ClassNames.NonEmpty | src/PDFChatBotUI.tsx:79 | `filter(Boolean)` keeps every non-empty name, keeps nothing else, and never makes the list longer |
| ClassNames.NonEmptyAppend | src/PDFChatBotUI.tsx:79 | Filtering a concatenation is the concatenation of the filtered parts, so the kept names keep their order and multiplicity |
| ClassNames.JoinWithSpace | src/PDFChatBotUI.tsx:79 | `join(" ")` of no names is "". Otherwise the join starts with the first name and is as long as all names plus one separator between neighbours. Its partners are `ClassNames.JoinSnoc` and `ClassNames.SplitJoin` |
| ClassNames.JoinSnoc | src/PDFChatBotUI.tsx:79 | Joining one more name adds a single space and the name, or just the name when the list was empty |
| ClassNames.SplitJoin | src/PDFChatBotUI.tsx:79 | Splitting the join of a non-empty list of space-free names on " " gives back the names |
| ClassNames.Cn | src/PDFChatBotUI.tsx:78-80 | `cn` yields "" exactly when every argument is empty. Every character it yields comes from an argument or is a separating space |
| ClassNames.CnAppend | src/PDFChatBotUI.tsx:78-80 | For arguments of any content, one more argument leaves `cn` unchanged when it is empty. Otherwise it is appended after a single space, or stands alone when the result so far is "" |
| ClassNames.CnSplitRoundTrip | src/PDFChatBotUI.tsx:78-80 | When no argument contains a space and some argument is non-empty, splitting `cn`'s result on " " gives back exactly the non-empty arguments, in order. So they are separated by single spaces |

## Left out

- Rendering (the JSX, Tailwind classes, the `Send` icon, the file and message lists, the "Uploading..." indicator). It only maps over the state.
- `fetch`, `FormData`, request headers, the hard-coded service origin and `response.json()` parsing. These are network I/O. They become settlement events carrying an outcome. A response body that is not JSON, or is JSON `null` (so reading `data.answer` throws), is the exception outcome `AskThrew`.
- ChatState.ReplyText: a truthy non-string `answer` (a number, an object) is not modelled. The answer is an optional string, and only the empty string is falsy among strings.
- `console.log` and `console.error`: logging only.
- React scheduling and closure capture. Each setter is an immediate functional update. `handleAskQuestion` reads the question of the current state, not of the render it was created in.
- The key event beyond `(key, shiftKey)`, and the DOM effect of `preventDefault`. A key that does not submit leaves the state unchanged, and the text it types arrives as an `EditQuestion` event.
- File contents. A file is modelled by its display name only, so two files are equal exactly when their names are.
- JsText.Trim: strings are sequences of code points rather than UTF-16 code units. Every character `trim` removes lies in the Basic Multilingual Plane, so this changes nothing about what is removed.
