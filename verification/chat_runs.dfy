/**
 Sequences of events applied to the chat view, and what holds across them:
 the transcript and the file list are append-only, the file list is the
 concatenation of every selection, and every user entry is matched by an
 ask settlement or by a request still in flight.

 It also exhibits, on concrete runs, behaviour a reader of the view might
 not expect: an empty selection is not a no-op but still uploads, the upload
 flag is shared by overlapping uploads, and answers are appended in arrival
 order rather than in question order.
 */
module ChatRuns {
  import opened JsText
  import opened ChatState

  /** Applies the events in order; `None` when some settlement arrives for
      a request that is not in flight. */
  function Run(s: State, events: seq<Event>): Option<State>
    decreases |events|
  {
    if events == [] then Some(s)
    else if Enabled(s, events[0]) then Run(Step(s, events[0]), events[1..])
    else None
  }

  /** How many entries of a transcript are by `who`. */
  function CountBy(ms: seq<Message>, who: Author): nat
  {
    if ms == [] then 0
    else CountBy(ms[..|ms| - 1], who) + (if ms[|ms| - 1].author == who then 1 else 0)
  }

  /** How many ask settlements the events hold. */
  function AskSettlements(events: seq<Event>): nat
  {
    if events == [] then 0
    else (if events[0].AskSettled? then 1 else 0) + AskSettlements(events[1..])
  }

  /** How many failed upload settlements the events hold. */
  function UploadFailures(events: seq<Event>): nat
  {
    if events == [] then 0
    else
      (if events[0].UploadSettled? && events[0].upload != UploadOk then 1 else 0)
      + UploadFailures(events[1..])
  }

  /** Every file list the events select, concatenated in order. */
  function SelectedFiles(events: seq<Event>): seq<File>
  {
    if events == [] then []
    else
      (if events[0].SelectFiles? && events[0].selection.Some?
       then events[0].selection.value else [])
      + SelectedFiles(events[1..])
  }

  lemma CountByAppend(ms: seq<Message>, m: Message, who: Author)
    ensures CountBy(ms + [m], who) == CountBy(ms, who) + (if m.author == who then 1 else 0)
  {
    assert (ms + [m])[..|ms|] == ms;
  }

  /** The two ways of counting user entries agree: as many user texts as
      user-authored entries. */
  lemma {:induction false} UserTextsCount(ms: seq<Message>)
    ensures |UserTexts(ms)| == CountBy(ms, User)
    decreases |ms|
  {
    if ms != [] {
      UserTextsCount(ms[..|ms| - 1]);
    }
  }

  /** The transcript and the file list only grow at the end, however many
      events are applied: no entry is ever edited or removed. */
  lemma {:induction false} RunAppendOnly(s: State, events: seq<Event>, t: State)
    requires Run(s, events) == Some(t)
    ensures s.messages <= t.messages
    ensures s.files <= t.files
    decreases |events|
  {
    if events != [] {
      RunAppendOnly(Step(s, events[0]), events[1..], t);
    }
  }

  /** The file list after a run is the list before it followed by every
      selection, in order, with nothing dropped and no de-duplication. */
  lemma {:induction false} RunFiles(s: State, events: seq<Event>, t: State)
    requires Run(s, events) == Some(t)
    ensures t.files == s.files + SelectedFiles(events)
    decreases |events|
  {
    if events != [] {
      var s' := Step(s, events[0]);
      RunFiles(s', events[1..], t);
      assert s'.files == s.files + SelectedFiles(events[..1]);
      assert SelectedFiles(events) == SelectedFiles(events[..1]) + SelectedFiles(events[1..]);
    }
  }

  /** Every run keeps the view invariant. */
  lemma {:induction false} RunKeepsInv(s: State, events: seq<Event>, t: State)
    requires Inv(s) && Run(s, events) == Some(t)
    ensures Inv(t)
    decreases |events|
  {
    if events != [] {
      StepKeepsInv(s, events[0]);
      RunKeepsInv(Step(s, events[0]), events[1..], t);
    }
  }

  /** One step's effect on the entry counts and the asks in flight. */
  lemma StepCounts(s: State, e: Event)
    requires Enabled(s, e)
    ensures var t := Step(s, e);
      && CountBy(t.messages, User) + |s.asksInFlight|
         == CountBy(s.messages, User) + |t.asksInFlight| + (if e.AskSettled? then 1 else 0)
      && CountBy(t.messages, Bot)
         == CountBy(s.messages, Bot) + (if e.AskSettled? then 1 else 0)
            + (if e.UploadSettled? && e.upload != UploadOk then 1 else 0)
  {
    match e
    case UploadSettled(outcome) =>
      CountByAppend(s.messages, Message(Bot, UploadFailedText), User);
      CountByAppend(s.messages, Message(Bot, UploadFailedText), Bot);
      assert s.messages + [] == s.messages;
    case SubmitClicked =>
      CountByAppend(s.messages, Message(User, s.question), User);
      CountByAppend(s.messages, Message(User, s.question), Bot);
    case KeyDown(_, _) =>
      CountByAppend(s.messages, Message(User, s.question), User);
      CountByAppend(s.messages, Message(User, s.question), Bot);
    case AskSettled(asked, outcome) =>
      CountByAppend(s.messages, Message(Bot, ReplyText(outcome)), User);
      CountByAppend(s.messages, Message(Bot, ReplyText(outcome)), Bot);
    case _ =>
  }

  /** Across a run, each accepted question adds one user entry and one ask
      in flight, each ask settlement retires one ask and adds one bot entry,
      and each failed upload adds one bot entry. */
  lemma {:induction false} RunCounts(s: State, events: seq<Event>, t: State)
    requires Run(s, events) == Some(t)
    ensures CountBy(t.messages, User) + |s.asksInFlight|
      == CountBy(s.messages, User) + |t.asksInFlight| + AskSettlements(events)
    ensures CountBy(t.messages, Bot)
      == CountBy(s.messages, Bot) + AskSettlements(events) + UploadFailures(events)
    decreases |events|
  {
    if events != [] {
      StepCounts(s, events[0]);
      RunCounts(Step(s, events[0]), events[1..], t);
    }
  }

  /** From the mounted state: the user entries are exactly the answered
      asks plus the asks still in flight, and the bot entries are exactly
      the answered asks plus the failed uploads. So once nothing is in
      flight, every question has had exactly one reply. */
  lemma TranscriptBalance(events: seq<Event>, t: State)
    requires Run(Init(), events) == Some(t)
    ensures CountBy(t.messages, User) == AskSettlements(events) + |t.asksInFlight|
    ensures CountBy(t.messages, Bot) == AskSettlements(events) + UploadFailures(events)
    ensures Inv(t)
  {
    RunCounts(Init(), events, t);
    RunKeepsInv(Init(), events, t);
  }

  /** Submitting does nothing exactly when the pending question is blank. */
  lemma SubmitNoOpIffBlank(s: State)
    ensures Step(s, SubmitClicked) == s <==> IsBlank(s.question)
  {
    if !IsBlank(s.question) {
      assert |Step(s, SubmitClicked).messages| == |s.messages| + 1;
    }
  }

  /** An accepted submit sends the question as typed, untrimmed, although
      the input it was read from is already cleared. */
  lemma SubmitSendsCapturedText(s: State)
    requires !IsBlank(s.question)
    ensures var t := Step(s, SubmitClicked);
      && t.question == ""
      && t.asksInFlight[s.question] == s.asksInFlight[s.question] + 1
      && t.messages[|t.messages| - 1] == Message(User, s.question)
      && t.question != s.question
  {
    assert s.question != "";
  }

  /** Enter without Shift behaves exactly like the Ask button. */
  lemma EnterSubmits(s: State)
    ensures Step(s, KeyDown("Enter", false)) == Step(s, SubmitClicked)
  {
  }

  /** Shift+Enter, and every key other than Enter, never submits and leaves
      the state unchanged. */
  lemma OtherKeysDoNotSubmit(s: State, key: string, shiftKey: bool)
    requires key != "Enter" || shiftKey
    ensures Step(s, KeyDown(key, shiftKey)) == s
  {
  }

  /** An empty file selection is not a no-op: it raises the upload flag and
      puts a request in flight, leaving the file list as it was. */
  lemma EmptySelectionStillUploads(s: State)
    ensures var t := Step(s, SelectFiles(Some([])));
      && t.files == s.files
      && t.isUploading
      && t.uploadsInFlight == s.uploadsInFlight + 1
  {
  }

  /** Two overlapping uploads share one flag: when the first settles the
      flag is lowered although the second is still in flight. */
  lemma SharedUploadFlag()
    ensures var events := [
        SelectFiles(Some([File("a.pdf")])),
        SelectFiles(Some([File("b.pdf")])),
        UploadSettled(UploadOk)];
      && Run(Init(), events).Some?
      && !Run(Init(), events).value.isUploading
      && Run(Init(), events).value.uploadsInFlight == 1
  {
  }

  /** Running two lists of events one after the other is running their
      concatenation. */
  lemma {:induction false} RunAppend(s: State, first: seq<Event>, second: seq<Event>)
    ensures Run(s, first + second) ==
      (if Run(s, first).Some? then Run(Run(s, first).value, second) else None)
    decreases |first|
  {
    if first == [] {
      assert first + second == second;
    } else {
      assert (first + second)[0] == first[0];
      assert (first + second)[1..] == first[1..] + second;
      if Enabled(s, first[0]) {
        RunAppend(Step(s, first[0]), first[1..], second);
      }
    }
  }

  /** The state after "q1" and then "q2" are typed and submitted. */
  function TwoAsked(): State {
    State([], "", [Message(User, "q1"), Message(User, "q2")], false, 0,
      multiset{"q1", "q2"})
  }

  /** Typing a question and submitting it is one edit and one ask step. */
  lemma TypeAndSubmit(s: State, q: string)
    ensures Run(s, [EditQuestion(q), SubmitClicked]) == Some(AskStep(EditStep(s, q)))
  {
    var typed := Step(s, EditQuestion(q));
    assert typed == EditStep(s, q);
    assert [EditQuestion(q), SubmitClicked][1..] == [SubmitClicked];
    assert Run(typed, [SubmitClicked]) == Run(AskStep(typed), []);
  }

  /** Submitting "q1" and then "q2" from the mounted state shows both and
      puts both in flight. */
  lemma SubmitTwo()
    ensures Run(Init(), [EditQuestion("q1"), SubmitClicked, EditQuestion("q2"), SubmitClicked])
      == Some(TwoAsked())
  {
    var s2 := AskStep(EditStep(Init(), "q1"));
    assert s2 == State([], "", [Message(User, "q1")], false, 0, multiset{"q1"}) by {
      assert !IsBlank("q1") by { assert !IsJsWhitespace("q1"[0]); }
    }
    assert AskStep(EditStep(s2, "q2")) == TwoAsked() by {
      assert !IsBlank("q2") by { assert !IsJsWhitespace("q2"[0]); }
      assert multiset{"q1"} + multiset{"q2"} == multiset{"q1", "q2"};
    }
    TypeAndSubmit(Init(), "q1");
    TypeAndSubmit(s2, "q2");
    RunAppend(Init(), [EditQuestion("q1"), SubmitClicked], [EditQuestion("q2"), SubmitClicked]);
    assert [EditQuestion("q1"), SubmitClicked] + [EditQuestion("q2"), SubmitClicked]
      == [EditQuestion("q1"), SubmitClicked, EditQuestion("q2"), SubmitClicked];
  }

  /** With both in flight, settling "q2" before "q1" appends "a2" first. */
  lemma AnswerSecondFirst()
    ensures var t := Run(TwoAsked(), [
        AskSettled("q2", AskOk(Some("a2"))), AskSettled("q1", AskOk(Some("a1")))]);
      && t.Some?
      && t.value.messages == [
        Message(User, "q1"), Message(User, "q2"), Message(Bot, "a2"), Message(Bot, "a1")]
  {
  }

  /** Asks are not serialised: when the second question is answered first,
      its answer is appended first, right after both questions. */
  lemma AnswersInArrivalOrder()
    ensures var events := [
        EditQuestion("q1"), SubmitClicked,
        EditQuestion("q2"), SubmitClicked,
        AskSettled("q2", AskOk(Some("a2"))),
        AskSettled("q1", AskOk(Some("a1")))];
      && Run(Init(), events).Some?
      && Run(Init(), events).value.messages == [
        Message(User, "q1"), Message(User, "q2"),
        Message(Bot, "a2"), Message(Bot, "a1")]
  {
    var asks := [EditQuestion("q1"), SubmitClicked, EditQuestion("q2"), SubmitClicked];
    var answers := [AskSettled("q2", AskOk(Some("a2"))), AskSettled("q1", AskOk(Some("a1")))];
    SubmitTwo();
    AnswerSecondFirst();
    RunAppend(Init(), asks, answers);
    assert asks + answers == [
        EditQuestion("q1"), SubmitClicked,
        EditQuestion("q2"), SubmitClicked,
        AskSettled("q2", AskOk(Some("a2"))),
        AskSettled("q1", AskOk(Some("a1")))];
  }

  /** A two-file upload that succeeds keeps both files, in order, lowers the
      flag and leaves the transcript empty; one that gets a non-2xx status
      adds the single upload failure notice. */
  lemma UploadScenarios()
    ensures var ok := Run(Init(), [
        SelectFiles(Some([File("a.pdf"), File("b.pdf")])), UploadSettled(UploadOk)]);
      && ok.Some?
      && ok.value.files == [File("a.pdf"), File("b.pdf")]
      && !ok.value.isUploading && ok.value.messages == []
    ensures var failed := Run(Init(), [
        SelectFiles(Some([File("c.pdf")])), UploadSettled(UploadNotOk)]);
      && failed.Some?
      && failed.value.files == [File("c.pdf")]
      && !failed.value.isUploading
      && failed.value.messages == [Message(Bot, "Failed to upload files.")]
  {
  }

  /** A question answered without an `answer` field gets the fallback text,
      one whose request throws gets the failure notice, and a blank
      question changes nothing. */
  lemma AskScenarios()
    ensures var empty := Run(Init(), [
        EditQuestion("What is X?"), SubmitClicked, AskSettled("What is X?", AskOk(None))]);
      && empty.Some?
      && empty.value.messages == [
        Message(User, "What is X?"), Message(Bot, "No answer received.")]
    ensures var thrown := Run(Init(), [
        EditQuestion("What is X?"), SubmitClicked, AskSettled("What is X?", AskThrew)]);
      && thrown.Some?
      && thrown.value.messages == [
        Message(User, "What is X?"), Message(Bot, "Failed to get an answer.")]
    ensures var blank := Run(Init(), [EditQuestion("   "), SubmitClicked]);
      && blank.Some?
      && blank.value.messages == [] && blank.value.question == "   "
  {
    assert !IsBlank("What is X?") by { assert !IsJsWhitespace("What is X?"[0]); }
  }
}
