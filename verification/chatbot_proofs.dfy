/**
 * Properties of the conversation across several presses: what a run of
 * "Next" presses shows, the invariant every state the learner can reach
 * keeps, the loading guard, the proxy-to-client image path, and whole
 * sessions of the lesson. The proofs are stated for any well-authored
 * script and then instantiated with the shipped one.
 */
module ChatbotProofs {
  import opened Options
  import opened Lesson
  import opened Chatbot
  import ImageProxy

  /** The transcript entries that showing `steps` in order appends. */
  function Shown(steps: seq<Step>): (ms: seq<Message>)
    ensures |ms| == |steps|
    ensures forall i :: 0 <= i < |steps| ==> ms[i] == BotText(steps[i].text)
  {
    seq(|steps|, i requires 0 <= i < |steps| => BotText(steps[i].text))
  }

  /** `n` presses of "Next" in a row. */
  function AdvanceRun(script: seq<Step>, s: State, n: nat): State
    decreases n
  {
    if n == 0 then s else AdvanceRun(script, AdvanceStep(script, s), n - 1)
  }

  /** Each press of a run moves the cursor by one and appends the step it
      passes, and nothing else changes. */
  lemma {:induction false} AdvanceRunShowsSteps(script: seq<Step>, s: State, n: nat)
    requires s.cursor + n <= |script|
    ensures var r := AdvanceRun(script, s, n);
      && r.cursor == s.cursor + n
      && r.history == s.history + Shown(script[s.cursor..s.cursor + n])
      && |r.history| == |s.history| + n
      && r.progress == s.progress && r.pendingRetry == s.pendingRetry
      && r.imageByQ == s.imageByQ && r.loadingImage == s.loadingImage
    decreases n
  {
    var c := s.cursor;
    if n > 0 {
      var s1 := AdvanceStep(script, s);
      AdvanceRunShowsSteps(script, s1, n - 1);
      assert Shown(script[c..c + n]) == [BotText(script[c].text)] + Shown(script[c + 1..c + n]);
    } else {
      assert Shown(script[c..c]) == [];
    }
  }

  /** The ids of the questions before position `c`. */
  function AnsweredIds(script: seq<Step>, c: nat): set<nat> {
    set j: nat | j < c && j < |script| && script[j].Question? :: script[j].questionId
  }

  /** Moving the boundary past one step adds that step's id exactly when it
      is a question. */
  lemma AnsweredIdsStep(script: seq<Step>, c: nat)
    requires c < |script|
    ensures AnsweredIds(script, c + 1) ==
      AnsweredIds(script, c) + (if script[c].Question? then {script[c].questionId} else {})
  {
  }

  /** With distinct question ids there are as many ids as questions passed. */
  lemma {:induction false} AnsweredIdsSize(script: seq<Step>, c: nat)
    requires WellAuthored(script)
    requires c <= |script|
    ensures |AnsweredIds(script, c)| == CountQuestions(script[..c])
  {
    if c == 0 {
      assert AnsweredIds(script, 0) == {};
      assert script[..0] == [];
    } else {
      AnsweredIdsSize(script, c - 1);
      AnsweredIdsStep(script, c - 1);
      CountPrefixStep(script, c - 1);
      if script[c - 1].Question? {
        assert script[c - 1].questionId !in AnsweredIds(script, c - 1);
      }
    }
  }

  /**
   * The states a learner can reach by pressing only the buttons on screen:
   * no picture is loading, the transcript is not empty, progress counts the
   * questions before the cursor, a picture is stored for exactly those
   * questions, and a pending retry belongs to the question under the cursor
   * and points at the story right before it.
   */
  ghost predicate Settled(script: seq<Step>, s: State) {
    && s.cursor <= |script|
    && |s.history| > 0
    && s.loadingImage.None?
    && s.progress == CountQuestions(script[..s.cursor])
    && s.imageByQ.Keys == AnsweredIds(script, s.cursor)
    && (s.pendingRetry.Some? ==>
          && 0 < s.cursor < |script| && script[s.cursor].Question?
          && s.pendingRetry.value == Retry(s.cursor - 1, s.cursor))
  }

  /** A fresh session shows the opening message with the cursor on step 1,
      and is settled. */
  lemma SessionStartIsSettled(script: seq<Step>)
    requires WellAuthored(script) && |script| > 0
    ensures Seed(script, Initial) == State(1, [BotText(script[0].text)], 0, None, map[], None)
    ensures Settled(script, Seed(script, Initial))
  {
    assert script[..1] == [script[0]];
    assert AnsweredIds(script, 1) == {};
  }

  /** "Next" on a story or the opening message keeps the session settled. */
  lemma AdvanceKeepsSettled(script: seq<Step>, s: State, flip: bool)
    requires Settled(script, s)
    requires ActiveInteraction(script, s, flip).ActionButton?
    ensures Settled(script, AdvanceStep(script, s))
  {
    CountPrefixStep(script, s.cursor);
    AnsweredIdsStep(script, s.cursor);
  }

  /** Moving past a question with one more question done and its picture
      stored keeps the session settled. */
  lemma PastQuestionIsSettled(script: seq<Step>, s: State, r: State)
    requires Settled(script, s) && s.cursor < |script| && script[s.cursor].Question?
    requires r.cursor == s.cursor + 1 && |r.history| > 0
    requires r.loadingImage.None? && r.pendingRetry.None?
    requires r.progress == s.progress + 1
    requires r.imageByQ.Keys == s.imageByQ.Keys + {script[s.cursor].questionId}
    ensures Settled(script, r)
  {
    CountPrefixStep(script, s.cursor);
    AnsweredIdsStep(script, s.cursor);
  }

  /** In a settled session a question under the cursor is not yet counted,
      so progress has room for it. */
  lemma ProgressHasRoom(script: seq<Step>, s: State)
    requires Settled(script, s) && s.cursor < |script| && script[s.cursor].Question?
    ensures s.progress + 1 == CountQuestions(script[..s.cursor + 1])
    ensures s.progress + 1 <= CountQuestions(script)
  {
    CountPrefixStep(script, s.cursor);
    CountPrefixMonotone(script, s.cursor + 1);
  }

  /** A correct answer, handled as intended, keeps the session settled. */
  lemma CorrectAnswerKeepsSettled(script: seq<Step>, s: State, generated: Option<string>)
    requires Settled(script, s)
    requires AnswerAccepted(script, s) && s.pendingRetry.None?
    ensures Settled(script, HandleAnswerWithFallback(script, s, true, generated))
  {
    var q := script[s.cursor];
    var r := HandleAnswerWithFallback(script, s, true, generated);
    ProgressHasRoom(script, s);
    assert r.progress == s.progress + 1;
    assert r.imageByQ.Keys == s.imageByQ.Keys + {q.questionId};
    PastQuestionIsSettled(script, s, r);
  }

  /** A wrong answer keeps the session settled: the retry it sets points at
      the story right before the question. */
  lemma WrongAnswerKeepsSettled(script: seq<Step>, s: State, generated: Option<string>)
    requires WellAuthored(script) && Settled(script, s) && AnswerAccepted(script, s)
    ensures Settled(script, HandleAnswerWithFallback(script, s, false, generated))
  {
    RetryTargetIsStoryBefore(script, s.cursor);
  }

  /** An answer to the question on screen, handled as intended, keeps the
      session settled. */
  lemma AnswerKeepsSettled(script: seq<Step>, s: State, flip: bool, isCorrect: bool, generated: Option<string>)
    requires WellAuthored(script) && Settled(script, s)
    requires ActiveInteraction(script, s, flip).AnswerChoices?
    ensures Settled(script, HandleAnswerWithFallback(script, s, isCorrect, generated))
  {
    if isCorrect {
      CorrectAnswerKeepsSettled(script, s, generated);
    } else {
      WrongAnswerKeepsSettled(script, s, generated);
    }
  }

  /** Rereading the story keeps the session settled. */
  lemma ReadStoryAgainKeepsSettled(script: seq<Step>, s: State)
    requires WellAuthored(script) && Settled(script, s) && s.pendingRetry.Some?
    ensures Settled(script, RetryReadStory(script, s))
  {
    CountPrefixStep(script, s.cursor - 1);
    AnsweredIdsStep(script, s.cursor - 1);
  }

  /** Every press the panel offers keeps the session settled, answers being
      handled as intended. */
  lemma OfferedPressKeepsSettled(script: seq<Step>, s: State, e: Event, flip: bool, generated: Option<string>)
    requires WellAuthored(script) && Settled(script, s)
    requires Offers(ActiveInteraction(script, s, flip), e)
    ensures Settled(script, Dispatch(script, s, e, generated))
  {
    match e
    case Advance => AdvanceKeepsSettled(script, s, flip);
    case Answer(isCorrect) => AnswerKeepsSettled(script, s, flip, isCorrect, generated);
    case ReadStoryAgain => ReadStoryAgainKeepsSettled(script, s);
    case RepeatQuestion =>
    case PlayAgain => SessionStartIsSettled(script);
  }

  /** In a settled session progress never exceeds the number of questions
      and equals the number of stored pictures. */
  lemma SettledProgressCountsPictures(script: seq<Step>, s: State)
    requires WellAuthored(script) && Settled(script, s)
    ensures s.progress <= CountQuestions(script)
    ensures s.progress == |s.imageByQ|
  {
    CountPrefixMonotone(script, s.cursor);
    AnsweredIdsSize(script, s.cursor);
    assert |s.imageByQ| == |s.imageByQ.Keys|;
  }

  /** While a picture is loading, the panel shows only the loader and a
      second answer is ignored; the correct answer is the begin step
      followed by the completion with the picture at hand. */
  lemma LoadingBlocksSecondAnswer(script: seq<Step>, s: State, flip: bool, isCorrect: bool, generated: Option<string>)
    requires WellAuthored(script) && AnswerAccepted(script, s)
    ensures IsLoading(BeginCorrect(script, s))
    ensures ActiveInteraction(script, BeginCorrect(script, s), flip) == ImageLoader
    ensures HandleAnswer(script, BeginCorrect(script, s), isCorrect, generated) == BeginCorrect(script, s)
    ensures HandleAnswerWithFallback(script, BeginCorrect(script, s), isCorrect, generated) == BeginCorrect(script, s)
    ensures HandleAnswerWithFallback(script, s, true, generated) ==
      CompleteCorrect(script, BeginCorrect(script, s), ImageFor(script[s.cursor].questionId, generated))
  {
    assert script[s.cursor].questionId > 0;
  }

  /** As written, a correct answer whose picture fetch yields nothing
      freezes the lesson: the state stays as the begin step left it, only
      the loader is shown, no button is offered, and further answers are
      ignored. */
  lemma FailedFetchFreezesLesson(script: seq<Step>, s: State, flip: bool)
    requires WellAuthored(script) && AnswerAccepted(script, s)
    ensures var r := HandleAnswer(script, s, true, None);
      && r == BeginCorrect(script, s)
      && ActiveInteraction(script, r, flip) == ImageLoader
      && (forall e :: !Offers(ActiveInteraction(script, r, flip), e))
      && (forall isCorrect, generated :: HandleAnswer(script, r, isCorrect, generated) == r)
  {
    LoadingBlocksSecondAnswer(script, s, flip, true, None);
  }

  /** With neither API key configured, the first correct answer of the
      shipped lesson, given right after the first "Next", freezes it: the
      proxy answers 500, the client reads no picture, and the lesson stays
      on the loader with no button. */
  lemma MissingKeysFreezeFirstAnswer(body: Option<ImageProxy.Json>, upstream: ImageProxy.UpstreamOutcome, flip: bool)
    requires ImageProxy.HasPrompt(body)
    requires ImageProxy.PromptField(body) != Some(ImageProxy.JString(ImageProxy.StatusCheckPrompt))
    ensures var reply := ImageProxy.Handle("POST", body, None, None, upstream).response;
      var s := State(2, [BotText(Steps[0].text), BotText(Steps[1].text)], 0, None, map[], None);
      var r := HandleAnswer(Steps, s, true, GenerateImage(Some(reply)));
      && s == Dispatch(Steps, Seed(Steps, Initial), Advance, None)
      && reply.status == 500
      && GenerateImage(Some(reply)).None?
      && r.cursor == 2 && r.loadingImage == Some(1)
      && (forall e :: !Offers(ActiveInteraction(Steps, r, flip), e))
  {
    ImageProxy.MissingKeyIsServerError(body, None, None, upstream);
    StepsWellAuthored();
    QuestionPositionsOfSteps(2);
    var s := State(2, [BotText(Steps[0].text), BotText(Steps[1].text)], 0, None, map[], None);
    FailedFetchFreezesLesson(Steps, s, flip);
  }

  /** When the fetch yields a picture, or the answer is wrong, the code and
      the intended handler agree, so the settled invariant holds for the
      code's own answers as well. */
  lemma AnswerAsWrittenKeepsSettledOnSuccess(script: seq<Step>, s: State, flip: bool, isCorrect: bool, b64: string)
    requires WellAuthored(script) && Settled(script, s)
    requires ActiveInteraction(script, s, flip).AnswerChoices?
    ensures HandleAnswer(script, s, isCorrect, Some(b64)) == HandleAnswerWithFallback(script, s, isCorrect, Some(b64))
    ensures Settled(script, HandleAnswer(script, s, isCorrect, Some(b64)))
  {
    FallbackAgreesWithCode(script, s, isCorrect, Some(b64));
    AnswerKeepsSettled(script, s, flip, isCorrect, Some(b64));
  }

  /** A wrong answer followed by "Repeat the question" and the correct
      answer ends where the correct answer alone would, with the wrong
      choice and its hint left in the transcript. */
  lemma WrongThenRepeatThenCorrect(script: seq<Step>, s: State, flip: bool, generated: Option<string>)
    requires WellAuthored(script) && Settled(script, s)
    requires ActiveInteraction(script, s, flip).AnswerChoices?
    ensures var s1 := Dispatch(script, s, Answer(false), generated);
      var s2 := Dispatch(script, s1, RepeatQuestion, generated);
      var s3 := Dispatch(script, s2, Answer(true), generated);
      var direct := Dispatch(script, s, Answer(true), generated);
      var q := script[s.cursor];
      && ActiveInteraction(script, s1, flip) == RetryOffer
      && ActiveInteraction(script, s2, flip) == ActiveInteraction(script, s, flip)
      && s3 == direct.(history := s.history + [UserText(q.wrong.text), BotText(q.wrong.explanation)]
                                 + [UserText(q.correct.text), BotImage(q.questionId, q.correct.response)])
  {
  }

  /** The presses of one learner, the image fetch yielding `generated` each
      time. */
  function Run(script: seq<Step>, s: State, events: seq<Event>, generated: Option<string>): State
    decreases |events|
  {
    if events == [] then s
    else Run(script, Dispatch(script, s, events[0], generated), events[1..], generated)
  }

  /** A run splits at any point. */
  lemma {:induction false} RunAppend(script: seq<Step>, s: State, a: seq<Event>, b: seq<Event>, generated: Option<string>)
    ensures Run(script, s, a + b, generated) == Run(script, Run(script, s, a, generated), b, generated)
    decreases |a|
  {
    if a == [] {
      assert a + b == b;
    } else {
      assert (a + b)[1..] == a[1..] + b;
      RunAppend(script, Dispatch(script, s, a[0], generated), a[1..], b, generated);
    }
  }

  /** "Next" past a story, then the correct answer to the question after
      it: two steps further on, with one more question done. */
  lemma StoryThenCorrectAnswer(script: seq<Step>, s: State, generated: Option<string>)
    requires WellAuthored(script) && Settled(script, s) && s.pendingRetry.None?
    requires s.cursor + 1 < |script| && script[s.cursor].Story? && script[s.cursor + 1].Question?
    requires script[s.cursor].actionText != "" && script[s.cursor].actionText != "Play Again"
    ensures var r := Run(script, s, [Advance, Answer(true)], generated);
      && Settled(script, r) && r.cursor == s.cursor + 2 && r.progress == s.progress + 1
      && r.pendingRetry.None?
  {
    var s1 := Dispatch(script, s, Advance, generated);
    AdvanceKeepsSettled(script, s, false);
    AnswerKeepsSettled(script, s1, false, true, generated);
    CountPrefixStep(script, s.cursor);
    CountPrefixStep(script, s.cursor + 1);
    assert [Advance, Answer(true)][1..] == [Answer(true)];
  }

  /** `n` rounds of "Next" then the correct answer. */
  function AllCorrect(n: nat): (es: seq<Event>)
    ensures |es| == 2 * n
  {
    if n == 0 then [] else AllCorrect(n - 1) + [Advance, Answer(true)]
  }

  /** Round `k` of a lesson laid out in pairs: a story at `2k + 1` whose
      button advances, then a question at `2k + 2`. */
  ghost predicate PairAt(script: seq<Step>, k: nat) {
    && 2 * k + 2 < |script|
    && script[2 * k + 1].Story? && script[2 * k + 2].Question?
    && script[2 * k + 1].actionText != "" && script[2 * k + 1].actionText != "Play Again"
  }

  /** In a lesson laid out in `n` story/question pairs after the opening
      message, `n` rounds of "Next" and the correct answer leave the cursor
      after the last pair with all `n` questions done. */
  lemma {:induction false} AllCorrectRun(script: seq<Step>, n: nat, generated: Option<string>)
    requires WellAuthored(script) && |script| > 0
    requires forall k :: 0 <= k < n ==> PairAt(script, k)
    ensures var r := Run(script, Seed(script, Initial), AllCorrect(n), generated);
      && Settled(script, r) && r.cursor == 2 * n + 1 && r.progress == n && r.pendingRetry.None?
    decreases n
  {
    var s0 := Seed(script, Initial);
    if n == 0 {
      SessionStartIsSettled(script);
    } else {
      AllCorrectRun(script, n - 1, generated);
      var r := Run(script, s0, AllCorrect(n - 1), generated);
      assert PairAt(script, n - 1);
      StoryThenCorrectAnswer(script, r, generated);
      RunAppend(script, s0, AllCorrect(n - 1), [Advance, Answer(true)], generated);
    }
  }

  /** Answering every question of the shipped lesson correctly at the first
      try reaches the closing step with all five questions done and five
      pictures stored. */
  lemma AllCorrectFinishes(generated: Option<string>)
    ensures var r := Run(Steps, Seed(Steps, Initial), AllCorrect(5), generated);
      && r.cursor == |Steps| - 1 && r.progress == 5 && |r.imageByQ| == 5
      && Settled(Steps, r)
  {
    StepsWellAuthored();
    forall k | 0 <= k < 5 ensures PairAt(Steps, k) {
      QuestionPositionsOfSteps(2 * k + 1);
      QuestionPositionsOfSteps(2 * k + 2);
    }
    AllCorrectRun(Steps, 5, generated);
    SettledProgressCountsPictures(Steps, Run(Steps, Seed(Steps, Initial), AllCorrect(5), generated));
  }

  /** "Play Again" from any state starts over: the same state as a fresh
      session, whatever was answered before. */
  lemma PlayAgainStartsOver(script: seq<Step>, s: State, generated: Option<string>)
    requires |script| > 0
    ensures Dispatch(script, s, PlayAgain, generated) == Seed(script, Initial)
    ensures var r := Dispatch(script, s, PlayAgain, generated);
      && r.history == [BotText(script[0].text)] && r.cursor == 1 && r.progress == 0
      && r.pendingRetry.None? && r.imageByQ == map[] && r.loadingImage.None?
  {
  }

  /** After "Read the story again" the cursor sits on the story step that
      was just shown, so the next press of "Next" shows that story a second
      time before the question comes back. */
  lemma ReadStoryAgainRepeatsStory(script: seq<Step>, s: State, flip: bool, generated: Option<string>)
    requires WellAuthored(script) && Settled(script, s) && s.pendingRetry.Some?
    requires script[s.cursor - 1].actionText != "" && script[s.cursor - 1].actionText != "Play Again"
    ensures var r := Dispatch(script, s, ReadStoryAgain, generated);
      var t := Dispatch(script, r, Advance, generated);
      && ActiveInteraction(script, r, flip) == ActionButton(script[s.cursor - 1].actionText, AdvanceAction)
      && r.history == s.history + [BotText(script[s.cursor - 1].text)]
      && t.history == r.history + [BotText(script[s.cursor - 1].text)]
      && t.cursor == s.cursor && t.pendingRetry.None?
  {
  }

  /** Once the cursor reaches the shipped lesson's closing step, the only
      button restarts the lesson, so the closing step's own text is never
      appended. */
  lemma ClosingStepOnlyRestarts(s: State, flip: bool)
    requires Settled(Steps, s) && s.cursor == |Steps| - 1
    ensures ActiveInteraction(Steps, s, flip) == ActionButton("Play Again", RestartAction)
    ensures forall e :: Offers(ActiveInteraction(Steps, s, flip), e) <==> e == PlayAgain
    ensures s.progress == 5
  {
    QuestionPositionsOfSteps(|Steps| - 1);
    TotalQuestionsIsFive();
    CountPrefixStep(Steps, |Steps| - 1);
    assert Steps[..|Steps|] == Steps;
  }

  /** The placeholder colour repeats every five ids, and the five questions
      of the shipped lesson get five different colours. */
  lemma PlaceholderColorsOfQuestions(questionId: nat, i: nat, j: nat)
    ensures PlaceholderColor(questionId + 5) == PlaceholderColor(questionId)
    ensures i < j < |Steps| && Steps[i].Question? && Steps[j].Question? ==>
      PlaceholderColor(Steps[i].questionId) != PlaceholderColor(Steps[j].questionId)
  {
    if i < j < |Steps| && Steps[i].Question? && Steps[j].Question? {
      QuestionPositionsOfSteps(i);
      QuestionPositionsOfSteps(j);
    }
  }

  /** The client gets a generated picture from the proxy exactly when the
      request was forwarded, upstream answered ok with artifacts, and the
      first artifact carries a non-empty payload, which is the picture.
      Every other reply, the diagnostic 200 included, gives no picture, so
      the correct answer freezes the lesson as written and gets the
      placeholder in the intended handler. */
  lemma ClientImageComesFromFirstArtifact(verb: string, body: Option<ImageProxy.Json>,
                                          generativeKey: Option<string>, viteKey: Option<string>,
                                          upstream: ImageProxy.UpstreamOutcome)
    ensures var x := ImageProxy.Handle(verb, body, generativeKey, viteKey, upstream);
      var b64 := GenerateImage(Some(x.response));
      && (b64.Some? <==>
            && x.upstreamRequest.Some? && upstream.Replied? && ImageProxy.IsOk(upstream.status)
            && upstream.json.Artifacts? && |upstream.json.artifacts| > 0
            && ImageProxy.Present(upstream.json.artifacts[0].base64))
      && (b64.Some? ==> Some(b64.value) == upstream.json.artifacts[0].base64)
  {
    var x := ImageProxy.Handle(verb, body, generativeKey, viteKey, upstream);
    if x.upstreamRequest.Some? {
      ImageProxy.ForwardedRequestRelaysUpstream(body, generativeKey, viteKey, upstream);
    }
  }
}
