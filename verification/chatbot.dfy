/**
 * The Teacher Bot conversation: a session state walked through the lesson
 * script by the learner's button presses. Each handler is one atomic
 * transition over an immutable state record; the one asynchronous step,
 * fetching the illustration for a correct answer, is split into the part
 * that runs before the fetch (`BeginCorrect`) and the part that runs on its
 * result (`CompleteCorrect`), with the result passed in as an oracle.
 *
 * The placeholder drawn when the fetch yields nothing cannot be encoded by
 * `btoa`, so `HandleAnswer`, which follows the code, stops after
 * `BeginCorrect` in that case; `HandleAnswerWithFallback` is the evidently
 * intended behaviour, which stores the placeholder and moves on, and is the
 * answer handler the learner's presses go through.
 */
module Chatbot {
  import opened Options
  import opened Lesson
  import ImageProxy

  /** A transcript entry. A `BotImage` shows the praise for a question and
      the picture stored for it. */
  datatype Message =
    | BotText(content: string)
    | UserText(content: string)
    | BotImage(questionId: nat, content: string)

  /** After a wrong answer: the story step to reread and the question to
      return to. */
  datatype Retry = Retry(storyIndex: nat, questionIndex: nat)

  /** A picture stored for a question: the image service's PNG payload, or
      the shapes of the locally drawn placeholder SVG. */
  datatype Image = PngData(base64: string) | SvgData(svg: seq<Shape>)

  /** The session. `cursor` is the step presented next; `loadingImage` holds
      the id of the question whose picture is being fetched. */
  datatype State = State(
    cursor: nat,
    history: seq<Message>,
    progress: nat,
    pendingRetry: Option<Retry>,
    imageByQ: map<nat, Image>,
    loadingImage: Option<nat>)

  /** The state a session starts from, and returns to on restart. */
  const Initial: State := State(0, [], 0, None, map[], None)

  const PlaceholderColors: seq<string> := ["#FF6B9D", "#4ECDC4", "#FFE66D", "#A8DADC", "#F1A7FE"]

  /** The placeholder's colour for a question: the palette entry at the id
      modulo the palette size. */
  function PlaceholderColor(questionId: nat): (color: string)
    ensures color in PlaceholderColors
  {
    PlaceholderColors[questionId % |PlaceholderColors|]
  }

  /** The palette emoji drawn in the middle of the placeholder. */
  const ArtGlyph: char := '\U{1F3A8}'

  /** An element of the placeholder SVG, with the attribute values and the
      text it writes into the markup. */
  datatype Shape =
    | Rect(fill: string, opacity: string)
    | Circle(fill: string, opacity: string)
    | Label(fill: string, content: string)

  /** The placeholder SVG for a colour: a tinted rectangle, a circle, the
      palette emoji in that colour, and the caption "Image Preview". */
  function PlaceholderSvg(color: string): (svg: seq<Shape>)
    ensures |svg| == 4
    ensures Label(color, [ArtGlyph]) in svg
    ensures forall i :: 0 <= i < |svg| && !svg[i].Label? ==> svg[i].fill == color
  {
    [Rect(color, "0.2"), Circle(color, "0.4"), Label(color, [ArtGlyph]), Label("#333", "Image Preview")]
  }

  /** `btoa` accepts only strings whose characters are all at most U+00FF
      and throws on any other. */
  predicate Latin1(text: string) {
    forall i :: 0 <= i < |text| ==> text[i] as int <= 0xFF
  }

  /** The text a shape writes into the markup besides the fixed ASCII tags
      and attribute names. */
  function ShapeText(shape: Shape): string {
    match shape
    case Rect(fill, opacity) => fill + opacity
    case Circle(fill, opacity) => fill + opacity
    case Label(fill, content) => fill + content
  }

  /** `btoa` accepts the markup of `svg`: every text written into it is
      Latin-1, the tags being ASCII. */
  predicate SvgLatin1(svg: seq<Shape>) {
    forall i :: 0 <= i < |svg| ==> Latin1(ShapeText(svg[i]))
  }

  /** `generatePlaceholderImage` as written: the placeholder in the
      question's colour when `btoa` accepts its markup, nothing when `btoa`
      throws. */
  function GeneratePlaceholderImage(questionId: nat): (img: Option<Image>)
    ensures var svg := PlaceholderSvg(PlaceholderColor(questionId));
      && (img.Some? <==> SvgLatin1(svg))
      && (img.Some? ==> img.value == SvgData(svg))
  {
    var svg := PlaceholderSvg(PlaceholderColor(questionId));
    if SvgLatin1(svg) then Some(SvgData(svg)) else None
  }

  /** Drawing the placeholder always throws: its SVG carries the palette
      emoji, which lies above U+00FF. */
  lemma PlaceholderAlwaysThrows(questionId: nat)
    ensures !SvgLatin1(PlaceholderSvg(PlaceholderColor(questionId)))
    ensures GeneratePlaceholderImage(questionId).None?
  {
    var color := PlaceholderColor(questionId);
    var text := ShapeText(Label(color, [ArtGlyph]));
    assert text[|color|] == ArtGlyph;
    assert !Latin1(text);
    assert PlaceholderSvg(color)[2] == Label(color, [ArtGlyph]);
  }

  /** The client's reading of the proxy's reply: the base64 payload of the
      first prediction, when the fetch succeeded, the status is ok and that
      payload is a non-empty string; nothing otherwise. */
  function GenerateImage(reply: Option<ImageProxy.Response>): (b64: Option<string>)
    ensures b64.Some? <==>
      && reply.Some? && ImageProxy.IsOk(reply.value.status)
      && reply.value.body.Predictions? && |reply.value.body.predictions| > 0
      && ImageProxy.Present(reply.value.body.predictions[0].bytesBase64Encoded)
    ensures b64.Some? ==> b64.value != "" && reply.value.body.predictions[0].bytesBase64Encoded == b64
  {
    match reply
    case None => None
    case Some(response) =>
      if !ImageProxy.IsOk(response.status) then None
      else match response.body
        case Predictions(ps) =>
          if |ps| > 0 && ImageProxy.Present(ps[0].bytesBase64Encoded) then ps[0].bytesBase64Encoded else None
        case _ => None
  }

  /** The picture a correct answer ends with, as written: the generated
      PNG, or else the placeholder, which is nothing because drawing it
      throws. */
  function FetchedOrPlaceholder(questionId: nat, generated: Option<string>): (img: Option<Image>)
    ensures img.Some? <==> generated.Some?
    ensures generated.Some? ==> img.value == PngData(generated.value)
  {
    match generated
    case Some(b64) => Some(PngData(b64))
    case None => PlaceholderAlwaysThrows(questionId); GeneratePlaceholderImage(questionId)
  }

  /** The picture stored for a correct answer as intended: the generated
      one, or the placeholder SVG in the question's colour when generation
      yielded nothing. */
  function ImageFor(questionId: nat, generated: Option<string>): (img: Image)
    ensures img.PngData? <==> generated.Some?
    ensures generated.Some? ==> img.base64 == generated.value
    ensures img.SvgData? ==> img.svg == PlaceholderSvg(PlaceholderColor(questionId))
    ensures FetchedOrPlaceholder(questionId, generated).Some? ==> FetchedOrPlaceholder(questionId, generated).value == img
  {
    match generated
    case Some(b64) => PngData(b64)
    case None => SvgData(PlaceholderSvg(PlaceholderColor(questionId)))
  }

  function Min(a: int, b: int): int {
    if a <= b then a else b
  }

  /** The seeding effect: an empty transcript is replaced by the opening
      message and the cursor moves past it. */
  function Seed(script: seq<Step>, s: State): (r: State)
    ensures |script| > 0 ==> |r.history| > 0
    ensures s.history != [] || script == [] ==> r == s
    ensures s.history == [] && script != [] ==>
      && r.history == [BotText(script[0].text)] && r.cursor == 1
      && r.progress == s.progress && r.pendingRetry == s.pendingRetry
      && r.imageByQ == s.imageByQ && r.loadingImage == s.loadingImage
  {
    if |s.history| == 0 && |script| > 0 then
      s.(history := [BotText(script[0].text)], cursor := 1)
    else s
  }

  /** `advanceStep`: show the step under the cursor and move past it. */
  function AdvanceStep(script: seq<Step>, s: State): (r: State)
    ensures s.cursor >= |script| ==> r == s
    ensures s.cursor < |script| ==>
      && r.history == s.history + [BotText(script[s.cursor].text)]
      && r.cursor == s.cursor + 1
      && r.progress == s.progress && r.pendingRetry == s.pendingRetry
      && r.imageByQ == s.imageByQ && r.loadingImage == s.loadingImage
    ensures s.cursor <= |script| ==> r.cursor <= |script|
  {
    match StepAt(script, s.cursor)
    case None => s
    case Some(next) => s.(history := s.history + [BotText(next.text)], cursor := s.cursor + 1)
  }

  /** `restart`: every field back to its initial value. */
  function Restart(s: State): (r: State)
    ensures r.history == [] && r.cursor == 0 && r.progress == 0
    ensures r.pendingRetry.None? && r.imageByQ == map[] && r.loadingImage.None?
  {
    Initial
  }

  /** `loadingImage` as the answer guard reads it: JavaScript truthiness, so
      a question id of 0 would not count as loading. */
  predicate IsLoading(s: State) {
    s.loadingImage.Some? && s.loadingImage.value != 0
  }

  /** `handleAnswer` goes ahead: the cursor is on a question and no picture
      is being fetched. */
  predicate AnswerAccepted(script: seq<Step>, s: State) {
    s.cursor < |script| && script[s.cursor].Question? && !IsLoading(s)
  }

  /** A correct answer up to the fetch: the learner's choice is shown and
      the loading guard holds the question's id. */
  function BeginCorrect(script: seq<Step>, s: State): (b: State)
    requires AnswerAccepted(script, s)
    ensures b.history == s.history + [UserText(script[s.cursor].correct.text)]
    ensures b.loadingImage == Some(script[s.cursor].questionId)
    ensures b.cursor == s.cursor && b.progress == s.progress
    ensures b.pendingRetry == s.pendingRetry && b.imageByQ == s.imageByQ
  {
    var q := script[s.cursor];
    s.(history := s.history + [UserText(q.correct.text)], loadingImage := Some(q.questionId))
  }

  /** A correct answer once the fetch settled and a picture is at hand: it
      is stored under the question id, the praise is shown with it, progress
      grows by one up to the number of questions, and the cursor moves past
      the question. */
  function CompleteCorrect(script: seq<Step>, b: State, img: Image): (r: State)
    requires b.cursor < |script| && script[b.cursor].Question?
    ensures var q := script[b.cursor];
      && r.history == b.history + [BotImage(q.questionId, q.correct.response)]
      && r.imageByQ == b.imageByQ[q.questionId := img]
      && r.progress == Min(CountQuestions(script), b.progress + 1)
      && r.cursor == b.cursor + 1
      && r.loadingImage.None?
      && r.pendingRetry == b.pendingRetry
  {
    var q := script[b.cursor];
    b.(loadingImage := None,
       imageByQ := b.imageByQ[q.questionId := img],
       history := b.history + [BotImage(q.questionId, q.correct.response)],
       progress := Min(CountQuestions(script), b.progress + 1),
       cursor := b.cursor + 1)
  }

  /** A wrong answer: the choice and the hint are shown and a retry is
      offered, pointing back at the nearest earlier story step. */
  function AnswerWrong(script: seq<Step>, s: State): (r: State)
    requires s.cursor < |script| && script[s.cursor].Question?
    ensures var q := script[s.cursor];
      r.history == s.history + [UserText(q.wrong.text), BotText(q.wrong.explanation)]
    ensures r.cursor == s.cursor && r.progress == s.progress
    ensures r.imageByQ == s.imageByQ && r.loadingImage == s.loadingImage
    ensures r.pendingRetry.Some? && r.pendingRetry.value.questionIndex == s.cursor
    ensures r.pendingRetry.value.storyIndex == NearestStoryBefore(script, s.cursor)
    ensures var k := r.pendingRetry.value.storyIndex;
      && (k < s.cursor || k == 0)
      && (k < s.cursor && script[k].Story? ==> forall m :: k < m < s.cursor ==> !script[m].Story?)
      && (!(k < s.cursor && script[k].Story?) ==> forall m :: 0 <= m < s.cursor ==> !script[m].Story?)
  {
    var q := script[s.cursor];
    s.(history := s.history + [UserText(q.wrong.text), BotText(q.wrong.explanation)],
       pendingRetry := Some(Retry(NearestStoryBefore(script, s.cursor), s.cursor)))
  }

  /** `handleAnswer` as written: ignored unless the cursor is on a question
      and no picture is loading; otherwise the wrong branch, or the correct
      one run on the fetch's result `generated`. When the fetch yields
      nothing, drawing the placeholder throws, the handler stops, and the
      state stays as `BeginCorrect` left it: choice shown, still loading. */
  function HandleAnswer(script: seq<Step>, s: State, isCorrect: bool, generated: Option<string>): (r: State)
    ensures !AnswerAccepted(script, s) ==> r == s
    ensures AnswerAccepted(script, s) && isCorrect && generated.Some? ==> var q := script[s.cursor];
      && r.history == s.history + [UserText(q.correct.text), BotImage(q.questionId, q.correct.response)]
      && r.imageByQ == s.imageByQ[q.questionId := PngData(generated.value)]
      && r.cursor == s.cursor + 1
      && r.loadingImage.None? && r.pendingRetry == s.pendingRetry
    ensures AnswerAccepted(script, s) && isCorrect && generated.None? ==> var q := script[s.cursor];
      && r.history == s.history + [UserText(q.correct.text)]
      && r.loadingImage == Some(q.questionId)
      && r.cursor == s.cursor && r.progress == s.progress
      && r.imageByQ == s.imageByQ && r.pendingRetry == s.pendingRetry
    ensures AnswerAccepted(script, s) && !isCorrect ==> var q := script[s.cursor];
      && r.history == s.history + [UserText(q.wrong.text), BotText(q.wrong.explanation)]
      && r.cursor == s.cursor && r.progress == s.progress
      && r.imageByQ == s.imageByQ && r.loadingImage == s.loadingImage
      && r.pendingRetry == Some(Retry(NearestStoryBefore(script, s.cursor), s.cursor))
    ensures s.progress <= CountQuestions(script) ==> r.progress <= CountQuestions(script)
    ensures AnswerAccepted(script, s) && isCorrect && generated.Some? ==>
      r.progress == Min(CountQuestions(script), s.progress + 1)
    ensures s.cursor <= |script| ==> r.cursor <= |script|
  {
    if !AnswerAccepted(script, s) then s
    else if isCorrect then
      var b := BeginCorrect(script, s);
      match FetchedOrPlaceholder(script[s.cursor].questionId, generated)
      case None => b
      case Some(img) => CompleteCorrect(script, b, img)
    else AnswerWrong(script, s)
  }

  /** `handleAnswer` as intended: as written, except that a fetch yielding
      nothing stores the placeholder and completes the answer like a
      generated picture does. */
  function HandleAnswerWithFallback(script: seq<Step>, s: State, isCorrect: bool, generated: Option<string>): (r: State)
    ensures !AnswerAccepted(script, s) ==> r == s
    ensures AnswerAccepted(script, s) && isCorrect ==> var q := script[s.cursor];
      && r.history == s.history + [UserText(q.correct.text), BotImage(q.questionId, q.correct.response)]
      && q.questionId in r.imageByQ
      && r.imageByQ == s.imageByQ[q.questionId := ImageFor(q.questionId, generated)]
      && r.cursor == s.cursor + 1
      && r.loadingImage.None? && r.pendingRetry == s.pendingRetry
    ensures s.progress <= CountQuestions(script) ==> r.progress <= CountQuestions(script)
    ensures AnswerAccepted(script, s) && isCorrect ==> r.progress == Min(CountQuestions(script), s.progress + 1)
    ensures s.cursor <= |script| ==> r.cursor <= |script|
  {
    if !AnswerAccepted(script, s) then s
    else if isCorrect then
      CompleteCorrect(script, BeginCorrect(script, s), ImageFor(script[s.cursor].questionId, generated))
    else AnswerWrong(script, s)
  }

  /** The intended handler differs from the code only on a correct answer
      whose fetch yields nothing. */
  lemma FallbackAgreesWithCode(script: seq<Step>, s: State, isCorrect: bool, generated: Option<string>)
    ensures !isCorrect || generated.Some? ==>
      HandleAnswerWithFallback(script, s, isCorrect, generated) == HandleAnswer(script, s, isCorrect, generated)
    ensures AnswerAccepted(script, s) && isCorrect && generated.None? ==>
      HandleAnswerWithFallback(script, s, isCorrect, generated) != HandleAnswer(script, s, isCorrect, generated)
  {
  }

  /** `handleRetryReadStory`: show the retry's story step again, put the
      cursor on it and drop the retry; ignored when no retry is pending. */
  function RetryReadStory(script: seq<Step>, s: State): (r: State)
    ensures s.pendingRetry.None? ==> r == s
    ensures s.pendingRetry.Some? ==> var k := s.pendingRetry.value.storyIndex;
      && r.history == s.history + (if k < |script| then [BotText(script[k].text)] else [])
      && r.cursor == k && r.pendingRetry.None?
      && r.progress == s.progress && r.imageByQ == s.imageByQ && r.loadingImage == s.loadingImage
  {
    match s.pendingRetry
    case None => s
    case Some(retry) =>
      var shown := match StepAt(script, retry.storyIndex)
        case Some(story) => [BotText(story.text)]
        case None => [];
      s.(history := s.history + shown, cursor := retry.storyIndex, pendingRetry := None)
  }

  /** `handleRetryRepeatQuestion`: drop the retry and nothing else; ignored
      when no retry is pending. */
  function RetryRepeatQuestion(s: State): (r: State)
    ensures r.pendingRetry.None?
    ensures r.(pendingRetry := s.pendingRetry) == s
  {
    if s.pendingRetry.None? then s else s.(pendingRetry := None)
  }

  /** One answer button. */
  datatype Choice = Choice(text: string, isCorrect: bool)

  /** `randomizedChoices`: a question's two options, the correct one first
      unless the random draw `flip` (`Math.random() > 0.5`) reverses them;
      no options for any other step. */
  function RandomizedChoices(current: Option<Step>, flip: bool): (cs: seq<Choice>)
    ensures !(current.Some? && current.value.Question?) ==> cs == []
    ensures current.Some? && current.value.Question? ==>
      && |cs| == 2
      && cs[0].isCorrect == !flip && cs[1].isCorrect == flip
      && (forall c :: c in cs && c.isCorrect ==> c.text == current.value.correct.text)
      && (forall c :: c in cs && !c.isCorrect ==> c.text == current.value.wrong.text)
  {
    match current
    case Some(Question(_, _, correct, wrong)) =>
      var choices := [Choice(correct.text, true), Choice(wrong.text, false)];
      if flip then [choices[1], choices[0]] else choices
    case _ => []
  }

  /** What a button of the action panel does. */
  datatype ButtonAction = AdvanceAction | RestartAction

  /** The panel below the transcript. */
  datatype Interaction =
    | ImageLoader
    | RetryOffer
    | AnswerChoices(question: string, choices: seq<Choice>)
    | ActionButton(caption: string, action: ButtonAction)
    | NoInteraction

  /** `ActiveInteraction`: a loading picture first, then a pending retry,
      then the current question, then the current step's button, which
      restarts on the final "Play Again" label and advances otherwise. */
  function ActiveInteraction(script: seq<Step>, s: State, flip: bool): (i: Interaction)
    ensures i.ImageLoader? <==> s.loadingImage.Some?
    ensures i.RetryOffer? <==> s.loadingImage.None? && s.pendingRetry.Some?
    ensures i.AnswerChoices? <==>
      && s.loadingImage.None? && s.pendingRetry.None?
      && s.cursor < |script| && script[s.cursor].Question?
    ensures i.AnswerChoices? ==> i.question == script[s.cursor].text && |i.choices| == 2
    ensures i.AnswerChoices? ==> i.choices == RandomizedChoices(StepAt(script, s.cursor), flip)
    ensures (&& s.loadingImage.None? && s.pendingRetry.None? && s.cursor < |script|
             && !script[s.cursor].Question? && script[s.cursor].actionText != "") ==> i.ActionButton?
    ensures i.ActionButton? ==>
      && i.caption != ""
      && s.cursor < |script| && !script[s.cursor].Question?
      && i.caption == script[s.cursor].actionText
      && (i.action == RestartAction <==> i.caption == "Play Again")
  {
    if s.loadingImage.Some? then ImageLoader
    else if s.pendingRetry.Some? then RetryOffer
    else match StepAt(script, s.cursor)
      case Some(step) =>
        if step.Question? then AnswerChoices(step.text, RandomizedChoices(Some(step), flip))
        else if step.actionText != "" then
          ActionButton(step.actionText, if step.actionText == "Play Again" then RestartAction else AdvanceAction)
        else NoInteraction
      case None => NoInteraction
  }

  /** The learner's button presses. */
  datatype Event = Advance | Answer(isCorrect: bool) | ReadStoryAgain | RepeatQuestion | PlayAgain

  /** The panel shows a button that fires `e`. */
  predicate Offers(i: Interaction, e: Event) {
    match i
    case ImageLoader => false
    case RetryOffer => e == ReadStoryAgain || e == RepeatQuestion
    case AnswerChoices(_, choices) => e.Answer? && exists c :: c in choices && c.isCorrect == e.isCorrect
    case ActionButton(_, action) => if action == RestartAction then e == PlayAgain else e == Advance
    case NoInteraction => false
  }

  /** The handler bound to each button, with the answer handled as intended;
      `generated` is the fetch's result for a correct answer. */
  function Apply(script: seq<Step>, s: State, e: Event, generated: Option<string>): State {
    match e
    case Advance => AdvanceStep(script, s)
    case Answer(isCorrect) => HandleAnswerWithFallback(script, s, isCorrect, generated)
    case ReadStoryAgain => RetryReadStory(script, s)
    case RepeatQuestion => RetryRepeatQuestion(s)
    case PlayAgain => Restart(s)
  }

  /** One press as the learner sees it: the handler, then the seeding
      effect, which fires whenever the transcript has become empty. */
  function Dispatch(script: seq<Step>, s: State, e: Event, generated: Option<string>): (r: State)
    ensures |script| > 0 ==> |r.history| > 0
    ensures e != PlayAgain && s.history != [] ==> s.history <= r.history
    ensures e != PlayAgain ==> s.imageByQ.Keys <= r.imageByQ.Keys
  {
    Seed(script, Apply(script, s, e, generated))
  }
}
