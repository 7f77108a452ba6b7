/**
 * The lesson script: the fixed, immutable table of steps the Teacher Bot
 * walks through (an opening message, five story/question pairs and a
 * closing message), and the read-only queries the conversation asks of it.
 */
module Lesson {
  import opened Options

  /** The correct option of a question: the text on its button, the
      illustration prompt sent to the image service, and the praise shown
      with the picture. */
  datatype CorrectOption = CorrectOption(text: string, prompt: string, response: string)

  /** The wrong option of a question: the text on its button and the hint
      shown when it is picked. */
  datatype WrongOption = WrongOption(text: string, explanation: string)

  /** One row of the script. `Bot` and `Story` rows carry the label of the
      button that moves past them; a `Question` is answered instead. */
  datatype Step =
    | Bot(text: string, actionText: string)
    | Story(text: string, actionText: string)
    | Question(questionId: nat, text: string, correct: CorrectOption, wrong: WrongOption)

  const Steps: seq<Step> := [
    Bot("Hi! I'm Teacher Bot. We're going to read a story about Mia and help her by choosing the best sentences for a picture. Are you ready?",
        "Start"),
    Story("Mia is in Year 1 and loves to draw. One day, she can't find her special red pencil.", "Next"),
    Question(1, "What is Mia looking for?",
      CorrectOption("A: Mia is looking for her red pencil.",
        "Full-colour, child-friendly cartoon of a Malaysian primary school girl named Mia (age 7) looking sad because she cannot find her red pencil. She is in a bright classroom. The red pencil is not in the picture.",
        "That's right! Mia is looking for her red pencil. Here is the picture you described."),
      WrongOption("B: Mia is looking for a book.",
        "Not quite! Remember, the story tells us what Mia lost. Read the story again to find the answer. You can do it!")),
    Story("First, Mia looks in her pencil case. It's not there! Then, she looks under her desk. It's not there either.", "Next"),
    Question(2, "Where did Mia look for her pencil?",
      CorrectOption("A: Mia looks in her pencil case and under her desk.",
        "Medium-shot cartoon of Mia (Malaysian girl, age 7) first looking in her pencil case, then bending down to look under her school desk. Show a curious and slightly worried expression. The red pencil is not there. Bright classroom setting.",
        "Excellent! Mia looked in her pencil case and under her desk. Here is the picture!"),
      WrongOption("B: Mia looks in her school bag.",
        "Good try! The story tells us two places Mia looked. Can you find them? Read the story again and give it another go!")),
    Story("Mia asks her friend, Ali, 'Can you help me?' Ali says, 'Yes! Let\U{2019}s go to the art corner to look.'", "Next"),
    Question(3, "Who does Mia ask for help?",
      CorrectOption("A: Mia asks her friend Ali for help.",
        "Mid-shot, child-safe cartoon of Mia (girl, age 7) asking her friend Ali (Malaysian boy, age 7) for help. Ali should have a friendly, helpful expression. They are in a classroom.",
        "Yes, Ali is a great friend! You chose the perfect sentence for this picture."),
      WrongOption("B: Mia asks her teacher.",
        "That's a good idea, but Mia asked someone else in the story. Who was it? Read the story again to find out. You're doing great!")),
    Story("They go to the art corner. And look! Mia finds her red pencil on a big table.", "Next"),
    Question(4, "Where did Mia find her red pencil?",
      CorrectOption("B: Mia finds the red pencil in the art corner.",
        "Full-colour, joyful cartoon of Mia (girl, age 7) finding her red pencil on a table in the school's art corner. Ali (boy, age 7) is smiling next to her. Show paint jars, brushes, and coloured paper on the table to make the location clear. Both children look happy.",
        "That's it! She found it in the art corner. What a happy picture!"),
      WrongOption("A: Mia finds the pencil in the library.",
        "Almost! The story tells us a special place where they found the pencil. Read the story again to see where they went. Try again!")),
    Story("Mia is very happy. She smiles and says, 'Thank you, Ali!'", "Next"),
    Question(5, "What does Mia say to Ali?",
      CorrectOption("A: Mia says 'Thank you' to Ali.",
        "Close-up shot, child-safe cartoon of Mia (girl, age 7) smiling happily and saying 'Thank you!' to Ali (boy, age 7). Ali is smiling back. They are in the art corner with colourful supplies in the background. Show warmth and friendship.",
        "Perfect! Saying thank you is very important. You finished the story!"),
      WrongOption("B: Mia says 'Let's play'.",
        "What do you say when a friend helps you? The story tells us what Mia said. Read the last part of the story again. You're almost there!")),
    Bot("Yay, you did it! You chose all the best sentences to tell Mia's story. Remember, a good sentence for a picture tells us WHO is in it, WHERE they are, and WHAT they are doing. Press 'Play Again' to start over.",
        "Play Again")
  ]

  /** `STEPS[i]`: the step at position `i`, or nothing past the end. */
  function StepAt(script: seq<Step>, i: nat): (r: Option<Step>)
    ensures r.Some? <==> i < |script|
    ensures r.Some? ==> r.value == script[i]
  {
    if i < |script| then Some(script[i]) else None
  }

  /** The number of question steps in `steps`. */
  function CountQuestions(steps: seq<Step>): (n: nat)
    ensures n <= |steps|
    ensures n == 0 <==> forall i :: 0 <= i < |steps| ==> !steps[i].Question?
  {
    if |steps| == 0 then 0
    else CountQuestions(steps[..|steps| - 1]) + (if steps[|steps| - 1].Question? then 1 else 0)
  }

  /** The positions of the question steps. */
  function QuestionPositions(steps: seq<Step>): set<nat> {
    set i: nat | i < |steps| && steps[i].Question?
  }

  /** The count agrees with the set of question positions. */
  lemma {:induction false} CountIsNumberOfQuestionPositions(steps: seq<Step>)
    ensures CountQuestions(steps) == |QuestionPositions(steps)|
  {
    if |steps| > 0 {
      var init := steps[..|steps| - 1];
      CountIsNumberOfQuestionPositions(init);
      var last := |steps| - 1;
      var extra: set<nat> := if steps[last].Question? then {last} else {};
      assert QuestionPositions(steps) == QuestionPositions(init) + extra by {
        forall i: nat | i in QuestionPositions(steps) ensures i in QuestionPositions(init) + extra {
          if i < last { assert init[i] == steps[i]; }
        }
        forall i: nat | i in QuestionPositions(init) ensures i in QuestionPositions(steps) {
          assert init[i] == steps[i];
        }
      }
      assert QuestionPositions(init) !! extra;
    }
  }

  /** Extending a prefix by one step adds one to the count exactly when that
      step is a question. */
  lemma CountPrefixStep(steps: seq<Step>, k: nat)
    requires k < |steps|
    ensures CountQuestions(steps[..k + 1]) == CountQuestions(steps[..k]) + (if steps[k].Question? then 1 else 0)
  {
    assert steps[..k + 1][..k] == steps[..k];
  }

  /** A prefix holds no more questions than the whole script. */
  lemma {:induction false} CountPrefixMonotone(steps: seq<Step>, k: nat)
    requires k <= |steps|
    ensures CountQuestions(steps[..k]) <= CountQuestions(steps)
    decreases |steps| - k
  {
    if k < |steps| {
      CountPrefixStep(steps, k);
      CountPrefixMonotone(steps, k + 1);
    } else {
      assert steps[..k] == steps;
    }
  }

  /** `totalQuestions`: the number of question steps in the script. */
  const TotalQuestions: nat := CountQuestions(Steps)

  /** The script holds five questions. */
  lemma TotalQuestionsIsFive()
    ensures TotalQuestions == 5
  {
    assert Steps[..0] == [];
    var k := 0;
    while k < |Steps|
      invariant k <= |Steps|
      invariant CountQuestions(Steps[..k]) == if k == 0 then 0 else (k - 1) / 2
      decreases |Steps| - k
    {
      CountPrefixStep(Steps, k);
      QuestionPositionsOfSteps(k);
      k := k + 1;
    }
    assert Steps[..|Steps|] == Steps;
  }

  /**
   * The backward scan of a wrong answer: starting at `j` and moving down,
   * the first story position, or -1 when the scan falls off the front.
   */
  function ScanBackForStory(steps: seq<Step>, j: int): (k: int)
    requires -1 <= j < |steps|
    ensures -1 <= k <= j
    ensures k >= 0 ==> steps[k].Story?
    ensures forall m :: k < m <= j ==> !steps[m].Story?
    decreases j + 1
  {
    if j < 0 then -1
    else if steps[j].Story? then j
    else ScanBackForStory(steps, j - 1)
  }

  /** The retry target of a wrong answer at `questionIndex`: the nearest
      earlier story step, or 0 when there is none. */
  function NearestStoryBefore(steps: seq<Step>, questionIndex: nat): (k: nat)
    requires questionIndex <= |steps|
    ensures k < questionIndex || k == 0
    ensures k < questionIndex && steps[k].Story? ==> forall m :: k < m < questionIndex ==> !steps[m].Story?
    ensures !(k < questionIndex && steps[k].Story?) ==> forall m :: 0 <= m < questionIndex ==> !steps[m].Story?
    ensures (forall m :: 0 <= m < questionIndex ==> !steps[m].Story?) ==> k == 0
  {
    var j := ScanBackForStory(steps, questionIndex - 1);
    if j < 0 then 0 else j
  }

  /** The loop of a wrong answer as written: walk back from the step before
      the question until a story step is met, then clamp at 0. */
  method FindRetryStory(steps: seq<Step>, questionIndex: nat) returns (storyIndex: nat)
    requires questionIndex <= |steps|
    ensures storyIndex == NearestStoryBefore(steps, questionIndex)
    ensures storyIndex < questionIndex || storyIndex == 0
  {
    var prev: int := questionIndex - 1;
    while prev >= 0 && !steps[prev].Story?
      invariant -1 <= prev < questionIndex
      invariant ScanBackForStory(steps, prev) == ScanBackForStory(steps, questionIndex - 1)
      decreases prev + 1
    {
      prev := prev - 1;
    }
    storyIndex := if prev < 0 then 0 else prev;
  }

  /** The authoring rules the conversation relies on: every question has a
      story step immediately before it, question ids are positive, and no
      two questions share an id. */
  ghost predicate WellAuthored(script: seq<Step>) {
    && (forall i :: 0 <= i < |script| && script[i].Question? ==> 0 < i && script[i - 1].Story?)
    && (forall i :: 0 <= i < |script| && script[i].Question? ==> script[i].questionId > 0)
    && (forall i, j :: 0 <= i < j < |script| && script[i].Question? && script[j].Question? ==>
          script[i].questionId != script[j].questionId)
  }

  /** The questions of the shipped script sit at positions 2, 4, 6, 8 and 10,
      with ids 1 to 5 in order; the last step is the closing message. */
  lemma QuestionPositionsOfSteps(i: int)
    requires 0 <= i < |Steps|
    ensures Steps[i].Question? <==> i in {2, 4, 6, 8, 10}
    ensures Steps[i].Question? ==> Steps[i].questionId == i / 2
    ensures Steps[i].Story? <==> i in {1, 3, 5, 7, 9}
    ensures Steps[i].Story? ==> Steps[i].actionText == "Next"
    ensures Steps[i].Bot? ==> (Steps[i].actionText == "Play Again" <==> i == 11)
  {
    assert i == 0 || i == 1 || i == 2 || i == 3 || i == 4 || i == 5 || i == 6
        || i == 7 || i == 8 || i == 9 || i == 10 || i == 11;
  }

  /** The shipped script follows the authoring rules. */
  lemma StepsWellAuthored()
    ensures WellAuthored(Steps)
  {
    forall i | 0 <= i < |Steps| && Steps[i].Question?
      ensures 0 < i && Steps[i - 1].Story? && Steps[i].questionId > 0
    {
      QuestionPositionsOfSteps(i);
      QuestionPositionsOfSteps(i - 1);
    }
    forall i, j | 0 <= i < j < |Steps| && Steps[i].Question? && Steps[j].Question?
      ensures Steps[i].questionId != Steps[j].questionId
    {
      QuestionPositionsOfSteps(i);
      QuestionPositionsOfSteps(j);
    }
  }

  /** In a well-authored script the retry target of every question is the
      story step right before it. */
  lemma RetryTargetIsStoryBefore(script: seq<Step>, questionIndex: nat)
    requires WellAuthored(script)
    requires questionIndex < |script| && script[questionIndex].Question?
    ensures NearestStoryBefore(script, questionIndex) == questionIndex - 1
    ensures script[NearestStoryBefore(script, questionIndex)].Story?
  {
  }
}
