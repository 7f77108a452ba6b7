# Teacher Bot lesson flow and image proxy, in Dafny

This project models two pieces of the "Mia" reading chatbot.

**The lesson flow.** `MiaKidsChatbot` walks a learner through a fixed script of twelve steps. The script has an opening bot message, five story/question pairs and a closing message. The session state has six fields:
- the step cursor;
- the append-only transcript;
- the number of questions answered;
- an optional pending retry after a wrong answer;
- the picture stored for each answered question;
- the id of the question whose picture is being fetched.

The learner's buttons drive it: "Next", the two answer choices, "Read the story again", "Repeat the question" and "Play Again". A correct answer fetches an illustration. When no picture comes back, a coloured placeholder is meant to stand in, but as written the placeholder cannot be encoded and the lesson freezes (see Findings).

**The image proxy.** `handler` is a serverless function. It:
- checks the HTTP method and the prompt;
- answers a diagnostic probe;
- picks one of two API keys;
- forwards the prompt to a text-to-image service;
- reshapes that service's reply into the format the chat client reads.

The model is functional. The script is an immutable `seq<Step>`. The session is a `State` record, and each React handler is a pure, atomic transition. The one asynchronous step, fetching the picture for a correct answer, is split in two:
- `BeginCorrect` runs before the fetch: it shows the choice and sets the loading guard;
- `CompleteCorrect` runs on the fetch's result, which is passed in as an oracle `Option<string>`.

`HandleAnswer` models the answer handler as written. `HandleAnswerWithFallback` is the evidently intended one, which stores the placeholder and moves on. The learner's presses (`Chatbot.Dispatch`) go through the intended one, and the two agree whenever the fetch yields a picture or the answer is wrong.

The 50/50 shuffle of the answer buttons is a boolean parameter. The seeding effect fills an empty transcript with the opening message. It is applied after every press (`Chatbot.Dispatch`), because "Play Again" empties the transcript and the effect then re-seeds it.

The proxy is a total function `ImageProxy.Handle` from these inputs:
- the method;
- the parsed body, as a JSON datatype;
- the two optional environment keys;
- the outcome of the upstream call.

Its result is the upstream request it issues (if any) and the response it sends: status, headers and JSON body. The upstream outcome is an oracle with three cases:
- the fetch threw;
- a reply came back with a status, its text and two headers;
- a reply whose JSON reading yields an artifact list or a thrown error.

The conversation is proved generically, for any script that is well authored: every question directly follows a story, question ids are positive, and no two questions share an id. The shipped script is then shown to be well authored, and the concrete facts are instantiated for it.

Files:
- `options.dfy`: the optional-value datatype.
- `lesson.dfy`: the step table, question counting, and the backward search for the retry story.
- `chatbot.dfy`: the session state, the handlers, the answer shuffle, the placeholder colour, the client's reading of the proxy reply, and the priority rule of the action panel.
- `chatbot_proofs.dfy`: the invariant that every offered press preserves, and whole-session scenarios.
- `image_proxy.dfy`: the proxy's decision logic.

## Model

| member | source | states |
|---|---|---|
| Lesson.StepAt | src/components/MiaKidsChatbot.jsx:316 | `STEPS[i]` yields a step exactly when `i` is in range, and then it is the step at `i` |
| Lesson.CountQuestions | src/components/MiaKidsChatbot.jsx:312-315 | the count of question steps is at most the length, and is zero exactly when there is no question step |
| Lesson.CountIsNumberOfQuestionPositions | src/components/MiaKidsChatbot.jsx:312-315 | the filtered length equals the number of positions that hold a question |
| Lesson.TotalQuestionsIsFive | src/components/MiaKidsChatbot.jsx:3-124 | the shipped script holds five questions, so `totalQuestions` is 5 |
| Lesson.QuestionPositionsOfSteps | src/components/MiaKidsChatbot.jsx:3-124 | questions sit at 2, 4, 6, 8, 10 with ids 1 to 5; stories at 1, 3, 5, 7, 9 with "Next"; only the last bot step says "Play Again" |
| Lesson.StepsWellAuthored | src/components/MiaKidsChatbot.jsx:3-124 | in the shipped script every question follows a story, and ids are positive and distinct |
| Lesson.NearestStoryBefore | src/components/MiaKidsChatbot.jsx:398-402 | the retry target is before the question (or 0); it is the nearest story before the question; if it is not a story there is none, and when there is none it is 0 |
| Lesson.FindRetryStory | src/components/MiaKidsChatbot.jsx:398-402 | the walk-back loop with its clamp at 0 computes exactly the nearest earlier story (or 0) |
| Lesson.RetryTargetIsStoryBefore | src/components/MiaKidsChatbot.jsx:396-408 | in a well-authored script a wrong answer's retry target is the story step right before the question |
| Chatbot.PlaceholderColor | src/components/MiaKidsChatbot.jsx:259-261 | the placeholder colour is one of the five palette colours |
| Chatbot.GenerateImage | src/components/MiaKidsChatbot.jsx:284-301 | a picture comes back exactly when the reply is ok and the first prediction's payload is a non-empty string, and it is that payload |
| Chatbot.PlaceholderSvg | src/components/MiaKidsChatbot.jsx:263-270 | the placeholder has four shapes; the palette emoji is drawn in the question's colour, which also fills the rectangle and the circle |
| Chatbot.GeneratePlaceholderImage | src/components/MiaKidsChatbot.jsx:259-273 | the placeholder comes back exactly when `btoa` accepts its markup, and it is the SVG in the question's colour |
| Chatbot.PlaceholderAlwaysThrows | src/components/MiaKidsChatbot.jsx:263-272 | the markup always carries the palette emoji, above U+00FF, so `btoa` throws and no placeholder is ever produced |
| Chatbot.FetchedOrPlaceholder | src/components/MiaKidsChatbot.jsx:375-381 | as written, a correct answer has a picture exactly when the fetch yielded one, and it is that PNG |
| Chatbot.ImageFor | src/components/MiaKidsChatbot.jsx:377-381 | as intended, the stored picture is the generated one when there is one, and otherwise the placeholder SVG in the question's colour; it agrees with the code whenever the code has a picture |
| Chatbot.Seed | src/components/MiaKidsChatbot.jsx:335-340 | an empty transcript becomes exactly the opening step's text with the cursor at 1, all else kept; a non-empty one is left alone |
| Chatbot.AdvanceStep | src/components/MiaKidsChatbot.jsx:342-350 | with a step under the cursor, exactly that step's text is appended and the cursor moves by one, all else kept; past the end nothing changes |
| Chatbot.Restart | src/components/MiaKidsChatbot.jsx:352-360 | every field returns to its initial value |
| Chatbot.BeginCorrect | src/components/MiaKidsChatbot.jsx:362-375 | before the fetch: the correct choice's text is appended and the loading guard holds the question id; cursor, progress, retry and pictures are unchanged |
| Chatbot.CompleteCorrect | src/components/MiaKidsChatbot.jsx:383-395 | with a picture at hand: the picture is stored under the question id and the praise is appended; progress is `min(totalQuestions, progress + 1)`; the cursor moves by one and loading clears |
| Chatbot.AnswerWrong | src/components/MiaKidsChatbot.jsx:396-408 | the wrong choice and its hint are appended; cursor, progress, pictures and loading are unchanged; the retry points at the question and at the nearest earlier story, or at 0 when there is none |
| Chatbot.HandleAnswer | src/components/MiaKidsChatbot.jsx:362-409 | as written: ignored unless the cursor is on a question and nothing is loading; a wrong answer shows the hint and sets the retry; a correct one with a picture completes, and one without stops after showing the choice, still loading; a completed correct answer sets progress to `min(totalQuestions, progress + 1)`, so it never passes the number of questions |
| Chatbot.HandleAnswerWithFallback | src/components/MiaKidsChatbot.jsx:362-409 | as intended: a correct answer always completes, with the placeholder when the fetch yields nothing, and sets progress to `min(totalQuestions, progress + 1)` |
| Chatbot.FallbackAgreesWithCode | src/components/MiaKidsChatbot.jsx:362-409 | the intended handler equals the code's whenever the fetch yields a picture or the answer is wrong, and differs exactly on an accepted correct answer whose fetch yields nothing |
| Chatbot.RetryReadStory | src/components/MiaKidsChatbot.jsx:411-422 | with a retry pending: the story's text is appended, the cursor goes to the story and the retry is dropped, all else kept; otherwise nothing changes |
| Chatbot.RetryRepeatQuestion | src/components/MiaKidsChatbot.jsx:424-427 | only the pending retry is dropped |
| Chatbot.RandomizedChoices | src/components/MiaKidsChatbot.jsx:318-328 | a question gets exactly two choices, one correct with the correct text and one wrong with the wrong text, the correct one first unless the draw reverses them; other steps get none |
| Chatbot.ActiveInteraction | src/components/MiaKidsChatbot.jsx:457-534 | the loader shows exactly while loading; otherwise the retry offer exactly while a retry is pending; otherwise the choices, exactly on a question and equal to `randomizedChoices`; otherwise the step's button, shown exactly when it has a non-empty label, restarting exactly when it reads "Play Again" |
| Chatbot.Dispatch | src/components/MiaKidsChatbot.jsx:335-360 | with answers handled as intended, after any press and the seeding effect the transcript is non-empty; every press except "Play Again" only appends to the transcript and never drops a stored picture |
| ChatbotProofs.AdvanceRunShowsSteps | src/components/MiaKidsChatbot.jsx:342-350 | `n` presses of "Next" move the cursor by `n` and append exactly the texts of the `n` steps passed, in order |
| ChatbotProofs.AnsweredIdsSize | src/components/MiaKidsChatbot.jsx:384 | with distinct ids there are as many question ids before the cursor as questions |
| ChatbotProofs.SessionStartIsSettled | src/components/MiaKidsChatbot.jsx:335-340 | a fresh session shows the opening message with the cursor on step 1, and satisfies the session invariant |
| ChatbotProofs.AdvanceKeepsSettled | src/components/MiaKidsChatbot.jsx:342-350 | "Next", when offered, preserves the session invariant |
| ChatbotProofs.ProgressHasRoom | src/components/MiaKidsChatbot.jsx:393 | in a settled session whose cursor is on a question, that question is the next one counted, so `progress + 1` never exceeds the lesson's total |
| ChatbotProofs.PastQuestionIsSettled | src/components/MiaKidsChatbot.jsx:383-395 | a state one step past a question, idle, with one more stored picture (the question's) and progress one higher, is settled again |
| ChatbotProofs.CorrectAnswerKeepsSettled | src/components/MiaKidsChatbot.jsx:373-395 | a correct answer, handled as intended, preserves the session invariant |
| ChatbotProofs.WrongAnswerKeepsSettled | src/components/MiaKidsChatbot.jsx:396-408 | a wrong answer records a retry aimed at the nearest earlier story and preserves the session invariant |
| ChatbotProofs.AnswerKeepsSettled | src/components/MiaKidsChatbot.jsx:362-409 | an offered answer, right or wrong and handled as intended, preserves the session invariant |
| ChatbotProofs.AnswerAsWrittenKeepsSettledOnSuccess | src/components/MiaKidsChatbot.jsx:362-409 | when the fetch yields a picture, the code's own answer handling equals the intended one and preserves the session invariant |
| ChatbotProofs.FailedFetchFreezesLesson | src/components/MiaKidsChatbot.jsx:373-381 | as written, a correct answer whose fetch yields nothing leaves the choice shown and the loader up, with no button offered and further answers ignored |
| ChatbotProofs.MissingKeysFreezeFirstAnswer | src/components/MiaKidsChatbot.jsx:373-381 | with neither API key set, the proxy answers 500 and the first correct answer of the lesson freezes it on the loader |
| ChatbotProofs.ReadStoryAgainKeepsSettled | src/components/MiaKidsChatbot.jsx:411-422 | rereading the story preserves the session invariant |
| ChatbotProofs.OfferedPressKeepsSettled | src/components/MiaKidsChatbot.jsx:457-534 | with answers handled as intended, every button the panel offers preserves the invariant: cursor in range, progress equals the questions passed, pictures exactly for those questions, a retry only for the question under the cursor pointing at the story before it |
| ChatbotProofs.SettledProgressCountsPictures | src/components/MiaKidsChatbot.jsx:384-394 | in a reachable state progress is at most the number of questions and equals the number of stored pictures |
| ChatbotProofs.LoadingBlocksSecondAnswer | src/components/MiaKidsChatbot.jsx:362-375 | while a picture loads only the loader is shown and another answer is ignored; a correct answer is the begin step followed by the completion |
| ChatbotProofs.WrongThenRepeatThenCorrect | src/components/MiaKidsChatbot.jsx:396-427 | wrong, then "Repeat the question", then correct ends like the correct answer alone, except that the wrong choice and its hint stay in the transcript |
| ChatbotProofs.RunAppend | src/components/MiaKidsChatbot.jsx:342-427 | a sequence of presses may be split at any point |
| ChatbotProofs.StoryThenCorrectAnswer | src/components/MiaKidsChatbot.jsx:342-395 | with answers handled as intended, "Next" past a story, then the correct answer, moves two steps on with one more question done |
| ChatbotProofs.AllCorrectRun | src/components/MiaKidsChatbot.jsx:342-395 | with answers handled as intended, in a script of `n` story/question pairs, `n` rounds of "Next" and the correct answer end after the last pair with `n` questions done |
| ChatbotProofs.AllCorrectFinishes | src/components/MiaKidsChatbot.jsx:3-124 | with answers handled as intended, answering the shipped lesson correctly reaches the closing step with five questions done and five pictures stored |
| ChatbotProofs.PlayAgainStartsOver | src/components/MiaKidsChatbot.jsx:352-360 | "Play Again" from any state gives exactly a fresh session |
| ChatbotProofs.ReadStoryAgainRepeatsStory | src/components/MiaKidsChatbot.jsx:411-422 | after "Read the story again" the cursor is on the story just shown, so the next "Next" shows it a second time |
| ChatbotProofs.ClosingStepOnlyRestarts | src/components/MiaKidsChatbot.jsx:519-531 | on the closing step the only button is "Play Again", which restarts; five questions are done by then |
| ChatbotProofs.PlaceholderColorsOfQuestions | src/components/MiaKidsChatbot.jsx:259-261 | the colour repeats every five ids, and the shipped questions get five different colours |
| ChatbotProofs.ClientImageComesFromFirstArtifact | src/components/MiaKidsChatbot.jsx:284-294 | through the proxy, the client gets a picture exactly when the request was forwarded, upstream answered ok with artifacts and the first carries a payload, which is the picture |
| ImageProxy.SelectKey | api/generate-image.js:42-43 | a key is selected exactly when one of the two is set and non-empty; the first key wins, the second is the fallback |
| ImageProxy.BuildRequest | api/generate-image.js:45-65 | the upstream request carries the prompt unchanged as its only text prompt, asks for one sample, and authorises with the bearer key |
| ImageProxy.Snippet | api/generate-image.js:73-79 | the snippet is a prefix of the body text of length `min(length, 2000)`, and empty when the body cannot be read |
| ImageProxy.Adapt | api/generate-image.js:92-96 | one prediction per artifact, in order, each carrying that artifact's payload |
| ImageProxy.Relay | api/generate-image.js:56-103 | a thrown fetch or a non-ok status gives 502 with the matching body; an ok reply gives 200 with the adapted predictions, or 500 with the thrown message |
| ImageProxy.Handle | api/generate-image.js:4-104 | 405 with `Allow: POST` and "Method Not Allowed" exactly for other methods; 400 with "Missing prompt" exactly for a POST without a truthy prompt; an upstream call exactly for a non-probe prompt with a key, built from that prompt and key |
| ImageProxy.StatusCheckAnswersWithoutUpstream | api/generate-image.js:32-38 | the probe answers 200 with the two key flags and no upstream call, whatever the keys |
| ImageProxy.MissingKeyIsServerError | api/generate-image.js:42-43 | without a usable key an ordinary prompt gets 500 before any upstream call |
| ImageProxy.ResponseIgnoresUnusedInputs | api/generate-image.js:5-8 | with no upstream call the upstream outcome does not matter; for a non-POST method nothing but the method matters |
| ImageProxy.ForwardedRequestRelaysUpstream | api/generate-image.js:88-99 | a forwarded request is answered by relaying the upstream outcome; a successful reply gives one prediction per artifact, in order |

The answer order is memoised on `currentStep` (src/components/MiaKidsChatbot.jsx:318-328), so "Repeat the question" shows the same order again. The proxy reads only the `artifacts` field of the upstream reply (api/generate-image.js:93).

Two behaviours of the code are kept as written and proved as lemmas:
- After "Read the story again", the story's text appears twice: once right away and once more on the next "Next" (`ReadStoryAgainRepeatsStory`).
- The closing step's text is never appended, because its button restarts the lesson (`ClosingStepOnlyRestarts`).

## Findings

| source | as written | input that shows it | evidently intended | confidence | as-written member | corrected member |
|---|---|---|---|---|---|---|
| src/components/MiaKidsChatbot.jsx:263-272 | the placeholder SVG contains the palette emoji U+1F3A8 and is passed to `btoa`, which throws on characters above U+00FF; `handleAnswer` then rejects after line 374 and before lines 383-395, leaving `loadingImage` set and the panel showing only the loader | both API keys unset, so the proxy answers 500, then any correct answer (`MissingKeysFreezeFirstAnswer`) | the placeholder is stored and the answer completes like a generated picture | high; not executed | Chatbot.HandleAnswer, ChatbotProofs.FailedFetchFreezesLesson | Chatbot.HandleAnswerWithFallback, ChatbotProofs.AnswerKeepsSettled |

## Left out

- Rendering is not modelled: JSX, styling, scrolling, the header's progress dots and the chat bubbles are presentation only.
- Message keys built from `Date.now()` and `Math.random()` are not modelled. They are identifiers with no effect on the flow, so transcript entries carry only their kind and content.
- The network, `console` and `process.env` are not modelled: `fetch`, `response.json()` and `response.text()` become oracle inputs, and the two environment keys are parameters.
- The proxy's fallback of reading a raw request body from the stream is not modelled (api/generate-image.js:13-25), because it is I/O. `Handle` takes the already parsed body.
- Chatbot.PlaceholderSvg: keeps the shapes' colours, opacities and texts but not their geometry or the whitespace between elements, and the data-URI text is not built. Only the texts can make `btoa` throw, because the tags and geometry are ASCII.
- Chatbot.ImageFor: does not model the encoding that would make the intended placeholder work; it stores the placeholder's shapes.
- Chatbot.ActiveInteraction: takes the draw `flip` as a fresh input on every call and does not model its memoisation on `currentStep`. Lemmas that compare two panels pass both the same `flip`.
- Chatbot.GenerateImage: takes the proxy's reply as a datatype. A client-side JSON parse failure and a thrown fetch are both folded into the absent reply, which gives the same null result.
- Chatbot.HandleAnswer: treats the correct branch as one atomic step from the state before the answer to the state after the fetch. The intermediate state is `BeginCorrect`, and React's batching and `await` interleaving are not modelled.
- ImageProxy.Snippet: counts length in Dafny characters, not JavaScript UTF-16 code units. The two agree on ASCII bodies.
- ImageProxy.Json: numbers are integers only, because no decision in the handler depends on fractional values.
- ImageProxy.Relay: the catch-all 500 message is the thrown message taken as given. How `err.message || String(err)` renders a value is not modelled.
