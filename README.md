# Quiz app: exam sessions and dashboard list logic

This project models the local logic of three browser pages of a quiz
platform and proves properties of it in Dafny.

- **Play page** (`Play.TimedSession`). A participant joins a quiz with a name
  and a numeric quiz ID. The quiz is then shown one question at a time, with a
  30-second countdown per question. The session advances to the next question
  when the user presses "Next" or when the countdown reaches zero. It tallies
  the score locally. A question scores when the recorded answer equals the
  text in the option slot that `correctOpt` names (`"opt2"`). The result
  record `{quizId, participantName, score, outOf}` is posted, and the session
  becomes submitted only if the server accepts it.
- **AI generator page** (`Generator.UntimedSession`). A topic is sent to the
  generation service, and all questions are shown at once. Submission is
  refused until every question has an answer. Here `correctOpt` holds the
  correct answer's text itself. "New Exam" drops the question list.
- **Dashboard** (`Dashboard`). It covers the question editor of one quiz:
  field edits, adding a question numbered `max + 1`, deleting a question and
  remembering which server-known numbers were deleted, and building the save
  request. It also covers the quiz list (switching a quiz's status, deleting a
  quiz) and turning the results endpoint's reply into a list.

`Quiz` holds what the two exam pages share. The two readings of
`correctOpt` are kept apart by `Convention` (`SlotName` versus
`LiteralText`). Comparisons follow JavaScript's `===` on the values involved
(`JsValue`), including `undefined`. In the model, a question's property lookup `q[key]`
gives `undefined` for a key that names none of the record's modelled fields
(see `Quiz.Field` under "## Left out" for the keys where JavaScript differs).
So on the play page, an unanswered question whose `correctOpt` names no such
field compares `undefined === undefined` and scores. `Quiz.UnansweredScoresOnlyAgainstUndefined`
states exactly when an unanswered question scores. It never happens when
`correctOpt` is one of `opt1`..`opt4`, and it never happens on the generator
page.

Server replies are parameters: a fetched body is an `Option` (None for every
failed request), and the outcome of posting a result, switching a status or
deleting a quiz is a boolean. The `window.confirm` dialog before a delete is
a boolean parameter. The one-second interval timer is the discrete event
`TimedSession.Tick`. Each page's handler that may only be used in some state
(for example, the join form is shown only while no quiz is loaded) carries
that state as a precondition.

The modules `PlayScenarios` and `GeneratorScenarios` drive the classes
through three short runs. In the first, one question is answered correctly
and submitted, scoring 1/1. In the second, the countdown runs out with no
answer, scoring 0/1. In the third, two questions are refused while
incomplete, then scored 2/2, and then reset.

## Model

| member | source | states |
|---|---|---|
| `Quiz.Tally` | app/play/page.js:101-108 | the scoring loop's count after n rounds never exceeds n |
| `Quiz.TallyExtremes` | app/play/page.js:101-108 | the score equals the question count iff every answer is correct, and is 0 iff none is |
| `Quiz.TallyCountsCorrectIndices` | app/generate-ai/page.js:75-80 | the score is the number of indices whose answer equals the correct value |
| `Quiz.UnansweredScoresOnlyAgainstUndefined` | app/play/page.js:103-106 | an unanswered question scores iff its correct value is `undefined`; never under the literal convention, never when `correctOpt` is an option slot |
| `Quiz.TallyScore` | app/play/page.js:101-108 | the `forEach` counting loop (shared by both exam pages) returns the score, which is at most the question count |
| `Quiz.OptionMark` | app/generate-ai/page.js:196-202 | after submission an option is "correct" iff correct and "wrong" iff selected and not correct; before it only the selected option is marked |
| `Quiz.SlotOptionMark` | app/play/page.js:220-231 | the play page's option mark: after submission "correct" iff the option equals the value in the slot `correctOpt` names, "wrong" iff it is the chosen answer and differs from that value; before submission only "selected" (iff chosen) or plain |
| `Quiz.TextOptionMark` | app/generate-ai/page.js:192-202 | the generator's option mark: after submission "correct" iff the option text is `correctOpt`, "wrong" iff it is the chosen answer and is not `correctOpt`; before submission only "selected" (iff chosen) or plain |
| `Play.TimedSession.constructor` | app/play/page.js:10-23 | initial state: no quiz, index 0, 30 seconds, no answers, not submitted, score 0 |
| `Play.TimedSession.EditJoinForm` | app/play/page.js:162-177 | the join form's name and quiz ID are set; the session invariant is kept |
| `Play.TimedSession.Join` | app/play/page.js:54-91 | joining succeeds iff name and quiz ID are non-empty and the fetch returned at least one question; on success the questions load and `timeLeft` is 30; otherwise nothing changes |
| `Play.TimedSession.Select` | app/play/page.js:93-96 | before submission only `answers[idx]` is set to the chosen text; after submission nothing changes |
| `Play.TimedSession.SubmitExam` | app/play/page.js:98-143 | the posted record carries the quiz ID, the name, the tally and `outOf` = question count; score and flag are set only when the server accepts |
| `Play.TimedSession.Advance` | app/play/page.js:41-50 | called only before submission, as its button and the timer are; from a non-last index the index goes up by exactly one and `timeLeft` resets to 30; at the last index the exam is submitted and the index stays |
| `Play.TimedSession.Tick` | app/play/page.js:26-39 | no effect without a quiz or after submission; decrements `timeLeft` when positive; advances at 0; the index stays in range and `timeLeft` in [0, 30] |
| `Play.TimedSession.ShownQuestions` | app/play/page.js:211-213 | while the exam runs exactly the current question is shown; after submission all are |
| `Play.TimedSession.OptionStatus` | app/play/page.js:220-231 | the status class of an option on the play page against the session: after submission "correct" iff it matches the named slot's value, "wrong" iff chosen and not matching; before it "selected" iff chosen, else plain |
| `Generator.IndicesBelow` | app/generate-ai/page.js:63-64 | a set of indices below n has at most n elements, and exactly n iff it holds them all |
| `Generator.CountCheckMeansAllAnswered` | app/generate-ai/page.js:62-73 | with every answer key a question index, "answered count ≥ question count" holds iff every question is answered |
| `Generator.UntimedSession.constructor` | app/generate-ai/page.js:8-19 | initial state: empty topic, no quiz, no answers, not submitted, score 0 |
| `Generator.UntimedSession.EditTopic` | app/generate-ai/page.js:109-114 | the topic field is set |
| `Generator.UntimedSession.Generate` | app/generate-ai/page.js:21-51 | an empty topic changes nothing; otherwise the flag is cleared, the answers are emptied and the reply becomes the quiz |
| `Generator.UntimedSession.Select` | app/generate-ai/page.js:53-59 | after submission nothing changes; otherwise only `answers[idx]` is overwritten |
| `Generator.UntimedSession.Submit` | app/generate-ai/page.js:61-86 | called only before submission, as its button is; accepted iff every question is answered; a refusal changes nothing; acceptance sets the literal-text score and the submitted flag |
| `Generator.UntimedSession.NewExam` | app/generate-ai/page.js:176-179 | the quiz is dropped, returning to the topic form |
| `Generator.UntimedSession.OptionStatus` | app/generate-ai/page.js:192-202 | the status class of an option on the generator page, stated against the session |
| `Dashboard.WithField` | app/dashboard/page.js:154-158 | the chosen field takes the new value; every other field, the number, quiz ID and local flag are kept |
| `Dashboard.MaxQno` | app/dashboard/page.js:161 | `Math.max` over the question numbers is an upper bound that some question attains |
| `Dashboard.NextQno` | app/dashboard/page.js:161 | a new question's number exceeds every existing number, is 1 for an empty list and otherwise is max + 1 |
| `Dashboard.RemoveAt` | app/dashboard/page.js:173 | the index filter drops exactly that position and keeps the others in order |
| `Dashboard.ToLower` | app/dashboard/page.js:180 | `toLowerCase`: the result has the input's length and each character is the input's character lower-cased |
| `Dashboard.StatusFlagIsCaseInsensitiveTrue` | app/dashboard/page.js:180 | the saved status is true iff the status string is "true" in any letter case |
| `Dashboard.BuildPayload` | app/dashboard/page.js:176-184 | local-only questions are sent with number 0 and others keep theirs; every question gets the quiz ID; texts are unchanged; `questionNos` is the deleted list |
| `Dashboard.QuizEditor.constructor` | app/dashboard/page.js:113-119 | the editor starts with no settings, no questions and nothing deleted |
| `Dashboard.QuizEditor.Load` | app/dashboard/page.js:121-152 | a successful load sets the questions and settings, `originalQnos` to the loaded numbers and empties `deletedQnos`; a failed one changes nothing |
| `Dashboard.QuizEditor.ChangeQuestion` | app/dashboard/page.js:154-158 | only the given field of the question at the index changes; the length and other questions are kept |
| `Dashboard.QuizEditor.AddQuestion` | app/dashboard/page.js:160-166 | exactly one blank, local-only question with `correctOpt` "opt1" is appended, numbered above every existing question |
| `Dashboard.QuizEditor.DeleteQuestion` | app/dashboard/page.js:168-174 | unless cancelled, removes exactly that position; the number is recorded only for a server question whose number was loaded |
| `Dashboard.QuizEditor.SaveRequest` | app/dashboard/page.js:176-184 | no request while the settings are null; otherwise the payload, in which every question number and every deleted number is 0 or one the server sent |
| `Dashboard.ToggleQuiz` | app/dashboard/page.js:333 | the quizzes with the id flip between active and inactive ("true"/"false"); the length and the other quizzes are kept |
| `Dashboard.ToggleTwice` | app/dashboard/page.js:333 | switching twice restores a list whose statuses are "true" or "false" |
| `Dashboard.RemoveQuiz` | app/dashboard/page.js:346 | a quiz is kept iff it was in the list and has another id |
| `Dashboard.RemoveQuizConcat` | app/dashboard/page.js:346 | removal distributes over concatenation, so the kept quizzes stay in order |
| `Dashboard.RemoveQuizLength` | app/dashboard/page.js:346 | exactly as many quizzes are removed as carry the id |
| `Dashboard.QuizList.constructor` | app/dashboard/page.js:298 | the list starts empty |
| `Dashboard.QuizList.Reload` | app/dashboard/page.js:316-324 | a successful fetch replaces the list; a failed one keeps it |
| `Dashboard.QuizList.ToggleStatus` | app/dashboard/page.js:326-339 | the list is switched only when the server accepted |
| `Dashboard.QuizList.DeleteQuiz` | app/dashboard/page.js:341-347 | nothing happens when the user cancels or the server refuses; otherwise the quizzes with the id are removed |
| `Dashboard.NormalizeResults` | app/dashboard/page.js:28 | a list reply is returned unchanged and a single record becomes exactly the one-element list holding it |
| `Dashboard.NormalizeIdempotent` | app/dashboard/page.js:28 | normalizing an already normalized list changes nothing |
| `Dashboard.ResultsPanel.constructor` | app/dashboard/page.js:16 | the results start empty |
| `Dashboard.ResultsPanel.Receive` | app/dashboard/page.js:19-37 | a successful fetch sets the normalized results; a failed one keeps them |

## Left out

- All HTTP requests, request headers, and the status and content-type checks
  are not modelled. They are network I/O, so the model receives their
  outcomes as parameters.
- Wall-clock timing of `setInterval`/`clearInterval` and React's effect
  scheduling are not modelled. Time is the discrete `Tick` event. A `Tick` at
  zero seconds stands for the effect run that calls `handleNextQuestion`. When
  the server rejects the final submission, the page's effect does not run
  again, but the model lets a later `Tick` try again.
- Play.TimedSession.SubmitExam: the request is treated as atomic. In the page
  it is asynchronous, and a countdown that reaches zero while the request is
  in flight can start a second submission. Concurrency is not modelled.
- `parseInt` of the quiz ID is not modelled. The play page's quiz ID is an
  `Option<int>`, where None means the field is empty. The `toString` of
  `score` and `outOf` is also not modelled, so they are integers.
- The dashboard's quiz ID is an integer.
- Quiz.Field: a key that is not one of the seven modelled fields is looked up
  as `undefined`. In JavaScript, inherited `Object.prototype` keys
  (`constructor`, `toString`, ...) give functions, and extra fields the server
  sends (for example `quizId`) give their values. This matters only when
  `correctOpt` is outside `opt1`..`opt4`.
- Dashboard.ToLower: lower-cases the ASCII letters `A`..`Z` only, not the
  rest of Unicode.
- Dashboard.StatusFlagIsCaseInsensitiveTrue: `toLowerCase` is modelled on
  ASCII letters only. That is enough here, because no other character lower-cases to
  one of the letters of "true". A status the server sends as a boolean is
  modelled by its `String()` form.
- `window.scrollTo`, `window.location.reload` (the play page's "New Quiz"
  button is a fresh `TimedSession`), `localStorage` and toasts are left out.
  They are browser APIs.
- The saving and switching flags are left out. They only drive spinners and
  disabled buttons.
- The editor's loading flag is left out. In the page it hides the whole
  editor until the load effect settles, so no edit comes before `Load` and
  `Load` runs once. `Dashboard.QuizEditor` also allows the other orders:
  `AddQuestion`, `ChangeQuestion` and `DeleteQuestion` before `Load`, and
  `Load` after edits.
- The badge texts, the footer button label, the progress bar width and all
  styling are left out. They are presentation only.
- The quiz title and duration inputs of the editor (`setQuizInfo`) are left
  out. They spread the current settings and replace one field. When the
  settings are null, this creates a settings object holding only that field.
- Dashboard.QuizEditor.SaveRequest: sends nothing only while the settings
  are null. After a failed load the editor is still shown with null
  settings. Typing a title or duration then creates partial settings, and
  saving sends them with `status` false (`String(undefined)` is not
  "true"), no `createdBy`, and the typed field. The model has no such
  partial settings record, so it does not capture this request.
- The read-only question preview (`FullQuizPreview`) is left out. It only
  renders fetched data.
- PDF export (jsPDF, autoTable) is left out. It is a third-party library.
- The percentage column `(score / outOf) * 100` with `toFixed` is left out.
  It is floating point.
- Reading `data.quiz.quizTitle` for the join toast is left out. It only
  feeds a notification.
- A generator reply that is not a list is left out, because the reply is
  modelled as a sequence of questions.
