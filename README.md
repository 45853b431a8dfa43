# Quiz session of the multiple-choice quiz app, in Dafny

The program is one tkinter window, `QuizApp` in `quiz_app.py`. This project
models the quiz session inside that window. The program loads a bank of
questions. It selects the questions of one quiz, either all of them or a
random sample, in random order. It asks them one at a time, each with a
30-second countdown, and scores each submitted answer against the stored
answer. When the questions run out it reports the score out of the total.

The model has four modules:

- `Selection` (`selection.dfy`): what `random.sample` and `random.shuffle`
  can produce. A *draw* is a sequence of distinct bank positions, and the
  quiz asks the bank entries at those positions in draw order. The
  lemmas prove that such a selection never asks an entry more often than
  the bank holds it, and that a draw of the whole bank is a permutation of it.
- `QuizSession` (`session.dfy`): the session as a value. `State` holds the
  fields of `QuizApp` that the session reads and writes: `all_questions`,
  `questions`, `current_question`, `score`, `timer`, the answer variable `var` (the field `choice`), and
  the state of the Submit button. It also records two facts that the program
  keeps in the Tk event queue: whether an `update_timer` tick is scheduled
  (`timer_id`) and whether a `go_next` is scheduled. There is one function
  for each session method of `QuizApp`. `show_selection_screen` and
  `build_quiz_gui` have no function of their own: their effect on the
  session is folded into `New` and `StartQuizNow`. `Choose` models the
  effect of clicking an option button, which is not a Python method. The
  event functions keep the session invariant `Inv`. `NextQuestion` and
  `EndQuiz` start from a state between two questions, and they establish
  `Inv`. The invariant says:
  - the counters are never negative, and the timer stays between 0 and 30;
  - the selected questions are a sub-bag of the bank;
  - while asking, the index is in range, and the score is at most the
    number of answers handed in;
  - at the end, the index equals the number of questions and the score is
    at most that number.
- `App` (`app.dfy`): the class `QuizApp`, with mutable fields and one method
  for each session method of `QuizApp`. As in `QuizSession`,
  `show_selection_screen` and `build_quiz_gui` have no method of their own:
  their effect is folded into the constructor and `StartQuizNow`. `Choose`
  models a click on an option button, which is not a Python method. A
  scheduled `root.after` callback is not run by a clock. It is recorded in a
  flag, and the event loop fires it by calling `UpdateTimer` or `GoNext`.
  Most methods are specified by the `QuizSession` function of the same name,
  as `Model() == QuizSession.F(old(Model()))`. Two use a different form: the
  constructor ensures `Model() == QuizSession.New(read)`, and `LoadQuestions`
  ensures that its outcome and the bank equal `QuizSession.LoadQuestions` of
  the old bank. `EndQuiz` also returns `QuizSession.FinalTotals` of the new
  state. The random choice in `StartQuizNow` is nondeterministic (`:|`), and
  the method returns the positions it drew.
- `Runs` (`runs.dfy`): sequences of events, which are option clicks, ticks,
  Submit clicks and advances. The lemmas here are about whole runs. The
  score never exceeds the answers handed in. A question left alone times
  out after 30 ticks and scores nothing. An empty submit stops that
  question's countdown for good: it never runs again while the same
  question is asked. Answering every question with its stored
  answer gives a full score and 100 percent.

The model follows the code, including these behaviours that a reader might
not expect:

- The full-length quiz (length 60) copies the whole bank, whatever its size.
  Any other length samples that many questions, and `random.sample` raises
  unless the length is between 0 and the bank size. When it raises,
  nothing has changed yet, and the model keeps the state unchanged.
- Submitting with no option chosen cancels the countdown before it checks the
  choice. No tick is scheduled again while that question is asked, so it
  never times out and waits until an option is chosen and submitted
  (`Runs.CountdownStaysStopped`). Until an option is clicked, no event
  changes the session at all (`Runs.EmptySubmitStalls`).
- When time runs out, the answer is not checked. A correct option that was
  chosen but not submitted still scores nothing (`Runs.TimesOut`).
- `start_timer` sets the timer to 30 and runs `update_timer` at once. That
  call shows 30 and leaves 29 with the next tick scheduled. A shown question
  therefore times out on the 30th tick after it appeared.
- `build_quiz_gui` creates the Submit button enabled. With an empty
  selection the quiz ends at once, and the button is never disabled.

## Model

| member | source | states |
|---|---|---|
| `Selection.DrawIsSubBag` | quiz_app.py:96-97 | sampling without replacement, then shuffling, asks every bank entry at most as often as the bank holds it |
| `Selection.FullDrawIsPermutation` | quiz_app.py:93-97 | copying the whole bank and shuffling it gives a permutation of the bank |
| `QuizSession.LoadQuestions` | quiz_app.py:37-51 | loading succeeds exactly when the file parsed to a non-empty list; the bank then becomes that list, otherwise it is left unchanged |
| `QuizSession.New` | quiz_app.py:25-35 | a new session has no selected questions, index 0, score 0, timer 30 and nothing scheduled; it reaches the selection screen exactly when loading succeeded, and otherwise it halts with an empty bank |
| `QuizSession.StartQuizNow` | quiz_app.py:92-104 | a length that cannot be sampled changes nothing; otherwise the quiz asks the bank entries at the drawn positions, as many as the length asks for (the whole bank for 60), a sub-bag of the bank and a permutation of it for 60, with index and score 0 and the first question shown, or finishes at once if nothing was selected |
| `QuizSession.NextQuestion` | quiz_app.py:128-150 | at or past the last question the quiz ends; otherwise Submit is enabled, the choice is cleared and the countdown restarts; index, score and questions are unchanged |
| `QuizSession.StartTimer` | quiz_app.py:152-154 | the countdown restarts from 30 whatever was left; after its immediate first update 29 seconds remain and a tick is scheduled; nothing else changes |
| `QuizSession.UpdateTimer` | quiz_app.py:156-164 | with time left the timer drops by exactly 1 and the next tick is scheduled; at 0 Submit is disabled and an advance is scheduled; the timer never goes negative and the score is untouched |
| `QuizSession.Choose` | quiz_app.py:142-147 | an option button sets the answer variable to its option and changes nothing else |
| `QuizSession.CheckAnswer` | quiz_app.py:166-184 | the countdown is cancelled in every case; an empty choice changes nothing else and does not advance; otherwise the score rises by 1 exactly when the choice equals the stored answer, Submit is disabled and an advance is scheduled |
| `QuizSession.GoNext` | quiz_app.py:186-188 | the index rises by exactly 1 and the score is unchanged; the quiz then ends exactly when the index reaches the number of questions, otherwise the next question is shown |
| `QuizSession.EndQuiz` | quiz_app.py:190-194 | the countdown is cancelled and the session is complete, with a score at most the number of questions |
| `QuizSession.FinalTotals` | quiz_app.py:194-195 | the totals are the score out of the number of selected questions, the score is at most the total, the percentage is the score's share of the total times 100, so it lies between 0 and 100, an empty selection gives 0, and the percentage is 100 exactly for a full score |
| `App.QuizApp.constructor` | quiz_app.py:25-35 | the new object's session is `QuizSession.New` of what was read |
| `App.QuizApp.LoadQuestions` | quiz_app.py:37-51 | the outcome and the bank afterwards are those of `QuizSession.LoadQuestions`; only the bank may change |
| `App.QuizApp.StartQuizNow` | quiz_app.py:92-104 | the returned positions are a valid draw of the requested size whenever the length can be sampled, and the new session is `QuizSession.StartQuizNow` of the old one along that draw |
| `App.QuizApp.NextQuestion` | quiz_app.py:128-150 | the new session is `QuizSession.NextQuestion` of the old one |
| `App.QuizApp.StartTimer` | quiz_app.py:152-154 | the new session is `QuizSession.StartTimer` of the old one |
| `App.QuizApp.UpdateTimer` | quiz_app.py:156-164 | the new session is `QuizSession.UpdateTimer` of the old one, and the invariant still holds |
| `App.QuizApp.Choose` | quiz_app.py:144-145 | only the answer variable changes, as in `QuizSession.Choose` |
| `App.QuizApp.CheckAnswer` | quiz_app.py:166-184 | the new session is `QuizSession.CheckAnswer` of the old one |
| `App.QuizApp.GoNext` | quiz_app.py:186-188 | the new session is `QuizSession.GoNext` of the old one |
| `App.QuizApp.EndQuiz` | quiz_app.py:190-195 | the new session is `QuizSession.EndQuiz` of the old one, and the reported totals are `QuizSession.FinalTotals` of it |
| `Runs.Step` | quiz_app.py:156-188 | every event keeps the invariant and the questions, moves the index and the score up by at most 1, and raises the score by no more than it raises the answers handed in |
| `Runs.Run` | quiz_app.py:128-188 | over any sequence of events the invariant holds, the selection is unchanged, and the score gained never exceeds the answers handed in |
| `Runs.NoEventsOutsideAsking` | quiz_app.py:32-35 | after a failed load, on the selection screen and after the end, no event changes the session |
| `Runs.CountingDown` | quiz_app.py:156-160 | while time is left, k ticks take exactly k seconds off and change nothing else |
| `Runs.TimesOut` | quiz_app.py:156-164 | a question left alone times out one tick after reaching 0: Submit disabled, advance scheduled, score unchanged; the advance then moves the index on by 1 with no point scored |
| `Runs.ShownQuestionTimesOutAfter30` | quiz_app.py:150-164 | a question that was just shown times out after exactly 30 ticks if nothing is clicked, with the score unchanged |
| `Runs.EmptySubmitStalls` | quiz_app.py:166-173 | after an empty submit, no sequence of ticks, submits and advances changes the session until an option is chosen |
| `Runs.CountdownStaysStopped` | quiz_app.py:166-173 | once no tick is scheduled for the question being asked, as after an empty submit, no sequence of events schedules one again while that same question is still being asked |
| `Runs.AnswerAllScoresAll` | quiz_app.py:175-188 | choosing the stored answer, submitting and advancing for every remaining question ends the quiz with one more point per question |
| `Runs.PerfectSession` | quiz_app.py:92-97 | starting any quiz length the bank allows and answering every question correctly ends with the score equal to the total, which is the requested size, and 100 percent when that total is positive |

## Left out

- All widget creation, layout, colours, labels, radio buttons, the rebuilt
  list of option buttons and the message boxes. They hold no session state
  beyond the Submit button's state and the answer variable, which are modelled.
- Reading and JSON-parsing questions.json. Its outcome is the parameter
  `FileRead`. A file that parses to something other than a list of
  questions (a non-empty object, say) is not modelled. Neither is the shape
  of a question (four options, an answer matching one). Only
  `Runs.AnswerAllScoresAll` and `Runs.PerfectSession` assume that each
  answer is a non-empty option.
- Path resolution through `sys._MEIPASS` and `os.path`, and the radio buttons
  of the selection screen (their own variable). The quiz length arrives as
  the argument of `StartQuizNow`.
- Appending the summary line to high_scores.txt, with its timestamp, and
  silently ignoring write errors. This is file I/O with no effect on the session.
- The probability distribution of `random.sample` and `random.shuffle`. Only
  the set of possible results is modelled.
- Real time. `root.after` with 1000, 2000 and 2500 milliseconds and
  `after_cancel` become the flags `tickPending` and `advancePending`. The
  `update_timer` and `go_next` callbacks become explicit calls.
- `QuizSession.FinalTotals`: the percentage is an exact rational, not a
  Python float. Its `.1f` formatting is not modelled.
- `root.quit()` and `mainloop`. A completed session accepts no further events.
- Clicks on a disabled Submit button. tkinter never runs the command of a
  disabled button, so `CheckAnswer` requires the button to be enabled. In
  the same way, `UpdateTimer` and `GoNext` are only fired while scheduled.
