/**
 `QuizApp` as an object: the session fields are mutable fields, and each method
 models the `QuizApp` method of the same name, without its widget calls. The
 `root.after` callbacks are not run by a clock: a scheduled `update_timer` or
 `go_next` is recorded in `tickPending` or `advancePending`, and the event loop
 fires it by calling `UpdateTimer` or `GoNext`. `Choose` is a click on an
 option button. The constructor is specified by `QuizSession.New`,
 `LoadQuestions` by the outcome and bank of `QuizSession.LoadQuestions`, and
 every other method by the step of the same name in module QuizSession.
 */
module App {
  import opened Selection
  import S = QuizSession

  class QuizApp {
    var allQuestions: seq<S.Question>
    var questions: seq<S.Question>
    var currentQuestion: int
    var score: int
    var timer: int
    var choice: string          // self.var, the answer variable the option buttons write
    var tickPending: bool       // timer_id names a scheduled update_timer
    var advancePending: bool    // a go_next is scheduled
    var submitEnabled: bool     // state of the Submit button
    var phase: S.Phase

    /** The session as a value. */
    function Model(): S.State
      reads this
    {
      S.State(allQuestions, questions, currentQuestion, score, timer, choice,
              tickPending, advancePending, submitEnabled, phase)
    }

    ghost predicate Valid()
      reads this
    {
      S.Inv(Model())
    }

    /** `__init__`: an empty session, then the load; a failed load halts before the selection screen. */
    constructor (read: S.FileRead)
      ensures Valid() && Model() == S.New(read)
    {
      allQuestions := [];
      questions := [];
      currentQuestion := 0;
      score := 0;
      timer := S.CountdownStart;
      choice := "";
      tickPending := false;
      advancePending := false;
      submitEnabled := false;
      phase := S.Halted;
      new;
      var ok := LoadQuestions(read);
      if ok {
        phase := S.Selecting;
      }
    }

    /** `load_questions`: keep a non-empty parsed list; report any other outcome as a failure. */
    method LoadQuestions(read: S.FileRead) returns (ok: bool)
      modifies this`allQuestions
      ensures (ok, allQuestions) == S.LoadQuestions(old(allQuestions), read)
    {
      if !read.Parsed? {
        return false;
      }
      if read.data == [] {
        return false;
      }
      allQuestions := read.data;
      return true;
    }

    /**
     `start_quiz_now`: take the whole bank for the full-length quiz, otherwise a
     sample of `n`, in a random order; `draw` tells which bank positions were
     taken. A length that cannot be sampled raises before anything changes.
     */
    method StartQuizNow(n: int) returns (draw: seq<nat>)
      requires Valid() && phase == S.Selecting
      modifies this
      ensures Valid() && allQuestions == old(allQuestions)
      ensures S.CanSample(|allQuestions|, n) ==> IsDraw(draw, |allQuestions|, S.SampleSize(|allQuestions|, n))
      ensures Model() == S.StartQuizNow(old(Model()), n, draw)
    {
      var size := |allQuestions|;
      if !S.CanSample(size, n) {
        return [];
      }
      // a copy of the whole bank for the full-length quiz, otherwise random.sample;
      // then random.shuffle: together, any order of any k distinct positions
      var k := if n == S.FullQuizLength then size else n;
      assert IsDraw(Positions(k), size, k);
      draw :| IsDraw(draw, size, k);
      // the choice's own condition, restated so that Pick and DrawIsSubBag can use it
      assert IsDraw(draw, size, k);
      questions := Pick(allQuestions, draw);
      DrawIsSubBag(allQuestions, draw);
      // build_quiz_gui
      choice := "";
      submitEnabled := true;
      phase := S.Asking;
      NextQuestion();
    }

    /** `next_question`: finish past the last question, otherwise open the current one. */
    method NextQuestion()
      requires S.BetweenQuestions(Model())
      modifies this
      ensures Valid()
      ensures Model() == S.NextQuestion(old(Model()))
    {
      if currentQuestion >= |questions| {
        var totals := EndQuiz();
        return;
      }
      submitEnabled := true;
      choice := "";
      StartTimer();
    }

    /** `start_timer`: restart the countdown at 30 and run its first update at once. */
    method StartTimer()
      requires Valid() && phase == S.Asking && submitEnabled
      modifies this
      ensures Valid()
      ensures Model() == S.StartTimer(old(Model()))
    {
      timer := S.CountdownStart;
      UpdateTimer();
    }

    /** `update_timer`: one second off and the next tick, or time up and the advance scheduled. */
    method UpdateTimer()
      requires Valid() && phase == S.Asking && submitEnabled
      modifies this
      ensures Valid()
      ensures Model() == S.UpdateTimer(old(Model()))
    {
      if timer > 0 {
        timer := timer - 1;
        tickPending := true;
      } else {
        tickPending := false;
        submitEnabled := false;
        advancePending := true;
      }
    }

    /** An option button of the current question sets the answer variable. */
    method Choose(option: string)
      requires Valid() && phase == S.Asking && option in questions[currentQuestion].options
      modifies this`choice
      ensures Valid()
      ensures Model() == S.Choose(old(Model()), option)
    {
      choice := option;
    }

    /** `check_answer`: cancel the countdown, then score a non-empty choice and schedule the advance. */
    method CheckAnswer()
      requires Valid() && phase == S.Asking && submitEnabled
      modifies this
      ensures Valid()
      ensures Model() == S.CheckAnswer(old(Model()))
    {
      tickPending := false;
      if choice == "" {
        return;
      }
      var correct := questions[currentQuestion].answer;
      if choice == correct {
        score := score + 1;
      }
      submitEnabled := false;
      advancePending := true;
    }

    /** `go_next`: move on by one question and show it, or finish. */
    method GoNext()
      requires Valid() && phase == S.Asking && advancePending
      modifies this
      ensures Valid()
      ensures Model() == S.GoNext(old(Model()))
    {
      advancePending := false;
      currentQuestion := currentQuestion + 1;
      NextQuestion();
    }

    /** `end_quiz`: cancel the countdown, finish, and report the score out of the total. */
    method EndQuiz() returns (totals: S.Totals)
      requires S.BetweenQuestions(Model()) && currentQuestion >= |questions|
      modifies this
      ensures Valid()
      ensures Model() == S.EndQuiz(old(Model()))
      ensures totals == S.FinalTotals(Model())
    {
      tickPending := false;
      phase := S.Complete;
      totals := S.FinalTotals(Model());
    }
  }
}
