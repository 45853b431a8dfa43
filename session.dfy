/**
 The quiz session of `QuizApp` as a state machine over values.

 A `State` holds the fields of `QuizApp` that the session logic reads and
 writes, together with the two facts that the program keeps in the Tk event
 queue: whether an `update_timer` tick is scheduled (`timer_id`) and whether a
 `go_next` is scheduled. The event functions model the `QuizApp` methods of
 the same name, without their widget calls; `Choose` is a click on an option
 button. The class in module App runs the same steps on mutable fields and is
 specified by these functions.
 */
module QuizSession {
  import opened Selection

  /** One entry of questions.json: the prompt, the options and the stored answer. */
  datatype Question = Question(question: string, options: seq<string>, answer: string)

  /** What opening and parsing questions.json produced. */
  datatype FileRead = NotFound | Unreadable | Parsed(data: seq<Question>)

  /**
   Where the program is: stopped after a failed load, on the selection screen,
   asking questions, or finished (`end_quiz` ran).
   */
  datatype Phase = Halted | Selecting | Asking | Complete

  datatype State = State(
    bank: seq<Question>,        // all_questions
    questions: seq<Question>,   // the selected questions, in asking order
    current: int,               // current_question
    score: int,
    timer: int,                 // seconds left on the countdown
    choice: string,             // self.var, the answer variable the option buttons write
    tickPending: bool,          // an update_timer is scheduled (timer_id)
    advancePending: bool,       // a go_next is scheduled
    submitEnabled: bool,        // state of the Submit button
    phase: Phase)

  /** The countdown every question starts from. */
  const CountdownStart := 30

  /** The quiz length that takes the whole bank instead of sampling. */
  const FullQuizLength := 60

  /**
   Answers handed in so far: every question before `current`, and the current
   one too once it has been scored or has timed out (an advance is then pending).
   */
  function Answered(s: State): int {
    s.current + if s.advancePending then 1 else 0
  }

  /** Nothing selected yet and nothing scheduled. */
  predicate Idle(s: State) {
    && s.questions == [] && s.current == 0 && s.score == 0 && s.timer == CountdownStart
    && !s.tickPending && !s.advancePending && !s.submitEnabled
  }

  /** The invariant of the session: bounds on the counters and the phase's own facts. */
  predicate Inv(s: State) {
    && 0 <= s.score && 0 <= s.current && 0 <= s.timer <= CountdownStart
    && multiset(s.questions) <= multiset(s.bank)
    && match s.phase
       case Halted => s.bank == [] && Idle(s)
       case Selecting => s.bank != [] && Idle(s)
       case Asking =>
         && s.current < |s.questions|
         && (s.tickPending ==> s.submitEnabled)
         && s.submitEnabled != s.advancePending
         && s.score <= Answered(s)
       case Complete =>
         && s.current == |s.questions| && s.score <= s.current
         && !s.tickPending && !s.advancePending
  }

  /** A question has just been put up: open for an answer, countdown running, nothing chosen. */
  predicate JustShown(s: State) {
    && s.phase == Asking && s.submitEnabled && s.tickPending && !s.advancePending
    && s.choice == "" && s.timer == CountdownStart - 1
  }

  /** The state in which `next_question` is entered: between two questions, nothing scheduled. */
  predicate BetweenQuestions(s: State) {
    && s.phase == Asking && 0 <= s.score <= s.current <= |s.questions|
    && 0 <= s.timer <= CountdownStart && multiset(s.questions) <= multiset(s.bank)
    && !s.tickPending && !s.advancePending
  }

  /** `load_questions`: whether loading succeeded, and the bank afterwards. */
  function LoadQuestions(bank: seq<Question>, read: FileRead): (r: (bool, seq<Question>))
    ensures r.0 <==> read.Parsed? && read.data != []
    ensures r.0 ==> r.1 == read.data
    ensures !r.0 ==> r.1 == bank
  {
    match read
    case Parsed(data) => if data == [] then (false, bank) else (true, data)
    case _ => (false, bank)
  }

  /** `__init__`: the fresh session, then the load; the selection screen only follows a load that succeeded. */
  function New(read: FileRead): (r: State)
    ensures Inv(r) && Idle(r)
    ensures r.phase == Selecting <==> read.Parsed? && read.data != []
    ensures r.phase == Selecting ==> r.bank == read.data
    ensures r.phase != Selecting ==> r.phase == Halted && r.bank == []
  {
    var loaded := LoadQuestions([], read);
    State(loaded.1, [], 0, 0, CountdownStart, "", false, false, false,
          if loaded.0 then Selecting else Halted)
  }

  /** `random.sample` raises ValueError unless 0 <= n <= |bank|; the full-length quiz never samples. */
  predicate CanSample(size: nat, n: int) {
    n == FullQuizLength || 0 <= n <= size
  }

  /** How many questions a quiz of length `n` asks. */
  function SampleSize(size: nat, n: int): nat
    requires CanSample(size, n)
  {
    if n == FullQuizLength then size else n
  }

  /**
   `start_quiz_now`: select the questions along `draw` (the outcome of the
   random sample and shuffle), build the quiz screen and show the first question.
   */
  function StartQuizNow(s: State, n: int, draw: seq<nat>): (r: State)
    requires Inv(s) && s.phase == Selecting
    requires CanSample(|s.bank|, n) ==> IsDraw(draw, |s.bank|, SampleSize(|s.bank|, n))
    ensures Inv(r) && r.bank == s.bank
    ensures !CanSample(|s.bank|, n) ==> r == s
    ensures CanSample(|s.bank|, n) ==>
      && r.questions == Pick(s.bank, draw)
      && |r.questions| == SampleSize(|s.bank|, n)
      && multiset(r.questions) <= multiset(s.bank)
      && (n == FullQuizLength ==> multiset(r.questions) == multiset(s.bank))
      && r.current == 0 && r.score == 0
      && (r.questions != [] ==> JustShown(r))
      && (r.questions == [] ==> r.phase == Complete)
  {
    if !CanSample(|s.bank|, n) then s
    else
      var questions := Pick(s.bank, draw);
      assert multiset(questions) <= multiset(s.bank) by { DrawIsSubBag(s.bank, draw); }
      assert n == FullQuizLength ==> multiset(questions) == multiset(s.bank) by {
        if n == FullQuizLength { FullDrawIsPermutation(s.bank, draw); }
      }
      // build_quiz_gui: a fresh answer variable and a Submit button that starts enabled
      NextQuestion(s.(questions := questions, choice := "", submitEnabled := true, phase := Asking))
  }

  /** `next_question`: end the quiz past the last question, otherwise open the current one. */
  function NextQuestion(s: State): (r: State)
    requires BetweenQuestions(s)
    ensures Inv(r)
    ensures r.bank == s.bank && r.questions == s.questions
    ensures r.current == s.current && r.score == s.score
    ensures r.phase == Complete <==> s.current >= |s.questions|
    ensures s.current < |s.questions| ==> JustShown(r)
  {
    if s.current >= |s.questions| then EndQuiz(s)
    else StartTimer(s.(submitEnabled := true, choice := ""))
  }

  /**
   `start_timer`: restart the countdown at 30. Its immediate first update shows
   30 and leaves 29 seconds with the next tick scheduled, whatever was left before.
   */
  function StartTimer(s: State): (r: State)
    requires Inv(s) && s.phase == Asking && s.submitEnabled
    ensures Inv(r) && r.timer == CountdownStart - 1 && r.tickPending
    ensures r == s.(timer := r.timer, tickPending := r.tickPending)
  {
    UpdateTimer(s.(timer := CountdownStart))
  }

  /**
   `update_timer`, run while the question is open: count down one second and
   schedule the next tick, or at 0 close the question and schedule the advance.
   */
  function UpdateTimer(s: State): (r: State)
    requires Inv(s) && s.phase == Asking && s.submitEnabled
    ensures Inv(r) && r.phase == Asking
    ensures r.bank == s.bank && r.questions == s.questions && r.choice == s.choice
    ensures r.current == s.current && r.score == s.score
    ensures s.timer > 0 ==> r.timer == s.timer - 1 && r.tickPending && r.submitEnabled && !r.advancePending
    ensures s.timer == 0 ==> r.timer == 0 && !r.tickPending && !r.submitEnabled && r.advancePending
  {
    if s.timer > 0 then s.(timer := s.timer - 1, tickPending := true)
    else s.(tickPending := false, submitEnabled := false, advancePending := true)
  }

  /** An option button writes its option into the answer variable. */
  function Choose(s: State, option: string): (r: State)
    requires Inv(s) && s.phase == Asking && option in s.questions[s.current].options
    ensures Inv(r) && r.choice == option
    ensures r.(choice := s.choice) == s
  {
    s.(choice := option)
  }

  /**
   `check_answer`, run by the Submit button: cancel the countdown; with no
   option chosen stop there; otherwise score the choice against the stored
   answer, close the question and schedule the advance.
   */
  function CheckAnswer(s: State): (r: State)
    requires Inv(s) && s.phase == Asking && s.submitEnabled
    ensures Inv(r) && r.phase == Asking && !r.tickPending
    ensures r.bank == s.bank && r.questions == s.questions && r.choice == s.choice
    ensures r.current == s.current && r.timer == s.timer
    ensures s.choice == "" ==> r.score == s.score && r.submitEnabled && !r.advancePending
    ensures s.choice != "" ==>
      && r.score == s.score + (if s.choice == s.questions[s.current].answer then 1 else 0)
      && !r.submitEnabled && r.advancePending
  {
    var cancelled := s.(tickPending := false);
    if s.choice == "" then cancelled
    else
      var gained := if s.choice == s.questions[s.current].answer then 1 else 0;
      cancelled.(score := s.score + gained, submitEnabled := false, advancePending := true)
  }

  /** `go_next`: move to the next question and show it, or finish. */
  function GoNext(s: State): (r: State)
    requires Inv(s) && s.phase == Asking && s.advancePending
    ensures Inv(r)
    ensures r.bank == s.bank && r.questions == s.questions
    ensures r.current == s.current + 1 && r.score == s.score
    ensures r.phase == Complete <==> r.current == |r.questions|
    ensures r.phase != Complete ==> JustShown(r)
  {
    NextQuestion(s.(current := s.current + 1, advancePending := false))
  }

  /** `end_quiz`: cancel the countdown and finish; at most one point was scored per question. */
  function EndQuiz(s: State): (r: State)
    requires BetweenQuestions(s) && s.current >= |s.questions|
    ensures Inv(r) && r.phase == Complete && !r.tickPending
    ensures r.score <= |r.questions|
    ensures r.(tickPending := s.tickPending, phase := s.phase) == s
  {
    s.(tickPending := false, phase := Complete)
  }

  /** The totals `end_quiz` reports and logs; the percentage is exact, not a float. */
  datatype Totals = Totals(score: int, total: int, percent: real)

  /** `end_quiz`'s totals: score out of the number of selected questions, and the percentage. */
  function FinalTotals(s: State): (t: Totals)
    requires Inv(s) && s.phase == Complete
    ensures t.score == s.score && t.total == |s.questions|
    ensures 0 <= t.score <= t.total
    ensures 0.0 <= t.percent <= 100.0
    ensures t.total == 0 ==> t.percent == 0.0
    ensures t.total > 0 ==> (t.percent == 100.0 <==> t.score == t.total)
    ensures t.total > 0 ==> t.percent * (t.total as real) == (t.score as real) * 100.0
  {
    var total := |s.questions|;
    var ratio := if total != 0 then s.score as real / total as real else 0.0;
    assert 0.0 <= ratio <= 1.0 && (total != 0 ==> (ratio == 1.0 <==> s.score == total)) by {
      if total != 0 { RatioBounds(s.score, total); }
    }
    Totals(s.score, total, ratio * 100.0)
  }

  /** A score out of a positive total is a fraction between 0 and 1, and 1 exactly for a full score. */
  lemma RatioBounds(score: int, total: int)
    requires 0 <= score <= total && total > 0
    ensures 0.0 <= score as real / total as real <= 1.0
    ensures score as real / total as real == 1.0 <==> score == total
  {
  }
}
