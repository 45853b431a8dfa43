/**
 Runs of a quiz session: what the user and the event loop can do once the
 first question is up, and what every sequence of such events keeps true.
 */
module Runs {
  import opened Selection
  import opened QuizSession

  /**
   One event: an option button clicked, a scheduled `update_timer` firing, the
   Submit button clicked, or a scheduled `go_next` firing.
   */
  datatype Event = Chose(option: string) | Tick | Submit | Advance

  /**
   Whether the event can happen: only while asking, an option of the current
   question, a tick or an advance that was scheduled, a click on an enabled button.
   */
  predicate Enabled(s: State, e: Event) {
    && s.phase == Asking && 0 <= s.current < |s.questions|
    && match e
       case Chose(option) => option in s.questions[s.current].options
       case Tick => s.tickPending
       case Submit => s.submitEnabled
       case Advance => s.advancePending
  }

  /** One event's effect; each keeps the invariant and moves the score by at most the answers it hands in. */
  function Step(s: State, e: Event): (r: State)
    requires Inv(s) && Enabled(s, e)
    ensures Inv(r) && r.bank == s.bank && r.questions == s.questions
    ensures s.current <= r.current <= s.current + 1
    ensures s.score <= r.score <= s.score + 1
    ensures Answered(s) <= Answered(r) && r.score - s.score <= Answered(r) - Answered(s)
  {
    match e
    case Chose(option) => Choose(s, option)
    case Tick => UpdateTimer(s)
    case Submit => CheckAnswer(s)
    case Advance => GoNext(s)
  }

  /**
   The state after a sequence of events; an event that cannot happen at its
   turn (a click on a disabled button, a tick that was cancelled) changes nothing.
   */
  function Run(s: State, events: seq<Event>): (r: State)
    requires Inv(s)
    ensures Inv(r) && r.bank == s.bank && r.questions == s.questions
    ensures s.current <= r.current && s.score <= r.score
    ensures r.score - s.score <= Answered(r) - Answered(s)
    decreases |events|
  {
    if events == [] then s
    else Run(if Enabled(s, events[0]) then Step(s, events[0]) else s, events[1..])
  }

  /** Running two sequences one after the other is running their concatenation. */
  lemma {:induction false} RunAppend(s: State, a: seq<Event>, b: seq<Event>)
    requires Inv(s)
    ensures Run(s, a + b) == Run(Run(s, a), b)
    decreases |a|
  {
    if a == [] {
      assert a + b == b;
    } else {
      assert (a + b)[0] == a[0] && (a + b)[1..] == a[1..] + b;
      RunAppend(if Enabled(s, a[0]) then Step(s, a[0]) else s, a[1..], b);
    }
  }

  /** A run starts with its first event. */
  lemma RunFirst(s: State, e: Event, rest: seq<Event>)
    requires Inv(s)
    ensures Run(s, [e] + rest) == Run(if Enabled(s, e) then Step(s, e) else s, rest)
  {
  }

  /** Nothing happens outside the asking phase: after a failed load, on the selection screen, after the end. */
  lemma {:induction false} NoEventsOutsideAsking(s: State, events: seq<Event>)
    requires Inv(s) && s.phase != Asking
    ensures Run(s, events) == s
    decreases |events|
  {
    if events != [] {
      NoEventsOutsideAsking(s, events[1..]);
    }
  }

  /** `k` firings of the countdown with nothing else happening. */
  function Ticks(k: nat): (r: seq<Event>)
    ensures |r| == k && forall i :: 0 <= i < k ==> r[i] == Tick
  {
    if k == 0 then [] else [Tick] + Ticks(k - 1)
  }

  /** While time is left, each tick takes exactly one second off and schedules the next. */
  lemma {:induction false} CountingDown(s: State, k: nat)
    requires Inv(s) && s.phase == Asking && s.tickPending && k <= s.timer
    ensures Run(s, Ticks(k)) == s.(timer := s.timer - k)
    decreases k
  {
    if k > 0 {
      var next := UpdateTimer(s);
      assert next == s.(timer := s.timer - 1);
      CountingDown(next, k - 1);
    }
  }

  /**
   A question left alone times out: after the remaining seconds and one more
   tick the countdown stands at 0, Submit is disabled and an advance is
   scheduled; the advance moves on with no point scored.
   */
  lemma TimesOut(s: State)
    requires Inv(s) && s.phase == Asking && s.tickPending
    ensures var r := Run(s, Ticks(s.timer + 1));
      && r.timer == 0 && !r.tickPending && !r.submitEnabled && r.advancePending
      && r.score == s.score && r.current == s.current
    ensures var r := Run(s, Ticks(s.timer + 1) + [Advance]);
      r.score == s.score && r.current == s.current + 1
  {
    var k := s.timer;
    assert Ticks(k + 1) == Ticks(k) + [Tick];
    RunAppend(s, Ticks(k), [Tick]);
    CountingDown(s, k);
    var zero := s.(timer := 0);
    RunFirst(zero, Tick, []);
    var waiting := UpdateTimer(zero);
    assert Run(s, Ticks(k + 1)) == waiting;
    RunAppend(s, Ticks(k + 1), [Advance]);
    RunFirst(waiting, Advance, []);
  }

  /** Every just-shown question times out after exactly 30 ticks if nothing is clicked. */
  lemma ShownQuestionTimesOutAfter30(s: State)
    requires Inv(s) && JustShown(s)
    ensures var r := Run(s, Ticks(CountdownStart));
      r.advancePending && !r.submitEnabled && r.score == s.score && r.current == s.current
  {
    TimesOut(s);
  }

  /** Events that leave the answer variable alone. */
  predicate NoChoice(events: seq<Event>) {
    forall i :: 0 <= i < |events| ==> !events[i].Chose?
  }

  /**
   Submitting with nothing chosen cancels the countdown for good: until an
   option is clicked, no tick, submit or advance changes anything, so the
   question never times out.
   */
  lemma {:induction false} EmptySubmitStalls(s: State, events: seq<Event>)
    requires Inv(s) && s.phase == Asking && s.submitEnabled && s.choice == ""
    requires NoChoice(events)
    ensures Run(CheckAnswer(s), events) == CheckAnswer(s)
    decreases |events|
  {
    var stalled := CheckAnswer(s);
    if events != [] {
      if Enabled(stalled, events[0]) {
        assert events[0] == Submit;
        assert CheckAnswer(stalled) == stalled;
      }
      EmptySubmitStalls(s, events[1..]);
    }
  }

  /**
   Once the countdown of a question is cancelled without an advance, it never
   runs again for that question: whatever happens, as long as the same question
   is still being asked no tick is scheduled.
   */
  lemma {:induction false} CountdownStaysStopped(s: State, events: seq<Event>)
    requires Inv(s) && s.phase == Asking && !s.tickPending
    ensures var r := Run(s, events);
      r.current == s.current && r.phase == Asking ==> !r.tickPending
    decreases |events|
  {
    if events != [] {
      var next := if Enabled(s, events[0]) then Step(s, events[0]) else s;
      if next.current == s.current {
        assert next.phase == Asking && !next.tickPending;
        CountdownStaysStopped(next, events[1..]);
      }
    }
  }

  /** A question the user can answer: its stored answer is one of its options and is not empty. */
  predicate Answerable(q: Question) {
    q.answer in q.options && q.answer != ""
  }

  /** For each question: click its stored answer, submit, and let the advance fire. */
  function AnswerAll(questions: seq<Question>): (r: seq<Event>)
    ensures |r| == 3 * |questions|
  {
    if questions == [] then []
    else [Chose(questions[0].answer), Submit, Advance] + AnswerAll(questions[1..])
  }

  /**
   Answering every remaining question with its stored answer scores a point
   for each of them and finishes the quiz.
   */
  lemma {:induction false} AnswerAllScoresAll(s: State)
    requires Inv(s) && s.phase == Asking && s.submitEnabled
    requires forall i :: s.current <= i < |s.questions| ==> Answerable(s.questions[i])
    ensures var r := Run(s, AnswerAll(s.questions[s.current..]));
      r.phase == Complete && r.score == s.score + (|s.questions| - s.current)
    decreases |s.questions| - s.current
  {
    var q := s.questions[s.current];
    var rest := s.questions[s.current + 1..];
    assert s.questions[s.current..] == [q] + rest;
    var chosen := Choose(s, q.answer);
    var checked := CheckAnswer(chosen);
    var next := GoNext(checked);
    assert AnswerAll([q] + rest) == [Chose(q.answer)] + ([Submit] + ([Advance] + AnswerAll(rest)));
    RunFirst(s, Chose(q.answer), [Submit] + ([Advance] + AnswerAll(rest)));
    RunFirst(chosen, Submit, [Advance] + AnswerAll(rest));
    RunFirst(checked, Advance, AnswerAll(rest));
    if next.phase != Complete {
      assert rest == next.questions[next.current..];
      AnswerAllScoresAll(next);
    } else {
      assert rest == [];
    }
  }

  /**
   A whole session answered correctly: starting a quiz of any length the bank
   allows and answering every question with its stored answer ends with a full
   score, 100 percent when at least one question was asked.
   */
  lemma PerfectSession(s: State, n: int, draw: seq<nat>)
    requires Inv(s) && s.phase == Selecting
    requires forall q :: q in s.bank ==> Answerable(q)
    requires CanSample(|s.bank|, n) && IsDraw(draw, |s.bank|, SampleSize(|s.bank|, n))
    ensures var started := StartQuizNow(s, n, draw);
      var r := Run(started, AnswerAll(started.questions));
      && r.phase == Complete && r.score == |r.questions| == SampleSize(|s.bank|, n)
      && FinalTotals(r).score == FinalTotals(r).total
      && (FinalTotals(r).total > 0 ==> FinalTotals(r).percent == 100.0)
  {
    var started := StartQuizNow(s, n, draw);
    if started.questions == [] {
      NoEventsOutsideAsking(started, AnswerAll(started.questions));
    } else {
      forall i | 0 <= i < |started.questions| ensures Answerable(started.questions[i]) {
        var q := started.questions[i];
        assert q in multiset(started.questions);
      }
      assert started.questions[0..] == started.questions;
      AnswerAllScoresAll(started);
    }
  }
}
