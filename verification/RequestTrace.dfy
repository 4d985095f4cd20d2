/**
 What the callback of a request has to do with the events that happened.
 */
module RequestTrace {
  import opened Wrappers
  import opened RequestMachine

  // ----- the log and the events -----

  /** The events tell that attempt `k` ended this way: its response came and then its body; or its promise was
      rejected, late exactly if its deadline had fired by then. */
  ghost predicate Told(events: seq<Event>, k: nat, ending: Ending) {
    match ending
    case Answered(status, data) =>
      exists i, j :: 0 <= i < j < |events| && events[i] == Responded(k, status) && events[j] == BodyRead(k, data)
    case Unanswered(late) =>
      exists i :: 0 <= i < |events| && events[i] == Rejected(k) && (late <==> DeadlineFired(k) in events[..i])
  }

  lemma ToldMore(events: seq<Event>, k: nat, ending: Ending, e: Event)
    requires Told(events, k, ending)
    ensures Told(events + [e], k, ending)
  {
    var more := events + [e];
    if ending.Answered? {
      var i, j :| 0 <= i < j < |events| && events[i] == Responded(k, ending.status)
                  && events[j] == BodyRead(k, ending.data);
      assert more[i] == Responded(k, ending.status) && more[j] == BodyRead(k, ending.data);
    } else {
      var i :| 0 <= i < |events| && events[i] == Rejected(k) && (ending.late <==> DeadlineFired(k) in events[..i]);
      assert more[i] == Rejected(k) && more[..i] == events[..i];
    }
  }

  ghost predicate LogTold(events: seq<Event>, r: Request) {
    forall k | 0 <= k < |r.log| :: Told(events, k, r.log[k])
  }

  /** What the request has captured is what has happened. */
  ghost predicate Captured(events: seq<Event>, r: Request) {
    ResponsesCaptured(events, r) && DeadlinesCaptured(events, r)
  }

  lemma AnswerTold(env: Env, r: Request, events: seq<Event>, n: nat, data: string)
    requires RequestOk(env, r) && Captured(events, r) && Enabled(r, BodyRead(n, data)) && !r.cancelled
    ensures var t := Step(env, r, BodyRead(n, data));
            |t.log| == |r.log| + 1 && |r.log| == n && t.log[..n] == r.log
            && Told(events + [BodyRead(n, data)], n, t.log[n])
  {
    var more := events + [BodyRead(n, data)];
    var i :| 0 <= i < |events| && events[i] == Responded(n, r.status[n]);
    assert more[i] == Responded(n, r.status[n]) && more[|events|] == BodyRead(n, data);
    var last := EndingOf(env, r, BodyRead(n, data), n);
  }

  lemma RejectionTold(env: Env, r: Request, events: seq<Event>, n: nat)
    requires RequestOk(env, r) && Captured(events, r) && Enabled(r, Rejected(n)) && !r.cancelled
    ensures var t := Step(env, r, Rejected(n));
            |t.log| == |r.log| + 1 && |r.log| == n && t.log[..n] == r.log
            && Told(events + [Rejected(n)], n, t.log[n])
  {
    var more := events + [Rejected(n)];
    assert more[|events|] == Rejected(n) && more[..|events|] == events;
    var last := EndingOf(env, r, Rejected(n), n);
  }

  lemma LogGrows(env: Env, r: Request, events: seq<Event>, e: Event)
    requires RequestOk(env, r) && Captured(events, r) && LogTold(events, r) && Enabled(r, e)
    ensures LogTold(events + [e], Step(env, r, e))
  {
    var t := Step(env, r, e);
    assert t.log == r.log || (!r.cancelled && (e.BodyRead? || e.Rejected?));
    if e.BodyRead? && !r.cancelled {
      AnswerTold(env, r, events, e.n, e.data);
    } else if e.Rejected? && !r.cancelled {
      RejectionTold(env, r, events, e.n);
    }
    forall k | 0 <= k < |t.log|
      ensures Told(events + [e], k, t.log[k])
    {
      if k < |r.log| {
        assert t.log[k] == r.log[k];
        ToldMore(events, k, r.log[k], e);
      }
    }
  }

  /** What is captured of responses, and of deadlines. */
  ghost predicate ResponsesCaptured(events: seq<Event>, r: Request) {
    forall n | Reading(n) in r.jobs :: n in r.status && Responded(n, r.status[n]) in events
  }

  ghost predicate DeadlinesCaptured(events: seq<Event>, r: Request) {
    && (forall n: nat :: n in r.late <==> DeadlineFired(n) in events)
    && (forall n: nat | DeadlineFired(n) in events :: n < r.fetches)
  }

  lemma ResponsesMore(env: Env, r: Request, events: seq<Event>, e: Event)
    requires RequestOk(env, r) && ResponsesCaptured(events, r) && Enabled(r, e)
    ensures ResponsesCaptured(events + [e], Step(env, r, e))
  {
    var t, more := Step(env, r, e), events + [e];
    forall n | Reading(n) in t.jobs
      ensures n in t.status && Responded(n, t.status[n]) in more
    {
      if e == Responded(n, t.status[n]) {
        assert more[|events|] == e;
      } else {
        assert Reading(n) in r.jobs && Responded(n, r.status[n]) in events;
      }
    }
  }

  lemma DeadlinesMore(env: Env, r: Request, events: seq<Event>, e: Event)
    requires RequestOk(env, r) && DeadlinesCaptured(events, r) && Enabled(r, e)
    ensures DeadlinesCaptured(events + [e], Step(env, r, e))
  {
    var t, more := Step(env, r, e), events + [e];
    forall n: nat
      ensures n in t.late <==> DeadlineFired(n) in more
      ensures DeadlineFired(n) in more ==> n < t.fetches
    {
      assert DeadlineFired(n) in more <==> DeadlineFired(n) in events || e == DeadlineFired(n);
    }
  }

  lemma CapturedMore(env: Env, r: Request, events: seq<Event>, e: Event)
    requires RequestOk(env, r) && Captured(events, r) && Enabled(r, e)
    ensures Captured(events + [e], Step(env, r, e))
  {
    ResponsesMore(env, r, events, e);
    DeadlinesMore(env, r, events, e);
  }

  lemma {:induction false} RunTold(env: Env, r: Request, before: seq<Event>, events: seq<Event>, t: Request)
    requires RequestOk(env, r) && Captured(before, r) && LogTold(before, r) && Run(env, r, events, t)
    ensures LogTold(before + events, t)
    decreases |events|
  {
    if events == [] {
      assert before + events == before;
    } else {
      var e := events[0];
      StepKeeps(env, r, e);
      LogGrows(env, r, before, e);
      CapturedMore(env, r, before, e);
      RunTold(env, Step(env, r, e), before + [e], events[1..], t);
      assert (before + [e]) + events[1..] == before + events;
    }
  }

  /** Whatever order the events came in, the log tells attempt by attempt what happened. */
  lemma LogIsTrue(env: Env, events: seq<Event>, t: Request)
    requires Run(env, Begin(), events, t)
    ensures forall k | 0 <= k < |t.log| :: Told(events, k, t.log[k])
  {
    BeginOk(env);
    RunTold(env, Begin(), [], events, t);
    assert [] + events == events;
  }

  // ----- the retry loop without its recursion -----

  /** Too many requests, a server error, or no answer at all: worth another attempt. */
  predicate Again(ending: Ending) { ending.Unanswered? || ending.status == 429 || ending.status >= 500 }

  /** What an ending means for the caller. */
  function Says(env: Env, ending: Ending): Outcome {
    match ending
    case Answered(status, data) => if status < 400 then Success(data) else Failure(env.errorMessage(status, data))
    case Unanswered(late) =>
      Failure(if late then "The AI request took too long. Please try again."
              else "Couldn't reach OpenAI. Check your internet connection and try again.")
  }

  /** The k-th ending decides: those before it were tried again, and it is not. */
  ghost predicate Decides(env: Env, endings: seq<Ending>, n: nat, k: nat) {
    && k < |endings|
    && (forall j | 0 <= j < k :: Again(endings[j]) && n + j < env.maxRetries)
    && !(Again(endings[k]) && n + k < env.maxRetries)
  }

  lemma DecidesLater(env: Env, endings: seq<Ending>, n: nat, k: nat)
    requires endings != [] && Again(endings[0]) && n < env.maxRetries && Decides(env, endings[1..], n + 1, k)
    ensures Decides(env, endings, n, k + 1)
  {
    forall j | 0 <= j < k + 1
      ensures Again(endings[j]) && n + j < env.maxRetries
    {
      if j > 0 {
        assert Again(endings[1..][j - 1]) && n + 1 + (j - 1) < env.maxRetries;
      }
    }
  }

  lemma RetryStep(env: Env, endings: seq<Ending>, n: nat)
    requires endings != []
    ensures RetryLoop(env, endings, n) ==
            if Again(endings[0]) && n < env.maxRetries then RetryLoop(env, endings[1..], n + 1)
            else Some(Says(env, endings[0]))
  {
  }

  ghost predicate AllAgain(env: Env, endings: seq<Ending>, n: nat) {
    forall j | 0 <= j < |endings| :: Again(endings[j]) && n + j < env.maxRetries
  }

  lemma AllAgainCons(env: Env, endings: seq<Ending>, n: nat)
    requires endings != [] && Again(endings[0]) && n < env.maxRetries && AllAgain(env, endings[1..], n + 1)
    ensures AllAgain(env, endings, n)
  {
    forall j | 1 <= j < |endings|
      ensures Again(endings[j]) && n + j < env.maxRetries
    {
      assert Again(endings[1..][j - 1]) && n + 1 + (j - 1) < env.maxRetries;
    }
  }

  lemma DecidesAtOnce(env: Env, endings: seq<Ending>, n: nat)
    requires endings != [] && !(Again(endings[0]) && n < env.maxRetries)
    ensures Decides(env, endings, n, 0) && RetryLoop(env, endings, n) == Some(Says(env, endings[0]))
  {
    RetryStep(env, endings, n);
  }

  /** What the loop makes of the endings, told by the one that decides. */
  ghost predicate Meaning(env: Env, endings: seq<Ending>, n: nat, r: Option<Outcome>, k: nat) {
    if r == None then AllAgain(env, endings, n) else Decides(env, endings, n, k) && r.value == Says(env, endings[k])
  }

  lemma MeaningLater(env: Env, endings: seq<Ending>, n: nat, r: Option<Outcome>, k: nat)
    requires endings != [] && Again(endings[0]) && n < env.maxRetries && Meaning(env, endings[1..], n + 1, r, k)
    ensures Meaning(env, endings, n, r, k + 1)
  {
    if r == None {
      AllAgainCons(env, endings, n);
    } else {
      DecidesLater(env, endings, n, k);
    }
  }

  /** The loop's outcome is what the deciding ending says; without one all were to be tried again. */
  lemma {:induction false} RetryLoopMeans(env: Env, endings: seq<Ending>, n: nat) returns (k: nat)
    ensures Meaning(env, endings, n, RetryLoop(env, endings, n), k)
    decreases |endings|
  {
    k := 0;
    if endings != [] {
      if Again(endings[0]) && n < env.maxRetries {
        k := RetryLoopMeans(env, endings[1..], n + 1);
        MeaningLater(env, endings, n, RetryLoop(env, endings[1..], n + 1), k);
        RetryStep(env, endings, n);
        k := k + 1;
      } else {
        DecidesAtOnce(env, endings, n);
      }
    }
  }

  /** The callback a caller hears is what the events of the deciding attempt say; every attempt before it
      ended in a way that is worth another one. */
  lemma CallbackIsTrue(env: Env, events: seq<Event>, t: Request, o: Outcome)
    requires Run(env, Begin(), events, t) && o in t.outcomes
    ensures exists k: nat :: k < |t.log| && Told(events, k, t.log[k]) && o == Says(env, t.log[k])
                             && k <= env.maxRetries && (k == env.maxRetries || !Again(t.log[k]))
                             && forall j: nat | j < k :: Told(events, j, t.log[j]) && Again(t.log[j])
  {
    EveryRun(env, events, t);
    LogIsTrue(env, events, t);
    var k := RetryLoopMeans(env, t.log, 0);
    assert t.outcomes == [o];
    assert k > 0 ==> Again(t.log[k - 1]) && k - 1 < env.maxRetries;
  }
}
