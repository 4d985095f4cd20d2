/**
 The request machine of internal/ai/transport.go: one chat-completions request with its
 deadline, its retries and its cancel function (`postCompletions`).

 The browser's event loop is a set of pending jobs, fired in any order.  Clearing a timer
 removes its job; aborting a fetch does not, for the answer may already be on its way.
 */
module RequestMachine {
  import opened Wrappers

  /** How one attempt ended: with an answer, or with a rejected promise. */
  datatype Ending = Answered(status: int, data: string) | Unanswered(late: bool)

  datatype Outcome = Success(data: string) | Failure(message: string)

  const TOO_LONG := "The AI request took too long. Please try again."
  const NO_ANSWER := "Couldn't reach OpenAI. Check your internet connection and try again."

  /** The number of retries (1 in the source) and the wording of an error by status and body. */
  datatype Env = Env(maxRetries: nat, errorMessage: (int, string) -> string)

  predicate IsRetryable(status: int) { status == 0 || status == 429 || status >= 500 }

  // ----- one request -----

  datatype Job =
    | Fetching(n: nat)       // the fetch promise of attempt n
    | Reading(n: nat)        // the promise of its response body
    | Deadline(n: nat)       // its 45 second timer
    | Backoff(n: nat)        // the timer that starts attempt n

  /** `retryTimer` and `deadline` are the timer variables with their `timerSet` and `timeoutSet` flags;
      `status` and `late` hold what each attempt captured.  `outcomes` lists the callbacks made and
      `log` how the attempts ended. */
  datatype Request = Request(cancelled: bool, jobs: set<Job>, retryTimer: Option<Job>, deadline: Option<Job>,
                             status: map<nat, int>, late: set<nat>, fetches: nat,
                             outcomes: seq<Outcome>, log: seq<Ending>)

  datatype Event =
    | Responded(n: nat, status: int)
    | BodyRead(n: nat, data: string)
    | Rejected(n: nat)
    | DeadlineFired(n: nat)
    | BackoffFired(n: nat)
    | Cancelled

  predicate Enabled(r: Request, e: Event) {
    match e
    case Responded(n, _) => Fetching(n) in r.jobs
    case BodyRead(n, _) => Reading(n) in r.jobs
    case Rejected(n) => Fetching(n) in r.jobs || Reading(n) in r.jobs
    case DeadlineFired(n) => Deadline(n) in r.jobs
    case BackoffFired(n) => Backoff(n) in r.jobs
    case Cancelled => true
  }

  function Attempt(r: Request, n: nat): Request {
    if r.cancelled then r
    else r.(jobs := r.jobs + {Fetching(n), Deadline(n)}, deadline := Some(Deadline(n)),
            status := r.status[n := 0], late := r.late - {n}, fetches := r.fetches + 1)
  }

  function Begin(): Request {
    Attempt(Request(false, {}, None, None, map[], {}, 0, [], []), 0)
  }

  function RetryOrFail(env: Env, r: Request, n: nat, status: int, message: string): Request {
    if !IsRetryable(status) || n >= env.maxRetries then r.(outcomes := r.outcomes + [Failure(message)])
    else r.(jobs := r.jobs + {Backoff(n + 1)}, retryTimer := Some(Backoff(n + 1)))
  }

  function ClearDeadline(r: Request): Request {
    if r.deadline.None? then r else r.(jobs := r.jobs - {r.deadline.value}, deadline := None)
  }

  function ClearRetry(r: Request): Request {
    if r.retryTimer.None? then r else r.(jobs := r.jobs - {r.retryTimer.value}, retryTimer := None)
  }

  function Cancel(r: Request): Request {
    if r.cancelled then r else ClearDeadline(ClearRetry(r.(cancelled := true)))
  }

  function OnText(env: Env, r: Request, n: nat, data: string): Request {
    var r := ClearDeadline(r.(jobs := r.jobs - {Reading(n)}));
    if r.cancelled then r else
      var status := if n in r.status then r.status[n] else 0;
      var r := r.(log := r.log + [Answered(status, data)]);
      if status >= 400 then RetryOrFail(env, r, n, status, env.errorMessage(status, data))
      else r.(outcomes := r.outcomes + [Success(data)])
  }

  function OnCatch(env: Env, r: Request, n: nat): Request {
    var r := r.(jobs := r.jobs - {Fetching(n), Reading(n)});
    if r.cancelled then r else
      var r := ClearDeadline(r.(log := r.log + [Unanswered(n in r.late)]));
      RetryOrFail(env, r, n, 0, if n in r.late then TOO_LONG else NO_ANSWER)
  }

  function Step(env: Env, r: Request, e: Event): Request
    requires Enabled(r, e)
  {
    match e
    case Responded(n, status) => r.(jobs := r.jobs - {Fetching(n)} + {Reading(n)}, status := r.status[n := status])
    case BodyRead(n, data) => OnText(env, r, n, data)
    case Rejected(n) => OnCatch(env, r, n)
    case DeadlineFired(n) =>
      var r := r.(jobs := r.jobs - {Deadline(n)}, deadline := None);
      if r.cancelled then r else r.(late := r.late + {n})
    case BackoffFired(n) => Attempt(r.(jobs := r.jobs - {Backoff(n)}, retryTimer := None), n)
    case Cancelled => Cancel(r)
  }

  // ----- the plain retry loop it must agree with -----

  /** The outcome of attempts n, n+1, ... made one after the other, as far as `endings` tells. */
  function RetryLoop(env: Env, endings: seq<Ending>, n: nat): Option<Outcome>
    decreases |endings|
  {
    if endings == [] then None else
      match endings[0]
      case Answered(status, data) =>
        if status < 400 then Some(Success(data))
        else if IsRetryable(status) && n < env.maxRetries then RetryLoop(env, endings[1..], n + 1)
        else Some(Failure(env.errorMessage(status, data)))
      case Unanswered(late) =>
        if n < env.maxRetries then RetryLoop(env, endings[1..], n + 1)
        else Some(Failure(if late then TOO_LONG else NO_ANSWER))
  }

  lemma {:induction false} RetryLoopSnoc(env: Env, endings: seq<Ending>, n: nat, last: Ending)
    requires RetryLoop(env, endings, n) == None
    ensures RetryLoop(env, endings + [last], n) == RetryLoop(env, [last], n + |endings|)
    decreases |endings|
  {
    if endings == [] {
      assert endings + [last] == [last];
    } else {
      assert (endings + [last])[1..] == endings[1..] + [last];
      RetryLoopSnoc(env, endings[1..], n + 1, last);
    }
  }

  // ----- what every event keeps -----

  function Heard(outcomes: seq<Outcome>): Option<Outcome> {
    if outcomes == [] then None else Some(outcomes[0])
  }

  /** The last attempt is under way. */
  predicate InFlight(r: Request, n: nat) {
    && |r.log| == n && r.outcomes == [] && r.retryTimer == None
    && (r.deadline == None || r.deadline == Some(Deadline(n)))
    && var timer := if r.deadline == None then {} else {Deadline(n)};
       r.jobs == {Fetching(n)} + timer || r.jobs == {Reading(n)} + timer
  }

  predicate BackingOff(env: Env, r: Request, n: nat) {
    && |r.log| == n + 1 && n < env.maxRetries && r.outcomes == []
    && r.deadline == None && r.retryTimer == Some(Backoff(n + 1)) && r.jobs == {Backoff(n + 1)}
  }

  predicate Settled(r: Request, n: nat) {
    |r.log| == n + 1 && |r.outcomes| == 1 && r.deadline == None && r.retryTimer == None && r.jobs == {}
  }

  /** A cancelled request has no timer left, and at most the promise of its last attempt. */
  predicate Silenced(r: Request, n: nat) {
    && |r.outcomes| <= 1 && r.deadline == None && r.retryTimer == None
    && (r.jobs == {} || r.jobs == {Fetching(n)} || r.jobs == {Reading(n)})
  }

  predicate RequestOk(env: Env, r: Request) {
    && 1 <= r.fetches <= env.maxRetries + 1
    && RetryLoop(env, r.log, 0) == Heard(r.outcomes)
    && var n: nat := r.fetches - 1;
       if r.cancelled then Silenced(r, n) else InFlight(r, n) || BackingOff(env, r, n) || Settled(r, n)
  }

  /** A bound on the events still to come. */
  function Work(env: Env, r: Request): nat
    requires 1 <= r.fetches <= env.maxRetries + 1
  {
    var n: nat := r.fetches - 1;
    4 * (env.maxRetries - n)
    + (if Fetching(n) in r.jobs then 3
       else if Reading(n) in r.jobs then 2
       else if Backoff(n + 1) in r.jobs then 1
       else 0)
    + (if Deadline(n) in r.jobs then 1 else 0)
  }

  lemma BeginOk(env: Env)
    ensures RequestOk(env, Begin()) && !Begin().cancelled && Begin().outcomes == []
    ensures Work(env, Begin()) == 4 * (env.maxRetries + 1)
  {
    assert Begin().jobs == {Fetching(0)} + {Deadline(0)};
  }

  /** An attempt that ends leaves behind its ending and either a callback or a retry timer. */
  lemma EndingOf(env: Env, r: Request, e: Event, n: nat) returns (last: Ending)
    requires InFlight(r, n) && Enabled(r, e) && (e.BodyRead? || e.Rejected?) && !r.cancelled
    ensures var t := Step(env, r, e);
            && !t.cancelled && t.log == r.log + [last] && t.deadline == None && t.fetches == r.fetches
            && Heard(t.outcomes) == RetryLoop(env, [last], n) && |t.outcomes| <= 1
            && (if t.outcomes == [] then
                  t.jobs == {Backoff(n + 1)} && t.retryTimer == Some(Backoff(n + 1)) && n < env.maxRetries
                else
                  t.jobs == {} && t.retryTimer == None)
  {
    assert e.n == n;
    assert RetryLoop(env, [], n + 1) == None;
    last := if e.BodyRead? then Answered(if n in r.status then r.status[n] else 0, e.data) else Unanswered(n in r.late);
    assert [last][1..] == [];
    assert ClearDeadline(r.(jobs := r.jobs - {Fetching(n), Reading(n)})).jobs == {};
    assert e.BodyRead? ==> ClearDeadline(r.(jobs := r.jobs - {Reading(n)})).jobs == {};
  }

  lemma AttemptEnds(env: Env, r: Request, e: Event)
    requires RequestOk(env, r) && Enabled(r, e) && (e.BodyRead? || e.Rejected?) && !r.cancelled
    ensures RequestOk(env, Step(env, r, e)) && !Step(env, r, e).cancelled
    ensures Work(env, Step(env, r, e)) < Work(env, r)
    ensures r.outcomes == []
  {
    var n: nat := r.fetches - 1;
    var last := EndingOf(env, r, e, n);
    RetryLoopSnoc(env, r.log, 0, last);
  }

  lemma TimerFires(env: Env, r: Request, e: Event)
    requires RequestOk(env, r) && Enabled(r, e) && (e.Responded? || e.DeadlineFired? || e.BackoffFired?)
    ensures RequestOk(env, Step(env, r, e)) && Step(env, r, e).cancelled == r.cancelled
    ensures Work(env, Step(env, r, e)) < Work(env, r)
    ensures Step(env, r, e).outcomes == r.outcomes
  {
    var t := Step(env, r, e);
    var n: nat := r.fetches - 1;
    match e
    case Responded(_, _) =>
      assert e.n == n;
      assert t.jobs == (r.jobs - {Fetching(n)}) + {Reading(n)};
      if Deadline(n) in r.jobs {
        assert t.jobs == {Reading(n)} + {Deadline(n)};
      } else {
        assert t.jobs == {Reading(n)};
      }
    case DeadlineFired(_) =>
      assert e.n == n && InFlight(r, n);
      assert t.jobs == {Fetching(n)} || t.jobs == {Reading(n)};
    case BackoffFired(_) =>
      assert e.n == n + 1 && BackingOff(env, r, n);
      assert t.jobs == {Fetching(n + 1)} + {Deadline(n + 1)};
  }

  lemma CancelOk(env: Env, r: Request)
    requires RequestOk(env, r)
    ensures RequestOk(env, Cancel(r)) && Cancel(r).cancelled && Work(env, Cancel(r)) <= Work(env, r)
    ensures Cancel(r).outcomes == r.outcomes && Cancel(r).fetches == r.fetches && Cancel(r).log == r.log
  {
    var n: nat := r.fetches - 1;
    var t := Cancel(r);
    if !r.cancelled {
      if InFlight(r, n) {
        assert t.jobs == {Fetching(n)} || t.jobs == {Reading(n)};
      } else {
        assert t.jobs == {};
      }
    }
  }

  lemma SilentStep(env: Env, r: Request, e: Event)
    requires RequestOk(env, r) && Enabled(r, e) && r.cancelled && (e.BodyRead? || e.Rejected?)
    ensures RequestOk(env, Step(env, r, e)) && Step(env, r, e).cancelled
    ensures Work(env, Step(env, r, e)) < Work(env, r)
    ensures Step(env, r, e).outcomes == r.outcomes
  {
    assert Step(env, r, e).jobs == {};
  }

  /** One event: the invariant is kept, the work left shrinks unless the event is a cancel, callbacks
      are only added, and a cancelled request adds none and fetches nothing. */
  lemma StepKeeps(env: Env, r: Request, e: Event)
    requires RequestOk(env, r) && Enabled(r, e)
    ensures var t := Step(env, r, e);
            && RequestOk(env, t) && Work(env, t) + (if e.Cancelled? then 0 else 1) <= Work(env, r)
            && t.cancelled == (r.cancelled || e.Cancelled?)
            && (r.outcomes == [] || t.outcomes == r.outcomes)
            && (t.cancelled ==> t.outcomes == r.outcomes && t.fetches == r.fetches)
  {
    match e
    case Cancelled => CancelOk(env, r);
    case Responded(_, _) => TimerFires(env, r, e);
    case DeadlineFired(_) => TimerFires(env, r, e);
    case BackoffFired(_) => TimerFires(env, r, e);
    case BodyRead(_, _) => if r.cancelled { SilentStep(env, r, e); } else { AttemptEnds(env, r, e); }
    case Rejected(_) => if r.cancelled { SilentStep(env, r, e); } else { AttemptEnds(env, r, e); }
  }

  ghost predicate Run(env: Env, r: Request, events: seq<Event>, t: Request)
    decreases |events|
  {
    if events == [] then r == t
    else Enabled(r, events[0]) && Run(env, Step(env, r, events[0]), events[1..], t)
  }

  function NetworkEvents(events: seq<Event>): nat {
    if events == [] then 0 else (if events[0].Cancelled? then 0 else 1) + NetworkEvents(events[1..])
  }

  lemma {:induction false} RunKeeps(env: Env, r: Request, events: seq<Event>, t: Request)
    requires RequestOk(env, r) && Run(env, r, events, t)
    ensures RequestOk(env, t) && NetworkEvents(events) + Work(env, t) <= Work(env, r)
    ensures t.cancelled == (r.cancelled || Cancelled in events)
    ensures r.outcomes == [] || t.outcomes == r.outcomes
    ensures r.cancelled ==> t.outcomes == r.outcomes && t.fetches == r.fetches
    decreases |events|
  {
    if events != [] {
      StepKeeps(env, r, events[0]);
      RunKeeps(env, Step(env, r, events[0]), events[1..], t);
      assert events == [events[0]] + events[1..];
    }
  }

  /** Every order of events: at most one callback and at most maxRetries + 1 fetches, the callback being
      the one a plain retry loop over the same endings reaches; the machine stops after boundedly many events. */
  lemma EveryRun(env: Env, events: seq<Event>, t: Request)
    requires Run(env, Begin(), events, t)
    ensures |t.outcomes| <= 1 && Heard(t.outcomes) == RetryLoop(env, t.log, 0)
    ensures 1 <= t.fetches <= env.maxRetries + 1
    ensures NetworkEvents(events) <= 4 * (env.maxRetries + 1)
    ensures t.outcomes != [] && !t.cancelled ==> t.jobs == {}
  {
    BeginOk(env);
    RunKeeps(env, Begin(), events, t);
  }

  /** Nothing is lost: a request that was not cancelled and has nothing pending made its one callback. */
  lemma NeverStuck(env: Env, events: seq<Event>, t: Request)
    requires Run(env, Begin(), events, t) && Cancelled !in events
    requires forall e: Event | !e.Cancelled? :: !Enabled(t, e)
    ensures |t.outcomes| == 1
  {
    BeginOk(env);
    RunKeeps(env, Begin(), events, t);
    var n: nat := t.fetches - 1;
    assert !Enabled(t, Rejected(n)) && !Enabled(t, BackoffFired(n + 1));
  }

  /** Nothing is heard after a cancel, nothing more is fetched, and no timer is left running. */
  lemma SilentAfterCancel(env: Env, before: seq<Event>, r: Request, events: seq<Event>, t: Request)
    requires Run(env, Begin(), before, r) && Run(env, Cancel(r), events, t)
    ensures t.outcomes == r.outcomes && t.fetches == r.fetches
    ensures forall n :: Deadline(n) !in t.jobs && Backoff(n) !in t.jobs
  {
    BeginOk(env);
    RunKeeps(env, Begin(), before, r);
    CancelOk(env, r);
    RunKeeps(env, Cancel(r), events, t);
  }
}
