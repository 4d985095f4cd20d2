/**
 What the reply of a chat has to do with the events that happened.
 */
module ChatTrace {
  import opened Wrappers
  import opened RequestMachine
  import opened RequestTrace
  import opened ToolChat

  /** The network events of one of the chat's requests. */
  function Seen(events: seq<ChatEvent>, i: nat): seq<Event> {
    if events == [] then []
    else
      var before, e := Seen(events[..|events| - 1], i), events[|events| - 1];
      if e.Net? && e.i == i then before + [e.event] else before
  }

  lemma SeenMore(events: seq<ChatEvent>, e: ChatEvent, i: nat)
    ensures Seen(events + [e], i) == if e.Net? && e.i == i then Seen(events, i) + [e.event] else Seen(events, i)
  {
    assert (events + [e])[..|events|] == events;
  }

  ghost predicate Followed(events: seq<Event>, r: Request) { Captured(events, r) && LogTold(events, r) }

  /** Each request has followed its own events, and a request not made yet has had none. */
  ghost predicate AllFollowed(events: seq<ChatEvent>, c: Chat) {
    && (forall i: nat | i < |c.posts| :: Followed(Seen(events, i), c.posts[i].request))
    && (forall i: nat | i >= |c.posts| :: Seen(events, i) == [])
  }

  lemma CancelFollows(events: seq<Event>, r: Request)
    requires Followed(events, r)
    ensures Followed(events, Cancel(r))
  {
  }

  lemma BeginFollows()
    ensures Followed([], Begin())
  {
  }

  lemma StepFollows(env: Env, events: seq<Event>, r: Request, e: Event)
    requires RequestOk(env, r) && Followed(events, r) && Enabled(r, e)
    ensures Followed(events + [e], Step(env, r, e))
  {
    CapturedMore(env, r, events, e);
    LogGrows(env, r, events, e);
  }

  /** A network event moves one request, and leaves the others; at most a new one is added. */
  lemma NetPosts(env: ChatEnv, c: Chat, i: nat, event: Event)
    requires ChatEnabled(c, Net(i, event))
    ensures var d := ChatStep(env, c, Net(i, event));
            && |c.posts| <= |d.posts| <= |c.posts| + 1
            && (forall k: nat | k < |c.posts| && k != i :: d.posts[k] == c.posts[k])
            && d.posts[i] == Post(c.posts[i].effort, Step(env.net, c.posts[i].request, event))
            && (|d.posts| > |c.posts| ==> d.posts[|c.posts|].request == Begin())
  {
  }

  lemma NetFollowsOne(env: ChatEnv, c: Chat, events: seq<ChatEvent>, i: nat, event: Event, k: nat)
    requires ChatEnabled(c, Net(i, event)) && RequestOk(env.net, c.posts[i].request)
    requires if k < |c.posts| then Followed(Seen(events, k), c.posts[k].request) else Seen(events, k) == []
    ensures var d, seen := ChatStep(env, c, Net(i, event)), Seen(events + [Net(i, event)], k);
            if k < |d.posts| then Followed(seen, d.posts[k].request) else seen == []
  {
    NetPosts(env, c, i, event);
    SeenMore(events, Net(i, event), k);
    if k == i {
      StepFollows(env.net, Seen(events, i), c.posts[i].request, event);
    } else if k >= |c.posts| {
      BeginFollows();
    }
  }

  lemma NetFollows(env: ChatEnv, c: Chat, effort: string, events: seq<ChatEvent>, i: nat, event: Event)
    requires PostsOk(env, c, effort) && AllFollowed(events, c) && ChatEnabled(c, Net(i, event))
    ensures AllFollowed(events + [Net(i, event)], ChatStep(env, c, Net(i, event)))
  {
    var d, more := ChatStep(env, c, Net(i, event)), events + [Net(i, event)];
    assert c.posts[i] in c.posts;
    forall k: nat
      ensures if k < |d.posts| then Followed(Seen(more, k), d.posts[k].request) else Seen(more, k) == []
    {
      NetFollowsOne(env, c, events, i, event, k);
    }
  }

  lemma CancelChatFollows(env: ChatEnv, c: Chat, events: seq<ChatEvent>)
    requires AllFollowed(events, c)
    ensures AllFollowed(events + [CancelChat], ChatStep(env, c, CancelChat))
  {
    var d := ChatStep(env, c, CancelChat);
    forall k: nat
      ensures k < |d.posts| ==> Followed(Seen(events + [CancelChat], k), d.posts[k].request)
      ensures k >= |d.posts| ==> Seen(events + [CancelChat], k) == []
    {
      SeenMore(events, CancelChat, k);
      if k < |d.posts| {
        CancelFollows(Seen(events, k), c.posts[k].request);
      }
    }
  }

  lemma EventFollows(env: ChatEnv, c: Chat, effort: string, events: seq<ChatEvent>, e: ChatEvent)
    requires PostsOk(env, c, effort) && AllFollowed(events, c) && ChatEnabled(c, e)
    ensures AllFollowed(events + [e], ChatStep(env, c, e))
  {
    if e.Net? {
      NetFollows(env, c, effort, events, e.i, e.event);
    } else {
      CancelChatFollows(env, c, events);
    }
  }

  lemma {:induction false} ChatFollows(env: ChatEnv, c: Chat, effort: string, before: seq<ChatEvent>,
                                       events: seq<ChatEvent>, d: Chat)
    requires ChatOk(env, c, effort) && AllFollowed(before, c) && ChatRun(env, c, events, d)
    ensures AllFollowed(before + events, d)
    decreases |events|
  {
    if events == [] {
      assert before + events == before;
    } else {
      var e := events[0];
      ChatStepKeeps(env, c, effort, e);
      EventFollows(env, c, effort, before, e);
      ChatFollows(env, ChatStep(env, c, e), effort, before + [e], events[1..], d);
      assert (before + [e]) + events[1..] == before + events;
    }
  }

  lemma OpenFollows(env: ChatEnv, effort: string, noted: bool)
    ensures AllFollowed([], Open(env, effort, noted))
  {
    BeginFollows();
  }

  /** Whatever order the events came in, the logs from which the reply follows tell, request by request and
      attempt by attempt, what happened. */
  lemma ChatLogsAreTrue(env: ChatEnv, effort: string, noted: bool, events: seq<ChatEvent>, d: Chat, i: nat, k: nat)
    requires ChatRun(env, Open(env, effort, noted), events, d) && i < |d.posts| && k < |Logs(d)[i]|
    ensures RequestTrace.Told(Seen(events, i), k, Logs(d)[i][k])
  {
    OpenOk(env, effort, noted);
    OpenFollows(env, effort, noted);
    ChatFollows(env, Open(env, effort, noted), FirstEffort(effort, noted), [], events, d);
    assert [] + events == events;
  }

  // ----- what the caller is told -----

  /** A body that came is parsed; an error is passed on. */
  function Tells(env: ChatEnv, outcome: Outcome): Reply {
    match outcome
    case Success(data) => env.parse(data)
    case Failure(message) => Trouble(message)
  }

  /** The reply comes of one of the requests, or of a failure to build one. */
  ghost predicate Grounded(env: ChatEnv, logs: seq<seq<Ending>>, reply: Reply, i: nat, k: nat) {
    && i < |logs| && k < |logs[i]| && reply == Tells(env, Says(env.net, logs[i][k]))
    && k <= env.net.maxRetries && (k == env.net.maxRetries || !Again(logs[i][k]))
  }

  ghost predicate CouldNotBuild(env: ChatEnv, effort: string, reply: Reply) {
    env.build(effort).Some? && reply == Trouble(env.build(effort).value)
  }

  lemma DecidesInTime(env: Env, endings: seq<Ending>, k: nat)
    requires Decides(env, endings, 0, k)
    ensures k <= env.maxRetries && (k == env.maxRetries || !Again(endings[k]))
  {
    assert k > 0 ==> Again(endings[k - 1]) && k - 1 < env.maxRetries;
  }

  lemma {:induction false} TryBothMeans(env: ChatEnv, effort: string, logs: seq<seq<Ending>>) returns (i: nat, k: nat)
    requires TryBoth(env, effort, logs).Some?
    ensures var reply := TryBoth(env, effort, logs).value;
            Grounded(env, logs, reply, i, k) || CouldNotBuild(env, effort, reply) || CouldNotBuild(env, "", reply)
    decreases |logs|
  {
    i, k := 0, 0;
    if env.build(effort) == None {
      k := RetryLoopMeans(env.net, logs[0], 0);
      DecidesInTime(env.net, logs[0], k);
      var heard := RetryLoop(env.net, logs[0], 0).value;
      if heard.Failure? && effort != "" && env.effortUnsupported(heard.message) {
        var i', k' := TryBothMeans(env, "", logs[1..]);
        i, k := i' + 1, k';
      }
    }
  }

  /** Whatever a chat replies is what happened: the body of a response below 400, parsed, or the error of an attempt
      that was not to be repeated, or that the request could not be built. */
  lemma ReplyIsTrue(env: ChatEnv, effort: string, noted: bool, events: seq<ChatEvent>, d: Chat, reply: Reply)
    returns (i: nat, k: nat)
    requires ChatRun(env, Open(env, effort, noted), events, d) && reply in d.replies
    ensures || CouldNotBuild(env, FirstEffort(effort, noted), reply) || CouldNotBuild(env, "", reply)
            || (Grounded(env, Logs(d), reply, i, k) && RequestTrace.Told(Seen(events, i), k, Logs(d)[i][k]))
  {
    EveryChat(env, effort, noted, events, d);
    i, k := TryBothMeans(env, FirstEffort(effort, noted), Logs(d));
    if Grounded(env, Logs(d), reply, i, k) {
      ChatLogsAreTrue(env, effort, noted, events, d, i, k);
    }
  }

  // ----- what is remembered of the model -----

  /** The first request was made with an effort, and failed because of it. */
  predicate EffortRejected(env: ChatEnv, c: Chat) {
    && c.posts != [] && c.posts[0].effort != "" && |c.posts[0].request.outcomes| == 1
    && c.posts[0].request.outcomes[0].Failure? && env.effortUnsupported(c.posts[0].request.outcomes[0].message)
  }

  predicate NotedRight(env: ChatEnv, c: Chat, noted: bool) { c.noted <==> noted || EffortRejected(env, c) }

  lemma {:induction false} ChatNotes(env: ChatEnv, c: Chat, effort: string, noted: bool, events: seq<ChatEvent>,
                                     d: Chat)
    requires ChatOk(env, c, effort) && NotedRight(env, c, noted) && ChatRun(env, c, events, d)
    ensures NotedRight(env, d, noted)
    decreases |events|
  {
    if events != [] {
      NoteStep(env, c, effort, noted, events[0]);
      ChatStepKeeps(env, c, effort, events[0]);
      ChatNotes(env, ChatStep(env, c, events[0]), effort, noted, events[1..], d);
    }
  }

  lemma NoteStep(env: ChatEnv, c: Chat, effort: string, noted: bool, e: ChatEvent)
    requires ChatOk(env, c, effort) && NotedRight(env, c, noted) && ChatEnabled(c, e)
    ensures NotedRight(env, ChatStep(env, c, e), noted)
  {
    match e
    case CancelChat =>
      if c.posts != [] {
        var last := c.posts[|c.posts| - 1];
        assert last in c.posts;
        CancelOk(env.net, last.request);
      }
    case Net(i, event) =>
      var mid := PostMoves(env, c, effort, i, event);
      NetPosts(env, c, i, event);
  }

  /** A model is remembered as rejecting the effort exactly if it was already, or its first request failed
      with such an error. */
  lemma NotedExactly(env: ChatEnv, effort: string, noted: bool, events: seq<ChatEvent>, d: Chat)
    requires ChatRun(env, Open(env, effort, noted), events, d)
    ensures d.noted <==> noted || EffortRejected(env, d)
  {
    OpenOk(env, effort, noted);
    ChatNotes(env, Open(env, effort, noted), FirstEffort(effort, noted), noted, events, d);
  }
}
