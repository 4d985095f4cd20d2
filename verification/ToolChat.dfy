/**
 `SendChatTools`, internal/ai/transport.go: a request that is posted once more, without its
 reasoning effort, when the server rejects that effort.
 */
module ToolChat {
  import opened Wrappers
  import opened RequestMachine

  /** What the caller hears: the model's message, or an error. */
  datatype Reply = Answer(message: string) | Trouble(message: string)

  datatype ChatEnv = ChatEnv(
    net: Env,
    build: string -> Option<string>,       // by effort: the error of building the request, if any
    parse: string -> Reply,                // the message in a response body, or why there is none
    effortUnsupported: string -> bool)     // does this error reject the effort?

  datatype Post = Post(effort: string, request: Request)

  /** `posts` are the requests made, the last one being the active one; `replies` the callbacks;
      `noted` whether the model is remembered as rejecting the effort. */
  datatype Chat = Chat(cancelled: bool, posts: seq<Post>, replies: seq<Reply>, noted: bool)

  datatype ChatEvent = Net(i: nat, event: Event) | CancelChat

  function Start(env: ChatEnv, c: Chat, effort: string): Chat {
    var failed := env.build(effort);
    if failed.Some? then c.(replies := c.replies + [Trouble(failed.value)])
    else c.(posts := c.posts + [Post(effort, Begin())])
  }

  /** A model already known to reject the effort is asked without it. */
  function FirstEffort(effort: string, noted: bool): string { if effort != "" && noted then "" else effort }

  function Open(env: ChatEnv, effort: string, noted: bool): Chat {
    Start(env, Chat(false, [], [], noted), FirstEffort(effort, noted))
  }

  function OnOutcome(env: ChatEnv, c: Chat, effort: string, outcome: Outcome): Chat {
    match outcome
    case Success(data) => c.(replies := c.replies + [env.parse(data)])
    case Failure(message) =>
      if !c.cancelled && effort != "" && env.effortUnsupported(message) then Start(env, c.(noted := true), "")
      else c.(replies := c.replies + [Trouble(message)])
  }

  predicate ChatEnabled(c: Chat, e: ChatEvent) {
    e.Net? ==> e.i < |c.posts| && !e.event.Cancelled? && Enabled(c.posts[e.i].request, e.event)
  }

  function ChatStep(env: ChatEnv, c: Chat, e: ChatEvent): Chat
    requires ChatEnabled(c, e)
  {
    match e
    case CancelChat =>
      var active := |c.posts| - 1;
      var posts := if active < 0 then c.posts
                   else c.posts[active := c.posts[active].(request := Cancel(c.posts[active].request))];
      c.(cancelled := true, posts := posts)
    case Net(i, event) =>
      var was := c.posts[i].request;
      var now := Step(env.net, was, event);
      var c := c.(posts := c.posts[i := c.posts[i].(request := now)]);
      if |now.outcomes| <= |was.outcomes| then c
      else OnOutcome(env, c, c.posts[i].effort, now.outcomes[|was.outcomes|])
  }

  // ----- the plain form it must agree with -----

  /** What the caller hears when the attempts of each request end as `logs` tells, one request after the other. */
  function TryBoth(env: ChatEnv, effort: string, logs: seq<seq<Ending>>): Option<Reply>
    decreases |logs|
  {
    if env.build(effort).Some? then Some(Trouble(env.build(effort).value))
    else if logs == [] then None
    else
      match RetryLoop(env.net, logs[0], 0)
      case None => None
      case Some(Success(data)) => Some(env.parse(data))
      case Some(Failure(message)) =>
        if effort != "" && env.effortUnsupported(message) then TryBoth(env, "", logs[1..])
        else Some(Trouble(message))
  }

  function Logs(c: Chat): seq<seq<Ending>> { seq(|c.posts|, i requires 0 <= i < |c.posts| => c.posts[i].request.log) }

  function Spoken(replies: seq<Reply>): Option<Reply> { if replies == [] then None else Some(replies[0]) }

  // ----- what every event keeps -----

  /** Only the last request may still be alive, and a second one is made only without an effort. */
  predicate PostsOk(env: ChatEnv, c: Chat, effort: string) {
    && |c.posts| <= 2
    && (forall p | p in c.posts :: RequestOk(env.net, p.request) && env.build(p.effort) == None)
    && (|c.posts| >= 1 ==> c.posts[0].effort == effort)
    && (|c.posts| == 2 ==>
          && c.posts[1].effort == "" && effort != ""
          && !c.posts[0].request.cancelled && |c.posts[0].request.outcomes| == 1)
    && (c.posts != [] ==> c.posts[|c.posts| - 1].request.cancelled == c.cancelled)
  }

  /** The caller has heard what the plain form says, and something exactly if nothing more can come. */
  predicate RepliesOk(env: ChatEnv, c: Chat, effort: string) {
    && |c.replies| <= 1
    && Spoken(c.replies) == TryBoth(env, effort, Logs(c))
    && (c.replies == [] <==> c.posts != [] && c.posts[|c.posts| - 1].request.outcomes == [])
  }

  predicate ChatOk(env: ChatEnv, c: Chat, effort: string) { PostsOk(env, c, effort) && RepliesOk(env, c, effort) }

  /** A request whose outcome was heard has nothing pending any more. */
  lemma Finished(env: ChatEnv, c: Chat, effort: string, i: nat, event: Event)
    requires PostsOk(env, c, effort) && i < |c.posts| && Enabled(c.posts[i].request, event) && !event.Cancelled?
    ensures i == |c.posts| - 1
    ensures RequestOk(env.net, c.posts[i].request)
  {
    assert c.posts[i] in c.posts;
  }

  lemma OpenOk(env: ChatEnv, effort: string, noted: bool)
    ensures ChatOk(env, Open(env, effort, noted), FirstEffort(effort, noted)) && !Open(env, effort, noted).cancelled
  {
    BeginOk(env.net);
    assert RetryLoop(env.net, [], 0) == None;
  }

  lemma CancelKeeps(env: ChatEnv, c: Chat, effort: string)
    requires ChatOk(env, c, effort)
    ensures ChatOk(env, ChatStep(env, c, CancelChat), effort)
    ensures ChatStep(env, c, CancelChat).replies == c.replies
  {
    if c.posts != [] {
      var last := c.posts[|c.posts| - 1];
      assert last in c.posts;
      CancelOk(env.net, last.request);
      assert Logs(ChatStep(env, c, CancelChat)) == Logs(c);
    }
  }

  function Told(env: ChatEnv, effort: string, heard: Option<Outcome>, second: Option<Reply>): Option<Reply> {
    match heard
    case None => None
    case Some(Success(data)) => Some(env.parse(data))
    case Some(Failure(message)) =>
      if effort != "" && env.effortUnsupported(message) then second else Some(Trouble(message))
  }

  function ByOutcomes(env: ChatEnv, effort: string, outcomes: seq<seq<Outcome>>): Option<Reply>
    requires outcomes != []
  {
    Told(env, effort, Heard(outcomes[0]),
         if env.build("").Some? then Some(Trouble(env.build("").value))
         else if |outcomes| == 1 then None
         else Told(env, "", Heard(outcomes[1]), None))
  }

  function Outcomes(c: Chat): seq<seq<Outcome>> {
    seq(|c.posts|, i requires 0 <= i < |c.posts| => c.posts[i].request.outcomes)
  }

  /** The plain form depends on the outcomes of the requests only. */
  lemma TryBothByOutcomes(env: ChatEnv, c: Chat, effort: string)
    requires PostsOk(env, c, effort) && c.posts != []
    ensures TryBoth(env, effort, Logs(c)) == ByOutcomes(env, effort, Outcomes(c))
  {
    assert c.posts[0] in c.posts;
    assert Logs(c)[0] == c.posts[0].request.log;
    if |c.posts| == 2 {
      assert c.posts[1] in c.posts;
      assert Logs(c)[1..][0] == c.posts[1].request.log;
    }
  }

  /** In a second request's favour: the first one failed because of the effort. */
  predicate SecondChance(env: ChatEnv, c: Chat) {
    |c.posts| == 2 ==>
      && |c.posts[0].request.outcomes| == 1 && c.posts[0].request.outcomes[0].Failure?
      && env.effortUnsupported(c.posts[0].request.outcomes[0].message)
  }

  lemma WhileSilent(env: ChatEnv, c: Chat, effort: string)
    requires ChatOk(env, c, effort) && c.replies == []
    ensures SecondChance(env, c)
  {
    TryBothByOutcomes(env, c, effort);
  }

  /** The active request has just settled, and the caller is told or the second request is made. */
  lemma OutcomeKeeps(env: ChatEnv, c: Chat, effort: string, outcome: Outcome)
    requires PostsOk(env, c, effort) && SecondChance(env, c) && c.posts != [] && c.replies == [] && !c.cancelled
    requires c.posts[|c.posts| - 1].request.outcomes == [outcome]
    ensures ChatOk(env, OnOutcome(env, c, c.posts[|c.posts| - 1].effort, outcome), effort)
  {
    var d := OnOutcome(env, c, c.posts[|c.posts| - 1].effort, outcome);
    OutcomePosts(env, c, effort, outcome);
    OutcomeReply(env, c, effort, outcome);
    TryBothByOutcomes(env, d, effort);
  }

  lemma OutcomeReply(env: ChatEnv, c: Chat, effort: string, outcome: Outcome)
    requires SecondChance(env, c) && 1 <= |c.posts| <= 2 && c.replies == [] && !c.cancelled
    requires c.posts[0].effort == effort && (|c.posts| == 2 ==> effort != "" && c.posts[1].effort == "")
    requires |c.posts| == 2 ==> env.build("") == None
    requires c.posts[|c.posts| - 1].request.outcomes == [outcome]
    ensures var d := OnOutcome(env, c, c.posts[|c.posts| - 1].effort, outcome);
            && d.posts != [] && |d.replies| <= 1 && ByOutcomes(env, effort, Outcomes(d)) == Spoken(d.replies)
            && (d.replies == [] <==> d.posts[|d.posts| - 1].request.outcomes == [])
  {
    var d := OnOutcome(env, c, c.posts[|c.posts| - 1].effort, outcome);
    assert Outcomes(d)[0] == c.posts[0].request.outcomes;
  }

  lemma OutcomePosts(env: ChatEnv, c: Chat, effort: string, outcome: Outcome)
    requires PostsOk(env, c, effort) && c.posts != [] && !c.cancelled
    requires c.posts[|c.posts| - 1].request.outcomes == [outcome]
    ensures PostsOk(env, OnOutcome(env, c, c.posts[|c.posts| - 1].effort, outcome), effort)
    ensures |c.posts| == 2 ==> env.build("") == None
  {
    var d := OnOutcome(env, c, c.posts[|c.posts| - 1].effort, outcome);
    assert c.posts[0] in c.posts;
    BeginOk(env.net);
    assert forall p | p in d.posts :: p in c.posts || p == Post("", Begin());
  }

  lemma QuietKeeps(env: ChatEnv, c: Chat, mid: Chat, effort: string)
    requires ChatOk(env, c, effort) && PostsOk(env, mid, effort)
    requires mid.replies == c.replies && c.posts != [] && Outcomes(mid) == Outcomes(c)
    ensures ChatOk(env, mid, effort)
  {
    TryBothByOutcomes(env, c, effort);
    TryBothByOutcomes(env, mid, effort);
    var last := |Outcomes(c)| - 1;
    assert Outcomes(c)[last] == Outcomes(mid)[last];
  }

  lemma NetKeeps(env: ChatEnv, c: Chat, effort: string, i: nat, event: Event)
    requires ChatOk(env, c, effort) && ChatEnabled(c, Net(i, event))
    ensures var d := ChatStep(env, c, Net(i, event));
            ChatOk(env, d, effort) && d.cancelled == c.cancelled && (c.cancelled ==> d.replies == c.replies)
  {
    var was := c.posts[i].request;
    var now := Step(env.net, was, event);
    var mid := PostMoves(env, c, effort, i, event);
    if |now.outcomes| <= |was.outcomes| {
      assert Outcomes(mid) == Outcomes(c);
      QuietKeeps(env, c, mid, effort);
    } else {
      WhileSilent(env, c, effort);
      OutcomeKeeps(env, mid, effort, now.outcomes[0]);
    }
  }

  /** The active request moves on, and nobody is told yet. */
  lemma PostMoves(env: ChatEnv, c: Chat, effort: string, i: nat, event: Event) returns (mid: Chat)
    requires PostsOk(env, c, effort) && ChatEnabled(c, Net(i, event))
    ensures i == |c.posts| - 1
    ensures var was, now := c.posts[i].request, Step(env.net, c.posts[i].request, event);
            && mid == c.(posts := c.posts[i := c.posts[i].(request := now)]) && PostsOk(env, mid, effort)
            && (now.outcomes == was.outcomes || (was.outcomes == [] && |now.outcomes| == 1 && !c.cancelled))
  {
    Finished(env, c, effort, i, event);
    StepKeeps(env.net, c.posts[i].request, event);
    mid := c.(posts := c.posts[i := c.posts[i].(request := Step(env.net, c.posts[i].request, event))]);
    assert forall p | p in mid.posts :: p in c.posts || p == mid.posts[i];
  }

  lemma ChatStepKeeps(env: ChatEnv, c: Chat, effort: string, e: ChatEvent)
    requires ChatOk(env, c, effort) && ChatEnabled(c, e)
    ensures var d := ChatStep(env, c, e);
            && ChatOk(env, d, effort) && d.cancelled == (c.cancelled || e == CancelChat)
            && (d.cancelled ==> d.replies == c.replies)
  {
    match e
    case CancelChat => CancelKeeps(env, c, effort);
    case Net(i, event) => NetKeeps(env, c, effort, i, event);
  }

  ghost predicate ChatRun(env: ChatEnv, c: Chat, events: seq<ChatEvent>, d: Chat)
    decreases |events|
  {
    if events == [] then c == d
    else ChatEnabled(c, events[0]) && ChatRun(env, ChatStep(env, c, events[0]), events[1..], d)
  }

  lemma {:induction false} ChatRunKeeps(env: ChatEnv, c: Chat, effort: string, events: seq<ChatEvent>, d: Chat)
    requires ChatOk(env, c, effort) && ChatRun(env, c, events, d)
    ensures ChatOk(env, d, effort) && d.cancelled == (c.cancelled || CancelChat in events)
    ensures c.cancelled ==> d.replies == c.replies
    decreases |events|
  {
    if events != [] {
      ChatStepKeeps(env, c, effort, events[0]);
      ChatRunKeeps(env, ChatStep(env, c, events[0]), effort, events[1..], d);
      assert CancelChat in events <==> events[0] == CancelChat || CancelChat in events[1..];
    }
  }

  function Fetches(posts: seq<Post>): nat {
    if posts == [] then 0 else posts[0].request.fetches + Fetches(posts[1..])
  }

  lemma {:induction false} FetchesBound(posts: seq<Post>, each: nat)
    requires forall p | p in posts :: p.request.fetches <= each
    ensures Fetches(posts) <= |posts| * each
  {
    if posts != [] {
      assert posts[0] in posts;
      FetchesBound(posts[1..], each);
      assert |posts| * each == each + |posts[1..]| * each;
    }
  }

  /** Every order of events: the caller hears at most one thing, the one that two retry loops in a row
      reach, and there are at most twice the fetches of one request. */
  lemma EveryChat(env: ChatEnv, effort: string, noted: bool, events: seq<ChatEvent>, d: Chat)
    requires ChatRun(env, Open(env, effort, noted), events, d)
    ensures |d.replies| <= 1 && Spoken(d.replies) == TryBoth(env, FirstEffort(effort, noted), Logs(d))
    ensures Fetches(d.posts) <= 2 * (env.net.maxRetries + 1)
    ensures effort == "" || noted ==> Fetches(d.posts) <= env.net.maxRetries + 1
  {
    OpenOk(env, effort, noted);
    ChatRunKeeps(env, Open(env, effort, noted), FirstEffort(effort, noted), events, d);
    FetchesBound(d.posts, env.net.maxRetries + 1);
  }

  /** Nothing is heard after a cancel, whatever was under way. */
  lemma ChatSilentAfterCancel(env: ChatEnv, effort: string, noted: bool, before: seq<ChatEvent>, c: Chat,
                              events: seq<ChatEvent>, d: Chat)
    requires ChatRun(env, Open(env, effort, noted), before, c)
    requires ChatRun(env, ChatStep(env, c, CancelChat), events, d)
    ensures d.replies == c.replies
  {
    var first := FirstEffort(effort, noted);
    OpenOk(env, effort, noted);
    ChatRunKeeps(env, Open(env, effort, noted), first, before, c);
    CancelKeeps(env, c, first);
    ChatRunKeeps(env, ChatStep(env, c, CancelChat), first, events, d);
  }

  /** A chat that was not cancelled and has nothing pending has told its caller. */
  lemma ChatNeverStuck(env: ChatEnv, effort: string, noted: bool, events: seq<ChatEvent>, d: Chat)
    requires ChatRun(env, Open(env, effort, noted), events, d) && CancelChat !in events
    requires forall e: ChatEvent | e.Net? :: !ChatEnabled(d, e)
    ensures |d.replies| == 1
  {
    OpenOk(env, effort, noted);
    ChatRunKeeps(env, Open(env, effort, noted), FirstEffort(effort, noted), events, d);
    if d.replies == [] {
      var e := Pending(env, d, FirstEffort(effort, noted));
    }
  }

  lemma Pending(env: ChatEnv, c: Chat, effort: string) returns (e: ChatEvent)
    requires ChatOk(env, c, effort) && c.replies == [] && !c.cancelled
    ensures e.Net? && ChatEnabled(c, e)
  {
    var i := |c.posts| - 1;
    assert c.posts[i] in c.posts;
    var n: nat := c.posts[i].request.fetches - 1;
    e := Net(i, if Backoff(n + 1) in c.posts[i].request.jobs then BackoffFired(n + 1) else Rejected(n));
  }
}
