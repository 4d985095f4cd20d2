/**
 The agent loop of internal/agent/agent.go: a tool registry and the bounded loop that asks a
 model, runs the tools it calls and feeds their results back.

 The model, the tool handlers, the context and JSON validity are functions, the first three also of the
 step they are asked in, so that they may behave in any way from step to step.
 */
module AgentLoop {
  import opened Wrappers
  import opened Money
  import opened Sequences

  datatype Output = Output(content: string, err: string)

  /** A handler is told the step and the position of the call within it. */
  datatype Tool = Tool(name: string, description: string, params: string, handler: (nat, nat, string) -> Output)

  datatype ToolCall = ToolCall(id: string, name: string, args: string)
  datatype ToolResult = ToolResult(callId: string, name: string, content: string, err: string)
  datatype Turn = Turn(text: string, calls: seq<ToolCall>, input: int64, output: int64)
  datatype Message = Message(role: string, content: string, toolCallId: string)
  datatype Step = Step(turn: Turn, results: seq<ToolResult>)
  datatype Stop = Done | MaxSteps | OverBudget | Canceled | ModelFailed
  datatype Transcript = Transcript(steps: seq<Step>, final: string, stop: Stop, tokensUsed: int64)
  datatype Options = Options(maxSteps: int64, tokenBudget: int64)
  datatype Reply = Answered(turn: Turn) | NoTurn(err: string)

  datatype World = World(
    next: (nat, seq<Message>) -> Reply,     // the model, at a step, on a conversation
    canceled: nat -> bool,                  // the context, when a step begins
    validJson: string -> bool)

  const DEFAULT_MAX_STEPS: nat := 8

  function Limit(opts: Options): nat { if opts.maxSteps <= 0 then DEFAULT_MAX_STEPS else opts.maxSteps }

  // ----- the registry -----

  predicate Distinct(tools: seq<Tool>) {
    forall i, j | 0 <= i < j < |tools| :: tools[i].name != tools[j].name
  }

  /** The tool of a name, found by looking at one after the other. */
  function Lookup(tools: seq<Tool>, name: string): Option<Tool> {
    if tools == [] then None
    else if tools[0].name == name then Some(tools[0])
    else Lookup(tools[1..], name)
  }

  lemma {:induction false} LookupFinds(tools: seq<Tool>, name: string)
    ensures Lookup(tools, name).None? <==> forall i | 0 <= i < |tools| :: tools[i].name != name
    ensures forall i | 0 <= i < |tools| && Distinct(tools) && tools[i].name == name ::
              Lookup(tools, name) == Some(tools[i])
  {
    if tools != [] {
      LookupFinds(tools[1..], name);
      assert forall i | 1 <= i < |tools| :: tools[i] == tools[1..][i - 1];
      assert Distinct(tools) ==> Distinct(tools[1..]);
    }
  }

  lemma LookupChanged(before: seq<Tool>, after: seq<Tool>, i: nat, t: Tool, name: string)
    requires Distinct(before) && Distinct(after) && |before| <= |after| && i < |after| && after[i] == t
    requires forall j | 0 <= j < |after| && j != i :: j < |before| && after[j] == before[j]
    requires i < |before| ==> before[i].name == t.name
    ensures Lookup(after, name) == if name == t.name then Some(t) else Lookup(before, name)
  {
    LookupFinds(before, name);
    LookupFinds(after, name);
    if name != t.name && Lookup(before, name).Some? {
      var j :| 0 <= j < |before| && before[j].name == name;
      assert after[j] == before[j];
    }
  }

  function Names(tools: seq<Tool>): seq<string> { seq(|tools|, i requires 0 <= i < |tools| => tools[i].name) }

  /** What a call yields: every failure becomes a result. */
  function Executed(world: World, tools: seq<Tool>, call: ToolCall, step: nat, position: nat): ToolResult {
    var tool := Lookup(tools, call.name);
    if tool.None? then ToolResult(call.id, call.name, "", "unknown tool: " + call.name)
    else if |call.args| > 0 && !world.validJson(call.args) then
      ToolResult(call.id, call.name, "", "invalid JSON arguments")
    else var out := tool.value.handler(step, position, call.args);
         ToolResult(call.id, call.name, out.content, out.err)
  }

  class Registry {
    var tools: seq<Tool>
    var index: map<string, nat>

    ghost predicate Valid()
      reads this
    {
      && (forall name | name in index :: index[name] < |tools| && tools[index[name]].name == name)
      && (forall i | 0 <= i < |tools| :: tools[i].name in index && index[tools[i].name] == i)
    }

    constructor ()
      ensures Valid() && tools == []
    {
      tools, index := [], map[];
    }

    lemma NamesDistinct()
      requires Valid()
      ensures Distinct(tools)
    {
    }

    /** Adds or replaces: the name now stands for t, every other name for what it did, and no tool moves. */
    method Register(t: Tool)
      requires Valid()
      modifies this
      ensures Valid()
      ensures forall name :: Lookup(tools, name) == if name == t.name then Some(t) else old(Lookup(tools, name))
      ensures Names(tools) == old(Names(tools)) + (if t.name in old(Names(tools)) then [] else [t.name])
    {
      ghost var before := tools;
      NamesDistinct();
      assert t.name in Names(tools) <==> t.name in index by {
        assert t.name in index ==> Names(tools)[index[t.name]] == t.name;
      }
      if t.name in index {
        tools := tools[index[t.name] := t];
      } else {
        index := index[t.name := |tools|];
        tools := tools + [t];
      }
      NamesDistinct();
      forall name
        ensures Lookup(tools, name) == if name == t.name then Some(t) else Lookup(before, name)
      {
        LookupChanged(before, tools, index[t.name], t, name);
      }
    }

    function Get(name: string): (tool: Option<Tool>)
      requires Valid()
      reads this
      ensures tool == Lookup(tools, name)
    {
      NamesDistinct();
      LookupFinds(tools, name);
      if name in index then Some(tools[index[name]]) else None
    }

    method Execute(world: World, call: ToolCall, step: nat, position: nat) returns (res: ToolResult)
      requires Valid()
      ensures res == Executed(world, tools, call, step, position)
    {
      res := ToolResult(call.id, call.name, "", "");
      var tool := Get(call.name);
      if tool.None? {
        return res.(err := "unknown tool: " + call.name);
      }
      if |call.args| > 0 && !world.validJson(call.args) {
        return res.(err := "invalid JSON arguments");
      }
      var out := tool.value.handler(step, position, call.args);
      res := res.(content := out.content);
      if out.err != "" {
        res := res.(err := out.err);
      }
    }

    /** Runs the calls of a turn in order and adds a message for each. */
    method ExecuteAll(world: World, calls: seq<ToolCall>, step: nat, convo: seq<Message>)
      returns (results: seq<ToolResult>, grown: seq<Message>)
      requires Valid()
      ensures results == ExecutedAll(world, tools, calls, step)
      ensures grown == convo + ToolMessages(results)
    {
      results, grown := [], convo;
      for i := 0 to |calls|
        invariant |results| == i
        invariant forall j | 0 <= j < i :: results[j] == Executed(world, tools, calls[j], step, j)
        invariant grown == convo + ToolMessages(results)
      {
        var res := Execute(world, calls[i], step, i);
        results := results + [res];
        var content := res.content;
        if res.err != "" {
          content := "error: " + res.err;
        }
        grown := grown + [Message("tool", content, res.callId)];
      }
    }
  }

  // ----- what the model is shown -----

  function ExecutedAll(world: World, tools: seq<Tool>, calls: seq<ToolCall>, step: nat): seq<ToolResult> {
    seq(|calls|, j requires 0 <= j < |calls| => Executed(world, tools, calls[j], step, j))
  }

  function ToolMessage(res: ToolResult): Message {
    Message("tool", if res.err != "" then "error: " + res.err else res.content, res.callId)
  }

  function ToolMessages(results: seq<ToolResult>): seq<Message> {
    seq(|results|, j requires 0 <= j < |results| => ToolMessage(results[j]))
  }

  function EncodeStep(s: Step): seq<Message> {
    [Message("assistant", s.turn.text, "")] + ToolMessages(s.results)
  }

  /** The part of the conversation that a transcript stands for. */
  function Encode(steps: seq<Step>): seq<Message> {
    if steps == [] then [] else Encode(steps[..|steps| - 1]) + EncodeStep(steps[|steps| - 1])
  }

  function Tokens(steps: seq<Step>): int {
    if steps == [] then 0
    else Tokens(steps[..|steps| - 1]) + steps[|steps| - 1].turn.input as int + steps[|steps| - 1].turn.output
  }

  lemma Snoc(steps: seq<Step>, s: Step)
    ensures Encode(steps + [s]) == Encode(steps) + EncodeStep(s)
    ensures Tokens(steps + [s]) == Tokens(steps) + s.turn.input as int + s.turn.output
  {
    assert (steps + [s])[..|steps|] == steps;
  }

  // ----- what a run is -----

  /** A step after others: not cancelled, the model was shown the history and the steps before, and each
      of its calls got its result. */
  ghost predicate StepReplays(world: World, tools: seq<Tool>, history: seq<Message>, before: seq<Step>, s: Step) {
    && !world.canceled(|before|)
    && world.next(|before|, history + Encode(before)) == Answered(s.turn)
    && s.results == ExecutedAll(world, tools, s.turn.calls, |before|)
  }

  predicate Exhausted(opts: Options, steps: seq<Step>) {
    opts.tokenBudget > 0 && Wrap(Tokens(steps)) >= opts.tokenBudget
  }

  /** Nothing in these steps ends the run. */
  predicate GoesOn(opts: Options, steps: seq<Step>) {
    steps != [] ==> steps[|steps| - 1].turn.calls != [] && !Exhausted(opts, steps)
  }

  ghost predicate StepsReplay(world: World, tools: seq<Tool>, history: seq<Message>, opts: Options, steps: seq<Step>) {
    steps != [] ==>
      var before := steps[..|steps| - 1];
      && StepsReplay(world, tools, history, opts, before) && GoesOn(opts, before)
      && StepReplays(world, tools, history, before, steps[|steps| - 1])
  }

  /** The reason given is the reason why there is no further step. */
  ghost predicate StopExplained(world: World, history: seq<Message>, opts: Options,
                                tr: Transcript, err: Option<string>) {
    var n := |tr.steps|;
    && (err.Some? <==> tr.stop.ModelFailed?)
    && (tr.final != "" ==> tr.stop.Done?)
    && match tr.stop
       case Done => n > 0 && tr.steps[n - 1].turn.calls == [] && tr.final == tr.steps[n - 1].turn.text
       case OverBudget => n > 0 && tr.steps[n - 1].turn.calls != [] && Exhausted(opts, tr.steps)
       case MaxSteps => n == Limit(opts) && GoesOn(opts, tr.steps)
       case Canceled => n < Limit(opts) && GoesOn(opts, tr.steps) && world.canceled(n)
       case ModelFailed =>
         && n < Limit(opts) && GoesOn(opts, tr.steps) && !world.canceled(n)
         && err.Some? && world.next(n, history + Encode(tr.steps)) == NoTurn(err.value)
  }

  ghost predicate RunOf(world: World, tools: seq<Tool>, history: seq<Message>, opts: Options,
                        tr: Transcript, err: Option<string>) {
    && |tr.steps| <= Limit(opts)
    && StepsReplay(world, tools, history, opts, tr.steps)
    && StopExplained(world, history, opts, tr, err)
    && tr.tokensUsed == Wrap(Tokens(tr.steps))
  }

  lemma WrapBoth(a: int, b: int)
    ensures Wrap(Wrap(a) as int + Wrap(b)) == Wrap(a + b)
  {
    WrapAdd(b, Wrap(a));
    WrapAdd(a, b);
  }

  /** One more step after steps that all went on. */
  lemma ReplaySnoc(world: World, tools: seq<Tool>, history: seq<Message>, opts: Options, steps: seq<Step>, s: Step)
    requires StepsReplay(world, tools, history, opts, steps) && GoesOn(opts, steps)
    requires StepReplays(world, tools, history, steps, s)
    ensures StepsReplay(world, tools, history, opts, steps + [s])
  {
    assert (steps + [s])[..|steps|] == steps;
  }

  method Spend(used: int64, turn: Turn, ghost steps: seq<Step>) returns (more: int64)
    requires used == Wrap(Tokens(steps))
    ensures forall s: Step | s.turn == turn :: more == Wrap(Tokens(steps + [s]))
  {
    WrapBoth(Tokens(steps), turn.input as int + turn.output);
    more := Wrap(used as int + Wrap(turn.input as int + turn.output));
    forall s: Step | s.turn == turn
      ensures more == Wrap(Tokens(steps + [s]))
    {
      Snoc(steps, s);
    }
  }

  /** Runs the calls of a turn and tells the conversation. */
  method TakeTurn(world: World, reg: Registry, ghost history: seq<Message>, ghost steps: seq<Step>, k: nat,
                  turn: Turn, convo: seq<Message>)
    returns (s: Step, after: seq<Message>)
    requires reg.Valid() && convo == history + Encode(steps) && k == |steps|
    requires !world.canceled(k) && world.next(k, convo) == Answered(turn)
    ensures s.turn == turn && StepReplays(world, reg.tools, history, steps, s)
    ensures after == history + Encode(steps + [s])
  {
    var results: seq<ToolResult>;
    var asked := convo + [Message("assistant", turn.text, "")];
    results, after := reg.ExecuteAll(world, turn.calls, k, asked);
    s := Step(turn, results);
    Snoc(steps, s);
    var said, told := [Message("assistant", turn.text, "")], ToolMessages(results);
    Regroup(history + Encode(steps), said, told);
    Regroup(history, Encode(steps), said + told);
  }

  method Run(world: World, reg: Registry, history: seq<Message>, opts: Options)
    returns (tr: Transcript, err: Option<string>)
    requires reg.Valid()
    ensures RunOf(world, reg.tools, history, opts, tr, err)
  {
    var convo := history;
    tr, err := Transcript([], "", MaxSteps, 0), None;
    for step := 0 to Limit(opts)
      invariant |tr.steps| == step && tr.final == "" && tr.stop.MaxSteps? && err == None
      invariant convo == history + Encode(tr.steps)
      invariant tr.tokensUsed == Wrap(Tokens(tr.steps))
      invariant StepsReplay(world, reg.tools, history, opts, tr.steps) && GoesOn(opts, tr.steps)
    {
      if world.canceled(step) {
        return tr.(stop := Canceled), None;
      }
      var reply := world.next(step, convo);
      if reply.NoTurn? {
        return tr.(stop := ModelFailed), Some(reply.err);
      }
      var used := Spend(tr.tokensUsed, reply.turn, tr.steps);
      var taken: Step;
      taken, convo := TakeTurn(world, reg, history, tr.steps, step, reply.turn, convo);
      ReplaySnoc(world, reg.tools, history, opts, tr.steps, taken);
      tr := tr.(steps := tr.steps + [taken], tokensUsed := used);
      if |reply.turn.calls| == 0 {
        return tr.(final := reply.turn.text, stop := Done), None;
      }
      if opts.tokenBudget > 0 && tr.tokensUsed >= opts.tokenBudget {
        return tr.(stop := OverBudget), None;
      }
    }
  }

  // ----- what follows of every run -----

  lemma {:induction false} ReplayAt(world: World, tools: seq<Tool>, history: seq<Message>, opts: Options,
                                    steps: seq<Step>, k: nat)
    requires StepsReplay(world, tools, history, opts, steps) && k < |steps|
    ensures StepsReplay(world, tools, history, opts, steps[..k]) && GoesOn(opts, steps[..k])
    ensures StepReplays(world, tools, history, steps[..k], steps[k])
  {
    var before := steps[..|steps| - 1];
    if k < |before| {
      ReplayAt(world, tools, history, opts, before, k);
      assert before[..k] == steps[..k];
    }
  }

  /** At every step the model sees the history and the encoding of the steps before, and its calls and their
      results agree one for one, by id, name and order; so do the messages that tell them. */
  lemma EveryStep(world: World, tools: seq<Tool>, history: seq<Message>, opts: Options,
                  tr: Transcript, err: Option<string>, k: nat)
    requires RunOf(world, tools, history, opts, tr, err) && k < |tr.steps|
    ensures world.next(k, history + Encode(tr.steps[..k])) == Answered(tr.steps[k].turn)
    ensures |tr.steps[k].results| == |tr.steps[k].turn.calls| == |EncodeStep(tr.steps[k])| - 1
    ensures forall j | 0 <= j < |tr.steps[k].results| ::
              var call, res := tr.steps[k].turn.calls[j], tr.steps[k].results[j];
              && res.callId == call.id && res.name == call.name
              && EncodeStep(tr.steps[k])[j + 1].role == "tool" && EncodeStep(tr.steps[k])[j + 1].toolCallId == call.id
  {
    ReplayAt(world, tools, history, opts, tr.steps, k);
    CallsAnswered(world, tools, tr.steps[k], k);
  }

  lemma CallsAnswered(world: World, tools: seq<Tool>, s: Step, k: nat)
    requires s.results == ExecutedAll(world, tools, s.turn.calls, k)
    ensures |s.results| == |s.turn.calls| == |EncodeStep(s)| - 1
    ensures forall j | 0 <= j < |s.results| ::
              && s.results[j].callId == s.turn.calls[j].id && s.results[j].name == s.turn.calls[j].name
              && EncodeStep(s)[j + 1].role == "tool" && EncodeStep(s)[j + 1].toolCallId == s.turn.calls[j].id
  {
    forall j | 0 <= j < |s.results|
      ensures EncodeStep(s)[j + 1] == ToolMessage(s.results[j])
    {
      assert EncodeStep(s)[j + 1] == ToolMessages(s.results)[j];
    }
  }

  /** What a call of a known tool yields: its handler's answer to the arguments that the model gave. */
  lemma CallRuns(world: World, tools: seq<Tool>, call: ToolCall, step: nat, position: nat, i: nat)
    requires Distinct(tools) && i < |tools| && tools[i].name == call.name
    ensures var res, out := Executed(world, tools, call, step, position), tools[i].handler(step, position, call.args);
            if call.args == "" || world.validJson(call.args) then res.content == out.content && res.err == out.err
            else res.content == "" && res.err == "invalid JSON arguments"
  {
    LookupFinds(tools, call.name);
  }

  lemma CallFails(world: World, tools: seq<Tool>, call: ToolCall, step: nat, position: nat)
    requires forall i | 0 <= i < |tools| :: tools[i].name != call.name
    ensures var res := Executed(world, tools, call, step, position);
            res.content == "" && res.err == "unknown tool: " + call.name
  {
    LookupFinds(tools, call.name);
  }

  /** Every call of every step: a tool of that name answers the arguments given, unless they are no JSON, and
      without one the call fails. */
  lemma EveryCall(world: World, tools: seq<Tool>, history: seq<Message>, opts: Options,
                  tr: Transcript, err: Option<string>, k: nat, j: nat)
    requires RunOf(world, tools, history, opts, tr, err) && Distinct(tools)
    requires k < |tr.steps| && j < |tr.steps[k].turn.calls|
    ensures |tr.steps[k].results| == |tr.steps[k].turn.calls|
    ensures var call, res := tr.steps[k].turn.calls[j], tr.steps[k].results[j];
            && (forall i | 0 <= i < |tools| && tools[i].name == call.name ::
                  var out := tools[i].handler(k, j, call.args);
                  if call.args == "" || world.validJson(call.args) then res.content == out.content && res.err == out.err
                  else res.content == "" && res.err == "invalid JSON arguments")
            && ((forall i | 0 <= i < |tools| :: tools[i].name != call.name) ==> res.err == "unknown tool: " + call.name)
  {
    ReplayAt(world, tools, history, opts, tr.steps, k);
    var call := tr.steps[k].turn.calls[j];
    assert tr.steps[k].results[j] == Executed(world, tools, call, k, j);
    forall i | 0 <= i < |tools| && tools[i].name == call.name
      ensures var res, out := tr.steps[k].results[j], tools[i].handler(k, j, call.args);
              if call.args == "" || world.validJson(call.args) then res.content == out.content && res.err == out.err
              else res.content == "" && res.err == "invalid JSON arguments"
    {
      CallRuns(world, tools, call, k, j, i);
    }
    if forall i | 0 <= i < |tools| :: tools[i].name != call.name {
      CallFails(world, tools, call, k, j);
    }
  }

  /** What a step adds to the conversation: the model's text, then a message for each result in turn. */
  lemma StepTells(steps: seq<Step>, k: nat) returns (said: seq<Message>)
    requires k < |steps|
    ensures Encode(steps[..k + 1]) == Encode(steps[..k]) + said && |said| == 1 + |steps[k].results|
    ensures said[0] == Message("assistant", steps[k].turn.text, "")
    ensures forall j | 0 <= j < |steps[k].results| ::
              var res := steps[k].results[j];
              && (res.err == "" ==> said[j + 1] == Message("tool", res.content, res.callId))
              && (res.err != "" ==> said[j + 1] == Message("tool", "error: " + res.err, res.callId))
  {
    said := EncodeStep(steps[k]);
    assert steps[..k + 1][..k] == steps[..k] && steps[..k + 1][k] == steps[k];
    forall j | 0 <= j < |steps[k].results|
      ensures said[j + 1] == ToolMessage(steps[k].results[j])
    {
      assert said[j + 1] == ToolMessages(steps[k].results)[j];
    }
  }

  /** Without a limit of the caller's the model is asked at most eight times. */
  lemma StepLimit(world: World, tools: seq<Tool>, history: seq<Message>, opts: Options,
                  tr: Transcript, err: Option<string>)
    requires RunOf(world, tools, history, opts, tr, err)
    ensures |tr.steps| <= if opts.maxSteps > 0 then opts.maxSteps as int else 8
    ensures tr.stop.MaxSteps? ==> |tr.steps| == if opts.maxSteps > 0 then opts.maxSteps as int else 8
  {
  }

  lemma {:induction false} ReplaysAgree(world: World, tools: seq<Tool>, history: seq<Message>, opts: Options,
                                        a: seq<Step>, b: seq<Step>)
    requires StepsReplay(world, tools, history, opts, a) && StepsReplay(world, tools, history, opts, b)
    requires |a| <= |b|
    ensures b[..|a|] == a
  {
    if a != [] {
      var k := |a| - 1;
      ReplaysAgree(world, tools, history, opts, a[..k], b);
      ReplayAt(world, tools, history, opts, b, k);
      assert a[k] == b[k];
      assert a == a[..k] + [a[k]] && b[..|a|] == b[..k] + [b[k]];
    }
  }

  /** A run that has stopped has no longer continuation. */
  lemma NoFurther(world: World, tools: seq<Tool>, history: seq<Message>, opts: Options,
                  tr: Transcript, err: Option<string>, b: seq<Step>)
    requires RunOf(world, tools, history, opts, tr, err)
    requires StepsReplay(world, tools, history, opts, b) && |b| <= Limit(opts)
    ensures |b| <= |tr.steps|
  {
    if |tr.steps| < |b| {
      ReplaysAgree(world, tools, history, opts, tr.steps, b);
      ReplayAt(world, tools, history, opts, b, |tr.steps|);
    }
  }

  /** The conditions of a run determine it: model, tools, history and options admit one transcript only. */
  lemma RunUnique(world: World, tools: seq<Tool>, history: seq<Message>, opts: Options,
                  a: Transcript, aErr: Option<string>, b: Transcript, bErr: Option<string>)
    requires RunOf(world, tools, history, opts, a, aErr) && RunOf(world, tools, history, opts, b, bErr)
    ensures a == b && aErr == bErr
  {
    NoFurther(world, tools, history, opts, a, aErr, b.steps);
    NoFurther(world, tools, history, opts, b, bErr, a.steps);
    ReplaysAgree(world, tools, history, opts, a.steps, b.steps);
    assert a.steps == b.steps;
  }

  // ----- the token budget -----

  /** No answer of the model reports a negative count, or more than `most` tokens. */
  ghost predicate Frugal(world: World, most: int) {
    forall k: nat, h: seq<Message> | world.next(k, h).Answered? ::
      var turn := world.next(k, h).turn;
      0 <= turn.input && 0 <= turn.output && turn.input as int + turn.output <= most
  }

  /** The total reported is exact, and before the last turn it was still under the budget. */
  ghost predicate WithinBudget(tr: Transcript, budget: int) {
    && tr.tokensUsed == Tokens(tr.steps)
    && (tr.steps != [] ==> Tokens(tr.steps[..|tr.steps| - 1]) < budget)
  }

  /** Whatever a model does that reports at most `most` tokens a turn, whatever the tools, the history and the
      number of steps: no turn is taken once the budget is used up, and the total reported is exact. */
  ghost predicate BudgetHolds(budget: int64, most: int) {
    forall world, tools, history, opts: Options, tr: Transcript, err |
      opts.tokenBudget == budget && Frugal(world, most) && RunOf(world, tools, history, opts, tr, err) ::
      WithinBudget(tr, budget)
  }

  lemma {:induction false} FrugalTotals(world: World, tools: seq<Tool>, history: seq<Message>, opts: Options,
                                        steps: seq<Step>, most: int)
    requires StepsReplay(world, tools, history, opts, steps) && Frugal(world, most)
    requires 0 < opts.tokenBudget && most <= MAX_INT64 - opts.tokenBudget + 1
    ensures 0 <= Tokens(steps) <= MAX_INT64
    ensures steps != [] ==> Tokens(steps[..|steps| - 1]) < opts.tokenBudget
  {
    if steps != [] {
      var before := steps[..|steps| - 1];
      FrugalTotals(world, tools, history, opts, before, most);
      assert world.next(|before|, history + Encode(before)).turn == steps[|steps| - 1].turn;
      if before != [] {
        assert !Exhausted(opts, before);
      }
    }
  }

  // ----- a model that is asked over budget -----

  const ASKED := [ToolCall("id", "none", "")]
  const NOT_FOUND := [ToolResult("id", "none", "", "unknown tool: none")]

  /** How often it reports two tokens. */
  function Pairs(budget: int64): nat
    requires budget > 0
  {
    (budget as int - 1) / 2
  }

  /** It comes to one token under the budget in turns of at most two tokens, the odd one first; then it reports
      just so many that the total wraps; then it is done. */
  function SpenderTurn(budget: int64, k: nat): Turn
    requires budget > 0
  {
    if k == 0 then Turn("", ASKED, (budget as int - 1) % 2, 0)
    else if k <= Pairs(budget) then Turn("", ASKED, 2, 0)
    else if k == Pairs(budget) + 1 then Turn("", ASKED, MAX_INT64 - budget + 1, 1)
    else Turn("", [], 0, 0)
  }

  function Spender(budget: int64): World
    requires budget > 0
  {
    World((k: nat, h: seq<Message>) => Answered(SpenderTurn(budget, k)), (k: nat) => false, (args: string) => true)
  }

  function SpenderStep(budget: int64, k: nat): Step
    requires budget > 0
  {
    var turn := SpenderTurn(budget, k);
    Step(turn, if turn.calls == [] then [] else NOT_FOUND)
  }

  function SpenderSteps(budget: int64, n: nat): seq<Step>
    requires budget > 0
  {
    if n == 0 then [] else SpenderSteps(budget, n - 1) + [SpenderStep(budget, n - 1)]
  }

  function Spent(budget: int64, n: nat): int
    requires budget > 0
  {
    if n == 0 then 0
    else if n <= Pairs(budget) + 1 then (budget as int - 1) % 2 + 2 * (n - 1)
    else MAX_INT64 + 1
  }

  lemma SpenderFrugal(budget: int64, most: int)
    requires budget > 0 && most > MAX_INT64 - budget + 1
    ensures Frugal(Spender(budget), most)
  {
  }

  lemma SpenderStepReplays(budget: int64, before: seq<Step>)
    requires budget > 0
    ensures StepReplays(Spender(budget), [], [], before, SpenderStep(budget, |before|))
  {
    assert "unknown tool: " + "none" == "unknown tool: none";
  }

  lemma SpentStep(budget: int64, k: nat)
    requires budget > 0
    ensures var turn := SpenderTurn(budget, k);
            Spent(budget, k + 1) == Spent(budget, k) + turn.input as int + turn.output
  {
  }

  lemma {:induction false} SpenderTotal(budget: int64, n: nat)
    requires budget > 0
    ensures |SpenderSteps(budget, n)| == n && Tokens(SpenderSteps(budget, n)) == Spent(budget, n)
  {
    if n > 0 {
      SpenderTotal(budget, n - 1);
      SpentStep(budget, n - 1);
      Snoc(SpenderSteps(budget, n - 1), SpenderStep(budget, n - 1));
    }
  }

  /** The total wraps as soon as it no longer fits, so the budget never looks used up. */
  lemma SpentLooksSmall(budget: int64, n: nat)
    requires budget > 0 && n <= Pairs(budget) + 2
    ensures Wrap(Spent(budget, n)) < budget
  {
    if n == Pairs(budget) + 2 {
      assert Spent(budget, n) == MAX_INT64 + 1;
      assert Wrap(MAX_INT64 + 1) == MIN_INT64;
    } else {
      assert budget as int - 1 == 2 * Pairs(budget) + (budget as int - 1) % 2;
      assert 0 <= Spent(budget, n) <= budget as int - 1;
    }
  }

  lemma SpenderGoesOn(budget: int64, opts: Options, n: nat)
    requires opts.tokenBudget == budget > 0 && n <= Pairs(budget) + 2
    ensures GoesOn(opts, SpenderSteps(budget, n))
  {
    var steps := SpenderSteps(budget, n);
    SpenderTotal(budget, n);
    SpentLooksSmall(budget, n);
    assert n > 0 ==> steps[|steps| - 1] == SpenderStep(budget, n - 1);
  }

  lemma SpenderSnoc(budget: int64, opts: Options, before: seq<Step>)
    requires budget > 0 && StepsReplay(Spender(budget), [], [], opts, before) && GoesOn(opts, before)
    ensures StepsReplay(Spender(budget), [], [], opts, before + [SpenderStep(budget, |before|)])
  {
    SpenderStepReplays(budget, before);
    ReplaySnoc(Spender(budget), [], [], opts, before, SpenderStep(budget, |before|));
  }

  lemma SpenderNext(budget: int64, opts: Options, before: seq<Step>, k: nat)
    requires opts.tokenBudget == budget > 0 && k <= Pairs(budget) + 2 && before == SpenderSteps(budget, k)
    requires StepsReplay(Spender(budget), [], [], opts, before)
    ensures StepsReplay(Spender(budget), [], [], opts, before + [SpenderStep(budget, k)])
  {
    assert |before| == k by {
      SpenderTotal(budget, k);
    }
    assert GoesOn(opts, before) by {
      SpenderGoesOn(budget, opts, k);
    }
    SpenderSnoc(budget, opts, before);
  }

  lemma {:induction false} StepByStep(n: nat, ok: nat -> bool)
    requires ok(0) && forall k: nat | k < n && ok(k) :: ok(k + 1)
    ensures ok(n)
  {
    if n > 0 {
      StepByStep(n - 1, ok);
    }
  }

  lemma SpenderReplays(budget: int64, opts: Options, n: nat)
    requires opts.tokenBudget == budget > 0 && n <= Pairs(budget) + 3
    ensures StepsReplay(Spender(budget), [], [], opts, SpenderSteps(budget, n))
  {
    var world := Spender(budget);
    forall k: nat | k < n && StepsReplay(world, [], [], opts, SpenderSteps(budget, k))
      ensures StepsReplay(world, [], [], opts, SpenderSteps(budget, k + 1))
    {
      SpenderNext(budget, opts, SpenderSteps(budget, k), k);
      assert SpenderSteps(budget, k + 1) == SpenderSteps(budget, k) + [SpenderStep(budget, k)];
    }
    StepByStep(n, (k: nat) => StepsReplay(world, [], [], opts, SpenderSteps(budget, k)));
  }

  /** A run of a model within the bound that takes its last turn with more than 64 bits of tokens spent. */
  lemma BudgetMissed(budget: int64, most: int) returns (opts: Options, tr: Transcript)
    requires budget > 0 && most > MAX_INT64 - budget + 1
    ensures opts.tokenBudget == budget && Frugal(Spender(budget), most)
    ensures RunOf(Spender(budget), [], [], opts, tr, None) && !WithinBudget(tr, budget)
    ensures tr.steps != [] && Tokens(tr.steps[..|tr.steps| - 1]) == MAX_INT64 + 1
  {
    var n := Pairs(budget) + 3;
    opts := Options(n, budget);
    var steps := SpenderSteps(budget, n);
    SpenderFrugal(budget, most);
    SpenderReplays(budget, opts, n);
    SpenderTotal(budget, n);
    SpenderTotal(budget, n - 1);
    assert steps[..n - 1] == SpenderSteps(budget, n - 1);
    assert SpenderTurn(budget, n - 1) == steps[n - 1].turn;
    tr := Transcript(steps, "", Done, Wrap(Tokens(steps)));
  }

  /** The budget holds for every model that reports at most `most` tokens a turn exactly if a turn of that size,
      taken one token under the budget, still fits in 64 bits. */
  lemma BudgetExactly(budget: int64, most: int)
    requires budget > 0
    ensures BudgetHolds(budget, most) <==> most <= MAX_INT64 - budget + 1
  {
    if most <= MAX_INT64 - budget + 1 {
      forall world, tools, history, opts: Options, tr: Transcript, err |
        opts.tokenBudget == budget && Frugal(world, most) && RunOf(world, tools, history, opts, tr, err)
        ensures WithinBudget(tr, budget)
      {
        FrugalTotals(world, tools, history, opts, tr.steps, most);
      }
    } else {
      var opts, tr := BudgetMissed(budget, most);
      assert RunOf(Spender(budget), [], [], opts, tr, None);
    }
  }
}
