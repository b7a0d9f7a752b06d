/** The think/tools cycle both graphs declare: `__start__` goes to the think
    node, the think node goes through `Route` to `__end__` or to `tools`,
    and `tools` always goes back to the think node. The driver owns a
    counter of remaining think steps; the think node is told that it is on
    its last step when one step remains. */
module AgentLoop {
  import opened Common
  import opened Messages
  import opened SupervisorGraph
  import opened ExpertGraph

  /** Which think node the graph runs. */
  datatype Agent =
    | Supervisor(systemPrompt: string)
    | Expert(template: seq<PromptPiece>, packageName: string)

  /** The `tools` node: given the calls of the last AI message it returns
      the result messages, or raises. */
  type ToolExecutor = seq<ToolCall> -> Result<seq<Message>>

  /** The agent's prompt can be built (an expert template names no field
      other than `package_name`). */
  predicate Configured(agent: Agent) {
    agent.Supervisor? || OnlyPackageFields(agent.template)
  }

  function SystemPrompt(agent: Agent): string
    requires Configured(agent)
  {
    match agent
    case Supervisor(p) => p
    case Expert(t, pkg) => FormatPrompt(t, pkg).value
  }

  function Think(agent: Agent, model: Model, history: seq<Message>, isLastStep: bool): Result<seq<Message>> {
    match agent
    case Supervisor(p) => PackageSupervisor(model, p, history, isLastStep)
    case Expert(t, pkg) => PackageExpert(model, t, pkg, history, isLastStep)
  }

  /** A think step emits exactly one AI message, which requests no tools on
      the last step, so routing after it never fails and ends the run on the
      last step. */
  lemma ThinkEmitsOneAnswer(agent: Agent, model: Model, history: seq<Message>, isLastStep: bool)
    requires Think(agent, model, history, isLastStep).Success?
    ensures var out := Think(agent, model, history, isLastStep).value;
      && |out| == 1 && out[0].AI?
      && Route(history + out).Success?
      && (isLastStep ==> Route(history + out) == Success(End))
  {
    var out := Think(agent, model, history, isLastStep).value;
    assert (history + out)[|history + out| - 1] == out[0];
  }

  /** How a run of the graph ends. `RecursionLimit` is the driver refusing
      to start a think step with no step left. */
  datatype Outcome =
    | Finished(messages: seq<Message>, thinkSteps: nat)
    | Raised(error: string)
    | RecursionLimit(messages: seq<Message>)

  /** Runs the graph from `history` with `remaining` think steps left. */
  function Run(agent: Agent, model: Model, tools: ToolExecutor, history: seq<Message>, remaining: nat): Outcome
    decreases remaining
  {
    if remaining == 0 then RecursionLimit(history)
    else
      match Think(agent, model, history, remaining == 1)
      case Failure(e) => Raised(e)
      case Success(out) =>
        var h := history + out;
        match Route(h)
        case Failure(e) => Raised(e)
        case Success(End) => Finished(h, 1)
        case Success(Tools) =>
          match tools(h[|h| - 1].toolCalls)
          case Failure(e) => Raised(e)
          case Success(results) =>
            match Run(agent, model, tools, h + results, remaining - 1)
            case Finished(final, n) => Finished(final, n + 1)
            case other => other
  }

  /** With at least one step the driver never reaches its limit; a finished
      run took between one and `remaining` think steps, extends the history
      it started from, and ends on an AI message without tool calls. */
  lemma {:induction false} RunStopsWithinBudget(agent: Agent, model: Model, tools: ToolExecutor, history: seq<Message>, remaining: nat)
    requires remaining >= 1
    ensures !Run(agent, model, tools, history, remaining).RecursionLimit?
    ensures Run(agent, model, tools, history, remaining).Finished? ==>
      var o := Run(agent, model, tools, history, remaining);
      && 1 <= o.thinkSteps <= remaining
      && history <= o.messages
      && Route(o.messages) == Success(End)
    decreases remaining
  {
    var think := Think(agent, model, history, remaining == 1);
    if think.Success? {
      ThinkEmitsOneAnswer(agent, model, history, remaining == 1);
      var h := history + think.value;
      if Route(h) == Success(Tools) {
        assert remaining > 1;
        var results := tools(h[|h| - 1].toolCalls);
        if results.Success? {
          RunStopsWithinBudget(agent, model, tools, h + results.value, remaining - 1);
          var inner := Run(agent, model, tools, h + results.value, remaining - 1);
          if inner.Finished? {
            assert history <= h + results.value <= inner.messages;
          }
        }
      }
    }
  }

  /** When the model, the prompt and the tools never fail, a run with at
      least one step finishes. */
  lemma {:induction false} RunFinishes(agent: Agent, model: Model, tools: ToolExecutor, history: seq<Message>, remaining: nat)
    requires Configured(agent) && remaining >= 1
    requires forall input :: model(input).Success?
    requires forall calls :: tools(calls).Success?
    ensures Run(agent, model, tools, history, remaining).Finished?
    decreases remaining
  {
    var think := Think(agent, model, history, remaining == 1);
    assert think.Success?;
    ThinkEmitsOneAnswer(agent, model, history, remaining == 1);
    var h := history + think.value;
    if Route(h) == Success(Tools) {
      RunFinishes(agent, model, tools, h + tools(h[|h| - 1].toolCalls).value, remaining - 1);
    }
  }

  /** A model that answers at once, without tool calls, ends the run after
      one think step with its reply appended; the tools node never runs. */
  lemma DirectAnswerEndsRun(agent: Agent, model: Model, tools: ToolExecutor, history: seq<Message>, remaining: nat, reply: Reply)
    requires Configured(agent) && remaining >= 1
    requires model(ModelInput(SystemPrompt(agent), history)) == Success(reply)
    requires reply.toolCalls == []
    ensures Run(agent, model, tools, history, remaining) == Finished(history + [AsMessage(reply)], 1)
  {
    var out := [AsMessage(reply)];
    assert Think(agent, model, history, remaining == 1) == Success(out);
    assert (history + out)[|history + out| - 1] == AsMessage(reply);
  }

  /** A model that asks for tools on every step is stopped by the cut-off:
      the run takes exactly `remaining` think steps and ends with the
      apology. */
  lemma {:induction false} PersistentToolRequestsEndWithApology(agent: Agent, model: Model, tools: ToolExecutor, history: seq<Message>, remaining: nat)
    requires Configured(agent) && remaining >= 1
    requires forall input :: model(input).Success? && model(input).value.toolCalls != []
    requires forall calls :: tools(calls).Success?
    ensures var o := Run(agent, model, tools, history, remaining);
      && o.Finished?
      && o.thinkSteps == remaining
      && |o.messages| > 0
      && o.messages[|o.messages| - 1].AI?
      && o.messages[|o.messages| - 1].content == Str(Apology)
      && o.messages[|o.messages| - 1].toolCalls == []
    decreases remaining
  {
    var think := Think(agent, model, history, remaining == 1);
    assert think.Success?;
    var reply := model(ModelInput(SystemPrompt(agent), history)).value;
    var h := history + think.value;
    assert h[|h| - 1] == think.value[0];
    if remaining == 1 {
      assert think.value[0].content == Str(Apology);
    } else {
      assert Route(h) == Success(Tools);
      PersistentToolRequestsEndWithApology(agent, model, tools, h + tools(h[|h| - 1].toolCalls).value, remaining - 1);
    }
  }

  /** One think step and what follows it, for a run that finished: the
      think step succeeded, and either routing ended the run there or the
      tools ran and the rest of the run finished with the same messages. */
  lemma FinishedRunUnfolds(agent: Agent, model: Model, tools: ToolExecutor, history: seq<Message>, remaining: nat)
    requires remaining > 0 && Run(agent, model, tools, history, remaining).Finished?
    ensures Think(agent, model, history, remaining == 1).Success?
    ensures var h := history + Think(agent, model, history, remaining == 1).value;
      var o := Run(agent, model, tools, history, remaining);
      && Route(h).Success?
      && (Route(h) == Success(End) ==> o.messages == h)
      && (Route(h) == Success(Tools) ==>
            && tools(h[|h| - 1].toolCalls).Success?
            && var inner := Run(agent, model, tools, h + tools(h[|h| - 1].toolCalls).value, remaining - 1);
               inner.Finished? && o.messages == inner.messages)
  {
  }

  /** `m` is not an AI message, or each of its tool calls has
      `package_name` set to `packageName`. */
  predicate CarriesPackage(m: Message, packageName: string) {
    m.AI? ==> forall c :: c in m.toolCalls ==> "package_name" in c.args && c.args["package_name"] == packageName
  }

  /** The tools node only ever adds tool results. */
  ghost predicate ReturnsToolResults(tools: ToolExecutor) {
    forall calls :: tools(calls).Success? ==> forall m :: m in tools(calls).value ==> m.Tool?
  }

  /** An expert's think step emits one message, which carries its package. */
  lemma ExpertThinkCarriesPackage(template: seq<PromptPiece>, packageName: string, model: Model, history: seq<Message>, isLastStep: bool)
    requires Think(Expert(template, packageName), model, history, isLastStep).Success?
    ensures var out := Think(Expert(template, packageName), model, history, isLastStep).value;
      |out| == 1 && CarriesPackage(out[0], packageName)
  {
    var reply := model(ModelInput(FormatPrompt(template, packageName).value, history)).value;
    ExpertCallsCarryPackage(reply, isLastStep, packageName);
  }

  /** If a message that carries the package and then tool results are
      appended to `history`, and everything after that carries it too, then
      everything after `history` does. */
  lemma AppendedStepCarries(history: seq<Message>, m: Message, results: seq<Message>, final: seq<Message>, packageName: string)
    requires CarriesPackage(m, packageName)
    requires forall r :: r in results ==> r.Tool?
    requires history + [m] + results <= final
    requires forall j :: |history| + 1 + |results| <= j < |final| ==> CarriesPackage(final[j], packageName)
    ensures history <= final
    ensures forall j :: |history| <= j < |final| ==> CarriesPackage(final[j], packageName)
  {
    var next := history + [m] + results;
    assert history <= next;
    forall j | |history| <= j < |final| ensures CarriesPackage(final[j], packageName) {
      if j == |history| {
        assert final[j] == next[j] == m;
      } else if j < |next| {
        assert final[j] == next[j] == results[j - |history| - 1];
        assert results[j - |history| - 1] in results;
      }
    }
  }

  /** In an expert's run, every AI message added after the seed, and so
      every batch of calls handed to the tools node, carries the expert's
      `package_name` in each tool call, provided the tools node adds only
      tool results. */
  lemma {:induction false} ExpertRunInjectsPackage(template: seq<PromptPiece>, packageName: string, model: Model, tools: ToolExecutor, history: seq<Message>, remaining: nat)
    requires ReturnsToolResults(tools)
    ensures var o := Run(Expert(template, packageName), model, tools, history, remaining);
      o.Finished? ==>
        && history <= o.messages
        && forall j :: |history| <= j < |o.messages| ==> CarriesPackage(o.messages[j], packageName)
    decreases remaining
  {
    var agent := Expert(template, packageName);
    var o := Run(agent, model, tools, history, remaining);
    if remaining > 0 && o.Finished? {
      FinishedRunUnfolds(agent, model, tools, history, remaining);
      ExpertThinkCarriesPackage(template, packageName, model, history, remaining == 1);
      var out := Think(agent, model, history, remaining == 1).value;
      var h := history + out;
      if Route(h) == Success(Tools) {
        var results := tools(h[|h| - 1].toolCalls).value;
        ExpertRunInjectsPackage(template, packageName, model, tools, h + results, remaining - 1);
        assert out == [out[0]];
        AppendedStepCarries(history, out[0], results, o.messages, packageName);
      } else {
        assert out == [out[0]];
        AppendedStepCarries(history, out[0], [], o.messages, packageName);
      }
    }
  }

  /** The `callables` argument of `invoke_docs_doctor`. */
  datatype Callbacks = CallbackList(handlers: seq<string>) | NotAList

  /** `invoke_docs_doctor`: `TypeError` unless `callables` is a list,
      otherwise one run of the supervisor graph on the given messages. */
  function InvokeDocsDoctor(messages: seq<Message>, callables: Callbacks, systemPrompt: string, model: Model, tools: ToolExecutor, budget: nat): (r: Result<Outcome>)
    ensures r.Failure? <==> callables.NotAList?
    ensures r.Failure? ==> r.message == "TypeError: callables must be a list"
    ensures r.Success? ==> r.value == Run(Supervisor(systemPrompt), model, tools, messages, budget)
  {
    if callables.NotAList? then Failure("TypeError: callables must be a list")
    else Success(Run(Supervisor(systemPrompt), model, tools, messages, budget))
  }
}
