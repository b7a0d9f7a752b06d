/** The supervisor agent of `src/agent/graph.py`: its think node
    `package_supervisor` (one model call, then the last-step cut-off) and the
    router `route_model_output` on the node's output. */
module SupervisorGraph {
  import opened Common
  import opened Messages

  /** The fixed reply that replaces a tool request on the last step. */
  const Apology: string := "Sorry, I could not find an answer to your question in the specified number of steps."

  /** The chat model's answer: an `AIMessage` that may request tools. */
  datatype Reply = Reply(id: Option<string>, content: Content, toolCalls: seq<ToolCall>)

  function AsMessage(reply: Reply): Message {
    AI(reply.id, reply.content, reply.toolCalls)
  }

  /** The bound chat model, seen from the graph: given the messages it is
      sent, it answers or raises (network or provider failure). */
  type Model = seq<Message> -> Result<Reply>

  /** What the model is sent: the system message, then the whole history,
      unchanged and in order. */
  function ModelInput(systemPrompt: string, history: seq<Message>): (r: seq<Message>)
    ensures |r| == |history| + 1
    ensures r[0] == System(Str(systemPrompt))
    ensures forall i :: 0 <= i < |history| ==> r[i + 1] == history[i]
  {
    [System(Str(systemPrompt))] + history
  }

  /** The message the node emits for a reply: on the last step a reply that
      still asks for tools becomes the apology under the same id, with no
      tool calls; otherwise the reply itself. */
  function CutOff(reply: Reply, isLastStep: bool): (m: Message)
    ensures m.AI? && m.id == reply.id
    ensures isLastStep && reply.toolCalls != [] ==> m.content == Str(Apology) && m.toolCalls == []
    ensures !(isLastStep && reply.toolCalls != []) ==> m == AsMessage(reply)
  {
    if isLastStep && reply.toolCalls != [] then AI(reply.id, Str(Apology), [])
    else AsMessage(reply)
  }

  /** `package_supervisor`: the list of new messages the node returns, or
      the model's exception. */
  function PackageSupervisor(model: Model, systemPrompt: string, history: seq<Message>, isLastStep: bool): (r: Result<seq<Message>>)
    ensures model(ModelInput(systemPrompt, history)).Failure? ==> r == Failure(model(ModelInput(systemPrompt, history)).message)
    ensures model(ModelInput(systemPrompt, history)).Success? ==>
      r == Success([CutOff(model(ModelInput(systemPrompt, history)).value, isLastStep)])
  {
    match model(ModelInput(systemPrompt, history))
    case Failure(e) => Failure(e)
    case Success(reply) => Success([CutOff(reply, isLastStep)])
  }

  /** The two destinations of the conditional edge. */
  datatype Next = End | Tools

  /** `route_model_output`: `"__end__"` for an AI message without tool
      calls, `"tools"` for one with tool calls; `ValueError` when the last
      message is not an AI message, `IndexError` when there is none. */
  function Route(messages: seq<Message>): (r: Result<Next>)
    ensures r == Success(End) <==> |messages| > 0 && messages[|messages| - 1].AI? && messages[|messages| - 1].toolCalls == []
    ensures r == Success(Tools) <==> |messages| > 0 && messages[|messages| - 1].AI? && messages[|messages| - 1].toolCalls != []
    ensures r.Failure? <==> |messages| == 0 || !messages[|messages| - 1].AI?
  {
    if |messages| == 0 then Failure("IndexError: list index out of range")
    else
      var last := messages[|messages| - 1];
      if !last.AI? then Failure("ValueError: Expected AIMessage in output edges, but got " + ClassName(last))
      else if last.toolCalls == [] then Success(End)
      else Success(Tools)
  }

  /** On the last step the node's output always routes to the end. */
  lemma LastStepRoutesToEnd(model: Model, systemPrompt: string, history: seq<Message>)
    requires PackageSupervisor(model, systemPrompt, history, true).Success?
    ensures Route(history + PackageSupervisor(model, systemPrompt, history, true).value) == Success(End)
  {
  }
}
