/** The package expert of `src/agent/package_expert/graph.py`:
    `create_package_expert(package_name)` builds a graph whose think node
    formats the prompt for its package, calls the model, applies the same
    last-step cut-off as the supervisor and, otherwise, writes
    `package_name` into the arguments of every requested tool call. Its
    router is the supervisor's `Route`. */
module ExpertGraph {
  import opened Common
  import opened Text
  import opened Messages
  import opened SupervisorGraph

  /** A prompt template for `str.format`: literal text and `{name}` fields. */
  datatype PromptPiece = Literal(text: string) | Field(name: string)

  predicate OnlyPackageFields(template: seq<PromptPiece>) {
    forall i :: 0 <= i < |template| && template[i].Field? ==> template[i].name == "package_name"
  }

  predicate HasPackageField(template: seq<PromptPiece>) {
    exists i :: 0 <= i < |template| && template[i] == Field("package_name")
  }

  /** `template.format(package_name=packageName)`: fields named
      `package_name` are replaced, any other field raises `KeyError`. */
  function FormatPrompt(template: seq<PromptPiece>, packageName: string): (r: Result<string>)
    ensures r.Success? <==> OnlyPackageFields(template)
  {
    if template == [] then Success("")
    else
      var rest := FormatPrompt(template[1..], packageName);
      assert OnlyPackageFields(template) <==> (!template[0].Field? || template[0].name == "package_name") && OnlyPackageFields(template[1..]) by {
        assert forall i :: 1 <= i < |template| ==> template[i] == template[1..][i - 1];
      }
      match template[0]
      case Field(name) =>
        if name != "package_name" then Failure("KeyError: '" + name + "'")
        else if rest.Failure? then rest
        else Success(packageName + rest.value)
      case Literal(text) =>
        if rest.Failure? then rest
        else Success(text + rest.value)
  }

  /** A template that names the package yields a prompt containing it. */
  lemma {:induction false} FormattedPromptNamesPackage(template: seq<PromptPiece>, packageName: string)
    requires OnlyPackageFields(template) && HasPackageField(template)
    ensures Contains(FormatPrompt(template, packageName).value, packageName)
  {
    var r := FormatPrompt(template, packageName);
    assert OnlyPackageFields(template[1..]) by {
      assert forall i :: 1 <= i < |template| ==> template[i] == template[1..][i - 1];
    }
    var rest := FormatPrompt(template[1..], packageName).value;
    if template[0] == Field("package_name") {
      assert r.value == packageName + rest;
      assert OccursAt(r.value, packageName, 0);
    } else {
      var i :| 0 <= i < |template| && template[i] == Field("package_name");
      assert template[1..][i - 1] == Field("package_name");
      FormattedPromptNamesPackage(template[1..], packageName);
      var k: nat :| k <= |rest| - |packageName| && OccursAt(rest, packageName, k);
      var head := template[0].text;
      assert r.value == head + rest;
      assert r.value[|head| + k..|head| + k + |packageName|] == rest[k..k + |packageName|];
      assert OccursAt(r.value, packageName, |head| + k);
    }
  }

  /** The injected tool calls: same number, order, ids and names; every
      argument map gets `"package_name"` set to `packageName`, overwriting
      any value the model supplied, and keeps all other arguments. */
  function Inject(calls: seq<ToolCall>, packageName: string): (r: seq<ToolCall>)
    ensures |r| == |calls|
    ensures forall i :: 0 <= i < |calls| ==>
      && r[i].id == calls[i].id
      && r[i].name == calls[i].name
      && "package_name" in r[i].args && r[i].args["package_name"] == packageName
      && r[i].args.Keys == calls[i].args.Keys + {"package_name"}
      && (forall k :: k in calls[i].args && k != "package_name" ==> r[i].args[k] == calls[i].args[k])
  {
    seq(|calls|, i requires 0 <= i < |calls| => calls[i].(args := calls[i].args["package_name" := packageName]))
  }

  /** The injection loop, which updates each call's argument dict in place. */
  method InjectPackageName(calls: array<ToolCall>, packageName: string)
    modifies calls
    ensures calls[..] == Inject(old(calls[..]), packageName)
  {
    for i := 0 to calls.Length
      invariant forall j :: 0 <= j < i ==> calls[j] == old(calls[j]).(args := old(calls[j]).args["package_name" := packageName])
      invariant forall j :: i <= j < calls.Length ==> calls[j] == old(calls[j])
    {
      calls[i] := calls[i].(args := calls[i].args["package_name" := packageName]);
    }
  }

  /** The message the expert node emits for a reply. */
  function ExpertMessage(reply: Reply, isLastStep: bool, packageName: string): (m: Message)
    ensures m.AI? && m.id == reply.id
    ensures isLastStep && reply.toolCalls != [] ==> m.content == Str(Apology) && m.toolCalls == []
    ensures !(isLastStep && reply.toolCalls != []) ==>
      m.content == reply.content && m.toolCalls == Inject(reply.toolCalls, packageName)
  {
    if isLastStep && reply.toolCalls != [] then AI(reply.id, Str(Apology), [])
    else AI(reply.id, reply.content, Inject(reply.toolCalls, packageName))
  }

  /** Every tool call the node emits carries this expert's package name. */
  lemma ExpertCallsCarryPackage(reply: Reply, isLastStep: bool, packageName: string)
    ensures forall c :: c in ExpertMessage(reply, isLastStep, packageName).toolCalls ==>
      "package_name" in c.args && c.args["package_name"] == packageName
  {
    var m := ExpertMessage(reply, isLastStep, packageName);
    forall c | c in m.toolCalls
      ensures "package_name" in c.args && c.args["package_name"] == packageName
    {
      var i :| 0 <= i < |m.toolCalls| && m.toolCalls[i] == c;
    }
  }

  /** A reply without tool calls is emitted unchanged. */
  lemma ReplyWithoutCallsUnchanged(reply: Reply, isLastStep: bool, packageName: string)
    requires reply.toolCalls == []
    ensures ExpertMessage(reply, isLastStep, packageName) == AsMessage(reply)
  {
  }

  /** The inner `package_expert` node: the prompt is formatted for this
      expert's package, then the model is called, then the reply is cut off
      or injected. Formatting and model errors propagate. */
  function PackageExpert(model: Model, template: seq<PromptPiece>, packageName: string, history: seq<Message>, isLastStep: bool): (r: Result<seq<Message>>)
    ensures !OnlyPackageFields(template) ==> r.Failure?
    ensures OnlyPackageFields(template) ==>
      var input := ModelInput(FormatPrompt(template, packageName).value, history);
      && (model(input).Failure? ==> r == Failure(model(input).message))
      && (model(input).Success? ==> r == Success([ExpertMessage(model(input).value, isLastStep, packageName)]))
  {
    match FormatPrompt(template, packageName)
    case Failure(e) => Failure(e)
    case Success(prompt) =>
      match model(ModelInput(prompt, history))
      case Failure(e) => Failure(e)
      case Success(reply) => Success([ExpertMessage(reply, isLastStep, packageName)])
  }

  /** `graph.name`: the package name followed by `" Expert"`. */
  function GraphName(packageName: string): (r: string)
    ensures |r| == |packageName| + 7
    ensures r[..|packageName|] == packageName && r[|packageName|..] == " Expert"
  {
    packageName + " Expert"
  }
}
