/** The tool registry of `src/agent/tools.py`: the package expert tools,
    and `select_tools`. `find_file_locations` is in `FileSearch`. */
module AgentTools {
  import opened Common
  import opened Messages
  import opened SupervisorGraph
  import opened ExpertGraph
  import opened AgentLoop
  import opened Catalog

  /** The tools an agent can be given. */
  datatype Tool =
    | ExpertTool(package: PackageRecord)
    | ProjectStructure
    | FileContent
    | FindFileLocations

  /** The name the model sees for a tool. */
  function ToolName(t: Tool): (r: string)
    ensures t.ExpertTool? ==>
      var n := t.package.packageName;
      |r| == |n| + 12 && r[..|n|] == n && r[|n|..] == "_expert_tool"
    ensures t == ProjectStructure ==> r == "get_project_structure"
    ensures t == FileContent ==> r == "get_file_content"
    ensures t == FindFileLocations ==> r == "find_file_locations"
  {
    match t
    case ExpertTool(p) => p.packageName + "_expert_tool"
    case ProjectStructure => "get_project_structure"
    case FileContent => "get_file_content"
    case FindFileLocations => "find_file_locations"
  }

  /** Two expert tools share a name only when their packages share a
      `package_name`; no expert tool is named like a generic tool. */
  lemma ExpertToolNamesDistinct(s: Tool, t: Tool)
    requires s.ExpertTool? && ToolName(s) == ToolName(t)
    ensures t.ExpertTool? && s.package.packageName == t.package.packageName
  {
    var n := s.package.packageName;
    var m := t.package.packageName;
    assert |n| == |m|;
    assert n == ToolName(s)[..|n|] == ToolName(t)[..|m|] == m;
  }

  /** The single message an expert run starts from: a `ChatMessage` with
      the role `custom` whose content is the query. */
  function Seed(query: string): Message {
    Chat("custom", Str(query))
  }

  /** One call of an expert tool: a fresh expert for the package's
      `package_name` runs from the seed message alone, and the tool returns
      the content of the run's last message. The run's exceptions
      propagate; the recursion limit raises `GraphRecursionError`. */
  function InvokeExpertTool(p: PackageRecord, template: seq<PromptPiece>, model: Model, tools: ToolExecutor, budget: nat, query: string): (r: Result<Content>)
    ensures var o := Run(Expert(template, p.packageName), model, tools, [Seed(query)], budget);
      && (r.Success? <==> o.Finished?)
      && (o.Finished? ==> |o.messages| > 0 && r.value == o.messages[|o.messages| - 1].content)
      && (o.Raised? ==> r == Failure(o.error))
  {
    var agent := Expert(template, p.packageName);
    match Run(agent, model, tools, [Seed(query)], budget)
    case Finished(messages, _) =>
      RunStopsWithinBudget(agent, model, tools, [Seed(query)], budget);
      Success(messages[|messages| - 1].content)
    case Raised(e) => Failure(e)
    case RecursionLimit(_) => Failure("GraphRecursionError")
  }

  /** The expert sees only its formatted prompt and the query: when the
      model answers that directly, the answer is the tool's result. */
  lemma ExpertToolReturnsDirectAnswer(p: PackageRecord, template: seq<PromptPiece>, model: Model, tools: ToolExecutor, budget: nat, query: string, reply: Reply)
    requires OnlyPackageFields(template) && budget >= 1
    requires model([System(Str(FormatPrompt(template, p.packageName).value)), Seed(query)]) == Success(reply)
    requires reply.toolCalls == []
    ensures InvokeExpertTool(p, template, model, tools, budget, query) == Success(reply.content)
  {
    var agent := Expert(template, p.packageName);
    assert ModelInput(SystemPrompt(agent), [Seed(query)]) == [System(Str(FormatPrompt(template, p.packageName).value)), Seed(query)];
    DirectAnswerEndsRun(agent, model, tools, [Seed(query)], budget, reply);
  }

  /** When the model keeps asking for tools, the tool's result is the apology. */
  lemma ExpertToolApologisesWhenOutOfSteps(p: PackageRecord, template: seq<PromptPiece>, model: Model, tools: ToolExecutor, budget: nat, query: string)
    requires OnlyPackageFields(template) && budget >= 1
    requires forall input :: model(input).Success? && model(input).value.toolCalls != []
    requires forall calls :: tools(calls).Success?
    ensures InvokeExpertTool(p, template, model, tools, budget, query) == Success(Str(Apology))
  {
    PersistentToolRequestsEndWithApology(Expert(template, p.packageName), model, tools, [Seed(query)], budget);
  }

  /** One expert tool per package, in the given order. */
  function ExpertTools(packages: seq<PackageRecord>): (r: seq<Tool>)
    ensures |r| == |packages|
    ensures forall i :: 0 <= i < |packages| ==> r[i] == ExpertTool(packages[i])
  {
    seq(|packages|, i requires 0 <= i < |packages| => ExpertTool(packages[i]))
  }

  /** `select_tools(package_names)`. The catalog is fetched only when some
      names are given. */
  function SelectTools(fetched: Result<seq<PackageRecord>>, packageNames: Option<seq<string>>): (r: seq<Tool>)
    ensures (packageNames.None? || packageNames.value == []) ==> r == [ProjectStructure, FileContent, FindFileLocations]
    ensures packageNames.Some? && packageNames.value != [] ==>
      && |r| >= 2
      && r[|r| - 2..] == [ProjectStructure, FileContent]
      && r[..|r| - 2] == ExpertTools(Select(AvailablePackages(fetched), packageNames.value))
  {
    if packageNames.Some? && packageNames.value != [] then
      ExpertTools(Select(AvailablePackages(fetched), packageNames.value)) + [ProjectStructure, FileContent]
    else
      [ProjectStructure, FileContent, FindFileLocations]
  }

  /** With names given, a package gets an expert tool exactly when it is in
      the catalog and its name is among them. */
  lemma SelectedExpertTools(fetched: Result<seq<PackageRecord>>, names: seq<string>, p: PackageRecord)
    requires names != []
    ensures ExpertTool(p) in SelectTools(fetched, Some(names)) <==> p in AvailablePackages(fetched) && p.packageName in names
  {
    var chosen := Select(AvailablePackages(fetched), names);
    var experts := ExpertTools(chosen);
    var r := SelectTools(fetched, Some(names));
    assert r == experts + [ProjectStructure, FileContent];
    assert ExpertTool(p) in r <==> ExpertTool(p) in experts;
    if ExpertTool(p) in experts {
      var i :| 0 <= i < |experts| && experts[i] == ExpertTool(p);
      assert chosen[i] == p;
    }
    if p in chosen {
      var i :| 0 <= i < |chosen| && chosen[i] == p;
      assert experts[i] == ExpertTool(p);
    }
  }

  /** `find_file_locations` is offered exactly when no names are given. */
  lemma FindFileOfferedWithoutNames(fetched: Result<seq<PackageRecord>>, packageNames: Option<seq<string>>)
    ensures FindFileLocations in SelectTools(fetched, packageNames) <==> packageNames.None? || packageNames.value == []
  {
    if packageNames.Some? && packageNames.value != [] {
      var experts := ExpertTools(Select(AvailablePackages(fetched), packageNames.value));
      assert SelectTools(fetched, packageNames) == experts + [ProjectStructure, FileContent];
      assert FindFileLocations !in experts;
    } else {
      assert SelectTools(fetched, packageNames)[2] == FindFileLocations;
    }
  }
}
