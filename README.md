# docs-doctor, modelled in Dafny

docs-doctor answers questions about the Python packages a project uses. A
*supervisor* agent calls one *package expert* tool per enabled package. Each
expert is an agent of its own, which searches that package's scraped
documentation in a vector store. A Streamlit client keeps the chat history and
resends it to the agent on every request.

This project models the deterministic logic inside that glue, and proves
properties of it:

- **Agent loop** (`SupervisorGraph`, `ExpertGraph`, `AgentLoop`):
  - the think nodes, with the last-step cut-off to a fixed apology;
  - the expert's prompt formatting and its `package_name` injection;
  - the router, and the think/tools cycle, driven by a counter of remaining steps;
  - `invoke_docs_doctor`.
- **Tool registry** (`AgentTools`, `DocsDoctorTools`, `Catalog`):
  - expert tool naming, and one call of an expert tool;
  - `select_tools`, and the `TOOLS` list built from the catalog;
  - `get_available_packages`.
- **File search** (`FileSearch` over the abstract tree of `FileTree`): `find_file_locations`.
- **Retrieval formatting** (`Retrieval`):
  - `get_embedding`;
  - `retrieve_relevant_documentation`, `list_documentation_pages` and `get_page_content`, over the rows the store returns.
- **Chat client** (`StreamlitClient`):
  - `_create_config`, which replays the stored history;
  - `_get_service_info`, and `_ensure_agent_current` on the `DirectAgentClient` class.
- **Directory tree** (`DirectoryTree`): `get_directory_structure`.
- **Local packages** (`LocalPackages`): `get_local_packages`, over the lines of `requirements.txt` and the parsed `pyproject.toml`.
- **Message text** (`Messages`): `get_message_text` and the model choice of `call_model`.

`Common` holds `Option` and `Result`. `Text` holds the Python string helpers
the code relies on:
- `str.strip`, `str.join` and `str.lower`;
- `in` on strings, and `split(...)[0]`;
- lexicographic order, and `sorted(set(...))`.

Everything the code gets from outside becomes an input:
- the chat model, the tools node, the embedding model and the Supabase store are oracle functions;
- the file system is an abstract tree;
- the file contents and the stored chat history are values.

Where the code loops or mutates, the model does too: `InjectPackageName` updates an array in place, and `CreateConfig` keeps the source's index that steps back by one. Each such method is proved equal to a specification function. The properties are proved about those functions.

## Model

| member | source | states |
|---|---|---|
| SupervisorGraph.ModelInput | src/agent/graph.py:43-48 | the model is sent the system message first, then the whole history, unchanged and in order |
| SupervisorGraph.CutOff | src/agent/graph.py:51-61 | on the last step, a reply with tool calls becomes an AI message with the same id, the fixed apology and no tool calls; otherwise the reply itself is emitted |
| SupervisorGraph.PackageSupervisor | src/agent/graph.py:20-61 | the node emits exactly one message, the cut-off applied to the model's reply; a model exception propagates unchanged |
| SupervisorGraph.Route | src/agent/graph.py:77-97 | end iff the last message is an AI message without tool calls; tools iff it has tool calls; an error iff there is no last message or it is not an AI message |
| SupervisorGraph.LastStepRoutesToEnd | src/agent/graph.py:51-97 | after a successful last-step think node, routing always ends the run |
| ExpertGraph.FormatPrompt | src/agent/package_expert/graph.py:41-43 | formatting succeeds iff every field of the template is `package_name` (any other raises `KeyError`) |
| ExpertGraph.FormattedPromptNamesPackage | src/agent/package_expert/graph.py:41-43 | a template with a `package_name` field yields a prompt that contains the package name |
| ExpertGraph.Inject | src/agent/package_expert/graph.py:65-67 | injection keeps the number, order, ids and names of the calls and every other argument; each call's `package_name` argument is set to the expert's name, overwriting any value the model gave |
| ExpertGraph.InjectPackageName | src/agent/package_expert/graph.py:65-67 | the in-place loop over the calls leaves the array equal to `Inject` of its old contents |
| ExpertGraph.ExpertMessage | src/agent/package_expert/graph.py:54-69 | on the last step with tool calls: the apology, same id, no calls, no injection; otherwise the reply's content with the injected calls |
| ExpertGraph.ExpertCallsCarryPackage | src/agent/package_expert/graph.py:54-69 | every tool call the expert node emits has `args["package_name"]` equal to its package name |
| ExpertGraph.ReplyWithoutCallsUnchanged | src/agent/package_expert/graph.py:65-69 | a reply without tool calls is emitted unchanged |
| ExpertGraph.PackageExpert | src/agent/package_expert/graph.py:41-69 | a bad template fails; otherwise the model receives the formatted prompt and the history, and its error propagates or the expert message is emitted |
| ExpertGraph.GraphName | src/agent/package_expert/graph.py:124 | the graph name is the package name followed by `" Expert"` |
| AgentLoop.ThinkEmitsOneAnswer | src/agent/graph.py:51-97 | a successful think step emits exactly one AI message; routing after it cannot fail, and on the last step it ends the run |
| AgentLoop.RunStopsWithinBudget | src/agent/graph.py:65-110 | with at least one step the driver never hits its limit; a finished run took 1 to `remaining` think steps, extends its starting history, and ends on an AI message without tool calls |
| AgentLoop.RunFinishes | src/agent/graph.py:65-110 | when the model, the prompt and the tools never fail, every run with a step left finishes |
| AgentLoop.DirectAnswerEndsRun | src/agent/graph.py:93-106 | a direct answer ends the run after one think step, with the reply appended and no tool run |
| AgentLoop.PersistentToolRequestsEndWithApology | src/agent/graph.py:51-110 | a model that always asks for tools uses every step and ends on the apology, with no tool calls |
| AgentLoop.ExpertThinkCarriesPackage | src/agent/package_expert/graph.py:54-69 | an expert's think step emits one message whose tool calls all carry its package name |
| AgentLoop.ExpertRunInjectsPackage | src/agent/package_expert/graph.py:65-116 | in a finished expert run, every message added after the seed carries the package name in each tool call, provided the tools node adds only tool results |
| AgentLoop.InvokeDocsDoctor | src/agent/graph.py:120-125 | `TypeError` iff `callables` is not a list; otherwise one run of the supervisor graph on the given messages |
| AgentTools.ToolName | src/agent/tools.py:56 | an expert tool is named `package_name + "_expert_tool"`; the generic tools keep their function names |
| AgentTools.ExpertToolNamesDistinct | src/agent/tools.py:56 | an expert tool shares its name only with an expert tool for the same `package_name` |
| AgentTools.InvokeExpertTool | src/agent/tools.py:26-52 | a fresh expert for the package runs from the single seed message holding the query; the tool returns the content of the run's last message, and the run's errors propagate |
| AgentTools.ExpertToolReturnsDirectAnswer | src/agent/tools.py:36-52 | when the model answers the seed directly, that answer is the tool's result |
| AgentTools.ExpertToolApologisesWhenOutOfSteps | src/agent/tools.py:36-52 | when the model keeps asking for tools, the tool's result is the apology |
| AgentTools.ExpertTools | src/agent/tools.py:151-154 | one expert tool per package, in the given order |
| AgentTools.SelectTools | src/agent/tools.py:149-166 | with names: the selected experts in catalog order, then exactly the structure and file-content tools; without names: exactly the three generic tools |
| AgentTools.SelectedExpertTools | src/agent/tools.py:150-158 | with names given, a package has an expert tool iff it is in the catalog and its name is among the names |
| AgentTools.FindFileOfferedWithoutNames | src/agent/tools.py:149-166 | `find_file_locations` is offered iff no names (or an empty list) are given |
| Catalog.AvailablePackages | src/utils/packages.py:8-18 | the fetched rows, or `[]` on any failure |
| Catalog.Names | docs_doctor/streamlit.py:44 | the `package_name` of every row, in catalog order |
| Catalog.Select | src/agent/tools.py:151-154 | the rows whose name is selected, exactly those, as a subsequence of the catalog, each kept as many times as the catalog lists it |
| Catalog.SelectAllNames | src/agent/tools.py:151-154 | selecting every catalog name keeps the whole catalog |
| Catalog.SelectNoNames | src/agent/tools.py:151-154 | selecting no name keeps nothing |
| DocsDoctorTools.CatalogTools | src/docs_doctor/tools.py:23-81 | the unguarded catalog fetch makes loading fail with the fetch's error; otherwise one tool per row |
| DocsDoctorTools.CatalogToolsCoverCatalog | src/docs_doctor/tools.py:78-81 | the list holds an expert tool iff its package is a catalog row, and no generic tool |
| DocsDoctorTools.CatalogToolsInOrder | src/docs_doctor/tools.py:68-81 | position `i` holds the expert for row `i`, named `package_name + "_expert_tool"` |
| DocsDoctorTools.CatalogToolNamesDistinct | src/docs_doctor/tools.py:68-81 | the tool names are pairwise distinct iff the rows' `package_name`s are |
| FileTree.JoinPath | src/agent/tools.py:138-139 | the joined path extends the parent and ends in `/` and the name |
| FileSearch.FileNames | src/agent/tools.py:132 | the `files` of a directory are exactly the names of its file entries |
| FileSearch.WalkDirFindsExactlyLocations | src/agent/tools.py:125-139 | the walk returns a path iff it is a location of the file in the directory or below a subdirectory outside the ignored names |
| FileSearch.FoundPathsEndWithName | src/agent/tools.py:111-146 | every returned path ends in `/` and the file name |
| FileSearch.FindFileLocationsIn | src/agent/tools.py:111-146 | the search returns the walk's paths, in top-down listing order |
| FileSearch.Walk | src/agent/tools.py:132-139 | visiting a directory appends its own match, then the matches below its subdirectories |
| FileSearch.VisitSubdirs | src/agent/tools.py:132-134 | the subdirectories are visited in listing order, appending what each yields |
| FileSearch.WalkSubdirsStep | src/agent/tools.py:132-134 | visiting one more subdirectory appends its walk to what the earlier ones found |
| FileSearch.VisitChild | src/agent/tools.py:134 | a file or an ignored directory adds nothing; other directories are walked |
| Retrieval.GetEmbedding | src/docs_doctor/package_expert/tools.py:17-26 | the model's vector, or 1536 zeros when the embedding call fails |
| Retrieval.Chunks | src/docs_doctor/package_expert/tools.py:53-61 | one `"\n# title\n\ncontent\n"` block per row, in row order |
| Retrieval.RetrievalAnswer | src/docs_doctor/package_expert/tools.py:41-68 | an error becomes the error prefix plus the message; no rows gives the sentinel; one row gives exactly its block; more rows start with the first row's block |
| Retrieval.RetrievalAnswerSnoc | src/docs_doctor/package_expert/tools.py:53-64 | one more row appends the separator `"\n\n---\n\n"` and that row's block |
| Retrieval.RetrievalOutcomesDistinct | src/docs_doctor/package_expert/tools.py:50-68 | the three outcomes are told apart by their first character |
| Retrieval.RetrieveRelevantDocumentation | src/docs_doctor/package_expert/tools.py:28-68 | the store is asked for 5 matches of this package's source with the (fallback) embedding, and the answer is rendered as above |
| Retrieval.ListDocumentationPages | src/docs_doctor/package_expert/tools.py:70-97 | strictly ascending; holds exactly the URLs of the rows, or nothing when there are none or the query fails |
| Retrieval.SortedUrls | src/docs_doctor/package_expert/tools.py:92-93 | `sorted(set(urls))` is strictly ascending with exactly the rows' URLs |
| Retrieval.PageListDependsOnlyOnUrls | src/docs_doctor/package_expert/tools.py:92-93 | rows with the same URL set list the same pages, whatever their order and repetitions |
| Retrieval.PageTitle | src/docs_doctor/package_expert/tools.py:120 | the title up to, and without, the first `" - "`, or the whole title when there is none |
| Retrieval.PageParts | src/docs_doctor/package_expert/tools.py:120-128 | the heading `"# " + title + "\n"`, then each row's content in order |
| Retrieval.PageText | src/docs_doctor/package_expert/tools.py:99-132 | an error becomes the error prefix plus the message; no rows gives the no-content message with the URL; otherwise the text starts with the heading |
| Retrieval.PageTextSnoc | src/docs_doctor/package_expert/tools.py:121-128 | one more chunk appends `"\n\n"` and its content |
| Retrieval.SingleChunkPage | src/docs_doctor/package_expert/tools.py:120-128 | a one-chunk page is the heading, a blank line and the content |
| Retrieval.GetPageContent | src/docs_doctor/package_expert/tools.py:99-132 | the store is asked for the page's chunks within this package, and the answer is rendered as above |
| Messages.PartTexts | src/agent/utils.py:20-21 | each list element's text: the string, or the dict's `"text"`, or `""` |
| Messages.GetMessageText | src/agent/utils.py:13-22 | a string unchanged; a dict's `"text"` or `""`; list content concatenated and stripped |
| Messages.MissingTextContributesNothing | src/agent/utils.py:20-22 | a dict without `"text"` adds nothing to the text of list content |
| Messages.MessageTextStable | docs_doctor/docs_doctor/utils.py:10-19 | the text of list content, wrapped again as a one-element list, gives the same text |
| Messages.SelectModel | src/agent/utils.py:33 | `configurable["model"]` when present, else the default model |
| Text.Strip | src/agent/utils.py:22 | the result neither starts nor ends with whitespace and is no longer than the input |
| Text.StripRemovesOnlyOuterSpace | src/agent/utils.py:22 | the result is an infix of the input, and everything removed before and after it is whitespace |
| Text.StripIdempotent | src/agent/utils.py:22 | stripping twice is stripping once |
| Text.SortStrings | src/utils/packages.py:83 | the result is strictly ascending and holds exactly the elements of the set |
| LocalPackages.PackageName | src/utils/packages.py:47-48 | the longest prefix without `=<>!~[` or whitespace |
| LocalPackages.PackageNameOfSpecifier | src/utils/packages.py:47-48 | a name followed by a version specifier or extras splits back to that name |
| LocalPackages.RequirementName | src/utils/packages.py:37-49 | a line contributes a name iff, stripped, it is non-empty, starts with neither `#` nor `-`, and its name part is non-empty |
| LocalPackages.RequirementLineNamesPackage | src/utils/packages.py:37-49 | a line `name` + specifier contributes exactly `name` |
| LocalPackages.LineCollected | src/utils/packages.py:33-49 | every name a line contributes is collected |
| LocalPackages.CollectedFromLine | src/utils/packages.py:33-49 | every collected name comes from some line |
| LocalPackages.DependencyNames | src/utils/packages.py:65-73 | a string entry gives its name part, a table its keys, anything else nothing |
| LocalPackages.DependencySet | src/utils/packages.py:65-73 | a name is collected iff some entry contributes it |
| LocalPackages.PyprojectSet | src/utils/packages.py:52-76 | a missing or unparsable file gives nothing; a broken Poetry section stops the reading before `[project]`; otherwise a name is collected iff it is a Poetry key or some `[project]` entry contributes it |
| LocalPackages.LocalPackageSet | src/utils/packages.py:20-80 | a name is reported iff some source gives it and it is neither `python` nor empty |
| LocalPackages.PyprojectErrorKeepsRequirements | src/utils/packages.py:75-76 | a broken `pyproject.toml` loses none of the requirements |
| LocalPackages.AddRequirementLine | src/utils/packages.py:36-49 | the loop body adds exactly what the line contributes |
| LocalPackages.ReadRequirements | src/utils/packages.py:33-49 | the loop collects the names of all lines |
| LocalPackages.AddProjectDependencies | src/utils/packages.py:65-73 | the loop adds the names of all entries |
| LocalPackages.GetLocalPackages | src/utils/packages.py:20-83 | the result is strictly ascending, so duplicate-free, and holds exactly the reported names |
| StreamlitClient.CallIds | docs_doctor/streamlit.py:68 | the ids of the calls, in order |
| StreamlitClient.Replayed | docs_doctor/streamlit.py:61-65 | a human or AI entry becomes one message of the same kind, content and tool calls; other entries none |
| StreamlitClient.Answer | docs_doctor/streamlit.py:72-77 | a tool result inside a run is kept iff its id is one of the run's call ids, as a tool message with that id and content |
| StreamlitClient.Scan | docs_doctor/streamlit.py:57-79 | the reference replay yields at most one message per entry |
| StreamlitClient.ReplayToolRun | docs_doctor/streamlit.py:67-78 | the inner loop consumes exactly the run of tool entries and appends what the reference replay keeps of it |
| StreamlitClient.ReplayEntry | docs_doctor/streamlit.py:58-79 | each outer pass advances the index by at least one and appends what the reference replay yields for the entries passed |
| StreamlitClient.CreateConfig | docs_doctor/streamlit.py:53-91 | the messages sent are the reference replay of the history followed by the new human message; the config carries the given thread id and model |
| StreamlitClient.ScanKeepsConversation | docs_doctor/streamlit.py:58-66 | apart from tool results, the replay is every human and AI entry, in order |
| StreamlitClient.ScanAnswered | docs_doctor/streamlit.py:67-77 | every tool result sent answers a call of the AI message that opened its run |
| StreamlitClient.ScanKeepsPairedHistory | docs_doctor/streamlit.py:57-79 | a history that is already well paired is replayed without loss |
| StreamlitClient.CreatedConfigShape | docs_doctor/streamlit.py:57-81 | at most one message per entry plus the new one, which comes last; the conversation is kept and the pairing holds |
| StreamlitClient.ServiceInfoOf | docs_doctor/streamlit.py:32-46 | available names are all catalog names in order; the presets are the catalog names installed locally, in catalog order; `packages` starts as the presets |
| StreamlitClient.PresetMember | docs_doctor/streamlit.py:35-39 | a name is preset iff the catalog lists it and it is installed locally |
| StreamlitClient.PresetCount | docs_doctor/streamlit.py:35-39 | a preset name occurs as often as the catalog lists it when it is installed locally, and not at all otherwise |
| StreamlitClient.PresetsKeepCatalogCount | docs_doctor/streamlit.py:32-46 | each preset name occurs in the presets as many times as among the available names when it is installed locally, and not at all otherwise |
| StreamlitClient.NamesOfSubsequence | docs_doctor/streamlit.py:35-39 | taking names keeps catalog order |
| StreamlitClient.DirectAgentClient.constructor | docs_doctor/streamlit.py:27-30 | the agent is equipped with the presets, and the recorded set is theirs |
| StreamlitClient.DirectAgentClient.SelectPackages | docs_doctor/streamlit.py:210-215 | the sidebar replaces the enabled packages and leaves the agent as it is |
| StreamlitClient.DirectAgentClient.EnsureAgentCurrent | docs_doctor/streamlit.py:48-51 | the agent is rebuilt iff the enabled set differs from the recorded one; afterwards both sets are equal |
| DirectoryTree.IgnorePatterns | src/utils/tree.py:25-26 | the given patterns, or the five defaults |
| DirectoryTree.Visible | src/utils/tree.py:28-37 | an item is kept iff no pattern occurs in its path |
| DirectoryTree.InsertItemSorted | src/utils/tree.py:36-39 | insertion keeps the order: directories first, then by lower-cased name |
| DirectoryTree.SortItems | src/utils/tree.py:36-39 | the sorted items are a permutation in key order |
| DirectoryTree.ItemsAreSortedVisibleChildren | src/utils/tree.py:28-39 | the listed items are sorted and are exactly the children no pattern hides |
| DirectoryTree.ChildPrefix | src/utils/tree.py:51-54 | the next prefix extends the current one by four characters: a bar and three spaces, or four spaces under a last entry, so only a non-last parent adds a level of depth |
| DirectoryTree.ItemConnector | src/utils/tree.py:47-67 | item j is drawn after `└── ` iff it is the last item; a file is exactly one line under the parent's prefix, a subdirectory starts under the next level's prefix |
| DirectoryTree.DirectoryHead | src/utils/tree.py:75-77 | a directory drawn under a non-empty prefix starts with the prefix, its connector and its name |
| DirectoryTree.DirectoryAloneIsOneLine | src/utils/tree.py:42-72 | an unreadable directory, or one at or past the maximum depth, is drawn as one line starting with its connector and name |
| DirectoryTree.SpacesHaveNoDepth | src/utils/tree.py:42 | a prefix of spaces only has depth 0 |
| DirectoryTree.LastChildChainIsNeverCut | src/utils/tree.py:42-54 | below a chain of last directories the prefix stays all spaces, so a maximum depth of 1 or more never collapses it |
| DirectoryTree.RootLineRunsIntoFirstItem | src/utils/tree.py:32-80 | as written, a root holding one file draws `name/└── file` on a single line |
| DirectoryTree.RootLineStandsAlone | src/utils/tree.py:75-80 | with the corrected join, the first line of a root drawing is exactly `name/` |
| DirectoryTree.GetDirectoryStructure | src/utils/tree.py:5-80 | the recursive procedure returns exactly the drawing `Render` defines |
| DirectoryTree.DrawItems | src/utils/tree.py:47-67 | the loop's parts concatenate to the drawing of all items |
| DirectoryTree.DrawItem | src/utils/tree.py:48-67 | a subdirectory is drawn by the recursive call under the next prefix; a file is one line under the current prefix |

## Left out

- Network and model calls are oracle inputs: the chat model, the embedding model, and the Supabase queries and RPC. So are the tools node and file reading. Their results are given, not computed.
- LangGraph internals (`StateGraph`, `ToolNode`, the message reducer, `is_last_step`) are not modelled. The driver is written out with a counter of remaining think steps. `is_last_step` is taken to hold when one step remains, and starting a step with none left is the recursion-limit outcome.
- The tools node is an opaque function. Nothing is assumed about how it turns tool exceptions into messages.
- The tool list bound to the supervisor's model is a parameter. `src/agent/graph.py:14` imports a `TOOLS` name that `src/agent/tools.py` does not define.
- src/docs_doctor/package_expert/graph.py is not part of this model. The expert tools of `src/docs_doctor/tools.py` are modelled with the expert graph of `src/agent/package_expert/graph.py`, which is what their factory does in `src/agent/tools.py`.
- The `custom_data` of the seed message is not modelled. It is keyed by the compiled graph object, and nothing in the modelled code reads it.
- Async execution and parallel tool calls are not modelled. Each run is sequential.
- The Streamlit UI is not modelled. This covers rendering, the sidebar, model selection with its float prices, streaming, `ainvoke` and `get_history`. `SelectPackages` stands for the sidebar's assignment to `info.packages`.
- Settings and client construction are not modelled: `src/core/settings.py`, `docs_doctor/core/llm.py`, the CLI, `setup.py` and the package `__init__` files.
- `get_file_content` and `get_project_structure` are not modelled. They perform real file I/O. They appear only as tools in the registry.
- The file system is an abstract tree. Path normalisation, symbolic links and `Path.resolve` are not modelled. `root_path` is assumed to name a directory.
- FileSearch.FindFileLocationsIn: the `except` branches of `find_file_locations` are not reachable in the model. `os.walk` without `onerror` skips a directory it cannot list, and the model does the same.
- `str.lower` is modelled on ASCII letters only. Whitespace, for `str.strip` and `\s`, is the full set `str.isspace` accepts.
- Lexicographic order compares characters by code point, as Python compares strings.
- DirectoryTree.SortItems: stability is not stated by its contract. The insertion puts an item before the equal-key items already sorted, so equal-key items keep their input order as with Python's `sorted`, but no lemma says so.
- The row order of the page chunks is the store's (`order('chunk_number')`). The model takes the rows in the order given.
- Rows are assumed to have every key the code reads. A missing key would raise `KeyError`, which the retrieval tools would turn into their error text.
- LocalPackages.GetLocalPackages: an existing `requirements.txt` that cannot be read raises, and that is not modelled. The TOML parser is an input: `pyproject.toml` is given as what it parsed into, or as the failure.
- LocalPackages.RequirementSet: its own contract states only that the empty name is never collected. Membership in both directions is stated by `LineCollected` and `CollectedFromLine`.
- DirectoryTree.Items: its contract states only that the items are children. The sort order and the ignore rule are stated by `ItemsAreSortedVisibleChildren`.
- The embedding call in `get_embedding` is modelled as either a vector or a failure. The library's own behaviour is not visible.

## Findings

| source | as written | input that shows it | evidently intended | confidence | as-written member | corrected member |
|---|---|---|---|---|---|---|
| src/utils/tree.py:75-80 | the root drawing joins `root.name + "/"` directly with the first item's line | a root `proj` holding one file `a.txt` gives `proj/└── a.txt` on one line | the root's name on a line of its own, `proj/` then a line break, then the items, as `RenderCorrected` draws it | not executed | DirectoryTree.RootLineRunsIntoFirstItem | DirectoryTree.RootLineStandsAlone |
