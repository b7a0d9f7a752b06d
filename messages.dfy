/** Chat messages as the agents exchange them, and the helpers of
    `src/agent/utils.py` (duplicated in `docs_doctor/docs_doctor/utils.py`):
    `get_message_text` and the model choice of `call_model`. */
module Messages {
  import opened Common
  import opened Text

  /** One element of a list-valued message content: a plain string or a
      dict whose `"text"` entry may be missing. */
  datatype ContentPart = TextPart(s: string) | BlockPart(text: Option<string>)

  /** A message's `content`: a string, a dict, or a list of parts. */
  datatype Content =
    | Str(s: string)
    | Block(text: Option<string>)
    | Parts(parts: seq<ContentPart>)

  /** One requested tool invocation: `{"id", "name", "args"}`. Argument
      values are kept as strings. */
  datatype ToolCall = ToolCall(id: string, name: string, args: map<string, string>)

  /** The message classes the modelled code creates or inspects. `Chat` is
      LangChain's `ChatMessage` with a custom role. */
  datatype Message =
    | System(content: Content)
    | Human(content: Content)
    | Chat(role: string, content: Content)
    | AI(id: Option<string>, content: Content, toolCalls: seq<ToolCall>)
    | Tool(toolCallId: string, content: Content)

  /** `type(m).__name__` for the classes above. */
  function ClassName(m: Message): string {
    match m
    case System(_) => "SystemMessage"
    case Human(_) => "HumanMessage"
    case Chat(_, _) => "ChatMessage"
    case AI(_, _, _) => "AIMessage"
    case Tool(_, _) => "ToolMessage"
  }

  /** The text a list element contributes: the string itself, or the dict's
      `"text"` value, `""` when missing or empty. */
  function PartText(p: ContentPart): string {
    match p
    case TextPart(s) => s
    case BlockPart(t) => t.GetOr("")
  }

  function PartTexts(parts: seq<ContentPart>): (r: seq<string>)
    ensures |r| == |parts| && forall i :: 0 <= i < |parts| ==> r[i] == PartText(parts[i])
  {
    seq(|parts|, i requires 0 <= i < |parts| => PartText(parts[i]))
  }

  /** `get_message_text(msg)` on `msg.content`. */
  function GetMessageText(c: Content): (r: string)
    ensures c.Str? ==> r == c.s
    ensures c.Block? ==> r == c.text.GetOr("")
    ensures c.Parts? ==> r == Strip(Concat(PartTexts(c.parts)))
  {
    match c
    case Str(s) => s
    case Block(t) => t.GetOr("")
    case Parts(ps) => Strip(Concat(PartTexts(ps)))
  }

  /** A list element without text (a dict with no `"text"`) contributes
      nothing to the text of list content. */
  lemma MissingTextContributesNothing(ps: seq<ContentPart>)
    ensures GetMessageText(Parts(ps + [BlockPart(None)])) == GetMessageText(Parts(ps))
  {
    assert PartTexts(ps + [BlockPart(None)]) == PartTexts(ps) + [""];
    if ps != [] {
      JoinSnoc(PartTexts(ps), "", "");
      assert Concat(PartTexts(ps)) + "" + "" == Concat(PartTexts(ps));
    }
  }

  /** The text of list content, wrapped again as a single text part, gives
      the same text back. */
  lemma MessageTextStable(ps: seq<ContentPart>)
    ensures var r := GetMessageText(Parts(ps));
      GetMessageText(Parts([TextPart(r)])) == r
  {
    var r := GetMessageText(Parts(ps));
    assert PartTexts([TextPart(r)]) == [r];
    StripIdempotent(Concat(PartTexts(ps)));
  }

  /** `call_model`: the configured `"model"`, else the default model. */
  function SelectModel(configurable: map<string, string>, defaultModel: string): (r: string)
    ensures "model" in configurable ==> r == configurable["model"]
    ensures "model" !in configurable ==> r == defaultModel
  {
    if "model" in configurable then configurable["model"] else defaultModel
  }
}
