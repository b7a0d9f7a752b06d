/** `DirectAgentClient` of `docs_doctor/streamlit.py`: the service info
    shown in the sidebar, the check that re-equips the agent when the
    enabled packages change, and the rebuilding of the message list sent to
    the agent from the stored chat history. */
module StreamlitClient {
  import opened Common
  import opened Text
  import opened Messages
  import opened Catalog

  /** One entry of the stored chat history, by its `type`. Other types
      (such as `custom`) are dropped when the history is replayed. */
  datatype HistoryEntry =
    | HumanEntry(content: string)
    | AIEntry(content: string, toolCalls: seq<ToolCall>)
    | ToolEntry(toolCallId: string, content: string)
    | OtherEntry(kind: string)

  function CallIds(calls: seq<ToolCall>): (r: seq<string>)
    ensures |r| == |calls| && forall i :: 0 <= i < |calls| ==> r[i] == calls[i].id
  {
    seq(|calls|, i requires 0 <= i < |calls| => calls[i].id)
  }

  /** Where the replay is: outside a run of tool results, or inside the run
      that follows an AI message issuing the calls `ids`. */
  datatype ScanState = Outside | InRun(ids: seq<string>)

  function OpenIds(st: ScanState): seq<string> {
    if st.InRun? then st.ids else []
  }

  /** What an entry outside a run of tool results is replayed as: human
      and AI entries become messages, the others are dropped. */
  function Replayed(e: HistoryEntry): (r: seq<Message>)
    ensures |r| <= 1
    ensures r != [] <==> e.HumanEntry? || e.AIEntry?
    ensures r != [] ==> r[0].content == Str(e.content)
    ensures r != [] ==> (r[0].Human? <==> e.HumanEntry?) && (r[0].AI? <==> e.AIEntry?)
    ensures e.AIEntry? ==> r[0].toolCalls == e.toolCalls
  {
    match e
    case HumanEntry(c) => [Human(Str(c))]
    case AIEntry(c, calls) => [AI(None, Str(c), calls)]
    case _ => []
  }

  /** The state after an entry outside a run: an AI message with tool
      calls opens a run for its call ids. */
  function After(e: HistoryEntry): ScanState {
    if e.AIEntry? && e.toolCalls != [] then InRun(CallIds(e.toolCalls)) else Outside
  }

  /** What a tool entry inside a run is replayed as. */
  function Answer(e: HistoryEntry, ids: seq<string>): (r: seq<Message>)
    requires e.ToolEntry?
    ensures |r| <= 1
    ensures r != [] <==> e.toolCallId in ids
    ensures r != [] ==> r[0].Tool? && r[0].toolCallId == e.toolCallId && r[0].content == Str(e.content)
  {
    if e.toolCallId in ids then [Tool(e.toolCallId, Str(e.content))] else []
  }

  /** The replayed messages, read left to right: human and AI entries are
      kept; a tool entry is kept only inside the run of tool entries right
      after an AI message with tool calls, and only if its id is one of
      that message's call ids; anything else ends such a run. */
  function Scan(h: seq<HistoryEntry>, st: ScanState): (r: seq<Message>)
    ensures |r| <= |h|
    decreases |h|
  {
    if h == [] then []
    else if h[0].ToolEntry? && st.InRun? then Answer(h[0], st.ids) + Scan(h[1..], st)
    else Replayed(h[0]) + Scan(h[1..], After(h[0]))
  }

  /** `Scan` from position `i` of `h`, one entry at a time. */
  lemma ScanFrom(h: seq<HistoryEntry>, i: nat, st: ScanState)
    requires i < |h|
    ensures h[i].ToolEntry? && st.InRun? ==> Scan(h[i..], st) == Answer(h[i], st.ids) + Scan(h[i + 1..], st)
    ensures !(h[i].ToolEntry? && st.InRun?) ==> Scan(h[i..], st) == Replayed(h[i]) + Scan(h[i + 1..], After(h[i]))
  {
    assert h[i..][1..] == h[i + 1..];
  }

  /** A run of tool results ends at the first entry that is not one. */
  lemma RunEnds(h: seq<HistoryEntry>, ids: seq<string>)
    requires h == [] || !h[0].ToolEntry?
    ensures Scan(h, InRun(ids)) == Scan(h, Outside)
  {
  }

  /** The message list of the configuration `_create_config` returns, and
      the two `configurable` values. */
  datatype AgentConfig = AgentConfig(messages: seq<Message>, threadId: string, model: string)

  /** The inner loop of `_create_config`: from `start`, the run of tool
      entries after an AI message whose call ids are `ids`; results that
      answer one of those calls are appended. Stops at the first entry that
      is not a tool result. */
  method ReplayToolRun(history: seq<HistoryEntry>, start: nat, ids: seq<string>, sent: seq<Message>) returns (i: nat, sent': seq<Message>)
    requires start <= |history|
    ensures start <= i <= |history|
    ensures i == |history| || !history[i].ToolEntry?
    ensures sent' + Scan(history[i..], Outside) == sent + Scan(history[start..], InRun(ids))
  {
    i := start;
    sent' := sent;
    while i < |history| && history[i].ToolEntry?
      invariant start <= i <= |history|
      invariant sent' + Scan(history[i..], InRun(ids)) == sent + Scan(history[start..], InRun(ids))
      decreases |history| - i
    {
      var toolMsg := history[i];
      ScanFrom(history, i, InRun(ids));
      if toolMsg.toolCallId in ids {
        sent' := sent' + [Tool(toolMsg.toolCallId, Str(toolMsg.content))];
        assert Answer(toolMsg, ids) == [Tool(toolMsg.toolCallId, Str(toolMsg.content))];
      } else {
        assert Answer(toolMsg, ids) == [];
      }
      i := i + 1;
    }
    RunEnds(history[i..], ids);
  }

  /** One pass of the outer loop of `_create_config`, at entry `i`: a
      human or AI entry is appended; after an AI message with tool calls
      the index is moved past the run of tool results and stepped back by
      one; the pass ends by advancing the index. */
  method ReplayEntry(history: seq<HistoryEntry>, i: nat, sent: seq<Message>) returns (next: nat, sent': seq<Message>)
    requires i < |history|
    ensures i < next <= |history|
    ensures sent' + Scan(history[next..], Outside) == sent + Scan(history[i..], Outside)
  {
    var msg := history[i];
    next := i;
    sent' := sent;
    ScanFrom(history, i, Outside);
    ghost var rest := Scan(history[i + 1..], After(msg));
    assert sent + Scan(history[i..], Outside) == sent + (Replayed(msg) + rest);
    if msg.HumanEntry? {
      sent' := sent' + [Human(Str(msg.content))];
      assert Replayed(msg) == [Human(Str(msg.content))];
      assert sent' + rest == sent + (Replayed(msg) + rest);
      assert After(msg) == Outside;
    } else if msg.AIEntry? {
      sent' := sent' + [AI(None, Str(msg.content), msg.toolCalls)];
      assert Replayed(msg) == [AI(None, Str(msg.content), msg.toolCalls)];
      assert sent' + rest == sent + (Replayed(msg) + rest);
      if msg.toolCalls != [] {
        var toolCallIds := CallIds(msg.toolCalls);
        assert After(msg) == InRun(toolCallIds);
        ghost var mid := sent';
        next := next + 1;
        next, sent' := ReplayToolRun(history, next, toolCallIds, sent');
        assert sent' + Scan(history[next..], Outside) == mid + rest;
        next := next - 1;
      } else {
        assert After(msg) == Outside;
      }
    } else {
      assert Replayed(msg) == [];
      assert sent + rest == sent + (Replayed(msg) + rest);
      assert After(msg) == Outside;
    }
    next := next + 1;
  }

  /** `_create_config`: the stored history (given here; it is read from the
      agent's checkpoint) is replayed entry by entry, and the new user
      message is appended. */
  method CreateConfig(history: seq<HistoryEntry>, message: string, model: string, threadId: string) returns (c: AgentConfig)
    ensures c.messages == Scan(history, Outside) + [Human(Str(message))]
    ensures c.threadId == threadId && c.model == model
  {
    var messagesToSend: seq<Message> := [];
    var i := 0;
    while i < |history|
      invariant 0 <= i <= |history|
      invariant messagesToSend + Scan(history[i..], Outside) == Scan(history, Outside)
      decreases |history| - i
    {
      ghost var before := messagesToSend;
      ghost var from := i;
      i, messagesToSend := ReplayEntry(history, i, messagesToSend);
      assert messagesToSend + Scan(history[i..], Outside) == before + Scan(history[from..], Outside);
    }
    messagesToSend := messagesToSend + [Human(Str(message))];
    c := AgentConfig(messagesToSend, threadId, model);
  }

  /** The human and AI entries of the history as messages, in order. */
  function Conversation(h: seq<HistoryEntry>): (r: seq<Message>)
    ensures |r| <= |h|
    ensures forall i :: 0 <= i < |r| ==> r[i].Human? || r[i].AI?
  {
    if h == [] then [] else Replayed(h[0]) + Conversation(h[1..])
  }

  /** The messages other than tool results. */
  function Dialogue(ms: seq<Message>): (r: seq<Message>)
    ensures |r| <= |ms|
    ensures forall i :: 0 <= i < |r| ==> !r[i].Tool?
  {
    if ms == [] then []
    else if ms[0].Tool? then Dialogue(ms[1..])
    else [ms[0]] + Dialogue(ms[1..])
  }

  lemma {:induction false} DialogueAppend(a: seq<Message>, b: seq<Message>)
    ensures Dialogue(a + b) == Dialogue(a) + Dialogue(b)
    decreases |a|
  {
    if a != [] {
      assert (a + b)[1..] == a[1..] + b;
      DialogueAppend(a[1..], b);
    } else {
      assert a + b == b;
    }
  }

  /** Every human and AI entry is replayed, in the original order; only
      tool results are filtered. */
  lemma {:induction false} ScanKeepsConversation(h: seq<HistoryEntry>, st: ScanState)
    ensures Dialogue(Scan(h, st)) == Conversation(h)
    decreases |h|
  {
    if h != [] {
      var e := h[0];
      if e.ToolEntry? && st.InRun? {
        ScanKeepsConversation(h[1..], st);
        DialogueAppend(Answer(e, st.ids), Scan(h[1..], st));
        assert Dialogue(Answer(e, st.ids)) == [];
      } else {
        ScanKeepsConversation(h[1..], After(e));
        DialogueAppend(Replayed(e), Scan(h[1..], After(e)));
        assert Dialogue(Replayed(e)) == Replayed(e);
      }
    }
  }

  /** A message list in which every tool result answers a call of the AI
      message that opened its run: `open` holds the ids of that message's
      calls, and only tool results may follow it inside the run. */
  predicate Answered(ms: seq<Message>, open: seq<string>)
    decreases |ms|
  {
    ms == [] ||
      match ms[0]
      case Tool(id, _) => id in open && Answered(ms[1..], open)
      case AI(_, _, calls) => Answered(ms[1..], CallIds(calls))
      case _ => Answered(ms[1..], [])
  }

  /** The replay always yields a well-paired message list. */
  lemma {:induction false} ScanAnswered(h: seq<HistoryEntry>, st: ScanState)
    ensures Answered(Scan(h, st), OpenIds(st))
    decreases |h|
  {
    if h != [] {
      var e := h[0];
      var r := Scan(h, st);
      if e.ToolEntry? && st.InRun? {
        var rest := Scan(h[1..], st);
        ScanAnswered(h[1..], st);
        assert r == Answer(e, st.ids) + rest;
        if e.toolCallId in st.ids {
          assert r[0] == Tool(e.toolCallId, Str(e.content)) && r[1..] == rest;
        } else {
          assert r == rest;
        }
      } else {
        var rest := Scan(h[1..], After(e));
        ScanAnswered(h[1..], After(e));
        assert r == Replayed(e) + rest;
        if e.HumanEntry? || e.AIEntry? {
          assert r[1..] == rest;
          assert e.AIEntry? ==> OpenIds(After(e)) == CallIds(e.toolCalls);
        } else {
          assert r == rest;
          AnsweredFromOutside(r, OpenIds(st));
        }
      }
    }
  }

  /** A list well paired with no run open stays so with any run open, as
      long as it does not start with a tool result. */
  lemma AnsweredFromOutside(ms: seq<Message>, open: seq<string>)
    requires Answered(ms, [])
    ensures Answered(ms, open)
  {
  }

  /** Each history entry as the message it is replayed as. */
  function AsMessages(h: seq<HistoryEntry>): (r: seq<Message>)
    requires forall i :: 0 <= i < |h| ==> !h[i].OtherEntry?
    ensures |r| == |h|
  {
    if h == [] then []
    else
      var m := match h[0]
        case HumanEntry(c) => Human(Str(c))
        case AIEntry(c, calls) => AI(None, Str(c), calls)
        case ToolEntry(id, c) => Tool(id, Str(c));
      [m] + AsMessages(h[1..])
  }

  /** A history that is already well paired is replayed without loss. */
  lemma {:induction false} ScanKeepsPairedHistory(h: seq<HistoryEntry>, st: ScanState)
    requires forall i :: 0 <= i < |h| ==> !h[i].OtherEntry?
    requires Answered(AsMessages(h), OpenIds(st))
    ensures Scan(h, st) == AsMessages(h)
    decreases |h|
  {
    if h != [] {
      var e := h[0];
      var ms := AsMessages(h);
      assert ms[1..] == AsMessages(h[1..]);
      assert forall i :: 0 <= i < |h[1..]| ==> h[1..][i] == h[i + 1];
      match e
      case ToolEntry(id, c) =>
        assert st.InRun? && id in st.ids;
        ScanKeepsPairedHistory(h[1..], st);
      case AIEntry(c, calls) =>
        var next := if calls != [] then InRun(CallIds(calls)) else Outside;
        ScanKeepsPairedHistory(h[1..], next);
      case HumanEntry(c) =>
        ScanKeepsPairedHistory(h[1..], Outside);
    }
  }

  /** The messages sent end with the new user message, hold at most one
      message per history entry besides it, and keep the conversation. */
  lemma CreatedConfigShape(history: seq<HistoryEntry>, message: string)
    ensures var ms := Scan(history, Outside) + [Human(Str(message))];
      && |ms| <= |history| + 1
      && ms[|ms| - 1] == Human(Str(message))
      && Dialogue(ms) == Conversation(history) + [Human(Str(message))]
      && Answered(ms, [])
  {
    var s := Scan(history, Outside);
    ScanKeepsConversation(history, Outside);
    DialogueAppend(s, [Human(Str(message))]);
    ScanAnswered(history, Outside);
    AnsweredAppendHuman(s, [], message);
  }

  lemma {:induction false} AnsweredAppendHuman(ms: seq<Message>, open: seq<string>, message: string)
    requires Answered(ms, open)
    ensures Answered(ms + [Human(Str(message))], open)
    decreases |ms|
  {
    if ms != [] {
      assert (ms + [Human(Str(message))])[1..] == ms[1..] + [Human(Str(message))];
      match ms[0]
      case Tool(_, _) => AnsweredAppendHuman(ms[1..], open, message);
      case AI(_, _, calls) => AnsweredAppendHuman(ms[1..], CallIds(calls), message);
      case _ => AnsweredAppendHuman(ms[1..], [], message);
    }
  }

  /** The `SimpleNamespace` `_get_service_info` returns. */
  datatype ServiceInfo = ServiceInfo(
    models: seq<string>,
    defaultModel: string,
    defaultPackages: seq<string>,
    availablePackages: seq<string>,
    packages: seq<string>)

  /** `_get_service_info`, given the catalog, the local packages and the
      model settings: the preset packages are the catalog names that are
      installed locally, in catalog order. */
  function ServiceInfoOf(catalog: seq<PackageRecord>, local: seq<string>, models: seq<string>, defaultModel: string): (r: ServiceInfo)
    ensures r.availablePackages == Names(catalog)
    ensures r.packages == r.defaultPackages
    ensures forall n :: n in r.defaultPackages <==> n in Names(catalog) && n in local
    ensures IsSubsequence(r.defaultPackages, r.availablePackages)
    ensures r.models == models && r.defaultModel == defaultModel
  {
    var chosen := Select(catalog, local);
    var preset := Names(chosen);
    forall n ensures n in preset <==> n in Names(catalog) && n in local {
      PresetMember(catalog, local, n);
    }
    NamesOfSubsequence(chosen, catalog);
    ServiceInfo(models, defaultModel, preset, Names(catalog), preset)
  }

  /** Each preset name occurs as many times as the catalog lists it. */
  lemma PresetsKeepCatalogCount(catalog: seq<PackageRecord>, local: seq<string>, models: seq<string>, defaultModel: string, n: string)
    ensures var info := ServiceInfoOf(catalog, local, models, defaultModel);
      multiset(info.defaultPackages)[n] == if n in local then multiset(info.availablePackages)[n] else 0
  {
    PresetCount(catalog, local, n);
  }

  /** A name is preset exactly when the catalog lists it and it is
      installed locally. */
  lemma PresetMember(catalog: seq<PackageRecord>, local: seq<string>, n: string)
    ensures n in Names(Select(catalog, local)) <==> n in Names(catalog) && n in local
  {
    PresetCount(catalog, local, n);
    assert n in Names(Select(catalog, local)) <==> multiset(Names(Select(catalog, local)))[n] > 0;
    assert n in Names(catalog) <==> multiset(Names(catalog))[n] > 0;
  }

  /** A preset name occurs as often as the catalog lists it, when it is
      installed locally, and not at all otherwise. */
  lemma {:induction false} PresetCount(catalog: seq<PackageRecord>, local: seq<string>, n: string)
    ensures multiset(Names(Select(catalog, local)))[n] == if n in local then multiset(Names(catalog))[n] else 0
  {
    if catalog != [] {
      var head := catalog[0];
      var tail := catalog[1..];
      var chosen := Select(catalog, local);
      var rest := Select(tail, local);
      PresetCount(tail, local, n);
      assert catalog == [head] + tail;
      NamesCons(head, tail);
      var one := if head.packageName == n then 1 else 0;
      assert multiset(Names(catalog))[n] == one + multiset(Names(tail))[n];
      if head.packageName in local {
        assert chosen == [head] + rest;
        NamesCons(head, rest);
        assert multiset(Names(chosen))[n] == one + multiset(Names(rest))[n];
      } else {
        assert chosen == rest;
        assert n in local ==> one == 0;
      }
    }
  }

  /** The names of a row followed by more rows. */
  lemma NamesCons(head: PackageRecord, tail: seq<PackageRecord>)
    ensures multiset(Names([head] + tail)) == multiset{head.packageName} + multiset(Names(tail))
  {
    assert Names([head] + tail) == [head.packageName] + Names(tail);
  }

  /** Taking names keeps a subsequence a subsequence. */
  lemma {:induction false} NamesOfSubsequence(xs: seq<PackageRecord>, ys: seq<PackageRecord>)
    requires IsSubsequence(xs, ys)
    ensures IsSubsequence(Names(xs), Names(ys))
    decreases |ys|
  {
    if xs != [] {
      assert Names(xs)[1..] == Names(xs[1..]);
      assert Names(ys)[1..] == Names(ys[1..]);
      if xs[0] == ys[0] && IsSubsequence(xs[1..], ys[1..]) {
        NamesOfSubsequence(xs[1..], ys[1..]);
      } else {
        NamesOfSubsequence(xs, ys[1..]);
      }
    }
  }

  /** The client: the service info (whose `packages` the sidebar
      overwrites), the package set the agent was last equipped with, and
      the agent, represented by the package list it was equipped with. */
  class DirectAgentClient {
    var info: ServiceInfo
    var currentPackages: set<string>
    var agentPackages: seq<string>

    /** The agent serves exactly the recorded package set. */
    predicate Valid()
      reads this
    {
      ToSet(agentPackages) == currentPackages
    }

    /** `__init__`: the agent is equipped with the preset packages. */
    constructor (catalog: seq<PackageRecord>, local: seq<string>, models: seq<string>, defaultModel: string)
      ensures Valid()
      ensures info == ServiceInfoOf(catalog, local, models, defaultModel)
      ensures currentPackages == ToSet(info.packages)
      ensures agentPackages == info.packages
    {
      var preset := ServiceInfoOf(catalog, local, models, defaultModel);
      var packages := preset.packages;
      info := preset;
      currentPackages := ToSet(packages);
      agentPackages := packages;
    }

    /** The sidebar's multiselect replaces the enabled packages; the agent
      is left as it is until the next request. */
    method SelectPackages(selected: seq<string>)
      requires Valid()
      modifies this
      ensures Valid()
      ensures info == old(info).(packages := selected)
      ensures currentPackages == old(currentPackages) && agentPackages == old(agentPackages)
    {
      info := info.(packages := selected);
    }

    /** `_ensure_agent_current`: the agent is rebuilt exactly when the set
      of enabled packages differs from the set it was equipped with; either
      way it then serves the enabled packages. */
    method EnsureAgentCurrent()
      requires Valid()
      modifies this
      ensures Valid()
      ensures info == old(info)
      ensures currentPackages == ToSet(info.packages)
      ensures ToSet(agentPackages) == ToSet(info.packages)
      ensures old(currentPackages) != ToSet(info.packages) ==> agentPackages == info.packages
      ensures old(currentPackages) == ToSet(info.packages) ==> agentPackages == old(agentPackages)
    {
      if currentPackages != ToSet(info.packages) {
        agentPackages := info.packages;
        currentPackages := ToSet(info.packages);
      }
    }
  }
}
