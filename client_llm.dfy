/** The chat client: it lists the server's tools, offers them to a chat-completion model as
    function schemas, and runs the conversation loop that executes the tool calls the model
    asks for and feeds their results back into the history. */
module ClientLlm {
  import opened Wrappers
  import opened Json
  import opened ToolCatalog
  import Seqs

  // ===================== tool schemas =====================

  /** `to_openai_schema`: the function-call schema offered to the model for one tool. A tool
      without a description gets `null`. */
  function ToOpenAiSchema(t: ToolDef): (j: Json)
    ensures j.JObj? && j.fields.Keys == {"type", "function"} && j.fields["type"] == JStr("function")
    ensures j.fields["function"].JObj? && j.fields["function"].fields.Keys == {"name", "description", "parameters"}
    ensures j.fields["function"].fields["name"] == JStr(t.name)
    ensures j.fields["function"].fields["parameters"] == t.inputSchema
    ensures j.fields["function"].fields["description"].JNull? <==> t.description.None?
  {
    JObj(map[
      "type" := JStr("function"),
      "function" := JObj(map[
        "name" := JStr(t.name),
        "description" := (if t.description.Some? then JStr(t.description.value) else JNull),
        "parameters" := t.inputSchema])])
  }

  /** Reads a tool definition back from a function-call schema; None for anything that is not
      exactly the shape `ToOpenAiSchema` produces. */
  function FromOpenAiSchema(j: Json): Option<ToolDef> {
    if j.JObj? && j.fields.Keys == {"type", "function"} && j.fields["type"] == JStr("function")
       && j.fields["function"].JObj?
    then
      var f := j.fields["function"].fields;
      if f.Keys == {"name", "description", "parameters"} && f["name"].JStr?
         && (f["description"].JNull? || f["description"].JStr?)
      then
        Some(ToolDef(f["name"].s, if f["description"].JStr? then Some(f["description"].s) else None, f["parameters"]))
      else None
    else None
  }

  /** The schema keeps the tool's name, description and input schema: nothing is lost. */
  lemma SchemaRoundTrip(t: ToolDef)
    ensures FromOpenAiSchema(ToOpenAiSchema(t)) == Some(t)
  {
    var f := ToOpenAiSchema(t).fields["function"].fields;
    assert f["name"] == JStr(t.name);
    assert f["parameters"] == t.inputSchema;
  }

  /** Every value the reader accepts is the schema of the tool it reads. */
  lemma SchemaOnlyFromTool(j: Json, t: ToolDef)
    requires FromOpenAiSchema(j) == Some(t)
    ensures ToOpenAiSchema(t) == j
  {
    var f := j.fields["function"].fields;
    var g := ToOpenAiSchema(t).fields["function"].fields;
    assert g.Keys == f.Keys;
    assert g["description"] == f["description"];
    assert g == f;
    assert ToOpenAiSchema(t).fields == j.fields;
  }

  /** `[to_openai_schema(t) for t in tools.values()]` over the catalog `list_tools` builds:
      one schema per catalog entry, in the catalog's key order. */
  function Schemas(tools: seq<ToolDef>): seq<Json> {
    var catalog := ByName(tools);
    var order := KeyOrder(tools);
    KeyOrderSpec(tools);
    seq(|order|, i requires 0 <= i < |order| => ToOpenAiSchema(catalog[order[i]]))
  }

  /** `j` is the schema of some entry of the catalog built from `tools`. */
  predicate SchemaOfEntry(tools: seq<ToolDef>, j: Json) {
    exists n :: n in ByName(tools) && j == ToOpenAiSchema(ByName(tools)[n])
  }

  /** Exactly one schema per entry of the name-keyed catalog: as many schemas as entries, each
      the schema of an entry, every entry covered, and no schema twice. */
  lemma SchemasOnePerEntry(tools: seq<ToolDef>)
    ensures |Schemas(tools)| == |ByName(tools)|
    ensures forall j :: j in Schemas(tools) ==> SchemaOfEntry(tools, j)
    ensures forall n :: n in ByName(tools) ==> ToOpenAiSchema(ByName(tools)[n]) in Schemas(tools)
    ensures Seqs.Distinct(Schemas(tools))
  {
    KeyOrderSpec(tools);
    SchemasFromEntries(tools);
    SchemasCoverEntries(tools);
    SchemasDistinct(tools);
  }

  lemma SchemasFromEntries(tools: seq<ToolDef>)
    ensures forall j :: j in Schemas(tools) ==> SchemaOfEntry(tools, j)
  {
    forall j | j in Schemas(tools) ensures SchemaOfEntry(tools, j) {
      var i :| 0 <= i < |Schemas(tools)| && Schemas(tools)[i] == j;
      SchemaAt(tools, i);
      var n := KeyOrder(tools)[i];
      assert n in ByName(tools) && j == ToOpenAiSchema(ByName(tools)[n]);
    }
  }

  lemma SchemasCoverEntries(tools: seq<ToolDef>)
    ensures forall n :: n in ByName(tools) ==> ToOpenAiSchema(ByName(tools)[n]) in Schemas(tools)
  {
    var order := KeyOrder(tools);
    KeyOrderSpec(tools);
    forall n | n in ByName(tools) ensures ToOpenAiSchema(ByName(tools)[n]) in Schemas(tools) {
      var i :| 0 <= i < |order| && order[i] == n;
      SchemaAt(tools, i);
    }
  }

  lemma SchemasDistinct(tools: seq<ToolDef>)
    ensures Seqs.Distinct(Schemas(tools))
  {
    var catalog := ByName(tools);
    var order := KeyOrder(tools);
    var s := Schemas(tools);
    KeyOrderSpec(tools);
    forall i, j | 0 <= i < j < |s| ensures s[i] != s[j] {
      SchemaAt(tools, i);
      SchemaAt(tools, j);
      SchemasDiffer(catalog[order[i]], catalog[order[j]]);
    }
  }

  /** Entry `i` of the schemas is the schema of the catalog entry named `i`-th in key order. */
  lemma SchemaAt(tools: seq<ToolDef>, i: nat)
    requires i < |Schemas(tools)|
    ensures |Schemas(tools)| == |KeyOrder(tools)| && KeyOrder(tools)[i] in ByName(tools)
    ensures Schemas(tools)[i] == ToOpenAiSchema(ByName(tools)[KeyOrder(tools)[i]])
    ensures ByName(tools)[KeyOrder(tools)[i]].name == KeyOrder(tools)[i]
  {
    KeyOrderSpec(tools);
  }

  /** Tools with different names get different schemas. */
  lemma SchemasDiffer(a: ToolDef, b: ToolDef)
    requires a.name != b.name
    ensures ToOpenAiSchema(a) != ToOpenAiSchema(b)
  {
    SchemaRoundTrip(a);
    SchemaRoundTrip(b);
  }

  // ===================== the conversation =====================

  /** An outcome of a foreign call that may raise: its value, or the exception's message. */
  datatype Attempt<+T> = Ok(value: T) | Err(error: string)

  /** A tool call the model asks for: its id, the tool's name, and the raw JSON text of the
      arguments. */
  datatype ToolCall = ToolCall(id: string, name: string, arguments: string)

  /** The model's message: its text content and the tool calls it asks for (none when it
      answers in plain text). */
  datatype Reply = Reply(content: Option<string>, toolCalls: seq<ToolCall>)

  /** The entries of the chat history. `AssistantCall` is the assistant message with no content
      and one tool call; `ToolResult` is the `tool` message that answers it. */
  datatype Message =
    | SystemMsg(content: string)
    | UserMsg(content: string)
    | AssistantCall(call: ToolCall)
    | ToolResult(toolCallId: string, name: string, content: string)

  /** What the client depends on: the chat-completion endpoint (history and schemas to a reply),
      the MCP session's tool listing and `call_tool` (whose result is given as its `str`), and
      `json.loads`. Each may raise. */
  datatype Services = Services(
    chat: (seq<Message>, seq<Json>) -> Attempt<Reply>,
    listTools: Attempt<seq<ToolDef>>,
    callTool: (string, Json) -> Attempt<string>,
    loads: string -> Attempt<Json>)

  /** The system prompt that seeds every conversation. */
  const SystemPrompt: string :=
    "You are an IAM assistant.\n"
    + "\U{2022} If the user wants to echo a message \U{2192} call hello with {message, kerberos_token}. "
    + "All echo requests require a valid Kerberos token.\n"
    + "\U{2022} If the user asks about access or permissions (e.g., 'Can I access...', 'Do I have permission...') "
    + "\U{2192} call check_permission with {permission_type}. "
    + "For permission types with spaces, replace them with underscores (e.g., 'functional account' \U{2192} 'functional_account').\n"
    + "\U{2022} If the user asks about account information \U{2192} call get_account_info with {fid}.\n"
    + "\U{2022} If the user asks about service information \U{2192} call get_service_info with {service_name}.\n\n"
    + "Note: For testing Kerberos authentication, use 'mock-valid-token'."

  /** The history a conversation starts from. */
  function InitialHistory(userPrompt: string): (h: seq<Message>)
    ensures forall svc :: WellFormed(svc, h)
    ensures h[1] == UserMsg(userPrompt) && |h| == 2
  {
    var h := [SystemMsg(SystemPrompt), UserMsg(userPrompt)];
    assert h[2..] == [];
    h
  }

  /** `m` is the tool message answering `call`: the arguments text parses, the tool returns,
      and `m` carries the call's id, the tool's name and the returned text. */
  predicate Answers(svc: Services, call: ToolCall, m: Message) {
    match svc.loads(call.arguments)
    case Err(_) => false
    case Ok(args) =>
      match svc.callTool(call.name, args)
      case Err(_) => false
      case Ok(text) => m == ToolResult(call.id, call.name, text)
  }

  /** `ms` is a run of assistant/tool pairs, each tool message answering the call before it. */
  predicate Paired(svc: Services, ms: seq<Message>)
    decreases |ms|
  {
    if ms == [] then true
    else |ms| >= 2 && ms[0].AssistantCall? && Answers(svc, ms[0].call, ms[1]) && Paired(svc, ms[2..])
  }

  /** The history discipline: the system prompt, the user's prompt, then assistant/tool pairs. */
  predicate WellFormed(svc: Services, h: seq<Message>) {
    |h| >= 2 && h[0] == SystemMsg(SystemPrompt) && h[1].UserMsg? && Paired(svc, h[2..])
  }

  /** The tool calls recorded by a run of pairs, in order. */
  function CallsOf(ms: seq<Message>): seq<ToolCall>
    decreases |ms|
  {
    if |ms| < 2 || !ms[0].AssistantCall? then [] else [ms[0].call] + CallsOf(ms[2..])
  }

  /** The messages one round of tool calls appends, and the error that ended it early. */
  datatype RoundResult = RoundResult(appended: seq<Message>, failure: Option<string>)

  /** The inner `for call in msg.tool_calls` loop: parse the arguments, call the tool, append
      the assistant message echoing the raw call and the tool message with the result. The
      first exception ends the round. */
  function ToolRound(svc: Services, calls: seq<ToolCall>): (round: RoundResult)
    ensures |round.appended| % 2 == 0 && |round.appended| <= 2 * |calls|
    ensures round.failure.None? ==> |round.appended| == 2 * |calls|
  {
    if calls == [] then RoundResult([], None)
    else
      var call := calls[0];
      match svc.loads(call.arguments)
      case Err(e) => RoundResult([], Some(e))
      case Ok(args) =>
        match svc.callTool(call.name, args)
        case Err(e) => RoundResult([], Some(e))
        case Ok(text) =>
          var rest := ToolRound(svc, calls[1..]);
          RoundResult([AssistantCall(call), ToolResult(call.id, call.name, text)] + rest.appended, rest.failure)
  }

  /** The `call` that a round cannot complete: its arguments do not parse or the tool raises. */
  predicate Fails(svc: Services, call: ToolCall) {
    svc.loads(call.arguments).Err? || svc.callTool(call.name, svc.loads(call.arguments).value).Err?
  }

  /** A round appends a run of pairs, each tool message answering the call before it. */
  lemma {:induction false} ToolRoundPaired(svc: Services, calls: seq<ToolCall>)
    ensures Paired(svc, ToolRound(svc, calls).appended)
  {
    if calls != [] && !Fails(svc, calls[0]) {
      var call := calls[0];
      var text := svc.callTool(call.name, svc.loads(call.arguments).value).value;
      var rest := ToolRound(svc, calls[1..]).appended;
      ToolRoundPaired(svc, calls[1..]);
      var app := [AssistantCall(call), ToolResult(call.id, call.name, text)] + rest;
      assert ToolRound(svc, calls).appended == app;
      assert app[2..] == rest;
    }
  }

  /** Each call of a round adds exactly one pair, echoing the call unchanged; the round either
      handles every call or stops at the first call that fails. */
  lemma {:induction false} ToolRoundEchoes(svc: Services, calls: seq<ToolCall>)
    ensures |ToolRound(svc, calls).appended| == 2 * |CallsOf(ToolRound(svc, calls).appended)|
    ensures CallsOf(ToolRound(svc, calls).appended) <= calls
    ensures ToolRound(svc, calls).failure.None? <==> CallsOf(ToolRound(svc, calls).appended) == calls
    ensures ToolRound(svc, calls).failure.Some? ==> Fails(svc, calls[|CallsOf(ToolRound(svc, calls).appended)|])
  {
    if calls != [] && !Fails(svc, calls[0]) {
      var call := calls[0];
      var text := svc.callTool(call.name, svc.loads(call.arguments).value).value;
      var rest := ToolRound(svc, calls[1..]);
      ToolRoundEchoes(svc, calls[1..]);
      var app := [AssistantCall(call), ToolResult(call.id, call.name, text)] + rest.appended;
      assert ToolRound(svc, calls) == RoundResult(app, rest.failure);
      assert app[2..] == rest.appended;
      assert CallsOf(app) == [call] + CallsOf(rest.appended);
      assert calls == [call] + calls[1..];
      if rest.failure.Some? {
        assert calls[|CallsOf(app)|] == calls[1..][|CallsOf(rest.appended)|];
      }
    }
  }

  /** Two runs of pairs, one after the other, are a run of pairs. */
  lemma {:induction false} PairedAppend(svc: Services, a: seq<Message>, b: seq<Message>)
    requires Paired(svc, a) && Paired(svc, b)
    ensures Paired(svc, a + b)
    decreases |a|
  {
    if a != [] {
      PairedAppend(svc, a[2..], b);
      assert (a + b)[2..] == a[2..] + b;
    } else {
      assert a + b == b;
    }
  }

  /** In a run of pairs every even position holds an assistant call and the next one the tool
      message answering it: same id, same name, and the text of calling the tool on the parsed
      arguments, while the assistant message keeps the unparsed arguments text. */
  lemma {:induction false} PairedAt(svc: Services, ms: seq<Message>, k: nat)
    requires Paired(svc, ms) && k < |ms| && k % 2 == 0
    ensures k + 1 < |ms| && ms[k].AssistantCall?
    ensures var c := ms[k].call;
      svc.loads(c.arguments).Ok? && svc.callTool(c.name, svc.loads(c.arguments).value).Ok? &&
      ms[k + 1] == ToolResult(c.id, c.name, svc.callTool(c.name, svc.loads(c.arguments).value).value)
  {
    if k > 0 {
      PairedAt(svc, ms[2..], k - 2);
    }
  }

  /** How a conversation ends: a plain-text answer, an exception, or the bound on model
      requests reached. */
  datatype Outcome = Answered(content: Option<string>) | Failed(error: string) | OutOfRounds

  /** The outcome and the history at that point. */
  datatype Run = Run(outcome: Outcome, history: seq<Message>)

  /** The `while True` loop from `history`, allowing at most `fuel` more model requests: a reply
      without tool calls ends it; otherwise the round's pairs are appended and the model is
      asked again. */
  function Converse(svc: Services, schemas: seq<Json>, history: seq<Message>, fuel: nat): (run: Run)
    ensures history <= run.history
    decreases fuel
  {
    if fuel == 0 then Run(OutOfRounds, history)
    else
      match svc.chat(history, schemas)
      case Err(e) => Run(Failed(e), history)
      case Ok(reply) =>
        if reply.toolCalls == [] then Run(Answered(reply.content), history)
        else
          var round := ToolRound(svc, reply.toolCalls);
          if round.failure.Some? then Run(Failed(round.failure.value), history + round.appended)
          else Converse(svc, schemas, history + round.appended, fuel - 1)
  }

  /** `run_llm_session`: list the tools, build their schemas, seed the history, converse. */
  function LlmSession(svc: Services, userPrompt: string, fuel: nat): (run: Run)
    ensures svc.listTools.Err? ==> run.outcome.Failed? && run.history == []
    ensures svc.listTools.Ok? ==> InitialHistory(userPrompt) <= run.history
  {
    match svc.listTools
    case Err(e) => Run(Failed(e), [])
    case Ok(tools) => Converse(svc, Schemas(tools), InitialHistory(userPrompt), fuel)
  }

  /** The history only grows, keeps its discipline, and a plain-text answer is exactly what the
      model replied, without tool calls, to the final history. */
  lemma {:induction false} ConverseSpec(svc: Services, schemas: seq<Json>, history: seq<Message>, fuel: nat)
    ensures history <= Converse(svc, schemas, history, fuel).history
    ensures WellFormed(svc, history) ==> WellFormed(svc, Converse(svc, schemas, history, fuel).history)
    ensures var run := Converse(svc, schemas, history, fuel);
      run.outcome.Answered? ==> svc.chat(run.history, schemas) == Ok(Reply(run.outcome.content, []))
    decreases fuel
  {
    if fuel > 0 && svc.chat(history, schemas).Ok? && svc.chat(history, schemas).value.toolCalls != [] {
      var round := ToolRound(svc, svc.chat(history, schemas).value.toolCalls);
      var next := history + round.appended;
      ToolRoundPaired(svc, svc.chat(history, schemas).value.toolCalls);
      if WellFormed(svc, history) {
        assert next[2..] == history[2..] + round.appended;
        PairedAppend(svc, history[2..], round.appended);
        assert WellFormed(svc, next);
      }
      if round.failure.None? {
        ConverseSpec(svc, schemas, next, fuel - 1);
      }
    }
  }

  /** The request bound only cuts conversations short: with more requests allowed, a
      conversation that ended within the bound ends the same way. */
  lemma {:induction false} MoreFuelSameRun(svc: Services, schemas: seq<Json>, history: seq<Message>, fuel: nat, more: nat)
    requires fuel <= more
    requires Converse(svc, schemas, history, fuel).outcome != OutOfRounds
    ensures Converse(svc, schemas, history, more) == Converse(svc, schemas, history, fuel)
    decreases fuel
  {
    var reply := svc.chat(history, schemas);
    if reply.Ok? && reply.value.toolCalls != [] {
      var round := ToolRound(svc, reply.value.toolCalls);
      if round.failure.None? {
        MoreFuelSameRun(svc, schemas, history + round.appended, fuel - 1, more - 1);
      }
    }
  }

  /** A session that lists its tools produces a disciplined history that starts with the system
      prompt and the user's prompt. */
  lemma LlmSessionHistory(svc: Services, userPrompt: string, fuel: nat)
    requires svc.listTools.Ok?
    ensures WellFormed(svc, LlmSession(svc, userPrompt, fuel).history)
    ensures LlmSession(svc, userPrompt, fuel).history[..2] == [SystemMsg(SystemPrompt), UserMsg(userPrompt)]
  {
    var h := InitialHistory(userPrompt);
    assert WellFormed(svc, h) by { assert h[2..] == []; }
    ConverseSpec(svc, Schemas(svc.listTools.value), h, fuel);
  }

  /** A call that fails ends the round read from its position, with no message appended. */
  lemma ToolRoundStopsAt(svc: Services, calls: seq<ToolCall>, i: nat, e: string)
    requires i < |calls|
    requires svc.loads(calls[i].arguments) == Err(e)
      || (svc.loads(calls[i].arguments).Ok? && svc.callTool(calls[i].name, svc.loads(calls[i].arguments).value) == Err(e))
    ensures ToolRound(svc, calls[i..]) == RoundResult([], Some(e))
  {
    assert calls[i..][0] == calls[i];
  }

  /** A call that returns adds its pair in front of the rest of the round. */
  lemma ToolRoundGoesOnAt(svc: Services, calls: seq<ToolCall>, i: nat, args: Json, text: string)
    requires i < |calls|
    requires svc.loads(calls[i].arguments) == Ok(args) && svc.callTool(calls[i].name, args) == Ok(text)
    ensures ToolRound(svc, calls[i..]) ==
      After([AssistantCall(calls[i]), ToolResult(calls[i].id, calls[i].name, text)], ToolRound(svc, calls[i + 1..]))
  {
    assert calls[i..][0] == calls[i] && calls[i..][1..] == calls[i + 1..];
  }

  /** `rest` with `done` in front of the messages it appends. */
  function After(done: seq<Message>, rest: RoundResult): RoundResult {
    RoundResult(done + rest.appended, rest.failure)
  }

  /** The `for call in msg.tool_calls` loop on the history `history`: the history it leaves
      is `history` followed by the messages of the round, and it reports the round's error. */
  method RunToolCalls(svc: Services, calls: seq<ToolCall>, history: seq<Message>)
    returns (failure: Option<string>, messages: seq<Message>)
    ensures history <= messages
    ensures RoundResult(messages[|history|..], failure) == ToolRound(svc, calls)
  {
    messages := history;
    ghost var done: seq<Message> := [];
    var i := 0;
    while i < |calls|
      invariant i <= |calls|
      invariant messages == history + done
      invariant ToolRound(svc, calls) == After(done, ToolRound(svc, calls[i..]))
    {
      var call := calls[i];
      var args := svc.loads(call.arguments);
      if args.Err? {
        ToolRoundStopsAt(svc, calls, i, args.error);
        assert messages[|history|..] == done;
        return Some(args.error), messages;
      }
      var result := svc.callTool(call.name, args.value);
      if result.Err? {
        ToolRoundStopsAt(svc, calls, i, result.error);
        assert messages[|history|..] == done;
        return Some(result.error), messages;
      }
      var pair := [AssistantCall(call), ToolResult(call.id, call.name, result.value)];
      ToolRoundGoesOnAt(svc, calls, i, args.value, result.value);
      AfterAfter(done, pair, ToolRound(svc, calls[i + 1..]));
      messages := messages + [AssistantCall(call)];
      messages := messages + [ToolResult(call.id, call.name, result.value)];
      done := done + pair;
      i := i + 1;
    }
    assert calls[i..] == [];
    assert messages[|history|..] == done;
    return None, messages;
  }

  lemma AfterAfter(done: seq<Message>, more: seq<Message>, rest: RoundResult)
    ensures After(done, After(more, rest)) == After(done + more, rest)
  {
    assert done + (more + rest.appended) == (done + more) + rest.appended;
  }

  /** One request of the conversation that the model answers with tool calls: the round's
      pairs are appended, and the conversation ends on the round's error or goes on. */
  lemma ConverseRound(svc: Services, schemas: seq<Json>, history: seq<Message>, fuel: nat, reply: Reply)
    requires fuel > 0 && svc.chat(history, schemas) == Ok(reply) && reply.toolCalls != []
    ensures var round := ToolRound(svc, reply.toolCalls);
      Converse(svc, schemas, history, fuel) ==
        if round.failure.Some? then Run(Failed(round.failure.value), history + round.appended)
        else Converse(svc, schemas, history + round.appended, fuel - 1)
  {
  }

  /** `run_llm_session` with at most `maxRequests` model requests: the outcome and the final
      history are those of the conversation `LlmSession` describes. */
  method RunLlmSession(svc: Services, userPrompt: string, maxRequests: nat)
    returns (outcome: Outcome, messages: seq<Message>)
    ensures Run(outcome, messages) == LlmSession(svc, userPrompt, maxRequests)
  {
    if svc.listTools.Err? {
      return Failed(svc.listTools.error), [];
    }
    var schemas := Schemas(svc.listTools.value);
    messages := InitialHistory(userPrompt);
    assert LlmSession(svc, userPrompt, maxRequests) == Converse(svc, schemas, messages, maxRequests);
    var requests := 0;
    while requests < maxRequests
      invariant requests <= maxRequests
      invariant Converse(svc, schemas, messages, maxRequests - requests) == LlmSession(svc, userPrompt, maxRequests)
    {
      ghost var fuel := maxRequests - requests;
      var completion := svc.chat(messages, schemas);
      if completion.Err? {
        return Failed(completion.error), messages;
      }
      var msg := completion.value;
      if msg.toolCalls != [] {
        ghost var before := messages;
        ghost var round := ToolRound(svc, msg.toolCalls);
        ConverseRound(svc, schemas, messages, fuel, msg);
        var failure;
        failure, messages := RunToolCalls(svc, msg.toolCalls, messages);
        assert messages == before + round.appended by {
          assert before + messages[|before|..] == messages;
        }
        if failure.Some? {
          return Failed(failure.value), messages;
        }
        requests := requests + 1;
        continue;
      }
      return Answered(msg.content), messages;
    }
    return OutOfRounds, messages;
  }
}
