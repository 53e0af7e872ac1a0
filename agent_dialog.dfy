/**
 * The tools-agent dialog (`_run_tools_agent_dialog` in agent/main.py): the
 * language model is asked in turn, each request carrying the whole
 * conversation so far; while it asks for tools, every tool call is executed
 * and its reply added to the conversation and to the tool trace; the first
 * reply without tool calls ends the dialog with its text. At most
 * `max_steps` model calls are made.
 *
 * The model is a function from the conversation to its reply, the three
 * tools are functions from their arguments to their replies, and
 * `json.loads` is a function from text to the decoded value (`None` when it
 * raises JSONDecodeError).
 */
module AgentDialog {
  import opened Wrappers
  import opened Json
  import opened PyText
  import opened PyValue
  import opened AgentHistory
  import opened AgentPlan

  const NOTIFY_TOOL: string := "notify_send_plan"
  const NO_URL_ERROR: string := "notify_send_plan called without url"
  const UNKNOWN_TOOL_PREFIX: string := "Unknown tool "
  const DEFAULT_MAX_STEPS: int := 8
  const REQUEST_INTRO: string := "Я уже распарсил запрос пользователя в структуру (request):\n\n"
  const REQUEST_OUTRO: string := "\n\nИспользуй эту структуру как основу при вызовах инструментов и в финальном JSON-плане."

  /** A tool call the model asks for; `arguments` is its JSON text, `None` when absent. */
  datatype ToolCall = ToolCall(id: string, name: string, arguments: Option<string>)

  /** The model's reply: its text (`None` when absent) and the tools it asks for. */
  datatype Reply = Reply(content: Option<string>, toolCalls: seq<ToolCall>)

  /**
   * A message of the conversation: a plain turn, the assistant's request
   * for tools, or a tool's reply to one call (its JSON rendering is left
   * out: the reply is kept as a value).
   */
  datatype Message =
    | Chat(role: string, content: string)
    | AssistantCalls(content: string, calls: seq<ToolCall>)
    | ToolReply(callId: string, name: string, result: Json)

  /** The three tools: the supplier offers, the FX conversion and the plan webhook. */
  datatype Tools = Tools(supplier: (Json, Json) -> Json, fx: (real, string, string) -> Json, webhook: (string, Json) -> Json)

  /** `msg.content or ""` */
  function ContentText(content: Option<string>): string {
    if content.Some? then content.value else ""
  }

  /** `json.loads(tc.function.arguments or "{}")`, `{}` when the text does not decode. */
  function Arguments(arguments: Option<string>, parse: string -> Option<Json>): Json {
    var text := if arguments.None? || arguments.value == "" then "{}" else arguments.value;
    match parse(text)
    case Some(args) => args
    case None => JObj([])
  }

  /** The message `float(x)` raises with. */
  function FloatMessage(j: Json): string {
    if j.JStr? then "ValueError(\"could not convert string to float: " + Repr(j.s) + "\")"
    else "TypeError(\"float() argument must be a string or a real number, not '" + TypeName(j) + "'\")"
  }

  function ErrorDict(message: string): Json {
    JObj([("error", JStr(message))])
  }

  /** The reply a tool call gets: the tool's own, or an error dict that no tool produced. */
  function Dispatch(name: string, args: Json, tools: Tools): Result<Json, string> {
    if name == SUPPLIER_TOOL then
      if !args.JObj? then Failure(NoGetMessage(args))
      else Success(tools.supplier(Or(Get(args.fields, "items"), JArr([])), GetOr(args.fields, "max_suppliers_per_item", JInt(3))))
    else if name == FX_TOOL then
      if !args.JObj? then Failure(NoGetMessage(args))
      else
        var amount := GetOr(args.fields, "amount", JFloat(0.0));
        match ToFloat(amount)
        case None => Failure(FloatMessage(amount))
        case Some(a) =>
          Success(tools.fx(a, Str(GetOr(args.fields, "base", JStr("USD"))), Str(GetOr(args.fields, "quote", JStr("USD")))))
    else if name == NOTIFY_TOOL then
      if !args.JObj? then Failure(NoGetMessage(args))
      else
        var url := Get(args.fields, "url");
        if Truthy(url) then Success(tools.webhook(Str(url), Or(Get(args.fields, "plan"), JObj([]))))
        else Success(ErrorDict(NO_URL_ERROR))
    else Success(ErrorDict(UNKNOWN_TOOL_PREFIX + name))
  }

  /** One tool call executed: the trace entry it leaves. */
  function Execute(call: ToolCall, parse: string -> Option<Json>, tools: Tools): Result<ToolInvocation, string> {
    var args := Arguments(call.arguments, parse);
    match Dispatch(call.name, args, tools)
    case Failure(e) => Failure(e)
    case Success(result) => Success(ToolInvocation(call.name, args, result))
  }

  /** How the dialog executes one tool call. */
  type Executor = ToolCall -> Result<ToolInvocation, string>

  function ExecutorOf(parse: string -> Option<Json>, tools: Tools): (exec: Executor)
    ensures forall call :: exec(call) == Execute(call, parse, tools)
  {
    call => Execute(call, parse, tools)
  }

  /** The conversation, the tool trace and the model's replies so far. */
  datatype DialogState = DialogState(messages: seq<Message>, trace: seq<ToolInvocation>, replies: seq<Reply>)

  /** What the dialog returns: the tool trace and the final assistant text, with the replies that led to them. */
  datatype DialogOutcome = DialogOutcome(trace: seq<ToolInvocation>, finalMessage: string, replies: seq<Reply>)

  /** A tool call's entry recorded in the trace and its reply added to the conversation. */
  function Record(st: DialogState, call: ToolCall, inv: ToolInvocation): DialogState {
    st.(messages := st.messages + [ToolReply(call.id, inv.name, inv.result)], trace := st.trace + [inv])
  }

  /** The tool calls of one reply executed in order; an exception ends the dialog. */
  function RunCalls(calls: seq<ToolCall>, st: DialogState, exec: Executor): Result<DialogState, string>
    decreases |calls|
  {
    if calls == [] then Success(st)
    else
      match exec(calls[0])
      case Failure(e) => Failure(e)
      case Success(inv) => RunCalls(calls[1..], Record(st, calls[0], inv), exec)
  }

  /** The dialog with `steps` model calls left. */
  function Steps(steps: nat, st: DialogState, model: seq<Message> -> Reply, exec: Executor): Result<DialogOutcome, string>
    decreases steps
  {
    if steps == 0 then Success(DialogOutcome(st.trace, "", st.replies))
    else
      var reply := model(st.messages);
      var text := ContentText(reply.content);
      if reply.toolCalls == [] then Success(DialogOutcome(st.trace, text, st.replies + [reply]))
      else
        var asked := DialogState(st.messages + [AssistantCalls(text, reply.toolCalls)], st.trace, st.replies + [reply]);
        match RunCalls(reply.toolCalls, asked, exec)
        case Failure(e) => Failure(e)
        case Success(st') => Steps(steps - 1, st', model, exec)
  }

  /** The system prompt, the earlier turns, the parsed request and the user's text. */
  function Opening(systemPrompt: string, history: seq<ChatMessage>, requestJson: string, userText: string): seq<Message> {
    [Chat("system", systemPrompt)]
    + seq(|history|, k requires 0 <= k < |history| => Chat(history[k].role, history[k].content))
    + [Chat("assistant", REQUEST_INTRO + requestJson + REQUEST_OUTRO), Chat("user", userText)]
  }

  /** `range(max_steps)` is empty for a negative bound. */
  function StepCount(maxSteps: int): nat {
    if maxSteps < 0 then 0 else maxSteps
  }

  /**
   * `_run_tools_agent_dialog(parsed_request, user_text, history, max_steps)`;
   * the request's JSON rendering is given as text.
   */
  function RunDialog(systemPrompt: string, requestJson: string, userText: string, history: Option<seq<Json>>, maxSteps: int,
                     model: seq<Message> -> Reply, parse: string -> Option<Json>, tools: Tools): Result<DialogOutcome, string>
  {
    match HistoryToMessages(history)
    case Failure(e) => Failure(e)
    case Success(earlier) =>
      Steps(StepCount(maxSteps), DialogState(Opening(systemPrompt, earlier, requestJson, userText), [], []), model, ExecutorOf(parse, tools))
  }

  method RunToolsAgentDialog(systemPrompt: string, requestJson: string, userText: string, history: Option<seq<Json>>, maxSteps: int,
                             model: seq<Message> -> Reply, parse: string -> Option<Json>, tools: Tools)
    returns (r: Result<DialogOutcome, string>)
    ensures r == RunDialog(systemPrompt, requestJson, userText, history, maxSteps, model, parse, tools)
  {
    var earlier := HistoryMessages(history);
    if earlier.Failure? {
      return Failure(earlier.error);
    }
    var exec := ExecutorOf(parse, tools);
    var opening := Opening(systemPrompt, earlier.value, requestJson, userText);
    r := DialogLoop(StepCount(maxSteps), opening, model, exec);
  }

  /** The loop `for step in range(max_steps)` from the opening conversation. */
  method DialogLoop(n: nat, opening: seq<Message>, model: seq<Message> -> Reply, exec: Executor)
    returns (r: Result<DialogOutcome, string>)
    ensures r == Steps(n, DialogState(opening, [], []), model, exec)
  {
    var messages := opening;
    var trace: seq<ToolInvocation> := [];
    var replies: seq<Reply> := [];
    for step := 0 to n
      invariant Steps(n, DialogState(opening, [], []), model, exec) == Steps(n - step, DialogState(messages, trace, replies), model, exec)
    {
      var reply := model(messages);
      var text := ContentText(reply.content);
      replies := replies + [reply];
      if reply.toolCalls == [] {
        return Success(DialogOutcome(trace, text, replies));
      }
      messages := messages + [AssistantCalls(text, reply.toolCalls)];
      var done := ExecuteCalls(reply.toolCalls, DialogState(messages, trace, replies), exec);
      if done.Failure? {
        return Failure(done.error);
      }
      messages, trace, replies := done.value.messages, done.value.trace, done.value.replies;
    }
    return Success(DialogOutcome(trace, "", replies));
  }

  /** The inner loop over one reply's tool calls. */
  method ExecuteCalls(calls: seq<ToolCall>, st: DialogState, exec: Executor)
    returns (r: Result<DialogState, string>)
    ensures r == RunCalls(calls, st, exec)
  {
    var messages, trace := st.messages, st.trace;
    for i := 0 to |calls|
      invariant RunCalls(calls, st, exec) == RunCalls(calls[i..], DialogState(messages, trace, st.replies), exec)
    {
      var call := calls[i];
      var inv := exec(call);
      if inv.Failure? {
        return Failure(inv.error);
      }
      trace := trace + [inv.value];
      messages := messages + [ToolReply(call.id, inv.value.name, inv.value.result)];
      assert calls[i..][1..] == calls[i + 1..];
    }
    return Success(DialogState(messages, trace, st.replies));
  }

  /** The tool calls of a run of replies, in order. */
  function AllCalls(replies: seq<Reply>): seq<ToolCall> {
    if replies == [] then [] else AllCalls(replies[..|replies| - 1]) + replies[|replies| - 1].toolCalls
  }

  /** The trace holds exactly one entry per call, each the call's execution. */
  predicate TraceOf(trace: seq<ToolInvocation>, calls: seq<ToolCall>, exec: Executor) {
    |trace| == |calls| && forall j :: 0 <= j < |trace| ==> exec(calls[j]) == Success(trace[j])
  }

  lemma {:induction false} RunCallsTrace(calls: seq<ToolCall>, st: DialogState, done: seq<ToolCall>,
                                         exec: Executor)
    requires TraceOf(st.trace, done, exec)
    requires RunCalls(calls, st, exec).Success?
    ensures TraceOf(RunCalls(calls, st, exec).value.trace, done + calls, exec)
    ensures RunCalls(calls, st, exec).value.replies == st.replies
    decreases |calls|
  {
    if calls == [] {
      assert done + calls == done;
    } else {
      var inv := exec(calls[0]).value;
      var st' := Record(st, calls[0], inv);
      assert TraceOf(st'.trace, done + [calls[0]], exec);
      RunCallsTrace(calls[1..], st', done + [calls[0]], exec);
      assert done + [calls[0]] + calls[1..] == done + calls;
    }
  }

  /** The replies of a dialog: the earlier ones kept, every new one but the last asking for tools. */
  predicate Continues(st: DialogState, r: DialogOutcome) {
    |st.replies| <= |r.replies|
    && r.replies[..|st.replies|] == st.replies
    && forall k :: |st.replies| <= k < |r.replies| - 1 ==> r.replies[k].toolCalls != []
  }

  /** The final text: that of a last reply asking for no tools, else empty. */
  predicate EndsWith(r: DialogOutcome) {
    r.finalMessage ==
      (if r.replies != [] && r.replies[|r.replies| - 1].toolCalls == [] then ContentText(r.replies[|r.replies| - 1].content) else "")
  }

  /** Replies that continue a run extended by one tool-asking reply also continue the run itself. */
  lemma ContinuesPast(st: DialogState, reply: Reply, st': DialogState, r: DialogOutcome)
    requires st'.replies == st.replies + [reply] && reply.toolCalls != []
    requires Continues(st', r)
    ensures Continues(st, r)
  {
    assert r.replies[..|st'.replies|][..|st.replies|] == st.replies;
  }

  lemma {:induction false} StepsShape(steps: nat, st: DialogState, model: seq<Message> -> Reply,
                                      exec: Executor)
    requires TraceOf(st.trace, AllCalls(st.replies), exec)
    requires st.replies == [] || st.replies[|st.replies| - 1].toolCalls != []
    requires Steps(steps, st, model, exec).Success?
    ensures var r := Steps(steps, st, model, exec).value;
            |r.replies| <= |st.replies| + steps && Continues(st, r) && EndsWith(r)
            && TraceOf(r.trace, AllCalls(r.replies), exec)
    decreases steps
  {
    if steps > 0 {
      var reply := model(st.messages);
      var replies' := st.replies + [reply];
      assert replies'[..|replies'| - 1] == st.replies;
      if reply.toolCalls == [] {
        assert AllCalls(replies') == AllCalls(st.replies) + [];
        assert AllCalls(st.replies) + [] == AllCalls(st.replies);
      } else {
        var asked := DialogState(st.messages + [AssistantCalls(ContentText(reply.content), reply.toolCalls)], st.trace, replies');
        RunCallsTrace(reply.toolCalls, asked, AllCalls(st.replies), exec);
        var st' := RunCalls(reply.toolCalls, asked, exec).value;
        assert Steps(steps, st, model, exec) == Steps(steps - 1, st', model, exec);
        StepsShape(steps - 1, st', model, exec);
        ContinuesPast(st, reply, st', Steps(steps - 1, st', model, exec).value);
      }
    }
  }

  /**
   * A dialog that completes makes at most `max_steps` model calls; it goes
   * on only while the model asks for tools; the final text is that of a
   * reply asking for none (empty when every call asked for tools); and the
   * trace has exactly one entry per tool call asked for, in order, each the
   * call's execution.
   */
  lemma DialogShape(systemPrompt: string, requestJson: string, userText: string, history: Option<seq<Json>>, maxSteps: int,
                    model: seq<Message> -> Reply, parse: string -> Option<Json>, tools: Tools)
    requires RunDialog(systemPrompt, requestJson, userText, history, maxSteps, model, parse, tools).Success?
    ensures var r := RunDialog(systemPrompt, requestJson, userText, history, maxSteps, model, parse, tools).value;
            |r.replies| <= StepCount(maxSteps)
            && (forall k :: 0 <= k < |r.replies| - 1 ==> r.replies[k].toolCalls != [])
            && EndsWith(r)
            && |r.trace| == |AllCalls(r.replies)|
            && forall j :: 0 <= j < |r.trace| ==> Execute(AllCalls(r.replies)[j], parse, tools) == Success(r.trace[j])
  {
    var earlier := HistoryToMessages(history).value;
    var st := DialogState(Opening(systemPrompt, earlier, requestJson, userText), [], []);
    StepsShape(StepCount(maxSteps), st, model, ExecutorOf(parse, tools));
  }

  /** An unknown tool gets an error dict naming it, whatever its arguments and without any tool being called. */
  lemma UnknownToolReported(call: ToolCall, parse: string -> Option<Json>, tools: Tools)
    requires call.name !in [SUPPLIER_TOOL, FX_TOOL, NOTIFY_TOOL]
    ensures Execute(call, parse, tools)
              == Success(ToolInvocation(call.name, Arguments(call.arguments, parse), JObj([("error", JStr("Unknown tool " + call.name))])))
  {
  }

  /** `notify_send_plan` without a truthy url gets an error dict and the webhook is not called. */
  lemma NotifyWithoutUrl(args: Fields, tools: Tools, other: Tools)
    requires !Truthy(Get(args, "url"))
    ensures Dispatch(NOTIFY_TOOL, JObj(args), tools) == Success(JObj([("error", JStr("notify_send_plan called without url"))]))
    ensures Dispatch(NOTIFY_TOOL, JObj(args), tools) == Dispatch(NOTIFY_TOOL, JObj(args), other)
  {
  }

  /**
   * A tool call raises exactly when a known tool's arguments are not a
   * dict, or the FX amount does not convert to a float.
   */
  lemma DispatchFails(name: string, args: Json, tools: Tools)
    ensures Dispatch(name, args, tools).Failure? <==>
              (name in [SUPPLIER_TOOL, FX_TOOL, NOTIFY_TOOL] && !args.JObj?)
              || (name == FX_TOOL && args.JObj? && ToFloat(GetOr(args.fields, "amount", JFloat(0.0))).None?)
  {
  }

  /** Arguments that are missing, empty or not JSON are read as `{}`. */
  lemma ArgumentsDefault(arguments: Option<string>, parse: string -> Option<Json>)
    requires parse("{}") == Some(JObj([]))
    requires arguments.Some? && arguments.value != "" ==> parse(arguments.value).None?
    ensures Arguments(arguments, parse) == JObj([])
  {
  }

  /** The supplier tool gets `items or []` and three suppliers per item unless the model says otherwise. */
  lemma SupplierDefaults(args: Fields, tools: Tools)
    requires !Truthy(Get(args, "items")) && !HasKey(args, "max_suppliers_per_item")
    ensures Dispatch(SUPPLIER_TOOL, JObj(args), tools) == Success(tools.supplier(JArr([]), JInt(3)))
  {
  }
}
