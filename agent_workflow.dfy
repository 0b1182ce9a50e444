/**
 * The plan-then-execute workflow of `AcademicAgent`
 * (pyopenagi/agents/example/academic_agent/agent.py) as functions over the
 * agent's observable state: its message history, its round counter and the
 * queries the LLM gateway has received.
 *
 * The helpers the agent calls but does not define (`check_workflow`,
 * `pre_select_tools`, the gateway behind `send_request`) are parameters.
 * A workflow is a JSON-like value (`Json`): `None` is `JNull`.
 */
module AgentWorkflow {
  import opened Wrappers
  import opened JsonModel
  import opened OrderedDict
  import opened PyText
  import opened Chat

  /** `plan_max_fail_times`. */
  const PlanMaxFailTimes: nat := 3

  /** An `LLMQuery`; `None` in `messageReturnType`/`actionType` means the argument is not passed. */
  datatype Query = Query(messages: seq<Message>, tools: Json, messageReturnType: Option<string>, actionType: Option<Json>)

  /** What `send_request(...)["response"]` yields: a response, or an exception. */
  datatype Reply = Reply(responseMessage: string) | Failure

  /**
   * What the agent is given and never changes: its name, the `description`
   * lines of its configuration, the `tool_info` that `load_tools` produced,
   * the task, the JSON codec, the two undefined helpers (`None` = the helper
   * raised), and `str()` of a list or dict.
   */
  datatype Config = Config(
    agentName: string,
    description: seq<string>,
    toolInfo: Json,
    taskInput: string,
    codec: Codec,
    checkWorkflow: string -> Option<Json>,
    preSelectTools: Json -> Option<Json>,
    reprOf: Json -> string)

  /** The state the workflow changes: history, rounds, and every query sent so far. */
  datatype State = State(messages: seq<Message>, rounds: nat, sent: seq<Query>)

  /** A phase's result (or the exception it raised) and the state it leaves. */
  datatype After<T> = After(result: Result<T>, state: State)

  function Concat(parts: seq<string>): string {
    if |parts| == 0 then "" else parts[0] + Concat(parts[1..])
  }

  /** The planning instruction, with `json.dumps(tool_info)` spliced in. */
  function PlanInstruction(cfg: Config): string {
    PlanIntro + cfg.codec.dumps(cfg.toolInfo) + PlanRules
  }

  const PlanIntro: string := "You are given the available tools from the tool list: "

  /** The fixed rest of the planning instruction: the plan format and two examples. */
  const PlanRules: string :=
    " to help you solve problems. "
    + "Generate a plan with comprehensive yet minimal steps to fulfill the task. "
    + "The plan must follow the json format as below: "
    + "["
    + "{\"message\": \"message_value1\",\"tool_use\": [tool_name1, tool_name2,...]}"
    + "{\"message\": \"message_value2\", \"tool_use\": [tool_name1, tool_name2,...]}"
    + "..."
    + "]"
    + "In each step of the planned plan, identify tools to use and recognize no tool is necessary. "
    + "Followings are some plan examples. "
    + "[["
    + "{\"message\": \"gather information from arxiv. \", \"tool_use\": [\"arxiv\"]},"
    + "{\"message\", \"write a summarization based on the gathered information. \", \"tool_use\": []}"
    + "];"
    + "["
    + "{\"message\": \"gather information from arxiv. \", \"tool_use\": [\"arxiv\"]},"
    + "{\"message\", \"understand the current methods and propose ideas that can improve \", \"tool_use\": []}"
    + "]"
    + "]"

  /** The messages `build_system_instruction` appends in a workflow mode, or its failed assertion. */
  function Instructions(cfg: Config, mode: string): Result<seq<Message>> {
    var system := Plain("system", Concat(cfg.description));
    if mode == "manual" then Ok([system])
    else if mode == "automatic" then Ok([system, Plain("user", PlanInstruction(cfg))])
    else Err(AssertionError)
  }

  /**
   * Manual mode adds only the system message; automatic mode adds it and then
   * the planning request; any other mode fails.
   */
  lemma InstructionsByMode(cfg: Config, mode: string)
    ensures mode == "manual" ==> Instructions(cfg, mode) == Ok([Plain("system", Concat(cfg.description))])
    ensures mode == "automatic" ==>
              Instructions(cfg, mode) == Ok([Plain("system", Concat(cfg.description)), Plain("user", PlanInstruction(cfg))])
    ensures mode != "manual" && mode != "automatic" ==> Instructions(cfg, mode) == Err(AssertionError)
  {
  }

  /** The planning request opens with its fixed words followed by the serialised tool info. */
  lemma PlanQuotesTools(cfg: Config)
    ensures PlanIntro + cfg.codec.dumps(cfg.toolInfo) <= PlanInstruction(cfg)
  {
    var head := PlanIntro + cfg.codec.dumps(cfg.toolInfo);
    assert PlanInstruction(cfg) == head + PlanRules;
  }

  /** The assistant note after the `n`-th rejected plan. */
  function FailMessage(n: nat): string {
    "Fail " + NatToString(n) + FailText
  }

  const FailText: string := " times to generate a valid plan. I need to regenerate a plan"

  /** The notes for rejected attempts `from + 1` .. `from + k`, in order. */
  function FailLog(from: nat, k: nat): (log: seq<Message>)
    ensures |log| == k
    ensures forall j :: 0 <= j < k ==> log[j] == Plain("assistant", FailMessage(from + j + 1))
  {
    seq(k, j requires 0 <= j < k => Plain("assistant", FailMessage(from + j + 1)))
  }

  /** The planning request: the whole history, no tools, a JSON answer. */
  function PlanQuery(history: seq<Message>): Query {
    Query(history, JNull, Some("json"), None)
  }

  /** The planning requests of attempts `from + 1` .. `from + n`: each sees the notes of the attempts before it. */
  function PlanQueries(history: seq<Message>, from: nat, n: nat): (qs: seq<Query>)
    ensures |qs| == n
    ensures forall j :: 0 <= j < n ==>
              && qs[j].messages == history + FailLog(from, j)
              && qs[j].tools == JNull && qs[j].messageReturnType == Some("json") && qs[j].actionType.None?
  {
    seq(n, j requires 0 <= j < n => PlanQuery(history + FailLog(from, j)))
  }

  /**
   * `automatic_workflow` from attempt `i` on: ask, check, count the round;
   * return an accepted plan, or note the failure and try again; after the
   * last attempt return `None`.
   */
  function PlanFrom(cfg: Config, answer: seq<Query> -> Reply, st: State, i: nat): After<Json>
    decreases PlanMaxFailTimes - i
  {
    if i >= PlanMaxFailTimes then After(Ok(JNull), st)
    else
      var sent := st.sent + [PlanQuery(st.messages)];
      match answer(sent)
      case Failure => After(Err(External), st.(sent := sent))
      case Reply(text) =>
        match cfg.checkWorkflow(text)
        case None => After(Err(External), st.(sent := sent))
        case Some(w) =>
          if Truthy(w) then After(Ok(w), State(st.messages, st.rounds + 1, sent))
          else PlanFrom(cfg, answer, State(st.messages + [Plain("assistant", FailMessage(i + 1))], st.rounds + 1, sent), i + 1)
  }

  lemma FailLogStep(history: seq<Message>, from: nat, k: nat)
    ensures history + [Plain("assistant", FailMessage(from + 1))] + FailLog(from + 1, k) == history + FailLog(from, k + 1)
  {
    assert [Plain("assistant", FailMessage(from + 1))] + FailLog(from + 1, k) == FailLog(from, k + 1);
  }

  lemma PlanQueriesStep(history: seq<Message>, from: nat, n: nat)
    ensures [PlanQuery(history)] + PlanQueries(history + [Plain("assistant", FailMessage(from + 1))], from + 1, n)
            == PlanQueries(history, from, n + 1)
  {
    var lhs := [PlanQuery(history)] + PlanQueries(history + [Plain("assistant", FailMessage(from + 1))], from + 1, n);
    var rhs := PlanQueries(history, from, n + 1);
    forall j | 0 <= j < n + 1
      ensures lhs[j] == rhs[j]
    {
      if j == 0 {
        assert history + FailLog(from, 0) == history;
      } else {
        FailLogStep(history, from, j - 1);
      }
    }
  }

  /** Planning ended with a plan `check_workflow` accepted. */
  predicate Accepted(r: After<Json>) {
    r.result.Ok? && Truthy(r.result.value)
  }

  /**
   * Planning from attempt `i` sends at most the attempts left, and its
   * requests are, in order, the history followed by the notes of the
   * attempts before each one.
   */
  lemma {:induction false} PlanFromRequests(cfg: Config, answer: seq<Query> -> Reply, st: State, i: nat)
    requires i <= PlanMaxFailTimes
    ensures var r := PlanFrom(cfg, answer, st, i);
            && |st.sent| <= |r.state.sent| <= |st.sent| + PlanMaxFailTimes - i
            && r.state.sent == st.sent + PlanQueries(st.messages, i, |r.state.sent| - |st.sent|)
    decreases PlanMaxFailTimes - i
  {
    if i < PlanMaxFailTimes {
      var q := PlanQuery(st.messages);
      var sent := st.sent + [q];
      assert FailLog(i, 0) == [];
      assert PlanQueries(st.messages, i, 1)[0] == q;
      assert PlanQueries(st.messages, i, 1) == [q];
      if answer(sent).Reply? && cfg.checkWorkflow(answer(sent).responseMessage).Some?
         && !Truthy(cfg.checkWorkflow(answer(sent).responseMessage).value)
      {
        var st' := State(st.messages + [Plain("assistant", FailMessage(i + 1))], st.rounds + 1, sent);
        PlanFromRequests(cfg, answer, st', i + 1);
        var r := PlanFrom(cfg, answer, st', i + 1);
        PlanQueriesStep(st.messages, i, |r.state.sent| - |sent|);
      }
    } else {
      assert PlanQueries(st.messages, i, 0) == [];
    }
  }

  /**
   * With `n` requests sent from attempt `i` on, every answered request
   * counts one round; a request that raised does not.
   */
  lemma {:induction false} PlanFromRounds(cfg: Config, answer: seq<Query> -> Reply, st: State, i: nat)
    requires i <= PlanMaxFailTimes
    ensures var r := PlanFrom(cfg, answer, st, i);
            var n := |r.state.sent| - |st.sent|;
            && (r.result.Err? || Accepted(r) ==> n >= 1)
            && r.state.rounds == st.rounds + (if r.result.Err? then n - 1 else n)
    decreases PlanMaxFailTimes - i
  {
    var r := PlanFrom(cfg, answer, st, i);
    if i < PlanMaxFailTimes {
      var sent := st.sent + [PlanQuery(st.messages)];
      match answer(sent)
      case Failure =>
        assert r == After(Err(External), st.(sent := sent));
      case Reply(text) =>
        match cfg.checkWorkflow(text)
        case None =>
          assert r == After(Err(External), st.(sent := sent));
        case Some(w) =>
          if Truthy(w) {
            assert r == After(Ok(w), State(st.messages, st.rounds + 1, sent));
          } else {
            var st' := State(st.messages + [Plain("assistant", FailMessage(i + 1))], st.rounds + 1, sent);
            assert r == PlanFrom(cfg, answer, st', i + 1);
            PlanFromRounds(cfg, answer, st', i + 1);
            PlanFromRequests(cfg, answer, st', i + 1);
          }
    } else {
      assert r == After(Ok(JNull), st);
    }
  }

  /**
   * Each plan rejected from attempt `i` on leaves exactly one note, numbered
   * in order; nothing else is added to the history.
   */
  lemma {:induction false} PlanFromNotes(cfg: Config, answer: seq<Query> -> Reply, st: State, i: nat)
    requires i <= PlanMaxFailTimes
    ensures var r := PlanFrom(cfg, answer, st, i);
            var n := |r.state.sent| - |st.sent|;
            && 0 <= n
            && (r.result.Err? || Accepted(r) ==> n >= 1)
            && r.state.messages == st.messages + FailLog(i, if r.result.Err? || Accepted(r) then n - 1 else n)
    decreases PlanMaxFailTimes - i
  {
    PlanFromRequests(cfg, answer, st, i);
    PlanFromRounds(cfg, answer, st, i);
    assert FailLog(i, 0) == [];
    if i < PlanMaxFailTimes {
      var sent := st.sent + [PlanQuery(st.messages)];
      if answer(sent).Reply? && cfg.checkWorkflow(answer(sent).responseMessage).Some?
         && !Truthy(cfg.checkWorkflow(answer(sent).responseMessage).value)
      {
        var st' := State(st.messages + [Plain("assistant", FailMessage(i + 1))], st.rounds + 1, sent);
        PlanFromNotes(cfg, answer, st', i + 1);
        var r := PlanFrom(cfg, answer, st', i + 1);
        assert r == PlanFrom(cfg, answer, st, i);
        var m := |r.state.sent| - |sent|;
        var k := if r.result.Err? || Accepted(r) then m - 1 else m;
        assert r.state.messages == st'.messages + FailLog(i + 1, k);
        FailLogStep(st.messages, i, k);
      } else {
        assert PlanFrom(cfg, answer, st, i).state.messages == st.messages;
      }
    } else {
      assert PlanFrom(cfg, answer, st, i).state == st;
    }
  }

  /**
   * A plan planning returns is what `check_workflow` made of the answer to
   * the last request; running out of attempts returns `None` after using
   * every attempt left.
   */
  lemma {:induction false} PlanFromOutcome(cfg: Config, answer: seq<Query> -> Reply, st: State, i: nat)
    requires i <= PlanMaxFailTimes
    ensures var r := PlanFrom(cfg, answer, st, i);
            && (Accepted(r) ==>
                  && answer(r.state.sent).Reply?
                  && cfg.checkWorkflow(answer(r.state.sent).responseMessage) == Some(r.result.value))
            && (r.result.Ok? && !Accepted(r) ==>
                  r.result.value == JNull && |r.state.sent| == |st.sent| + PlanMaxFailTimes - i)
    decreases PlanMaxFailTimes - i
  {
    if i < PlanMaxFailTimes {
      var sent := st.sent + [PlanQuery(st.messages)];
      if answer(sent).Reply? && cfg.checkWorkflow(answer(sent).responseMessage).Some?
         && !Truthy(cfg.checkWorkflow(answer(sent).responseMessage).value)
      {
        var st' := State(st.messages + [Plain("assistant", FailMessage(i + 1))], st.rounds + 1, sent);
        PlanFromOutcome(cfg, answer, st', i + 1);
      }
    }
  }

  const SearchAction: string := "Search for relevant papers"
  const RespondAction: string := "Provide responses based on the user's query"

  /** `manual_workflow`: always the same two steps. */
  function ManualWorkflow(): Json {
    JArray([
      JObject([("action_type", JStr("chat")), ("action", JStr(SearchAction)), ("tool_use", JArray([JStr("arxiv")]))]),
      JObject([("action_type", JStr("tool_use")), ("action", JStr(RespondAction)), ("tool_use", JArray([]))])
    ])
  }

  /** The three entries each step is read for. */
  datatype StepFields = StepFields(actionType: Json, action: Json, toolUse: Json)

  /** `step["action_type"]`, `step["action"]`, `step["tool_use"]`, in that order; a non-dict step cannot be indexed by a string. */
  function Fields(step: Json): (r: Result<StepFields>)
    ensures r.Err? ==> r.error == TypeError || r.error.KeyError?
  {
    if !step.JObject? then Err(TypeError)
    else
      var m := step.members;
      match Get(m, "action_type")
      case None => Err(KeyError("action_type"))
      case Some(actionType) =>
        match Get(m, "action")
        case None => Err(KeyError("action"))
        case Some(action) =>
          match Get(m, "tool_use")
          case None => Err(KeyError("tool_use"))
          case Some(toolUse) => Ok(StepFields(actionType, action, toolUse))
  }

  /** The steps `enumerate(workflow)` yields: the elements of a list; for any other truthy value the first step (a character, a key) or the iteration itself raises `TypeError`. */
  function WorkflowSteps(w: Json): Result<seq<Json>> {
    if w.JArray? then Ok(w.elems) else Err(TypeError)
  }

  /** The two manual steps read as chat/arxiv and tool_use/no tools. */
  lemma ManualWorkflowFields()
    ensures var w := ManualWorkflow();
            && Truthy(w)
            && WorkflowSteps(w).Ok? && |WorkflowSteps(w).value| == 2
            && Fields(WorkflowSteps(w).value[0]) == Ok(StepFields(JStr("chat"), JStr(SearchAction), JArray([JStr("arxiv")])))
            && Fields(WorkflowSteps(w).value[1]) == Ok(StepFields(JStr("tool_use"), JStr(RespondAction), JArray([])))
  {
    var steps := ManualWorkflow().elems;
    StepFieldsInOrder(JStr("chat"), JStr(SearchAction), JArray([JStr("arxiv")]));
    StepFieldsInOrder(JStr("tool_use"), JStr(RespondAction), JArray([]));
  }

  /** A step written with its three keys in order reads back as those three values. */
  lemma StepFieldsInOrder(actionType: Json, action: Json, toolUse: Json)
    ensures Fields(JObject([("action_type", actionType), ("action", action), ("tool_use", toolUse)]))
            == Ok(StepFields(actionType, action, toolUse))
  {
    var m := [("action_type", actionType), ("action", action), ("tool_use", toolUse)];
    assert "action_type" != "action" && "action_type" != "tool_use" && "action" != "tool_use";
    assert Get(m, "action_type") == Some(actionType);
    assert Get(m, "action") == Some(action) by { assert m[1..][0].0 == "action"; }
    assert Get(m, "tool_use") == Some(toolUse) by {
      var tail := m[1..][1..];
      assert tail[0] == ("tool_use", toolUse);
      assert Get(tail, "tool_use") == Some(toolUse);
      assert Get(m[1..], "tool_use") == Get(tail, "tool_use");
    }
  }

  /** `str(v)` for a JSON-like value: strings as they are, scalars as Python spells them, containers by `reprOf`. */
  function PyStr(cfg: Config, v: Json): string {
    match v
    case JStr(s) => s
    case JNull => "None"
    case JBool(b) => if b then "True" else "False"
    case JNum(n) => IntToString(n)
    case _ => cfg.reprOf(v)
  }

  /** The user message announcing step `i` (counted from 0). */
  function StepPrompt(cfg: Config, i: nat, action: Json): string {
    StepIntro + NatToString(i + 1) + StepNeeds + PyStr(cfg, action) + ". "
  }

  const StepIntro: string := "At step "
  const StepNeeds: string := ", you need to: "

  /** The tools of a step's request: `pre_select_tools(tool_use)` when `tool_use` is truthy, else `None`; `None` here means the helper raised. */
  function StepTools(cfg: Config, toolUse: Json): Option<Json> {
    if Truthy(toolUse) then cfg.preSelectTools(toolUse) else Some(JNull)
  }

  /**
   * The step loop of `run` from step `i` on: read the step, append its
   * prompt, pick the tools, send one request, count the round. The
   * response is dropped.
   */
  function StepsFrom(cfg: Config, answer: seq<Query> -> Reply, steps: seq<Json>, st: State, i: nat): After<()>
    requires i <= |steps|
    decreases |steps| - i
  {
    if i == |steps| then After(Ok(()), st)
    else
      match Fields(steps[i])
      case Err(e) => After(Err(e), st)
      case Ok(f) =>
        var messages := st.messages + [Plain("user", StepPrompt(cfg, i, f.action))];
        match StepTools(cfg, f.toolUse)
        case None => After(Err(External), st.(messages := messages))
        case Some(tools) =>
          var sent := st.sent + [Query(messages, tools, None, Some(f.actionType))];
          if answer(sent).Failure? then After(Err(External), State(messages, st.rounds, sent))
          else StepsFrom(cfg, answer, steps, State(messages, st.rounds + 1, sent), i + 1)
  }

  /**
   * Step `i + j` completed between `before` and `after`: its prompt is the
   * `j`-th new message, and the `j`-th new request carries the history up to
   * that prompt, the step's action type, and tools exactly when `tool_use` is truthy.
   */
  predicate StepDone(cfg: Config, steps: seq<Json>, i: nat, j: nat, before: State, after: State) {
    && i + j < |steps|
    && |before.messages| + j < |after.messages|
    && |before.sent| + j < |after.sent|
    && Fields(steps[i + j]).Ok?
    && var f := Fields(steps[i + j]).value;
       var q := after.sent[|before.sent| + j];
       && after.messages[|before.messages| + j] == Plain("user", StepPrompt(cfg, i + j, f.action))
       && q.messages == after.messages[..|before.messages| + j + 1]
       && q.actionType == Some(f.actionType)
       && q.messageReturnType == None
       && Some(q.tools) == StepTools(cfg, f.toolUse)
       && (!Truthy(f.toolUse) ==> q.tools == JNull)
  }

  /**
   * The step loop adds one round per completed step `d`; it appends the
   * completed steps' prompts and requests (plus the failing step's prompt
   * and request, if it got that far) after what was there, and on success
   * it has run every step and appended nothing else.
   */
  lemma {:induction false} StepsFromCounts(cfg: Config, answer: seq<Query> -> Reply, steps: seq<Json>, st: State, i: nat)
    requires i <= |steps|
    ensures var r := StepsFrom(cfg, answer, steps, st, i);
            var d := r.state.rounds - st.rounds;
            && 0 <= d && i + d <= |steps|
            && |st.messages| + d <= |r.state.messages| <= |st.messages| + d + 1
            && |st.sent| + d <= |r.state.sent| <= |st.sent| + d + 1
            && r.state.messages[..|st.messages|] == st.messages
            && r.state.sent[..|st.sent|] == st.sent
            && (r.result.Ok? ==> i + d == |steps| && |r.state.messages| == |st.messages| + d && |r.state.sent| == |st.sent| + d)
    decreases |steps| - i
  {
    var r := StepsFrom(cfg, answer, steps, st, i);
    if i == |steps| {
      assert r == After(Ok(()), st);
    } else {
      match Fields(steps[i])
      case Err(e) =>
        assert r == After(Err(e), st);
      case Ok(f) =>
        var messages := st.messages + [Plain("user", StepPrompt(cfg, i, f.action))];
        assert messages[..|st.messages|] == st.messages;
        match StepTools(cfg, f.toolUse)
        case None =>
          assert r == After(Err(External), st.(messages := messages));
        case Some(tools) =>
          var sent := st.sent + [Query(messages, tools, None, Some(f.actionType))];
          assert sent[..|st.sent|] == st.sent;
          if answer(sent).Failure? {
            assert r == After(Err(External), State(messages, st.rounds, sent));
          } else {
            var st' := State(messages, st.rounds + 1, sent);
            assert r == StepsFrom(cfg, answer, steps, st', i + 1);
            StepsFromCounts(cfg, answer, steps, st', i + 1);
            assert r.state.messages[..|st.messages|] == st.messages by {
              assert r.state.messages[..|st.messages|] == r.state.messages[..|messages|][..|st.messages|];
            }
            assert r.state.sent[..|st.sent|] == st.sent by {
              assert r.state.sent[..|st.sent|] == r.state.sent[..|sent|][..|st.sent|];
            }
          }
    }
  }

  /** A step completed after one more message and request is the next step completed before them. */
  lemma StepDoneShift(cfg: Config, steps: seq<Json>, i: nat, j: nat, st: State, st': State, after: State)
    requires |st'.messages| == |st.messages| + 1 && |st'.sent| == |st.sent| + 1
    requires StepDone(cfg, steps, i + 1, j, st', after)
    ensures StepDone(cfg, steps, i, j + 1, st, after)
  {
  }

  /** A step whose prompt and request head what was added is completed. */
  lemma FirstStepDone(cfg: Config, steps: seq<Json>, i: nat, st: State, after: State)
    requires i < |steps| && Fields(steps[i]).Ok? && StepTools(cfg, Fields(steps[i]).value.toolUse).Some?
    requires var f := Fields(steps[i]).value;
             var messages := st.messages + [Plain("user", StepPrompt(cfg, i, f.action))];
             var sent := st.sent + [Query(messages, StepTools(cfg, f.toolUse).value, None, Some(f.actionType))];
             && |messages| <= |after.messages| && after.messages[..|messages|] == messages
             && |sent| <= |after.sent| && after.sent[..|sent|] == sent
    ensures StepDone(cfg, steps, i, 0, st, after)
  {
    var f := Fields(steps[i]).value;
    var messages := st.messages + [Plain("user", StepPrompt(cfg, i, f.action))];
    var sent := st.sent + [Query(messages, StepTools(cfg, f.toolUse).value, None, Some(f.actionType))];
    assert after.messages[|st.messages|] == after.messages[..|messages|][|st.messages|];
    assert after.sent[|st.sent|] == after.sent[..|sent|][|st.sent|];
  }

  /**
   * Every step the loop completed, counted by the rounds it added, left its
   * prompt and its request in place (responses are never added).
   */
  lemma {:induction false} StepsFromDone(cfg: Config, answer: seq<Query> -> Reply, steps: seq<Json>, st: State, i: nat)
    requires i <= |steps|
    ensures var r := StepsFrom(cfg, answer, steps, st, i);
            forall j: nat | j < r.state.rounds - st.rounds :: StepDone(cfg, steps, i, j, st, r.state)
    decreases |steps| - i
  {
    if i < |steps| && Fields(steps[i]).Ok? {
      var f := Fields(steps[i]).value;
      var messages := st.messages + [Plain("user", StepPrompt(cfg, i, f.action))];
      if StepTools(cfg, f.toolUse).Some? {
        var q := Query(messages, StepTools(cfg, f.toolUse).value, None, Some(f.actionType));
        var sent := st.sent + [q];
        if answer(sent).Reply? {
          var st' := State(messages, st.rounds + 1, sent);
          StepsFromDone(cfg, answer, steps, st', i + 1);
          StepsFromCounts(cfg, answer, steps, st', i + 1);
          var r := StepsFrom(cfg, answer, steps, st', i + 1);
          assert r == StepsFrom(cfg, answer, steps, st, i);
          assert r.state.messages[..|messages|] == messages;
          assert r.state.sent[..|sent|] == sent;
          StepsDoneExtend(cfg, steps, i, i + 1, st, st', r.state, r.state.rounds - st.rounds);
        }
      }
    }
  }

  /** The step completed first, followed by `d - 1` steps completed from the next state on, make `d` completed steps. */
  lemma StepsDoneExtend(cfg: Config, steps: seq<Json>, i: nat, next: nat, st: State, st': State, after: State, d: nat)
    requires next == i + 1 && i < |steps| && Fields(steps[i]).Ok? && StepTools(cfg, Fields(steps[i]).value.toolUse).Some?
    requires var f := Fields(steps[i]).value;
             var messages := st.messages + [Plain("user", StepPrompt(cfg, i, f.action))];
             var sent := st.sent + [Query(messages, StepTools(cfg, f.toolUse).value, None, Some(f.actionType))];
             && st'.messages == messages && st'.sent == sent
             && |messages| <= |after.messages| && after.messages[..|messages|] == messages
             && |sent| <= |after.sent| && after.sent[..|sent|] == sent
    requires forall j: nat | j < d - 1 :: StepDone(cfg, steps, next, j, st', after)
    ensures forall j: nat | j < d :: StepDone(cfg, steps, i, j, st, after)
  {
    forall j: nat | j < d
      ensures StepDone(cfg, steps, i, j, st, after)
    {
      if j == 0 {
        FirstStepDone(cfg, steps, i, st, after);
      } else {
        StepDoneShift(cfg, steps, i, j - 1, st, st', after);
      }
    }
  }

  /** The note appended before the steps run. */
  function ThinkingPrompt(dumped: string): string {
    ThinkingIntro + dumped + ThinkingRest
  }

  const ThinkingIntro: string := "[Thinking]: The workflow generated for the problem is "
  const ThinkingRest: string := ". Follow the workflow to solve the problem step by step. "

  const NoWorkflowText: string := "Failed to generate a valid workflow in the given times."

  /** The dict `run` returns; `None` timings are `None`. */
  datatype RunRecord = RunRecord(
    agentName: string,
    result: string,
    rounds: nat,
    agentWaitingTime: Option<int>,
    agentTurnaroundTime: Option<int>,
    requestWaitingTimes: seq<int>,
    requestTurnaroundTimes: seq<int>)

  /** `run` returns a record, returns `{}` after an exception inside its `try`, or lets an exception escape. */
  datatype RunOutcome = Finished(record: RunRecord) | Empty | Raised(error: PyError)

  /** The clock readings `run` uses: `created_time`, `start_time`, the `time.time()` it passes to `set_end_time`, and the request timing lists. */
  datatype Timing = Timing(created: int, start: Option<int>, now: int, waits: seq<int>, turnarounds: seq<int>)

  /** What `run` leaves: its outcome, the state, and whether it reached `set_status("done")` / `set_end_time`. */
  datatype Ran = Ran(outcome: RunOutcome, state: State, done: bool)

  /** `self.messages[:1]`. */
  function KeepFirst(messages: seq<Message>): (r: seq<Message>)
    ensures |r| == if |messages| == 0 then 0 else 1
    ensures r <= messages
  {
    if |messages| <= 1 then messages else messages[..1]
  }

  /** The planning phase of `run`: the automatic plan, after which the history is cut to its first message; or the manual plan. */
  function Planning(cfg: Config, answer: seq<Query> -> Reply, mode: string, st: State): After<Json> {
    if mode == "automatic" then
      var p := PlanFrom(cfg, answer, st, 0);
      if p.result.Err? then p else After(p.result, p.state.(messages := KeepFirst(p.state.messages)))
    else After(Ok(ManualWorkflow()), st)
  }

  /**
   * The `try` block of `run` for workflow `w`: the failure record when `w`
   * is falsy; otherwise the steps, then `set_status("done")` and
   * `set_end_time`, then the success record, whose timing arithmetic raises
   * when `start_time` is `None`; every exception becomes `{}`.
   */
  function Execute(cfg: Config, answer: seq<Query> -> Reply, w: Json, st: State, t: Timing): Ran {
    if !Truthy(w) then
      Ran(Finished(RunRecord(cfg.agentName, NoWorkflowText, st.rounds, None, None, t.waits, t.turnarounds)), st, false)
    else
      match WorkflowSteps(w)
      case Err(_) => Ran(Empty, st, false)
      case Ok(steps) =>
        var s := StepsFrom(cfg, answer, steps, st, 0);
        if s.result.Err? then Ran(Empty, s.state, false)
        else if t.start.None? then Ran(Empty, s.state, true)
        else
          Ran(Finished(RunRecord(cfg.agentName, "", s.state.rounds, Some(t.start.value - t.created), Some(t.now - t.created), t.waits, t.turnarounds)),
              s.state, true)
  }

  /**
   * Everything `run` does before its `try`: the instructions, the task, the
   * plan (automatic or manual) and the note showing the plan.
   */
  function Prepared(cfg: Config, answer: seq<Query> -> Reply, mode: string, st: State): After<Json> {
    match Instructions(cfg, mode)
    case Err(e) => After(Err(e), st)
    case Ok(ins) =>
      var p := Planning(cfg, answer, mode, st.(messages := st.messages + ins + [Plain("user", cfg.taskInput)]));
      if p.result.Err? then p
      else After(p.result, p.state.(messages := p.state.messages + [Plain("user", ThinkingPrompt(cfg.codec.dumps(p.result.value)))]))
  }

  /** `run` from the state `st` in workflow mode `mode`: what happens before the `try` can raise; the `try` cannot. */
  function RunSpec(cfg: Config, answer: seq<Query> -> Reply, mode: string, st: State, t: Timing): Ran {
    var p := Prepared(cfg, answer, mode, st);
    if p.result.Err? then Ran(Raised(p.result.error), p.state, false)
    else Execute(cfg, answer, p.result.value, p.state, t)
  }

  /**
   * Only `build_system_instruction` and automatic planning run outside the
   * `try`: a bad mode raises its assertion with nothing changed, automatic
   * planning can let a helper's exception escape, and a manual run never raises.
   */
  lemma RunRaisesOnlyBeforeTry(cfg: Config, answer: seq<Query> -> Reply, mode: string, st: State, t: Timing)
    ensures var ran := RunSpec(cfg, answer, mode, st, t);
            ran.outcome.Raised? ==>
              || (mode != "manual" && mode != "automatic" && ran.outcome.error == AssertionError && ran.state == st)
              || (mode == "automatic" && ran.outcome.error == External)
    ensures mode == "manual" ==> !RunSpec(cfg, answer, mode, st, t).outcome.Raised?
  {
    if mode == "automatic" {
      PlanFromErrors(cfg, answer, st.(messages := st.messages + Instructions(cfg, mode).value + [Plain("user", cfg.taskInput)]), 0);
    }
  }

  /** Every error `PlanFrom` can return comes from a helper outside the model. */
  lemma {:induction false} PlanFromErrors(cfg: Config, answer: seq<Query> -> Reply, st: State, i: nat)
    ensures PlanFrom(cfg, answer, st, i).result.Err? ==> PlanFrom(cfg, answer, st, i).result.error == External
    decreases PlanMaxFailTimes - i
  {
    if i < PlanMaxFailTimes {
      var sent := st.sent + [PlanQuery(st.messages)];
      if answer(sent).Reply? && cfg.checkWorkflow(answer(sent).responseMessage).Some?
         && !Truthy(cfg.checkWorkflow(answer(sent).responseMessage).value)
      {
        PlanFromErrors(cfg, answer, State(st.messages + [Plain("assistant", FailMessage(i + 1))], st.rounds + 1, sent), i + 1);
      }
    }
  }

  /** When the gateway always answers and `check_workflow` never raises, planning raises nothing. */
  lemma {:induction false} PlanFromAnswered(cfg: Config, answer: seq<Query> -> Reply, st: State, i: nat)
    requires forall h :: answer(h).Reply?
    requires forall text :: cfg.checkWorkflow(text).Some?
    ensures PlanFrom(cfg, answer, st, i).result.Ok?
    decreases PlanMaxFailTimes - i
  {
    if i < PlanMaxFailTimes {
      var sent := st.sent + [PlanQuery(st.messages)];
      assert answer(sent).Reply?;
      assert cfg.checkWorkflow(answer(sent).responseMessage).Some?;
      if !Truthy(cfg.checkWorkflow(answer(sent).responseMessage).value) {
        PlanFromAnswered(cfg, answer, State(st.messages + [Plain("assistant", FailMessage(i + 1))], st.rounds + 1, sent), i + 1);
      }
    }
  }

  /**
   * The `try` block counts one round per request when it returns a record,
   * at most one per request when it returns `{}`, and never raises.
   */
  lemma ExecuteRounds(cfg: Config, answer: seq<Query> -> Reply, w: Json, st: State, t: Timing)
    ensures var ran := Execute(cfg, answer, w, st, t);
            && !ran.outcome.Raised?
            && (ran.outcome.Finished? ==> ran.state.rounds - st.rounds == |ran.state.sent| - |st.sent|)
            && (ran.outcome.Finished? ==> ran.outcome.record.rounds == ran.state.rounds)
            && (ran.outcome.Empty? ==> 0 <= ran.state.rounds - st.rounds <= |ran.state.sent| - |st.sent|)
  {
    if Truthy(w) && WorkflowSteps(w).Ok? {
      StepsFromCounts(cfg, answer, WorkflowSteps(w).value, st, 0);
    }
  }

  /**
   * A run that returns a record has counted one round for every request it
   * sent; a run that returns `{}` has counted at most one round per request.
   */
  lemma RunRoundsCountRequests(cfg: Config, answer: seq<Query> -> Reply, mode: string, st: State, t: Timing)
    ensures var ran := RunSpec(cfg, answer, mode, st, t);
            && (ran.outcome.Finished? ==> ran.state.rounds - st.rounds == |ran.state.sent| - |st.sent|)
            && (ran.outcome.Finished? ==> ran.outcome.record.rounds == ran.state.rounds)
            && (ran.outcome.Empty? ==> 0 <= ran.state.rounds - st.rounds <= |ran.state.sent| - |st.sent|)
  {
    if Instructions(cfg, mode).Ok? {
      var st1 := st.(messages := st.messages + Instructions(cfg, mode).value + [Plain("user", cfg.taskInput)]);
      var p := Planning(cfg, answer, mode, st1);
      if mode == "automatic" {
        PlanFromRequests(cfg, answer, st1, 0);
        PlanFromRounds(cfg, answer, st1, 0);
      }
      if p.result.Ok? {
        var w := p.result.value;
        ExecuteRounds(cfg, answer, w, p.state.(messages := p.state.messages + [Plain("user", ThinkingPrompt(cfg.codec.dumps(w)))]), t);
      }
    }
  }

  /**
   * Two readable steps whose tools are picked, run against a gateway that
   * always answers: two prompts, two requests with the picked tools, two rounds.
   */
  lemma TwoStepsAnswered(cfg: Config, answer: seq<Query> -> Reply, steps: seq<Json>, st: State)
    requires forall h :: answer(h).Reply?
    requires |steps| == 2 && Fields(steps[0]).Ok? && Fields(steps[1]).Ok?
    requires StepTools(cfg, Fields(steps[0]).value.toolUse).Some? && StepTools(cfg, Fields(steps[1]).value.toolUse).Some?
    ensures var s := StepsFrom(cfg, answer, steps, st, 0);
            && s.result.Ok?
            && s.state.rounds == st.rounds + 2
            && |s.state.sent| == |st.sent| + 2
            && s.state.sent[|st.sent|].tools == StepTools(cfg, Fields(steps[0]).value.toolUse).value
            && s.state.sent[|st.sent| + 1].tools == StepTools(cfg, Fields(steps[1]).value.toolUse).value
            && s.state.messages == st.messages + [
                 Plain("user", StepPrompt(cfg, 0, Fields(steps[0]).value.action)),
                 Plain("user", StepPrompt(cfg, 1, Fields(steps[1]).value.action))]
  {
    var sA := StepState(cfg, steps, st, 0);
    var sB := StepState(cfg, steps, sA, 1);
    StepAnswered(cfg, answer, steps, st, 0);
    StepAnswered(cfg, answer, steps, sA, 1);
    assert StepsFrom(cfg, answer, steps, st, 0) == After(Ok(()), sB);
  }

  /** The state after step `i` is read, prompted, and answered. */
  function StepState(cfg: Config, steps: seq<Json>, st: State, i: nat): State
    requires i < |steps| && Fields(steps[i]).Ok? && StepTools(cfg, Fields(steps[i]).value.toolUse).Some?
  {
    var f := Fields(steps[i]).value;
    var messages := st.messages + [Plain("user", StepPrompt(cfg, i, f.action))];
    State(messages, st.rounds + 1, st.sent + [Query(messages, StepTools(cfg, f.toolUse).value, None, Some(f.actionType))])
  }

  /** A readable step whose tools are picked and whose request is answered moves the loop on by one step. */
  lemma StepAnswered(cfg: Config, answer: seq<Query> -> Reply, steps: seq<Json>, st: State, i: nat)
    requires i < |steps| && Fields(steps[i]).Ok? && StepTools(cfg, Fields(steps[i]).value.toolUse).Some?
    requires answer(StepState(cfg, steps, st, i).sent).Reply?
    ensures StepsFrom(cfg, answer, steps, st, i) == StepsFrom(cfg, answer, steps, StepState(cfg, steps, st, i), i + 1)
  {
  }

  /**
   * A manual run with a gateway that always answers and a `pre_select_tools`
   * that succeeds on `["arxiv"]`: it adds the system message, the task, the
   * workflow note and the two step prompts, sends two requests (tools only
   * for the first), counts two rounds, and returns the record unless
   * `start_time` was never set.
   */
  lemma ManualRun(cfg: Config, answer: seq<Query> -> Reply, st: State, t: Timing)
    requires forall h :: answer(h).Reply?
    requires cfg.preSelectTools(JArray([JStr("arxiv")])).Some?
    ensures var ran := RunSpec(cfg, answer, "manual", st, t);
            && ran.state.rounds == st.rounds + 2
            && |ran.state.sent| == |st.sent| + 2
            && ran.state.sent[|st.sent|].tools == cfg.preSelectTools(JArray([JStr("arxiv")])).value
            && ran.state.sent[|st.sent| + 1].tools == JNull
            && ran.state.messages == st.messages + [
                 Plain("system", Concat(cfg.description)),
                 Plain("user", cfg.taskInput),
                 Plain("user", ThinkingPrompt(cfg.codec.dumps(ManualWorkflow()))),
                 Plain("user", StepPrompt(cfg, 0, JStr(SearchAction))),
                 Plain("user", StepPrompt(cfg, 1, JStr(RespondAction)))]
            && ran.done
            && ran.outcome == if t.start.None? then Empty
                              else Finished(RunRecord(cfg.agentName, "", st.rounds + 2, Some(t.start.value - t.created),
                                                      Some(t.now - t.created), t.waits, t.turnarounds))
  {
    var st2 := st.(messages := st.messages + [Plain("system", Concat(cfg.description)), Plain("user", cfg.taskInput),
                                              Plain("user", ThinkingPrompt(cfg.codec.dumps(ManualWorkflow())))]);
    ManualRunExecutes(cfg, answer, st, t);
    ManualExecute(cfg, answer, st2, t);
    var p0 := Plain("user", StepPrompt(cfg, 0, JStr(SearchAction)));
    var p1 := Plain("user", StepPrompt(cfg, 1, JStr(RespondAction)));
    assert st2.messages + [p0, p1] == st.messages + [
             Plain("system", Concat(cfg.description)), Plain("user", cfg.taskInput),
             Plain("user", ThinkingPrompt(cfg.codec.dumps(ManualWorkflow()))), p0, p1];
  }

  /** The `try` block on the manual plan, from any state. */
  lemma ManualExecute(cfg: Config, answer: seq<Query> -> Reply, st: State, t: Timing)
    requires forall h :: answer(h).Reply?
    requires cfg.preSelectTools(JArray([JStr("arxiv")])).Some?
    ensures var ran := Execute(cfg, answer, ManualWorkflow(), st, t);
            && ran.state.rounds == st.rounds + 2
            && |ran.state.sent| == |st.sent| + 2
            && ran.state.sent[|st.sent|].tools == cfg.preSelectTools(JArray([JStr("arxiv")])).value
            && ran.state.sent[|st.sent| + 1].tools == JNull
            && ran.state.messages == st.messages + [
                 Plain("user", StepPrompt(cfg, 0, JStr(SearchAction))),
                 Plain("user", StepPrompt(cfg, 1, JStr(RespondAction)))]
            && ran.done
            && ran.outcome == if t.start.None? then Empty
                              else Finished(RunRecord(cfg.agentName, "", st.rounds + 2, Some(t.start.value - t.created),
                                                      Some(t.now - t.created), t.waits, t.turnarounds))
  {
    var w := ManualWorkflow();
    var f0 := StepFields(JStr("chat"), JStr(SearchAction), JArray([JStr("arxiv")]));
    var f1 := StepFields(JStr("tool_use"), JStr(RespondAction), JArray([]));
    assert Truthy(w) && WorkflowSteps(w).Ok? && |WorkflowSteps(w).value| == 2
           && Fields(WorkflowSteps(w).value[0]) == Ok(f0) && Fields(WorkflowSteps(w).value[1]) == Ok(f1) by {
      ManualWorkflowFields();
    }
    assert StepTools(cfg, f0.toolUse) == cfg.preSelectTools(JArray([JStr("arxiv")]));
    assert StepTools(cfg, f1.toolUse) == Some(JNull);
    ExecuteTwoSteps(cfg, answer, w, st, t);
  }

  /** The `try` block on a two-step workflow whose steps are readable and whose tools are picked. */
  lemma ExecuteTwoSteps(cfg: Config, answer: seq<Query> -> Reply, w: Json, st: State, t: Timing)
    requires forall h :: answer(h).Reply?
    requires Truthy(w) && WorkflowSteps(w).Ok? && |WorkflowSteps(w).value| == 2
    requires var steps := WorkflowSteps(w).value;
             && Fields(steps[0]).Ok? && Fields(steps[1]).Ok?
             && StepTools(cfg, Fields(steps[0]).value.toolUse).Some? && StepTools(cfg, Fields(steps[1]).value.toolUse).Some?
    ensures var steps := WorkflowSteps(w).value;
            var ran := Execute(cfg, answer, w, st, t);
            && ran.state.rounds == st.rounds + 2
            && |ran.state.sent| == |st.sent| + 2
            && ran.state.sent[|st.sent|].tools == StepTools(cfg, Fields(steps[0]).value.toolUse).value
            && ran.state.sent[|st.sent| + 1].tools == StepTools(cfg, Fields(steps[1]).value.toolUse).value
            && ran.state.messages == st.messages + [
                 Plain("user", StepPrompt(cfg, 0, Fields(steps[0]).value.action)),
                 Plain("user", StepPrompt(cfg, 1, Fields(steps[1]).value.action))]
            && ran.done
            && ran.outcome == if t.start.None? then Empty
                              else Finished(RunRecord(cfg.agentName, "", st.rounds + 2, Some(t.start.value - t.created),
                                                      Some(t.now - t.created), t.waits, t.turnarounds))
  {
    TwoStepsAnswered(cfg, answer, WorkflowSteps(w).value, st);
  }

  /** A manual run adds the system message, the task and the workflow note, then executes the manual plan. */
  lemma ManualRunExecutes(cfg: Config, answer: seq<Query> -> Reply, st: State, t: Timing)
    ensures RunSpec(cfg, answer, "manual", st, t)
            == Execute(cfg, answer, ManualWorkflow(),
                       st.(messages := st.messages + [Plain("system", Concat(cfg.description)), Plain("user", cfg.taskInput),
                                                      Plain("user", ThinkingPrompt(cfg.codec.dumps(ManualWorkflow())))]), t)
  {
    var st1 := st.(messages := st.messages + [Plain("system", Concat(cfg.description))] + [Plain("user", cfg.taskInput)]);
    assert Instructions(cfg, "manual") == Ok([Plain("system", Concat(cfg.description))]);
    assert Planning(cfg, answer, "manual", st1) == After(Ok(ManualWorkflow()), st1) by {
      assert "manual" != "automatic";
    }
    assert st1.messages + [Plain("user", ThinkingPrompt(cfg.codec.dumps(ManualWorkflow())))]
           == st.messages + [Plain("system", Concat(cfg.description)), Plain("user", cfg.taskInput),
                             Plain("user", ThinkingPrompt(cfg.codec.dumps(ManualWorkflow())))];
  }

  /**
   * An automatic run in which every plan is rejected: three requests and
   * three rounds, the history cut to its first message plus the workflow
   * note about `None`, and the planning-failure record without timings.
   */
  lemma ExhaustedRun(cfg: Config, answer: seq<Query> -> Reply, st: State, t: Timing)
    requires forall h :: answer(h).Reply?
    requires forall text :: cfg.checkWorkflow(text).Some? && !Truthy(cfg.checkWorkflow(text).value)
    ensures var ran := RunSpec(cfg, answer, "automatic", st, t);
            && |ran.state.sent| == |st.sent| + PlanMaxFailTimes
            && ran.state.rounds == st.rounds + PlanMaxFailTimes
            && ran.state.messages == KeepFirst(st.messages + [Plain("system", Concat(cfg.description))]) + [Plain("user", ThinkingPrompt(cfg.codec.dumps(JNull)))]
            && !ran.done
            && ran.outcome == Finished(RunRecord(cfg.agentName, NoWorkflowText, st.rounds + PlanMaxFailTimes, None, None, t.waits, t.turnarounds))
  {
    var ins := Instructions(cfg, "automatic").value;
    var st1 := st.(messages := st.messages + ins + [Plain("user", cfg.taskInput)]);
    PlanFromOutcome(cfg, answer, st1, 0);
    PlanFromRounds(cfg, answer, st1, 0);
    PlanFromNotes(cfg, answer, st1, 0);
    var p := PlanFrom(cfg, answer, st1, 0);
    PlanFromAnswered(cfg, answer, st1, 0);
    assert p.result.Ok? && !Accepted(p);
    assert KeepFirst(p.state.messages) == KeepFirst(st.messages + [Plain("system", Concat(cfg.description))]) by {
      assert p.state.messages[..1] == (st.messages + [Plain("system", Concat(cfg.description))])[..1];
    }
  }

  /**
   * After automatic planning, whatever happened during it, the history is
   * its first message followed by the note showing the plan (`null` when
   * none was found).
   */
  lemma AutomaticHistoryCut(cfg: Config, answer: seq<Query> -> Reply, st: State)
    ensures var p := Prepared(cfg, answer, "automatic", st);
            p.result.Ok? ==>
              p.state.messages == KeepFirst(st.messages + [Plain("system", Concat(cfg.description))])
                                  + [Plain("user", ThinkingPrompt(cfg.codec.dumps(p.result.value)))]
  {
    var ins := Instructions(cfg, "automatic").value;
    var start := st.messages + [Plain("system", Concat(cfg.description))];
    var st1 := st.(messages := st.messages + ins + [Plain("user", cfg.taskInput)]);
    PlanFromNotes(cfg, answer, st1, 0);
    var q := PlanFrom(cfg, answer, st1, 0);
    assert q.state.messages[..|start|] == start by {
      assert q.state.messages[..|start|] == st1.messages[..|start|];
    }
    assert KeepFirst(q.state.messages) == KeepFirst(start) by {
      assert q.state.messages[..1] == start[..1];
    }
  }
}
