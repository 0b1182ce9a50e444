/**
 * `AcademicAgent` (pyopenagi/agents/example/academic_agent/agent.py) as an
 * object whose methods update its history and round counter in place, and
 * the LLM gateway as an object that records every query it receives.
 * Each method is proved against the matching function of `AgentWorkflow`.
 */
module AcademicAgent {
  import opened Wrappers
  import opened JsonModel
  import opened Chat
  import opened AgentWorkflow

  /**
   * The scheduler behind `send_request`: it logs each query and answers
   * with `answer` applied to the whole log so far.
   */
  class Gateway {
    const answer: seq<Query> -> Reply
    var sent: seq<Query>

    constructor(answer: seq<Query> -> Reply)
      ensures this.answer == answer && sent == []
    {
      this.answer := answer;
      sent := [];
    }

    /** `send_request(agent_name, query)["response"]`. */
    method Send(q: Query) returns (r: Reply)
      modifies this
      ensures sent == old(sent) + [q]
      ensures r == answer(sent)
    {
      sent := sent + [q];
      r := answer(sent);
    }
  }

  class Agent {
    const cfg: Config
    const gateway: Gateway
    /** What `set_created_time(time.time())` recorded. */
    const createdTime: int

    var messages: seq<Message>
    var rounds: nat
    var workflowMode: string
    var startTime: Option<int>
    var endTime: Option<int>
    /** What `set_status` last recorded; `None` before any call. */
    var status: Option<string>
    var requestWaitingTimes: seq<int>
    var requestTurnaroundTimes: seq<int>

    /** `__init__`: empty history, no rounds, manual mode, no start or end time. */
    constructor(cfg: Config, gateway: Gateway, createdTime: int)
      ensures this.cfg == cfg && this.gateway == gateway && this.createdTime == createdTime
      ensures messages == [] && rounds == 0 && workflowMode == "manual"
      ensures startTime == None && endTime == None && status == None
      ensures requestWaitingTimes == [] && requestTurnaroundTimes == []
    {
      this.cfg := cfg;
      this.gateway := gateway;
      this.createdTime := createdTime;
      messages := [];
      rounds := 0;
      workflowMode := "manual";
      startTime := None;
      endTime := None;
      status := None;
      requestWaitingTimes := [];
      requestTurnaroundTimes := [];
    }

    /** The state the workflow functions speak about. */
    function Snapshot(): State
      reads this, gateway
    {
      State(messages, rounds, gateway.sent)
    }

    /** The clock readings a run started at this point would use, with `now` for `set_end_time`. */
    function Clock(now: int): Timing
      reads this
    {
      Timing(createdTime, startTime, now, requestWaitingTimes, requestTurnaroundTimes)
    }

    /** `build_system_instruction`: appends the mode's instructions, or raises its assertion leaving the history alone. */
    method BuildSystemInstruction() returns (err: Option<PyError>)
      modifies this
      ensures Instructions(cfg, workflowMode).Ok? ==> err == None && messages == old(messages) + Instructions(cfg, workflowMode).value
      ensures Instructions(cfg, workflowMode).Err? ==> err == Some(Instructions(cfg, workflowMode).error) && messages == old(messages)
      ensures unchanged(this`rounds, this`workflowMode, this`startTime, this`endTime, this`status)
      ensures unchanged(this`requestWaitingTimes, this`requestTurnaroundTimes)
    {
      var system := Plain("system", Concat(cfg.description));
      if workflowMode == "manual" {
        messages := messages + [system];
        err := None;
      } else if workflowMode == "automatic" {
        messages := messages + [system];
        messages := messages + [Plain("user", PlanInstruction(cfg))];
        err := None;
      } else {
        err := Some(AssertionError);
      }
    }

    /** `automatic_workflow`: up to `PlanMaxFailTimes` planning requests. */
    method AutomaticWorkflow() returns (r: Result<Json>)
      modifies this, gateway
      ensures After(r, Snapshot()) == PlanFrom(cfg, gateway.answer, old(Snapshot()), 0)
      ensures unchanged(this`workflowMode, this`startTime, this`endTime, this`status)
      ensures unchanged(this`requestWaitingTimes, this`requestTurnaroundTimes)
    {
      var i := 0;
      while i < PlanMaxFailTimes
        invariant i <= PlanMaxFailTimes
        invariant PlanFrom(cfg, gateway.answer, Snapshot(), i) == PlanFrom(cfg, gateway.answer, old(Snapshot()), 0)
        invariant unchanged(this`workflowMode, this`startTime, this`endTime, this`status)
        invariant unchanged(this`requestWaitingTimes, this`requestTurnaroundTimes)
        decreases PlanMaxFailTimes - i
      {
        var stop, result := PlanAttempt(i);
        if stop {
          return result;
        }
        i := i + 1;
      }
      r := Ok(JNull);
    }

    /**
     * One pass of the retry loop of `automatic_workflow`: ask, check, count
     * the round, and either stop (with a plan or an exception) or note the
     * rejected plan for attempt `i + 1`.
     */
    method PlanAttempt(i: nat) returns (stop: bool, r: Result<Json>)
      requires i < PlanMaxFailTimes
      modifies this, gateway
      ensures stop ==> After(r, Snapshot()) == PlanFrom(cfg, gateway.answer, old(Snapshot()), i)
      ensures !stop ==> PlanFrom(cfg, gateway.answer, Snapshot(), i + 1) == PlanFrom(cfg, gateway.answer, old(Snapshot()), i)
      ensures unchanged(this`workflowMode, this`startTime, this`endTime, this`status)
      ensures unchanged(this`requestWaitingTimes, this`requestTurnaroundTimes)
    {
      var reply := gateway.Send(PlanQuery(messages));
      if reply.Failure? {
        return true, Err(External);
      }
      var workflow := cfg.checkWorkflow(reply.responseMessage);
      if workflow.None? {
        return true, Err(External);
      }
      rounds := rounds + 1;
      if Truthy(workflow.value) {
        return true, Ok(workflow.value);
      }
      messages := messages + [Plain("assistant", FailMessage(i + 1))];
      stop, r := false, Ok(JNull);
    }

    /** The step loop of `run`: one prompt, one request and one round per step. */
    method RunSteps(steps: seq<Json>) returns (r: Result<()>)
      modifies this, gateway
      ensures After(r, Snapshot()) == StepsFrom(cfg, gateway.answer, steps, old(Snapshot()), 0)
      ensures unchanged(this`workflowMode, this`startTime, this`endTime, this`status)
      ensures unchanged(this`requestWaitingTimes, this`requestTurnaroundTimes)
    {
      var i := 0;
      while i < |steps|
        invariant i <= |steps|
        invariant StepsFrom(cfg, gateway.answer, steps, Snapshot(), i) == StepsFrom(cfg, gateway.answer, steps, old(Snapshot()), 0)
        invariant unchanged(this`workflowMode, this`startTime, this`endTime, this`status)
        invariant unchanged(this`requestWaitingTimes, this`requestTurnaroundTimes)
      {
        var stop, result := StepAt(steps, i);
        if stop {
          return result;
        }
        i := i + 1;
      }
      r := Ok(());
    }

    /** One pass of the step loop: read step `i`, prompt, pick tools, ask, count the round; stop on an exception. */
    method StepAt(steps: seq<Json>, i: nat) returns (stop: bool, r: Result<()>)
      requires i < |steps|
      modifies this, gateway
      ensures stop ==> After(r, Snapshot()) == StepsFrom(cfg, gateway.answer, steps, old(Snapshot()), i)
      ensures !stop ==> StepsFrom(cfg, gateway.answer, steps, Snapshot(), i + 1) == StepsFrom(cfg, gateway.answer, steps, old(Snapshot()), i)
      ensures unchanged(this`workflowMode, this`startTime, this`endTime, this`status)
      ensures unchanged(this`requestWaitingTimes, this`requestTurnaroundTimes)
    {
      var fields := Fields(steps[i]);
      if fields.Err? {
        return true, Err(fields.error);
      }
      var f := fields.value;
      messages := messages + [Plain("user", StepPrompt(cfg, i, f.action))];
      var tools := StepTools(cfg, f.toolUse);
      if tools.None? {
        return true, Err(External);
      }
      var reply := gateway.Send(Query(messages, tools.value, None, Some(f.actionType)));
      if reply.Failure? {
        return true, Err(External);
      }
      rounds := rounds + 1;
      stop, r := false, Ok(());
    }

    /** The `try` block of `run` for workflow `w`; `now` is the `time.time()` passed to `set_end_time`. */
    method ExecuteWorkflow(w: Json, now: int) returns (outcome: RunOutcome)
      modifies this, gateway
      ensures var ran := Execute(cfg, gateway.answer, w, old(Snapshot()), old(Clock(now)));
              && outcome == ran.outcome
              && Snapshot() == ran.state
              && (ran.done ==> status == Some("done") && endTime == Some(now))
              && (!ran.done ==> status == old(status) && endTime == old(endTime))
      ensures unchanged(this`workflowMode, this`startTime, this`requestWaitingTimes, this`requestTurnaroundTimes)
    {
      if !Truthy(w) {
        return Finished(RunRecord(cfg.agentName, NoWorkflowText, rounds, None, None, requestWaitingTimes, requestTurnaroundTimes));
      }
      var steps := WorkflowSteps(w);
      if steps.Err? {
        return Empty;
      }
      var done := RunSteps(steps.value);
      if done.Err? {
        return Empty;
      }
      status := Some("done");
      endTime := Some(now);
      if startTime.None? {
        return Empty;
      }
      outcome := Finished(RunRecord(cfg.agentName, "", rounds, Some(startTime.value - createdTime), Some(endTime.value - createdTime),
                                    requestWaitingTimes, requestTurnaroundTimes));
    }

    /** `run`; `now` is the `time.time()` passed to `set_end_time`. */
    method Run(now: int) returns (outcome: RunOutcome)
      modifies this, gateway
      ensures var ran := RunSpec(cfg, gateway.answer, old(workflowMode), old(Snapshot()), old(Clock(now)));
              && outcome == ran.outcome
              && Snapshot() == ran.state
              && (ran.done ==> status == Some("done") && endTime == Some(now))
              && (!ran.done ==> status == old(status) && endTime == old(endTime))
      ensures unchanged(this`workflowMode, this`startTime, this`requestWaitingTimes, this`requestTurnaroundTimes)
    {
      var planned := Prepare();
      if planned.Err? {
        return Raised(planned.error);
      }
      outcome := ExecuteWorkflow(planned.value, now);
    }

    /** The part of `run` before its `try`: instructions, task, plan, history cut, plan note. */
    method Prepare() returns (r: Result<Json>)
      modifies this, gateway
      ensures After(r, Snapshot()) == Prepared(cfg, gateway.answer, old(workflowMode), old(Snapshot()))
      ensures unchanged(this`workflowMode, this`startTime, this`endTime, this`status)
      ensures unchanged(this`requestWaitingTimes, this`requestTurnaroundTimes)
    {
      var err := BuildSystemInstruction();
      if err.Some? {
        return Err(err.value);
      }
      messages := messages + [Plain("user", cfg.taskInput)];
      var workflow: Json;
      if workflowMode == "automatic" {
        var planned := AutomaticWorkflow();
        if planned.Err? {
          return planned;
        }
        workflow := planned.value;
        messages := KeepFirst(messages);
      } else {
        workflow := ManualWorkflow();
      }
      messages := messages + [Plain("user", ThinkingPrompt(cfg.codec.dumps(workflow)))];
      r := Ok(workflow);
    }
  }
}
