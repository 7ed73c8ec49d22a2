/**
 * BedrockAgent as an object: the session maps and the waiter table are
 * fields its handlers update in place, and everything it sends or writes to
 * orchestrator_state.json is appended to `outbox`. Each method is proved to
 * move the object exactly as the matching function of Orchestration moves
 * the state, so the properties proved there hold of the object.
 */
module Bedrock {
  import opened Wrappers
  import Text
  import opened Json
  import opened ModelReplies
  import O = Orchestration
  import L = OrchestrationLemmas

  class BedrockAgent {
    const id: string
    const endpoint: string
    var sessionPlans: map<string, Plan>
    var sessionStepIndex: map<string, nat>
    var sessionPausedAgent: map<string, string>
    var localWaiters: map<string, O.WaiterId>
    var nextWaiter: O.WaiterId
    var completed: seq<O.Completion>
    var outbox: seq<O.Effect>
    var stateFile: Option<O.Snapshot>

    /** The agent's state as the value the orchestration functions work on. */
    function View(): O.OrchState
      reads this
    {
      O.OrchState(sessionPlans, sessionStepIndex, sessionPausedAgent, localWaiters, nextWaiter,
                  completed, outbox, stateFile)
    }

    predicate Valid()
      reads this
    {
      O.Valid(View())
    }

    /** The constructor runs loadSessionState on whatever state file exists. */
    constructor (id: string, endpoint: string, file: Option<O.Snapshot>)
      ensures this.id == id && this.endpoint == endpoint
      ensures View() == O.Restored(file)
      ensures Valid()
    {
      this.id := id;
      this.endpoint := endpoint;
      match file {
        case Some(snap) =>
          sessionPlans := snap.plans;
          sessionStepIndex := snap.indexes;
        case None =>
          sessionPlans := map[];
          sessionStepIndex := map[];
      }
      sessionPausedAgent := map[];
      localWaiters := map[];
      nextWaiter := 0;
      completed := [];
      outbox := [];
      stateFile := file;
    }

    method SendToKernel(m: O.Outgoing)
      modifies this
      ensures View() == O.Send(old(View()), m)
    {
      outbox := outbox + [O.Emit(m)];
    }

    method SendReasoningUpdate(sid: string, phase: string, message: string)
      modifies this
      ensures View() == O.Status(old(View()), sid, phase, message)
    {
      SendToKernel(O.StatusUpdate(sid, phase, message));
    }

    method PersistSessionState()
      modifies this
      ensures View() == O.Persisted(old(View()))
    {
      var snap := O.Snapshot(sessionPlans, sessionStepIndex);
      stateFile := Some(snap);
      outbox := outbox + [O.Persist(snap)];
    }

    method RegisterLocalWaiter(sid: string, agent: Option<string>)
      modifies this
      ensures View() == O.RegisterLocal(old(View()), sid, agent)
    {
      localWaiters := localWaiters[O.WaiterKey(sid, Show(agent)) := nextWaiter];
      nextWaiter := nextWaiter + 1;
    }

    method RegisterWaiterWithKernel(sid: string, agent: Option<string>)
      modifies this
      ensures View() == O.RegisterWithKernel(old(View()), sid, agent)
    {
      if agent.Some? {
        outbox := outbox + [O.RegisterWaiter(sid, agent.value)];
      }
    }

    method DelegateToAgent(target: Option<string>, sid: string, message: Option<string>)
      modifies this
      ensures View() == O.Delegate(old(View()), target, sid, message)
    {
      if target.Some? && message.Some? {
        SendToKernel(O.Delegation(target.value, sid, message.value));
      }
    }

    /** A local waiter, the kernel-side one, then the delegation. */
    method AwaitAndDelegate(sid: string, agent: Option<string>, message: Option<string>)
      modifies this
      ensures View() == O.Delegate(O.Await(old(View()), sid, agent), agent, sid, message)
    {
      RegisterLocalWaiter(sid, agent);
      RegisterWaiterWithKernel(sid, agent);
      DelegateToAgent(agent, sid, message);
    }

    method CompleteLocalWaiter(sid: string, agent: Option<string>, payload: Fields)
      modifies this
      ensures View() == O.CompleteLocalWaiter(old(View()), sid, agent, payload)
    {
      var key := O.WaiterKey(sid, Show(agent));
      if key in localWaiters {
        var fut := localWaiters[key];
        localWaiters := localWaiters - {key};
        completed := completed + [O.Completion(fut, key, O.SafeResult(payload, agent, sid))];
      }
    }

    method ContinuePlan(sid: string) returns (ok: bool)
      modifies this
      ensures (View(), ok) == O.ContinuePlan(old(View()), sid)
    {
      var index := if sid in sessionStepIndex then sessionStepIndex[sid] else 0;
      if sid !in sessionPlans || index >= |sessionPlans[sid]| {
        SendReasoningUpdate(sid, "summary", O.AllDone);
        sessionPlans := sessionPlans - {sid};
        sessionStepIndex := sessionStepIndex - {sid};
        PersistSessionState();
        return true;
      }
      var step := sessionPlans[sid][index];
      if step.Malformed? {
        return false;
      }
      SendReasoningUpdate(sid, "delegation", "Delegating to " + Show(step.agent) + " → " + Show(step.action));
      AwaitAndDelegate(sid, step.agent, step.action);
      return true;
    }

    method HandleOrchestratorChat(sid: string, message: Option<string>, inventoryText: string, plan: Plan)
      modifies this
      ensures View() == O.OrchestratorChat(old(View()), sid, message, inventoryText, plan)
    {
      if message.None? || message.value == "" {
        return;
      }
      SendReasoningUpdate(sid, "thinking", "<thinking>Planning how to achieve: " + message.value + "</thinking>");
      SendReasoningUpdate(sid, "planner", "Discovered agent tools: " + inventoryText);
      SendReasoningUpdate(sid, "planner", "Generated plan: " + O.PlanText(plan));
      sessionPlans := sessionPlans[sid := plan];
      sessionStepIndex := sessionStepIndex[sid := 0];
      PersistSessionState();
      var _ := ContinuePlan(sid);
    }

    /** The success half of handleAgentResult: clear the pause, advance, persist, continue. */
    method AdvanceAfterSuccess(sid: string, agent: Option<string>)
      modifies this
      ensures View() == O.StepSucceeded(old(View()), sid, agent)
    {
      MarkStepDone(sid, agent);
      var ok := ContinuePlan(sid);
      if !ok {
        SendReasoningUpdate(sid, "orchestration_step_failed", "❌ " + Show(agent) + " failed: " + O.ClassCastText);
      }
    }

    /** Report the step complete, clear the pause, advance the index and persist. */
    method MarkStepDone(sid: string, agent: Option<string>)
      modifies this
      ensures View() == O.StepAdvanced(old(View()), sid, agent)
    {
      SendReasoningUpdate(sid, "orchestration_step_complete", "✅ " + Show(agent) + " completed successfully.");
      var index := if sid in sessionStepIndex then sessionStepIndex[sid] else 0;
      sessionPausedAgent := sessionPausedAgent - {sid};
      sessionStepIndex := sessionStepIndex[sid := index + 1];
      PersistSessionState();
    }

    method HandleAgentResult(sid: string, agent: Option<string>, message: string, v: Verdict)
      modifies this
      ensures View() == O.AgentResult(old(View()), sid, agent, message, v)
    {
      if !v.needsUserInput && !v.toolFailed {
        AdvanceAfterSuccess(sid, agent);
        return;
      }
      var pausedFor := if sid in sessionPausedAgent then Some(sessionPausedAgent[sid]) else None;
      if pausedFor.Some? && pausedFor == agent {
        SendReasoningUpdate(sid, "orchestration_pause_update",
                            "🔁 Updated reasoning for " + agent.value + ": " + v.reason);
      } else if agent.None? {
        SendReasoningUpdate(sid, "orchestration_step_failed", "❌ null failed: " + O.NullPointerText);
      } else {
        sessionPausedAgent := sessionPausedAgent[sid := agent.value];
        SendReasoningUpdate(sid, "orchestration_pause", "⏸ " + v.reason + " for " + agent.value);
        SendToKernel(O.OrchestratorWait(sid, agent.value, v.reason, message, DecisionOptions));
      }
    }

    method HandleUserDecision(sid: string, agent: Option<string>, action: Option<string>, decision: Fields)
      modifies this
      ensures View() == O.UserDecision(old(View()), sid, agent, action, decision)
    {
      var choice := AsString(GetOrDefault(decision, "choice", Str("skip")));
      if !choice.CastString? {
        return;
      }
      var c := Text.Lower(choice.s);
      if c == "abort" {
        SendReasoningUpdate(sid, "orchestration_abort", "🛑 User aborted orchestration");
      } else if c == "retry" {
        RetryStep(sid, agent, action);
      } else if c == "provide_input" {
        var inputCast := AsString(GetOrDefault(decision, "input", Str("")));
        if inputCast.CastFails? {
          return;
        }
        ProvideInput(sid, agent, action, Show(CastValue(inputCast)));
      } else {
        SkipStep(sid, agent);
      }
    }

    /** The retry choice. */
    method RetryStep(sid: string, agent: Option<string>, action: Option<string>)
      modifies this
      ensures View() == O.RetryDecision(old(View()), sid, agent, action)
    {
      SendReasoningUpdate(sid, "orchestration_retry", "🔁 Retrying " + Show(agent));
      sessionPausedAgent := sessionPausedAgent - {sid};
      AwaitAndDelegate(sid, agent, action);
    }

    /** The provide_input choice, with the input already read. */
    method ProvideInput(sid: string, agent: Option<string>, action: Option<string>, input: string)
      modifies this
      ensures View() == O.ProvideInputDecision(old(View()), sid, agent, action, input)
    {
      SendReasoningUpdate(sid, "orchestration_resume_input",
                          "💡 Received user input for " + Show(agent) + ": " + input);
      sessionPausedAgent := sessionPausedAgent - {sid};
      AwaitAndDelegate(sid, agent, Some(Show(action) + O.UserInputSuffixStart + input + ")"));
    }

    /** Any other choice. */
    method SkipStep(sid: string, agent: Option<string>)
      modifies this
      ensures View() == O.SkipDecision(old(View()), sid, agent)
    {
      MarkSkipped(sid, agent);
      var _ := ContinuePlan(sid);
    }

    /** Report the skip, move past the step and persist. */
    method MarkSkipped(sid: string, agent: Option<string>)
      modifies this
      ensures View() == O.SkipMarked(old(View()), sid, agent)
    {
      SendReasoningUpdate(sid, "orchestration_skip", "⏭ Skipping " + Show(agent));
      var index := if sid in sessionStepIndex then sessionStepIndex[sid] else 0;
      sessionStepIndex := sessionStepIndex[sid := index + 1];
      PersistSessionState();
    }

    method ResumePausedSession(sid: string, userInput: Option<string>)
      modifies this
      ensures View() == O.ResumePausedSession(old(View()), sid, userInput)
    {
      var index := if sid in sessionStepIndex then sessionStepIndex[sid] else 0;
      if sid !in sessionPlans || index >= |sessionPlans[sid]| {
        SendReasoningUpdate(sid, "summary", O.NothingToResume);
        return;
      }
      var step := sessionPlans[sid][index];
      if step.Malformed? {
        return;
      }
      SendReasoningUpdate(sid, "orchestration_resume_input",
                          "💡 User provided input mid-session for " + Show(step.agent) + ": " + Show(userInput));
      AwaitAndDelegate(sid, step.agent, Some(Show(step.action) + O.UserInputSuffixStart + Show(userInput) + ")"));
    }

    /** handleChat of an ordinary agent: ask its /chat endpoint and send the reply back. */
    method ForwardChat(sender: Option<string>, payload: Fields, o: O.Oracles)
      modifies this
      ensures View() == O.AgentChat(old(View()), id, sender, payload, o)
    {
      var sidCast := AsString(GetOrDefault(payload, "sessionId", Str(O.DefaultSession)));
      var msgCast := AsString(Get(payload, "message"));
      if sidCast.CastFails? || !msgCast.CastString? || msgCast.s == "" || o.chatReply.None? {
        return;
      }
      var parsed := o.parse(o.chatReply.value);
      if parsed.Some? && parsed.value.Obj? {
        var r1 := PutIfAbsent(parsed.value.fields, "sessionId", FromOption(CastValue(sidCast)));
        var r2 := PutIfAbsent(r1, "agentId", Str(id));
        SendToKernel(O.ChatResult(sender, Obj(r2)));
      }
    }

    method HandleChat(sender: Option<string>, payload: Value, o: O.Oracles)
      modifies this
      ensures View() == O.ChatMessage(old(View()), id, sender, payload, o)
    {
      if !payload.Obj? {
        return;
      }
      var m := payload.fields;
      var sidCast := AsString(GetOrDefault(m, "sessionId", Str(o.chatSessionId)));
      var msgCast := AsString(Get(m, "message"));
      if sidCast.CastFails? || msgCast.CastFails? {
        return;
      }
      if !O.IsOrchestrator(id) {
        ForwardChat(sender, m, o);
      } else if sidCast.CastString? {
        ChatAsOrchestrator(sidCast.s, "sessionId" in m, CastValue(msgCast), o);
      }
    }

    /** The orchestrator's chat: resume a known session or plan a new one. */
    method ChatAsOrchestrator(sid: string, named: bool, message: Option<string>, o: O.Oracles)
      modifies this
      ensures View() == O.ChatToOrchestrator(old(View()), sid, named, message, o)
    {
      if sid in sessionPlans && sid in sessionStepIndex {
        ResumePausedSession(sid, message);
      } else {
        var planSid := if named then sid else o.planSessionId;
        HandleOrchestratorChat(planSid, message, o.inventoryText, PlanFromReply(o.plannerReply, o.parse));
      }
    }

    method HandleChatResult(sender: Option<string>, payload: Value, o: O.Oracles)
      modifies this
      ensures View() == O.ChatResultMessage(old(View()), id, sender, payload, o)
    {
      if !O.IsOrchestrator(id) {
        SendToKernel(O.ChatResult(Some(O.KernelId), payload));
        return;
      }
      if !payload.Obj? {
        return;
      }
      var m := payload.fields;
      var sid := TextOrDefault(Get(m, "sessionId"), O.DefaultSession);
      var agent := if Get(m, "agentId") != Null then Some(ToText(Get(m, "agentId"))) else sender;
      ReceiveResult(sid, agent, m, o);
    }

    /** The orchestrator's side of chat_result: wake the local waiter, then reason about the result. */
    method ReceiveResult(sid: string, agent: Option<string>, m: Fields, o: O.Oracles)
      modifies this
      ensures View() == O.ResultReceived(old(View()), sid, agent, m, o)
    {
      CompleteLocalWaiter(sid, agent, m);
      var message := ExtractAgentMessage(m);
      HandleAgentResult(sid, agent, message, ReasonFromReply(o.reasonerReply, o.parse, message));
    }

    method HandleDecision(payload: Value)
      modifies this
      ensures View() == O.DecisionMessage(old(View()), payload)
    {
      if !payload.Obj? {
        return;
      }
      var m := payload.fields;
      var sid := TextOrDefault(Get(m, "sessionId"), O.DefaultSession);
      var agentCast := AsString(Get(m, "agentId"));
      var actionCast := AsString(GetOrDefault(m, "action", Str("")));
      if agentCast.CastFails? || actionCast.CastFails? {
        return;
      }
      var agent;
      if agentCast.CastNull? || Text.EqualsIgnoreCase(agentCast.s, "unknown") {
        agent := if sid in sessionPausedAgent then Some(sessionPausedAgent[sid]) else None;
      } else {
        agent := Some(agentCast.s);
      }
      HandleUserDecision(sid, agent, CastValue(actionCast), m);
    }

    /**
     * handleMessage: dispatch on the lower-cased type. The state stays valid
     * (waiters fresh and completed at most once, the state file current).
     */
    method HandleMessage(msgType: Option<string>, sender: Option<string>, payload: Value, o: O.Oracles)
      requires Valid()
      modifies this
      ensures View() == O.HandleMessage(old(View()), id, msgType, sender, payload, o)
      ensures Valid()
    {
      L.HandleMessageKeepsValid(View(), id, msgType, sender, payload, o);
      var t := if msgType.None? then "" else Text.Lower(msgType.value);
      if t == "chat" {
        HandleChat(sender, payload, o);
      } else if t == "chat_result" {
        HandleChatResult(sender, payload, o);
      } else if t == "user_decision" {
        HandleDecision(payload);
      }
    }
  }
}
