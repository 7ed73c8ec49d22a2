/**
 * The orchestrator's per-session state machine, as pure functions over the
 * state of a BedrockAgent. Each session has a plan, a step index and maybe a
 * paused-for agent; single-use waiters are keyed by session and agent.
 * Everything the agent sends (status updates, delegations, waits, forwarded
 * results, waiter registrations with the kernel) and every write of the
 * state file is appended, in order, to an outbox.
 */
module Orchestration {
  import opened Wrappers
  import Text
  import opened Json
  import opened ModelReplies

  const OrchestratorId := "orchestrator-agent"
  const DefaultSession := "default-session"
  const KernelId := "kernel"

  /** The contents of orchestrator_state.json: plans and indexes. The pause marker is not written. */
  datatype Snapshot = Snapshot(plans: map<string, Plan>, indexes: map<string, nat>)

  /** A waiter (CompletableFuture) is identified by when it was registered. */
  type WaiterId = nat

  datatype Completion = Completion(waiter: WaiterId, key: string, result: Fields)

  /** A message the agent sends to the kernel. */
  datatype Outgoing =
    | StatusUpdate(sessionId: string, phase: string, message: string)
    | Delegation(targetAgent: string, sessionId: string, message: string)
    | OrchestratorWait(sessionId: string, agentId: string, reason: string, message: string, options: seq<string>)
    | ChatResult(recipient: Option<string>, payload: Value)

  datatype Effect =
    | Emit(msg: Outgoing)
    | RegisterWaiter(sessionId: string, agentId: string)
    | Persist(snapshot: Snapshot)

  datatype OrchState = OrchState(
    plans: map<string, Plan>,
    stepIndex: map<string, nat>,
    paused: map<string, string>,
    waiters: map<string, WaiterId>,
    nextWaiter: WaiterId,
    completed: seq<Completion>,
    outbox: seq<Effect>,
    saved: Option<Snapshot>)

  /** waiterKey */
  function WaiterKey(sessionId: string, agentId: string): string {
    sessionId + "::" + agentId
  }

  /** The flat key does not keep session and agent apart when ids contain ':'. */
  lemma WaiterKeyAmbiguous()
    ensures WaiterKey("a:", "b") == WaiterKey("a", ":b")
    ensures ("a:", "b") != ("a", ":b")
  {
  }

  predicate IsOrchestrator(self: string) {
    Text.EqualsIgnoreCase(OrchestratorId, self)
  }

  /** sessionStepIndex.getOrDefault(sessionId, 0) */
  function IndexOf(s: OrchState, sid: string): nat {
    if sid in s.stepIndex then s.stepIndex[sid] else 0
  }

  /** The agent a session is paused for, if any. */
  function PausedFor(s: OrchState, sid: string): Option<string> {
    if sid in s.paused then Some(s.paused[sid]) else None
  }

  // ---------------------------------------------------------------------
  // Invariants

  /** Waiter ids are fresh, each live waiter is distinct, and none completes twice. */
  predicate WaitersWellFormed(s: OrchState) {
    (forall k :: k in s.waiters ==> s.waiters[k] < s.nextWaiter) &&
    (forall k1, k2 :: k1 in s.waiters && k2 in s.waiters && k1 != k2 ==> s.waiters[k1] != s.waiters[k2]) &&
    (forall i :: 0 <= i < |s.completed| ==> s.completed[i].waiter < s.nextWaiter) &&
    (forall i, j :: 0 <= i < j < |s.completed| ==> s.completed[i].waiter != s.completed[j].waiter) &&
    (forall i, k :: 0 <= i < |s.completed| && k in s.waiters ==> s.completed[i].waiter != s.waiters[k])
  }

  /** The state file holds the current plans and indexes (no file: nothing to hold). */
  predicate FileCurrent(s: OrchState) {
    s.saved == Some(Snapshot(s.plans, s.stepIndex)) ||
    (s.saved.None? && s.plans == map[] && s.stepIndex == map[])
  }

  predicate Valid(s: OrchState) {
    WaitersWellFormed(s) && FileCurrent(s)
  }

  /** Every session with a plan has an index and vice versa. */
  predicate Synced(s: OrchState) {
    s.plans.Keys == s.stepIndex.Keys
  }

  // ---------------------------------------------------------------------
  // Restart

  /**
   * A new BedrockAgent: loadSessionState restores plans and indexes from
   * the state file when there is one. Waiters and pause markers start empty.
   */
  function Restored(file: Option<Snapshot>): (s: OrchState)
    ensures Valid(s)
    ensures s.paused == map[] && s.waiters == map[] && s.outbox == []
    ensures file.Some? ==> s.plans == file.value.plans && s.stepIndex == file.value.indexes
    ensures file.None? ==> s.plans == map[] && s.stepIndex == map[]
  {
    match file
    case Some(snap) => OrchState(snap.plans, snap.indexes, map[], map[], 0, [], [], file)
    case None => OrchState(map[], map[], map[], map[], 0, [], [], None)
  }

  /** Writing the file and restarting gives back plans and indexes, but no pause marker. */
  lemma RestartForgetsPause(s: OrchState)
    requires s.saved.Some? && FileCurrent(s)
    ensures Restored(s.saved).plans == s.plans
    ensures Restored(s.saved).stepIndex == s.stepIndex
    ensures Restored(s.saved).paused == map[]
  {
  }

  // ---------------------------------------------------------------------
  // Building blocks, one per helper of BedrockAgent

  function Send(s: OrchState, m: Outgoing): OrchState {
    s.(outbox := s.outbox + [Emit(m)])
  }

  /** sendReasoningUpdate */
  function Status(s: OrchState, sid: string, phase: string, message: string): OrchState {
    Send(s, StatusUpdate(sid, phase, message))
  }

  /** persistSessionState */
  function Persisted(s: OrchState): OrchState {
    var snap := Snapshot(s.plans, s.stepIndex);
    s.(saved := Some(snap), outbox := s.outbox + [Persist(snap)])
  }

  /** registerLocalWaiter: a fresh waiter replaces whatever waited under the key. */
  function RegisterLocal(s: OrchState, sid: string, agent: Option<string>): OrchState {
    s.(waiters := s.waiters[WaiterKey(sid, Show(agent)) := s.nextWaiter], nextWaiter := s.nextWaiter + 1)
  }

  /** registerWaiterWithKernel: a null agent makes Map.of throw inside its catch-all. */
  function RegisterWithKernel(s: OrchState, sid: string, agent: Option<string>): OrchState {
    if agent.Some? then s.(outbox := s.outbox + [RegisterWaiter(sid, agent.value)]) else s
  }

  /** A local waiter and the kernel-side one. */
  function Await(s: OrchState, sid: string, agent: Option<string>): OrchState {
    RegisterWithKernel(RegisterLocal(s, sid, agent), sid, agent)
  }

  /** delegateToAgent: a null target or message makes Map.of throw inside its catch-all. */
  function Delegate(s: OrchState, target: Option<string>, sid: string, message: Option<string>): OrchState {
    if target.Some? && message.Some? then Send(s, Delegation(target.value, sid, message.value)) else s
  }

  /** The payload a completed local waiter receives. */
  function SafeResult(payload: Fields, agent: Option<string>, sid: string): (r: Fields)
    ensures forall k :: k in payload && payload[k] != Null ==> k in r && r[k] == payload[k]
    ensures forall k :: k in payload && k != "status" && k != "agentId" && k != "sessionId" ==> k in r && r[k] == payload[k]
    ensures r.Keys == payload.Keys + {"status", "agentId", "sessionId"}
    ensures Get(r, "status") == (if Get(payload, "status") != Null then Get(payload, "status") else Str("ok"))
    ensures Get(r, "agentId") == (if Get(payload, "agentId") != Null then Get(payload, "agentId") else FromOption(agent))
    ensures Get(r, "sessionId") == (if Get(payload, "sessionId") != Null then Get(payload, "sessionId") else Str(sid))
  {
    PutIfAbsent(PutIfAbsent(PutIfAbsent(payload, "status", Str("ok")), "agentId", FromOption(agent)),
                "sessionId", Str(sid))
  }

  /** completeLocalWaiter: remove the waiter and complete it, or do nothing. */
  function CompleteLocalWaiter(s: OrchState, sid: string, agent: Option<string>, payload: Fields): OrchState {
    var key := WaiterKey(sid, Show(agent));
    if key in s.waiters then
      s.(waiters := s.waiters - {key},
         completed := s.completed + [Completion(s.waiters[key], key, SafeResult(payload, agent, sid))])
    else s
  }

  // ---------------------------------------------------------------------
  // Handlers

  const AllDone := "✅ All delegations completed."
  const NothingToResume := "✅ No pending steps to resume."
  const UserInputSuffixStart := " (user input: "

  /** The text a ClassCastException carries into a step-failed update. */
  const ClassCastText := "class cast failed"

  /** The text of a NullPointerException thrown by ConcurrentHashMap.put. */
  const NullPointerText := "null"

  /** Whether the session has a step left at its index. */
  predicate HasPendingStep(s: OrchState, sid: string) {
    sid in s.plans && IndexOf(s, sid) < |s.plans[sid]|
  }

  function CurrentStep(s: OrchState, sid: string): Step
    requires HasPendingStep(s, sid)
  {
    s.plans[sid][IndexOf(s, sid)]
  }

  /**
   * continuePlan: with no step left, report the summary, drop the session's
   * plan and index and persist; otherwise delegate the current step. The
   * flag is false when the step is not a map of strings (the casts throw
   * before anything is sent).
   */
  function ContinuePlan(s: OrchState, sid: string): (OrchState, bool) {
    if !HasPendingStep(s, sid) then
      var s1 := Status(s, sid, "summary", AllDone);
      var s2 := s1.(plans := s1.plans - {sid}, stepIndex := s1.stepIndex - {sid});
      (Persisted(s2), true)
    else
      match CurrentStep(s, sid)
      case Malformed => (s, false)
      case Step(agent, action) =>
        var s1 := Status(s, sid, "delegation", "Delegating to " + Show(agent) + " → " + Show(action));
        (Delegate(Await(s1, sid, agent), agent, sid, action), true)
  }

  /** How a plan appears in the "Generated plan" update. */
  function PlanText(plan: Plan): string {
    "[" + StepsText(plan) + "]"
  }

  function StepsText(plan: Plan): string {
    if plan == [] then ""
    else
      var first :=
        match plan[0]
        case Step(agent, action) => "{agent=" + Show(agent) + ", action=" + Show(action) + "}"
        case Malformed => "{...}";
      if |plan| == 1 then first else first + ", " + StepsText(plan[1..])
  }

  /**
   * handleOrchestratorChat: nothing for an empty message; otherwise report,
   * store the plan at index 0, persist, and continue.
   */
  function OrchestratorChat(s: OrchState, sid: string, message: Option<string>,
                            inventoryText: string, plan: Plan): OrchState
  {
    if message.None? || message.value == "" then s
    else
      var s1 := Status(s, sid, "thinking", "<thinking>Planning how to achieve: " + message.value + "</thinking>");
      var s2 := Status(s1, sid, "planner", "Discovered agent tools: " + inventoryText);
      var s3 := Status(s2, sid, "planner", "Generated plan: " + PlanText(plan));
      var s4 := s3.(plans := s3.plans[sid := plan], stepIndex := s3.stepIndex[sid := 0]);
      ContinuePlan(Persisted(s4), sid).0
  }

  /**
   * handleAgentResult: pause (once per agent) on a needs-input or failure
   * verdict; otherwise clear the pause, advance the index by one, persist
   * and continue.
   */
  function AgentResult(s: OrchState, sid: string, agent: Option<string>, message: string, v: Verdict): OrchState {
    if v.needsUserInput || v.toolFailed then
      if PausedFor(s, sid).None? || PausedFor(s, sid) != agent then
        if agent.None? then
          Status(s, sid, "orchestration_step_failed", "❌ null failed: " + NullPointerText)
        else
          var s1 := s.(paused := s.paused[sid := agent.value]);
          var s2 := Status(s1, sid, "orchestration_pause", "⏸ " + v.reason + " for " + agent.value);
          Send(s2, OrchestratorWait(sid, agent.value, v.reason, message, DecisionOptions))
      else
        Status(s, sid, "orchestration_pause_update", "🔁 Updated reasoning for " + agent.value + ": " + v.reason)
    else
      StepSucceeded(s, sid, agent)
  }

  /** A successful step: clear the pause, advance the index, persist, continue. */
  function StepSucceeded(s: OrchState, sid: string, agent: Option<string>): OrchState {
    var continued := ContinuePlan(StepAdvanced(s, sid, agent), sid);
    if continued.1 then continued.0
    else Status(continued.0, sid, "orchestration_step_failed", "❌ " + Show(agent) + " failed: " + ClassCastText)
  }

  /** The state a successful step leaves before the plan continues: unpaused, advanced, persisted. */
  function StepAdvanced(s: OrchState, sid: string, agent: Option<string>): OrchState {
    var s1 := Status(s, sid, "orchestration_step_complete", "✅ " + Show(agent) + " completed successfully.");
    Persisted(s1.(paused := s1.paused - {sid}, stepIndex := s1.stepIndex[sid := IndexOf(s1, sid) + 1]))
  }

  /** handleUserDecision */
  function UserDecision(s: OrchState, sid: string, agent: Option<string>, action: Option<string>,
                        decision: Fields): OrchState
  {
    var choice := AsString(GetOrDefault(decision, "choice", Str("skip")));
    if !choice.CastString? then s
    else if Text.Lower(choice.s) == "abort" then
      Status(s, sid, "orchestration_abort", "🛑 User aborted orchestration")
    else if Text.Lower(choice.s) == "retry" then
      RetryDecision(s, sid, agent, action)
    else if Text.Lower(choice.s) == "provide_input" then
      var inputCast := AsString(GetOrDefault(decision, "input", Str("")));
      if inputCast.CastFails? then s
      else ProvideInputDecision(s, sid, agent, action, Show(CastValue(inputCast)))
    else
      SkipDecision(s, sid, agent)
  }

  /** retry: clear the pause and re-delegate the same action to the same agent. */
  function RetryDecision(s: OrchState, sid: string, agent: Option<string>, action: Option<string>): OrchState {
    var s1 := Status(s, sid, "orchestration_retry", "🔁 Retrying " + Show(agent));
    var s2 := s1.(paused := s1.paused - {sid});
    Delegate(Await(s2, sid, agent), agent, sid, action)
  }

  /** provide_input: as retry, with the user's input appended to the action. */
  function ProvideInputDecision(s: OrchState, sid: string, agent: Option<string>, action: Option<string>,
                                input: string): OrchState
  {
    var s1 := Status(s, sid, "orchestration_resume_input",
                     "💡 Received user input for " + Show(agent) + ": " + input);
    var s2 := s1.(paused := s1.paused - {sid});
    Delegate(Await(s2, sid, agent), agent, sid, Some(Show(action) + UserInputSuffixStart + input + ")"))
  }

  /** Any other choice: move past the step, persist, and continue the plan. */
  function SkipDecision(s: OrchState, sid: string, agent: Option<string>): OrchState {
    ContinuePlan(SkipMarked(s, sid, agent), sid).0
  }

  /** Report the skip, move past the step and persist. */
  function SkipMarked(s: OrchState, sid: string, agent: Option<string>): OrchState {
    var s1 := Status(s, sid, "orchestration_skip", "⏭ Skipping " + Show(agent));
    Persisted(s1.(stepIndex := s1.stepIndex[sid := IndexOf(s1, sid) + 1]))
  }

  /** resumePausedSession: re-delegate the current step with the user's text appended. */
  function ResumePausedSession(s: OrchState, sid: string, userInput: Option<string>): OrchState {
    if !HasPendingStep(s, sid) then Status(s, sid, "summary", NothingToResume)
    else
      match CurrentStep(s, sid)
      case Malformed => s
      case Step(agent, action) =>
        var s1 := Status(s, sid, "orchestration_resume_input",
                         "💡 User provided input mid-session for " + Show(agent) + ": " + Show(userInput));
        Delegate(Await(s1, sid, agent), agent, sid,
                 Some(Show(action) + UserInputSuffixStart + Show(userInput) + ")"))
  }

  // ---------------------------------------------------------------------
  // Message dispatch

  /** What the outside world contributes to handling one message. */
  datatype Oracles = Oracles(
    chatSessionId: string,          // UUID drawn in handleMessage's chat branch
    planSessionId: string,          // UUID drawn in handleOrchestratorChat
    inventoryText: string,          // the discovered agent -> tools map, as printed
    plannerReply: Option<string>,   // planner reply body; None when the call throws
    reasonerReply: Option<string>,  // reasoner reply body; None when the call throws
    chatReply: Option<string>,      // an agent's /chat reply body; None when the call throws
    parse: string -> Option<Value>) // Jackson readValue; None when it throws

  /** handleChat (not the orchestrator): forward to the agent's /chat and return its reply. */
  function AgentChat(s: OrchState, self: string, sender: Option<string>, payload: Fields, o: Oracles): (r: OrchState)
    ensures r.(outbox := s.outbox) == s && s.outbox <= r.outbox
  {
    var sidCast := AsString(GetOrDefault(payload, "sessionId", Str(DefaultSession)));
    var msgCast := AsString(Get(payload, "message"));
    if sidCast.CastFails? || !msgCast.CastString? || msgCast.s == "" || o.chatReply.None? then s
    else match o.parse(o.chatReply.value)
      case Some(Obj(reply)) =>
        var r1 := PutIfAbsent(reply, "sessionId", FromOption(CastValue(sidCast)));
        var r2 := PutIfAbsent(r1, "agentId", Str(self));
        Send(s, ChatResult(sender, Obj(r2)))
      case _ => s
  }

  /** The `chat` case of handleMessage. */
  function ChatMessage(s: OrchState, self: string, sender: Option<string>, payload: Value, o: Oracles): OrchState {
    match payload
    case Obj(m) =>
      var sidCast := AsString(GetOrDefault(m, "sessionId", Str(o.chatSessionId)));
      var msgCast := AsString(Get(m, "message"));
      if sidCast.CastFails? || msgCast.CastFails? then s
      else if !IsOrchestrator(self) then AgentChat(s, self, sender, m, o)
      else if sidCast.CastNull? then s
      else ChatToOrchestrator(s, sidCast.s, "sessionId" in m, CastValue(msgCast), o)
    case _ => s
  }

  /**
   * A chat the orchestrator takes: a session with a plan and an index is
   * resumed; otherwise a new plan is made, under the given session id or,
   * when the payload named none, under a fresh one.
   */
  function ChatToOrchestrator(s: OrchState, sid: string, named: bool, message: Option<string>, o: Oracles): OrchState {
    if sid in s.plans && sid in s.stepIndex then ResumePausedSession(s, sid, message)
    else
      OrchestratorChat(s, if named then sid else o.planSessionId, message, o.inventoryText,
                       PlanFromReply(o.plannerReply, o.parse))
  }

  /** The `chat_result` case of handleMessage. */
  function ChatResultMessage(s: OrchState, self: string, sender: Option<string>, payload: Value, o: Oracles): OrchState {
    if !IsOrchestrator(self) then Send(s, ChatResult(Some(KernelId), payload))
    else match payload
      case Obj(m) =>
        var sid := TextOrDefault(Get(m, "sessionId"), DefaultSession);
        var agent := if Get(m, "agentId") != Null then Some(ToText(Get(m, "agentId"))) else sender;
        ResultReceived(s, sid, agent, m, o)
      case _ => s
  }

  /** A result the orchestrator takes: complete the local waiter, then reason about the reply. */
  function ResultReceived(s: OrchState, sid: string, agent: Option<string>, m: Fields, o: Oracles): OrchState {
    var message := ExtractAgentMessage(m);
    AgentResult(CompleteLocalWaiter(s, sid, agent, m), sid, agent, message,
                ReasonFromReply(o.reasonerReply, o.parse, message))
  }

  /** The `user_decision` case of handleMessage. */
  function DecisionMessage(s: OrchState, payload: Value): OrchState {
    match payload
    case Obj(m) =>
      var sid := TextOrDefault(Get(m, "sessionId"), DefaultSession);
      var agentCast := AsString(Get(m, "agentId"));
      var actionCast := AsString(GetOrDefault(m, "action", Str("")));
      if agentCast.CastFails? || actionCast.CastFails? then s
      else
        var agent :=
          if agentCast.CastNull? || Text.EqualsIgnoreCase(agentCast.s, "unknown") then PausedFor(s, sid)
          else Some(agentCast.s);
        UserDecision(s, sid, agent, CastValue(actionCast), m)
    case _ => s
  }

  /** handleMessage: dispatch on the lower-cased type; every exception is swallowed. */
  function HandleMessage(s: OrchState, self: string, msgType: Option<string>, sender: Option<string>,
                         payload: Value, o: Oracles): OrchState
  {
    var t := if msgType.None? then "" else Text.Lower(msgType.value);
    if t == "chat" then ChatMessage(s, self, sender, payload, o)
    else if t == "chat_result" then ChatResultMessage(s, self, sender, payload, o)
    else if t == "user_decision" then DecisionMessage(s, payload)
    else s
  }
}
