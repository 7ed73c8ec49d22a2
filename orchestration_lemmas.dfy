/**
 * What the orchestrator's handlers promise: plans are stored and persisted
 * before the first delegation, continuePlan delegates exactly the current
 * step or finishes, results advance or pause, user decisions act as named,
 * waiters complete at most once, and the handlers keep the state valid.
 */
module OrchestrationLemmas {
  import opened Wrappers
  import Text
  import opened Json
  import opened ModelReplies
  import opened Orchestration

  // ---------------------------------------------------------------------
  // continuePlan

  /** No step left: summary, the session's plan and index dropped, persisted; nothing delegated. */
  lemma ContinuePlanFinishes(s: OrchState, sid: string)
    requires !HasPendingStep(s, sid)
    ensures var (r, ok) := ContinuePlan(s, sid);
            ok &&
            r.plans == s.plans - {sid} && r.stepIndex == s.stepIndex - {sid} &&
            r.waiters == s.waiters && r.paused == s.paused &&
            r.outbox == s.outbox + [Emit(StatusUpdate(sid, "summary", AllDone)),
                                    Persist(Snapshot(s.plans - {sid}, s.stepIndex - {sid}))]
  {
  }

  /**
   * A pending step (agent a, action x): a waiter is registered under
   * waiterKey(sid, a) and exactly that step is delegated; plan and index
   * stay as they are.
   */
  lemma ContinuePlanDelegatesStep(s: OrchState, sid: string, a: string, x: string)
    requires HasPendingStep(s, sid) && CurrentStep(s, sid) == Step(Some(a), Some(x))
    ensures var (r, ok) := ContinuePlan(s, sid);
            ok &&
            r.plans == s.plans && r.stepIndex == s.stepIndex && r.paused == s.paused &&
            r.waiters == s.waiters[WaiterKey(sid, a) := s.nextWaiter] &&
            r.outbox == s.outbox + [Emit(StatusUpdate(sid, "delegation", "Delegating to " + a + " → " + x)),
                                    RegisterWaiter(sid, a),
                                    Emit(Delegation(a, sid, x))]
  {
  }

  /** continuePlan never moves an index and never touches a pause marker. */
  lemma ContinuePlanKeepsIndexes(s: OrchState, sid: string)
    ensures var r := ContinuePlan(s, sid).0;
            r.paused == s.paused &&
            (forall k :: k in r.stepIndex ==> k in s.stepIndex && r.stepIndex[k] == s.stepIndex[k]) &&
            (forall k :: k in r.plans ==> k in s.plans && r.plans[k] == s.plans[k])
  {
  }

  // ---------------------------------------------------------------------
  // A fresh orchestrator chat

  /** An empty or null message changes nothing at all. */
  lemma EmptyChatIgnored(s: OrchState, sid: string, message: Option<string>, inventory: string, plan: Plan)
    requires message.None? || message.value == ""
    ensures OrchestratorChat(s, sid, message, inventory, plan) == s
  {
  }

  function DelegationCount(effects: seq<Effect>): nat {
    if effects == [] then 0
    else (if effects[0].Emit? && effects[0].msg.Delegation? then 1 else 0) + DelegationCount(effects[1..])
  }

  lemma {:induction false} DelegationCountAppend(a: seq<Effect>, b: seq<Effect>)
    ensures DelegationCount(a + b) == DelegationCount(a) + DelegationCount(b)
    decreases |a|
  {
    if a != [] {
      assert (a + b)[1..] == a[1..] + b;
      DelegationCountAppend(a[1..], b);
    } else {
      assert a + b == b;
    }
  }

  lemma {:induction false} NoDelegation(effects: seq<Effect>)
    requires forall i :: 0 <= i < |effects| ==> !(effects[i].Emit? && effects[i].msg.Delegation?)
    ensures DelegationCount(effects) == 0
    decreases |effects|
  {
    if effects != [] {
      NoDelegation(effects[1..]);
    }
  }

  function DelegationFlag(e: Effect): nat {
    if e.Emit? && e.msg.Delegation? then 1 else 0
  }

  lemma DelegationCountThree(e1: Effect, e2: Effect, e3: Effect)
    ensures DelegationCount([e1, e2, e3]) == DelegationFlag(e1) + DelegationFlag(e2) + DelegationFlag(e3)
  {
    assert [e3][1..] == [];
    assert DelegationCount([e3]) == DelegationFlag(e3);
    assert [e2, e3][1..] == [e3];
    assert DelegationCount([e2, e3]) == DelegationFlag(e2) + DelegationFlag(e3);
    assert [e1, e2, e3][1..] == [e2, e3];
  }

  /**
   * continuePlan only appends to the outbox: one delegation when the current
   * step names an agent and an action, none otherwise.
   */
  lemma ContinuePlanDelegations(s: OrchState, sid: string)
    ensures var r := ContinuePlan(s, sid).0;
            |r.outbox| >= |s.outbox| && r.outbox[..|s.outbox|] == s.outbox &&
            DelegationCount(r.outbox) == DelegationCount(s.outbox) +
              (if HasPendingStep(s, sid) && CurrentStep(s, sid).Step? &&
                  CurrentStep(s, sid).agent.Some? && CurrentStep(s, sid).action.Some? then 1 else 0)
  {
    var r := ContinuePlan(s, sid).0;
    if !HasPendingStep(s, sid) {
      ContinuePlanFinishes(s, sid);
      var tail := [Emit(StatusUpdate(sid, "summary", AllDone)), Persist(Snapshot(s.plans - {sid}, s.stepIndex - {sid}))];
      assert (s.outbox + tail)[..|s.outbox|] == s.outbox;
      DelegationCountAppend(s.outbox, tail);
      NoDelegation(tail);
    } else {
      match CurrentStep(s, sid)
      case Malformed =>
        assert r == s;
      case Step(agent, action) =>
        if agent.Some? && action.Some? {
          ContinuePlanDelegatesStep(s, sid, agent.value, action.value);
          var e1 := Emit(StatusUpdate(sid, "delegation", "Delegating to " + agent.value + " → " + action.value));
          var e2 := RegisterWaiter(sid, agent.value);
          var e3 := Emit(Delegation(agent.value, sid, action.value));
          assert (s.outbox + [e1, e2, e3])[..|s.outbox|] == s.outbox;
          DelegationCountAppend(s.outbox, [e1, e2, e3]);
          DelegationCountThree(e1, e2, e3);
        } else {
          var s1 := Status(s, sid, "delegation", "Delegating to " + Show(agent) + " → " + Show(action));
          var tail := [Emit(StatusUpdate(sid, "delegation", "Delegating to " + Show(agent) + " → " + Show(action)))] +
                      (if agent.Some? then [RegisterWaiter(sid, agent.value)] else []);
          assert r == Await(s1, sid, agent);
          assert r.outbox == s.outbox + tail;
          assert (s.outbox + tail)[..|s.outbox|] == s.outbox;
          DelegationCountAppend(s.outbox, tail);
          NoDelegation(tail);
        }
    }
  }

  /**
   * A fresh chat stores the plan at index 0 and writes it to the state file
   * before anything is delegated; then it delegates the first step (if it
   * names an agent and an action) and nothing else.
   */
  lemma FreshChatPersistsBeforeDelegating(s: OrchState, sid: string, m: string, inventory: string, plan: Plan)
    requires m != ""
    ensures var r := OrchestratorChat(s, sid, Some(m), inventory, plan);
            var n := |s.outbox|;
            |r.outbox| > n + 3 &&
            r.outbox[n + 3] == Persist(Snapshot(s.plans[sid := plan], s.stepIndex[sid := 0])) &&
            DelegationCount(r.outbox[..n + 4]) == DelegationCount(s.outbox) &&
            (plan == [] ==> sid !in r.plans && sid !in r.stepIndex && DelegationCount(r.outbox) == DelegationCount(s.outbox)) &&
            (forall a, x :: |plan| > 0 && plan[0] == Step(Some(a), Some(x)) ==>
               r.plans[sid] == plan && r.stepIndex[sid] == 0 &&
               r.outbox[|r.outbox| - 1] == Emit(Delegation(a, sid, x)) &&
               DelegationCount(r.outbox) == DelegationCount(s.outbox) + 1)
  {
    var s1 := Status(s, sid, "thinking", "<thinking>Planning how to achieve: " + m + "</thinking>");
    var s2 := Status(s1, sid, "planner", "Discovered agent tools: " + inventory);
    var s3 := Status(s2, sid, "planner", "Generated plan: " + PlanText(plan));
    var s4 := s3.(plans := s3.plans[sid := plan], stepIndex := s3.stepIndex[sid := 0]);
    var p := Persisted(s4);
    var head := p.outbox[|s.outbox|..];
    assert p.outbox == s.outbox + head;
    DelegationCountAppend(s.outbox, head);
    NoDelegation(head);
    var r := ContinuePlan(p, sid).0;
    assert r == OrchestratorChat(s, sid, Some(m), inventory, plan);
    ContinuePlanDelegations(p, sid);
    if plan == [] {
      ContinuePlanFinishes(p, sid);
    }
    forall a, x | |plan| > 0 && plan[0] == Step(Some(a), Some(x))
      ensures r.plans[sid] == plan && r.stepIndex[sid] == 0 && r.outbox[|r.outbox| - 1] == Emit(Delegation(a, sid, x))
    {
      ContinuePlanDelegatesStep(p, sid, a, x);
    }
  }

  // ---------------------------------------------------------------------
  // Agent results

  /**
   * A result that is neither "needs input" nor "tool failed" clears the
   * pause marker and persists the index raised by exactly one before
   * continuing; the index afterwards is that, or gone when the plan is done.
   */
  lemma SuccessAdvancesByOne(s: OrchState, sid: string, agent: Option<string>, message: string, v: Verdict)
    requires !v.needsUserInput && !v.toolFailed
    ensures var r := AgentResult(s, sid, agent, message, v);
            var n := |s.outbox|;
            sid !in r.paused &&
            |r.outbox| > n + 1 &&
            r.outbox[n + 1] == Persist(Snapshot(s.plans, s.stepIndex[sid := IndexOf(s, sid) + 1])) &&
            (sid in r.stepIndex ==> r.stepIndex[sid] == IndexOf(s, sid) + 1)
  {
    assert AgentResult(s, sid, agent, message, v) == StepSucceeded(s, sid, agent);
    StepSucceededAdvances(s, sid, agent);
  }

  lemma StepSucceededAdvances(s: OrchState, sid: string, agent: Option<string>)
    ensures var r := StepSucceeded(s, sid, agent);
            var n := |s.outbox|;
            sid !in r.paused &&
            |r.outbox| > n + 1 &&
            r.outbox[n + 1] == Persist(Snapshot(s.plans, s.stepIndex[sid := IndexOf(s, sid) + 1])) &&
            (sid in r.stepIndex ==> r.stepIndex[sid] == IndexOf(s, sid) + 1)
  {
    var p := StepAdvanced(s, sid, agent);
    ContinuePlanKeepsIndexes(p, sid);
    ContinuePlanDelegations(p, sid);
    assert p.outbox[|s.outbox| + 1] == Persist(Snapshot(s.plans, s.stepIndex[sid := IndexOf(s, sid) + 1]));
  }

  /**
   * A needs-input or failure verdict for an agent the session is not paused
   * for: pause for it and emit exactly one wait offering the four choices.
   * Plans and indexes do not move.
   */
  lemma PauseEmitsOneWait(s: OrchState, sid: string, a: string, message: string, v: Verdict)
    requires v.needsUserInput || v.toolFailed
    requires PausedFor(s, sid) != Some(a)
    ensures var r := AgentResult(s, sid, Some(a), message, v);
            r.paused == s.paused[sid := a] &&
            r.plans == s.plans && r.stepIndex == s.stepIndex && r.waiters == s.waiters &&
            r.outbox == s.outbox + [Emit(StatusUpdate(sid, "orchestration_pause", "⏸ " + v.reason + " for " + a)),
                                    Emit(OrchestratorWait(sid, a, v.reason, message,
                                                          ["provide_input", "skip", "abort", "retry"]))]
  {
  }

  /** Already paused for the same agent: only a refreshed-reasoning update, no second wait. */
  lemma AlreadyPausedNoWait(s: OrchState, sid: string, a: string, message: string, v: Verdict)
    requires v.needsUserInput || v.toolFailed
    requires PausedFor(s, sid) == Some(a)
    ensures var r := AgentResult(s, sid, Some(a), message, v);
            r == Status(s, sid, "orchestration_pause_update", "🔁 Updated reasoning for " + a + ": " + v.reason)
  {
  }

  // ---------------------------------------------------------------------
  // User decisions

  predicate ChoiceIs(decision: Fields, c: string) {
    var cast := AsString(GetOrDefault(decision, "choice", Str("skip")));
    cast.CastString? && Text.Lower(cast.s) == c
  }

  /** abort: only the abort update; plan, index, pause and waiters stay. */
  lemma AbortKeepsState(s: OrchState, sid: string, agent: Option<string>, action: Option<string>, d: Fields)
    requires ChoiceIs(d, "abort")
    ensures var r := UserDecision(s, sid, agent, action, d);
            r.plans == s.plans && r.stepIndex == s.stepIndex && r.paused == s.paused &&
            r.waiters == s.waiters && r.saved == s.saved &&
            r.outbox == s.outbox + [Emit(StatusUpdate(sid, "orchestration_abort", "🛑 User aborted orchestration"))]
  {
  }

  /** retry: clear the pause, re-delegate the decision's action to the same agent; the index stays. */
  lemma RetryRedelegates(s: OrchState, sid: string, a: string, x: string, d: Fields)
    requires ChoiceIs(d, "retry")
    ensures var r := UserDecision(s, sid, Some(a), Some(x), d);
            r.plans == s.plans && r.stepIndex == s.stepIndex && r.paused == s.paused - {sid} &&
            WaiterKey(sid, a) in r.waiters &&
            r.outbox[|r.outbox| - 1] == Emit(Delegation(a, sid, x))
  {
  }

  /** provide_input: as retry, with " (user input: <input>)" appended to the decision's action. */
  lemma ProvideInputRedelegates(s: OrchState, sid: string, a: string, x: string, input: string, d: Fields)
    requires ChoiceIs(d, "provide_input")
    requires GetOrDefault(d, "input", Str("")) == Str(input)
    ensures var r := UserDecision(s, sid, Some(a), Some(x), d);
            r.plans == s.plans && r.stepIndex == s.stepIndex && r.paused == s.paused - {sid} &&
            WaiterKey(sid, a) in r.waiters &&
            r.outbox[|r.outbox| - 1] == Emit(Delegation(a, sid, x + " (user input: " + input + ")"))
  {
  }

  /** Any other choice, "skip" by default: the index is raised by one and persisted. */
  lemma OtherChoiceSkips(s: OrchState, sid: string, agent: Option<string>, action: Option<string>, d: Fields)
    requires AsString(GetOrDefault(d, "choice", Str("skip"))).CastString?
    requires !ChoiceIs(d, "abort") && !ChoiceIs(d, "retry") && !ChoiceIs(d, "provide_input")
    ensures var r := UserDecision(s, sid, agent, action, d);
            var n := |s.outbox|;
            |r.outbox| > n + 1 &&
            r.outbox[n + 1] == Persist(Snapshot(s.plans, s.stepIndex[sid := IndexOf(s, sid) + 1])) &&
            r.paused == s.paused &&
            (sid in r.stepIndex ==> r.stepIndex[sid] == IndexOf(s, sid) + 1)
  {
    assert UserDecision(s, sid, agent, action, d) == SkipDecision(s, sid, agent);
    SkipAdvancesIndex(s, sid, agent);
  }

  lemma SkipAdvancesIndex(s: OrchState, sid: string, agent: Option<string>)
    ensures var r := SkipDecision(s, sid, agent);
            var n := |s.outbox|;
            |r.outbox| > n + 1 &&
            r.outbox[n + 1] == Persist(Snapshot(s.plans, s.stepIndex[sid := IndexOf(s, sid) + 1])) &&
            r.paused == s.paused &&
            (sid in r.stepIndex ==> r.stepIndex[sid] == IndexOf(s, sid) + 1)
  {
    var p := SkipMarked(s, sid, agent);
    ContinuePlanKeepsIndexes(p, sid);
    ContinuePlanDelegations(p, sid);
    assert p.outbox[|s.outbox| + 1] == Persist(Snapshot(s.plans, s.stepIndex[sid := IndexOf(s, sid) + 1]));
  }

  /** A decision with no "choice" skips. */
  lemma MissingChoiceSkips(d: Fields)
    requires "choice" !in d
    ensures !ChoiceIs(d, "abort") && !ChoiceIs(d, "retry") && !ChoiceIs(d, "provide_input")
    ensures AsString(GetOrDefault(d, "choice", Str("skip"))).CastString?
  {
  }

  // ---------------------------------------------------------------------
  // Local waiters

  /**
   * completeLocalWaiter completes the registered waiter once, with the
   * payload plus status, agentId and sessionId where absent; a second call
   * for the same key changes nothing.
   */
  lemma CompleteLocalWaiterOnce(s: OrchState, sid: string, agent: Option<string>, payload: Fields)
    requires WaiterKey(sid, Show(agent)) in s.waiters
    ensures var key := WaiterKey(sid, Show(agent));
            var r := CompleteLocalWaiter(s, sid, agent, payload);
            r.waiters == s.waiters - {key} &&
            r.completed == s.completed + [Completion(s.waiters[key], key, SafeResult(payload, agent, sid))] &&
            CompleteLocalWaiter(r, sid, agent, payload) == r
  {
  }

  lemma CompleteWithoutWaiterIsNoOp(s: OrchState, sid: string, agent: Option<string>, payload: Fields)
    requires WaiterKey(sid, Show(agent)) !in s.waiters
    ensures CompleteLocalWaiter(s, sid, agent, payload) == s
  {
  }

  // ---------------------------------------------------------------------
  // Invariants kept by every handler

  lemma RegisterLocalKeepsWaiters(s: OrchState, sid: string, agent: Option<string>)
    requires WaitersWellFormed(s)
    ensures WaitersWellFormed(RegisterLocal(s, sid, agent))
  {
    var r := RegisterLocal(s, sid, agent);
    var key := WaiterKey(sid, Show(agent));
    forall k1, k2 | k1 in r.waiters && k2 in r.waiters && k1 != k2
      ensures r.waiters[k1] != r.waiters[k2]
    {
      if k1 != key && k2 != key {
        assert r.waiters[k1] == s.waiters[k1] && r.waiters[k2] == s.waiters[k2];
      }
    }
  }

  lemma CompleteKeepsWaiters(s: OrchState, sid: string, agent: Option<string>, payload: Fields)
    requires WaitersWellFormed(s)
    ensures WaitersWellFormed(CompleteLocalWaiter(s, sid, agent, payload))
  {
    var key := WaiterKey(sid, Show(agent));
    if key in s.waiters {
      var r := CompleteLocalWaiter(s, sid, agent, payload);
      var w := s.waiters[key];
      forall i, k | 0 <= i < |r.completed| && k in r.waiters
        ensures r.completed[i].waiter != r.waiters[k]
      {
        if i == |s.completed| {
          assert k != key && r.waiters[k] == s.waiters[k];
        }
      }
      forall i, j | 0 <= i < j < |r.completed|
        ensures r.completed[i].waiter != r.completed[j].waiter
      {
        if j == |s.completed| {
          assert r.completed[i] == s.completed[i];
        }
      }
    }
  }

  /** Valid reads only waiters, completions, plans, indexes and the file; messages leave it alone. */
  lemma OutboxOnlyKeepsValid(s: OrchState, r: OrchState)
    requires Valid(s)
    requires r.waiters == s.waiters && r.nextWaiter == s.nextWaiter && r.completed == s.completed
    requires r.plans == s.plans && r.stepIndex == s.stepIndex && r.saved == s.saved
    ensures Valid(r)
  {
  }

  lemma AwaitKeepsValid(s: OrchState, sid: string, agent: Option<string>)
    requires Valid(s)
    ensures Valid(Await(s, sid, agent))
  {
    RegisterLocalKeepsWaiters(s, sid, agent);
  }

  /** Registering a waiter, then delegating, keeps the state valid. */
  lemma AwaitDelegateKeepsValid(s: OrchState, sid: string, agent: Option<string>, target: Option<string>,
                                message: Option<string>)
    requires Valid(s)
    ensures Valid(Delegate(Await(s, sid, agent), target, sid, message))
  {
    AwaitKeepsValid(s, sid, agent);
    var a := Await(s, sid, agent);
    OutboxOnlyKeepsValid(a, Delegate(a, target, sid, message));
  }

  lemma ContinuePlanKeepsValid(s: OrchState, sid: string)
    requires Valid(s)
    ensures Valid(ContinuePlan(s, sid).0)
  {
    if HasPendingStep(s, sid) && CurrentStep(s, sid).Step? {
      var step := CurrentStep(s, sid);
      var s1 := Status(s, sid, "delegation", "Delegating to " + Show(step.agent) + " → " + Show(step.action));
      OutboxOnlyKeepsValid(s, s1);
      AwaitDelegateKeepsValid(s1, sid, step.agent, step.agent, step.action);
    }
  }

  /** Changing plans or indexes and then persisting keeps the state valid. */
  lemma PersistedContinueKeepsValid(s: OrchState, sid: string)
    requires WaitersWellFormed(s)
    ensures Valid(ContinuePlan(Persisted(s), sid).0)
  {
    ContinuePlanKeepsValid(Persisted(s), sid);
  }

  lemma OrchestratorChatKeepsValid(s: OrchState, sid: string, message: Option<string>, inventory: string, plan: Plan)
    requires Valid(s)
    ensures Valid(OrchestratorChat(s, sid, message, inventory, plan))
  {
    if message.Some? && message.value != "" {
      var s1 := Status(s, sid, "thinking", "<thinking>Planning how to achieve: " + message.value + "</thinking>");
      var s2 := Status(s1, sid, "planner", "Discovered agent tools: " + inventory);
      var s3 := Status(s2, sid, "planner", "Generated plan: " + PlanText(plan));
      var s4 := s3.(plans := s3.plans[sid := plan], stepIndex := s3.stepIndex[sid := 0]);
      PersistedContinueKeepsValid(s4, sid);
    }
  }

  lemma AgentResultKeepsValid(s: OrchState, sid: string, agent: Option<string>, message: string, v: Verdict)
    requires Valid(s)
    ensures Valid(AgentResult(s, sid, agent, message, v))
  {
    if !v.needsUserInput && !v.toolFailed {
      StepSucceededKeepsValid(s, sid, agent);
    }
  }

  lemma StepSucceededKeepsValid(s: OrchState, sid: string, agent: Option<string>)
    requires Valid(s)
    ensures Valid(StepSucceeded(s, sid, agent))
  {
    var s1 := Status(s, sid, "orchestration_step_complete", "✅ " + Show(agent) + " completed successfully.");
    var s2 := s1.(paused := s1.paused - {sid}, stepIndex := s1.stepIndex[sid := IndexOf(s1, sid) + 1]);
    assert StepAdvanced(s, sid, agent) == Persisted(s2);
    PersistedContinueKeepsValid(s2, sid);
  }

  lemma RetryKeepsValid(s: OrchState, sid: string, agent: Option<string>, action: Option<string>)
    requires Valid(s)
    ensures Valid(RetryDecision(s, sid, agent, action))
  {
    var s1 := Status(s, sid, "orchestration_retry", "🔁 Retrying " + Show(agent));
    OutboxOnlyKeepsValid(s, s1.(paused := s1.paused - {sid}));
    AwaitDelegateKeepsValid(s1.(paused := s1.paused - {sid}), sid, agent, agent, action);
  }

  lemma ProvideInputKeepsValid(s: OrchState, sid: string, agent: Option<string>, action: Option<string>, input: string)
    requires Valid(s)
    ensures Valid(ProvideInputDecision(s, sid, agent, action, input))
  {
    var s1 := Status(s, sid, "orchestration_resume_input", "💡 Received user input for " + Show(agent) + ": " + input);
    OutboxOnlyKeepsValid(s, s1.(paused := s1.paused - {sid}));
    AwaitDelegateKeepsValid(s1.(paused := s1.paused - {sid}), sid, agent, agent,
                            Some(Show(action) + UserInputSuffixStart + input + ")"));
  }

  lemma SkipKeepsValid(s: OrchState, sid: string, agent: Option<string>)
    requires Valid(s)
    ensures Valid(SkipDecision(s, sid, agent))
  {
    var s1 := Status(s, sid, "orchestration_skip", "⏭ Skipping " + Show(agent));
    var s2 := s1.(stepIndex := s1.stepIndex[sid := IndexOf(s1, sid) + 1]);
    assert SkipMarked(s, sid, agent) == Persisted(s2);
    PersistedContinueKeepsValid(s2, sid);
  }

  lemma UserDecisionKeepsValid(s: OrchState, sid: string, agent: Option<string>, action: Option<string>, d: Fields)
    requires Valid(s)
    ensures Valid(UserDecision(s, sid, agent, action, d))
  {
    var choice := AsString(GetOrDefault(d, "choice", Str("skip")));
    if choice.CastString? {
      var c := Text.Lower(choice.s);
      if c == "abort" {
        OutboxOnlyKeepsValid(s, Status(s, sid, "orchestration_abort", "🛑 User aborted orchestration"));
      } else if c == "retry" {
        RetryKeepsValid(s, sid, agent, action);
      } else if c == "provide_input" {
        var inputCast := AsString(GetOrDefault(d, "input", Str("")));
        if !inputCast.CastFails? {
          ProvideInputKeepsValid(s, sid, agent, action, Show(CastValue(inputCast)));
        }
      } else {
        SkipKeepsValid(s, sid, agent);
      }
    }
  }

  lemma ResumeKeepsValid(s: OrchState, sid: string, userInput: Option<string>)
    requires Valid(s)
    ensures Valid(ResumePausedSession(s, sid, userInput))
  {
    if !HasPendingStep(s, sid) {
      OutboxOnlyKeepsValid(s, Status(s, sid, "summary", NothingToResume));
    } else if CurrentStep(s, sid).Step? {
      var step := CurrentStep(s, sid);
      var s1 := Status(s, sid, "orchestration_resume_input",
                       "💡 User provided input mid-session for " + Show(step.agent) + ": " + Show(userInput));
      OutboxOnlyKeepsValid(s, s1);
      AwaitDelegateKeepsValid(s1, sid, step.agent, step.agent,
                              Some(Show(step.action) + UserInputSuffixStart + Show(userInput) + ")"));
    }
  }

  lemma ChatMessageKeepsValid(s: OrchState, self: string, sender: Option<string>, payload: Value, o: Oracles)
    requires Valid(s)
    ensures Valid(ChatMessage(s, self, sender, payload, o))
  {
    if payload.Obj? {
      var m := payload.fields;
      var sidCast := AsString(GetOrDefault(m, "sessionId", Str(o.chatSessionId)));
      var msgCast := AsString(Get(m, "message"));
      if !sidCast.CastFails? && !msgCast.CastFails? {
        if !IsOrchestrator(self) {
          var r := AgentChat(s, self, sender, m, o);
          OutboxOnlyKeepsValid(s, r);
        } else if sidCast.CastString? {
          ChatToOrchestratorKeepsValid(s, sidCast.s, "sessionId" in m, CastValue(msgCast), o);
        }
      }
    }
  }

  lemma ChatToOrchestratorKeepsValid(s: OrchState, sid: string, named: bool, message: Option<string>, o: Oracles)
    requires Valid(s)
    ensures Valid(ChatToOrchestrator(s, sid, named, message, o))
  {
    if sid in s.plans && sid in s.stepIndex {
      ResumeKeepsValid(s, sid, message);
    } else {
      OrchestratorChatKeepsValid(s, if named then sid else o.planSessionId, message, o.inventoryText,
                                 PlanFromReply(o.plannerReply, o.parse));
    }
  }

  lemma ChatResultMessageKeepsValid(s: OrchState, self: string, sender: Option<string>, payload: Value, o: Oracles)
    requires Valid(s)
    ensures Valid(ChatResultMessage(s, self, sender, payload, o))
  {
    if !IsOrchestrator(self) {
      OutboxOnlyKeepsValid(s, Send(s, ChatResult(Some(KernelId), payload)));
    } else if payload.Obj? {
      var m := payload.fields;
      var sid := TextOrDefault(Get(m, "sessionId"), DefaultSession);
      var agent := if Get(m, "agentId") != Null then Some(ToText(Get(m, "agentId"))) else sender;
      ResultReceivedKeepsValid(s, sid, agent, m, o);
    }
  }

  lemma ResultReceivedKeepsValid(s: OrchState, sid: string, agent: Option<string>, m: Fields, o: Oracles)
    requires Valid(s)
    ensures Valid(ResultReceived(s, sid, agent, m, o))
  {
    CompleteKeepsWaiters(s, sid, agent, m);
    var message := ExtractAgentMessage(m);
    AgentResultKeepsValid(CompleteLocalWaiter(s, sid, agent, m), sid, agent, message,
                          ReasonFromReply(o.reasonerReply, o.parse, message));
  }

  lemma DecisionMessageKeepsValid(s: OrchState, payload: Value)
    requires Valid(s)
    ensures Valid(DecisionMessage(s, payload))
  {
    if payload.Obj? {
      var m := payload.fields;
      var sid := TextOrDefault(Get(m, "sessionId"), DefaultSession);
      var agentCast := AsString(Get(m, "agentId"));
      var actionCast := AsString(GetOrDefault(m, "action", Str("")));
      if !agentCast.CastFails? && !actionCast.CastFails? {
        var agent :=
          if agentCast.CastNull? || Text.EqualsIgnoreCase(agentCast.s, "unknown") then PausedFor(s, sid)
          else Some(agentCast.s);
        UserDecisionKeepsValid(s, sid, agent, CastValue(actionCast), m);
      }
    }
  }

  /** Every message leaves waiters fresh and completed at most once, and the state file current. */
  lemma HandleMessageKeepsValid(s: OrchState, self: string, msgType: Option<string>, sender: Option<string>,
                                payload: Value, o: Oracles)
    requires Valid(s)
    ensures Valid(HandleMessage(s, self, msgType, sender, payload, o))
  {
    var t := if msgType.None? then "" else Text.Lower(msgType.value);
    if t == "chat" {
      ChatMessageKeepsValid(s, self, sender, payload, o);
    } else if t == "chat_result" {
      ChatResultMessageKeepsValid(s, self, sender, payload, o);
    } else if t == "user_decision" {
      DecisionMessageKeepsValid(s, payload);
    }
  }

  // ---------------------------------------------------------------------
  // Plans and indexes stay paired, and indexes only move forward

  /** k's index in r is at least its index in s, wherever both have one. */
  predicate Advanced(s: OrchState, r: OrchState) {
    forall k :: k in s.stepIndex && k in r.stepIndex ==> s.stepIndex[k] <= r.stepIndex[k]
  }

  lemma ContinuePlanKeepsSynced(s: OrchState, sid: string)
    requires s.plans.Keys - {sid} == s.stepIndex.Keys - {sid}
    requires sid in s.plans ==> sid in s.stepIndex
    ensures Synced(ContinuePlan(s, sid).0)
  {
    var r := ContinuePlan(s, sid).0;
    if !HasPendingStep(s, sid) {
      assert r.plans.Keys == s.plans.Keys - {sid};
      assert r.stepIndex.Keys == s.stepIndex.Keys - {sid};
    } else {
      assert s.plans.Keys == (s.plans.Keys - {sid}) + {sid};
      assert s.stepIndex.Keys == (s.stepIndex.Keys - {sid}) + {sid};
      assert r.plans == s.plans && r.stepIndex == s.stepIndex;
    }
  }

  /** Registering a waiter and delegating touch neither plans nor indexes. */
  lemma AwaitDelegateKeepsPlans(s: OrchState, sid: string, agent: Option<string>, target: Option<string>,
                                message: Option<string>)
    ensures Delegate(Await(s, sid, agent), target, sid, message).plans == s.plans
    ensures Delegate(Await(s, sid, agent), target, sid, message).stepIndex == s.stepIndex
  {
  }

  lemma AgentResultKeepsSynced(s: OrchState, sid: string, agent: Option<string>, message: string, v: Verdict)
    requires Synced(s)
    ensures Synced(AgentResult(s, sid, agent, message, v))
    ensures Advanced(s, AgentResult(s, sid, agent, message, v))
  {
    if !v.needsUserInput && !v.toolFailed {
      StepSucceededKeepsSynced(s, sid, agent);
    }
  }

  lemma StepSucceededKeepsSynced(s: OrchState, sid: string, agent: Option<string>)
    requires Synced(s)
    ensures Synced(StepSucceeded(s, sid, agent)) && Advanced(s, StepSucceeded(s, sid, agent))
  {
    var p := StepAdvanced(s, sid, agent);
    assert p.plans == s.plans && p.stepIndex == s.stepIndex[sid := IndexOf(s, sid) + 1];
    ContinuePlanKeepsSynced(p, sid);
    ContinuePlanKeepsIndexes(p, sid);
  }

  lemma RetryKeepsPlans(s: OrchState, sid: string, agent: Option<string>, action: Option<string>)
    ensures RetryDecision(s, sid, agent, action).plans == s.plans
    ensures RetryDecision(s, sid, agent, action).stepIndex == s.stepIndex
  {
    var s1 := Status(s, sid, "orchestration_retry", "🔁 Retrying " + Show(agent));
    AwaitDelegateKeepsPlans(s1.(paused := s1.paused - {sid}), sid, agent, agent, action);
  }

  lemma ProvideInputKeepsPlans(s: OrchState, sid: string, agent: Option<string>, action: Option<string>, input: string)
    ensures ProvideInputDecision(s, sid, agent, action, input).plans == s.plans
    ensures ProvideInputDecision(s, sid, agent, action, input).stepIndex == s.stepIndex
  {
    var s1 := Status(s, sid, "orchestration_resume_input",
                     "💡 Received user input for " + Show(agent) + ": " + input);
    AwaitDelegateKeepsPlans(s1.(paused := s1.paused - {sid}), sid, agent, agent,
                            Some(Show(action) + UserInputSuffixStart + input + ")"));
  }

  lemma UserDecisionKeepsSynced(s: OrchState, sid: string, agent: Option<string>, action: Option<string>, d: Fields)
    requires Synced(s)
    ensures Synced(UserDecision(s, sid, agent, action, d))
    ensures Advanced(s, UserDecision(s, sid, agent, action, d))
  {
    var choice := AsString(GetOrDefault(d, "choice", Str("skip")));
    if choice.CastString? {
      var c := Text.Lower(choice.s);
      if c == "retry" {
        RetryKeepsPlans(s, sid, agent, action);
      } else if c == "provide_input" {
        var inputCast := AsString(GetOrDefault(d, "input", Str("")));
        if !inputCast.CastFails? {
          ProvideInputKeepsPlans(s, sid, agent, action, Show(CastValue(inputCast)));
        }
      } else if c != "abort" {
        SkipKeepsSynced(s, sid, agent);
      }
    }
  }

  lemma SkipKeepsSynced(s: OrchState, sid: string, agent: Option<string>)
    requires Synced(s)
    ensures Synced(SkipDecision(s, sid, agent)) && Advanced(s, SkipDecision(s, sid, agent))
  {
    var p := SkipMarked(s, sid, agent);
    ContinuePlanKeepsSynced(p, sid);
    ContinuePlanKeepsIndexes(p, sid);
  }

  lemma ResumeKeepsPlans(s: OrchState, sid: string, userInput: Option<string>)
    ensures ResumePausedSession(s, sid, userInput).plans == s.plans
    ensures ResumePausedSession(s, sid, userInput).stepIndex == s.stepIndex
  {
    if HasPendingStep(s, sid) && CurrentStep(s, sid).Step? {
      var step := CurrentStep(s, sid);
      var s1 := Status(s, sid, "orchestration_resume_input",
                       "💡 User provided input mid-session for " + Show(step.agent) + ": " + Show(userInput));
      AwaitDelegateKeepsPlans(s1, sid, step.agent, step.agent,
                              Some(Show(step.action) + UserInputSuffixStart + Show(userInput) + ")"));
    }
  }

  lemma OrchestratorChatKeepsSynced(s: OrchState, sid: string, message: Option<string>, inventory: string, plan: Plan)
    requires Synced(s)
    ensures Synced(OrchestratorChat(s, sid, message, inventory, plan))
    ensures sid !in s.stepIndex ==> Advanced(s, OrchestratorChat(s, sid, message, inventory, plan))
  {
    if message.Some? && message.value != "" {
      var s1 := Status(s, sid, "thinking", "<thinking>Planning how to achieve: " + message.value + "</thinking>");
      var s2 := Status(s1, sid, "planner", "Discovered agent tools: " + inventory);
      var s3 := Status(s2, sid, "planner", "Generated plan: " + PlanText(plan));
      var s4 := s3.(plans := s3.plans[sid := plan], stepIndex := s3.stepIndex[sid := 0]);
      ContinuePlanKeepsSynced(Persisted(s4), sid);
      ContinuePlanKeepsIndexes(Persisted(s4), sid);
    }
  }

  lemma ChatMessageAdvances(s: OrchState, self: string, sender: Option<string>, payload: Value, o: Oracles)
    requires Synced(s)
    requires o.planSessionId !in s.stepIndex
    ensures Synced(ChatMessage(s, self, sender, payload, o))
    ensures Advanced(s, ChatMessage(s, self, sender, payload, o))
  {
    if payload.Obj? {
      var m := payload.fields;
      var sidCast := AsString(GetOrDefault(m, "sessionId", Str(o.chatSessionId)));
      var msgCast := AsString(Get(m, "message"));
      if !sidCast.CastFails? && !msgCast.CastFails? && IsOrchestrator(self) && sidCast.CastString? {
        ChatToOrchestratorAdvances(s, sidCast.s, "sessionId" in m, CastValue(msgCast), o);
      }
    }
  }

  lemma ChatToOrchestratorAdvances(s: OrchState, sid: string, named: bool, message: Option<string>, o: Oracles)
    requires Synced(s)
    requires o.planSessionId !in s.stepIndex
    ensures Synced(ChatToOrchestrator(s, sid, named, message, o))
    ensures Advanced(s, ChatToOrchestrator(s, sid, named, message, o))
  {
    if sid in s.plans && sid in s.stepIndex {
      ResumeKeepsPlans(s, sid, message);
    } else {
      OrchestratorChatKeepsSynced(s, if named then sid else o.planSessionId, message, o.inventoryText,
                                  PlanFromReply(o.plannerReply, o.parse));
    }
  }

  lemma ChatResultMessageAdvances(s: OrchState, self: string, sender: Option<string>, payload: Value, o: Oracles)
    requires Synced(s)
    ensures Synced(ChatResultMessage(s, self, sender, payload, o))
    ensures Advanced(s, ChatResultMessage(s, self, sender, payload, o))
  {
    if IsOrchestrator(self) && payload.Obj? {
      var m := payload.fields;
      var sid := TextOrDefault(Get(m, "sessionId"), DefaultSession);
      var agent := if Get(m, "agentId") != Null then Some(ToText(Get(m, "agentId"))) else sender;
      ResultReceivedAdvances(s, sid, agent, m, o);
    }
  }

  lemma ResultReceivedAdvances(s: OrchState, sid: string, agent: Option<string>, m: Fields, o: Oracles)
    requires Synced(s)
    ensures Synced(ResultReceived(s, sid, agent, m, o))
    ensures Advanced(s, ResultReceived(s, sid, agent, m, o))
  {
    var message := ExtractAgentMessage(m);
    AgentResultKeepsSynced(CompleteLocalWaiter(s, sid, agent, m), sid, agent, message,
                           ReasonFromReply(o.reasonerReply, o.parse, message));
  }

  lemma DecisionMessageAdvances(s: OrchState, payload: Value)
    requires Synced(s)
    ensures Synced(DecisionMessage(s, payload))
    ensures Advanced(s, DecisionMessage(s, payload))
  {
    if payload.Obj? {
      var m := payload.fields;
      var sid := TextOrDefault(Get(m, "sessionId"), DefaultSession);
      var agentCast := AsString(Get(m, "agentId"));
      var actionCast := AsString(GetOrDefault(m, "action", Str("")));
      if !agentCast.CastFails? && !actionCast.CastFails? {
        var agent :=
          if agentCast.CastNull? || Text.EqualsIgnoreCase(agentCast.s, "unknown") then PausedFor(s, sid)
          else Some(agentCast.s);
        UserDecisionKeepsSynced(s, sid, agent, CastValue(actionCast), m);
      }
    }
  }

  /**
   * With plans and indexes paired, and the UUID drawn for a new plan not
   * already a session, every message keeps them paired and never lowers a
   * session's index; an index disappears only when its plan completes.
   */
  lemma HandleMessageAdvances(s: OrchState, self: string, msgType: Option<string>, sender: Option<string>,
                              payload: Value, o: Oracles)
    requires Synced(s)
    requires o.planSessionId !in s.stepIndex
    ensures Synced(HandleMessage(s, self, msgType, sender, payload, o))
    ensures Advanced(s, HandleMessage(s, self, msgType, sender, payload, o))
  {
    var t := if msgType.None? then "" else Text.Lower(msgType.value);
    if t == "chat" {
      ChatMessageAdvances(s, self, sender, payload, o);
    } else if t == "chat_result" {
      ChatResultMessageAdvances(s, self, sender, payload, o);
    } else if t == "user_decision" {
      DecisionMessageAdvances(s, payload);
    }
  }
}
