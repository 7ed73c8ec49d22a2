# loganProtocol kernel, modelled in Dafny

This project models the coordination core of the loganProtocol agent kernel and proves properties of it. The kernel is a Java service that keeps a registry of agents, routes message envelopes between them, and runs a planning orchestrator (BedrockAgent). The orchestrator splits a user's chat into a plan of steps and delegates each step to another agent. It waits for each result and then advances, pauses for the user, or finishes.

Every network call, language-model call, clock, UUID, process start and health probe is an input to the model:

- Messages the orchestrator sends become appends to an ordered outbox.
- Model replies are oracle values, parsed by a function parameter.
- SSE sends are a `fails` predicate.
- Fresh ids, free ports and process handles come in a `SpawnOracle`.

The modules follow the source's classes:

| module | file | models |
|---|---|---|
| `Wrappers`, `Json`, `Text` | wrappers.dfy, json.dfy, text.dfy | Option/Result; the untyped Java object trees (`Map.get`, `getOrDefault`, `putIfAbsent`, string casts); the String operations the code uses (ASCII case mapping, trim, contains) |
| `Envelope` | envelope.dfy | `MessageEnvelope` and its `Builder`, as classes with setters |
| `ModelReplies`, `Retries` | model_replies.dfy, retries.dfy | planner fence stripping and plan extraction; the needs-input / tool-failed verdict with its substring fallback; `extractAgentMessage`; the retry counter and backoff of `sendAsyncWithRetries` |
| `Orchestration`, `OrchestrationLemmas` | orchestration.dfy, orchestration_lemmas.dfy | BedrockAgent's per-session state machine as pure functions: plans, step indexes, pause markers, local waiters, the outbox and the state file, with the lemmas about them |
| `Bedrock` | bedrock_agent.dfy | the `BedrockAgent` class: its maps are fields its handlers update in place. Each method is proved to move the object exactly as the matching `Orchestration` function moves the state |
| `AgentPersistence`, `Registry`, `Factory`, `Lifecycle` | agent_persistence.dfy, agent_registry.dfy, agent_factory.dfy, lifecycle.dfy | the ACTIVE/TERMINATED agent table, the id→agent registry with its lifecycle hooks, the factory's id, type, spawn and rehydrate rules, and the same bookkeeping as one value |
| `Spawners`, `Bootstrap` | spawners.dfy, bootstrap.dfy | the SPAWN / AGENT_KILL / SELF_TERMINATE handlers of both spawner agents, and the two start-up loops |
| `Messages`, `Routing` | messages.dfy, router.dfy | `MessageEntity.fromEnvelope`, `KernelRouter.route` (save PENDING, then deliver locally and mark DELIVERED, or publish) and `LocalMessageBus.send` |
| `Sessions` | sessions.dfy | `MessageController`: the `PendingSession` objects in their table, the agent waiters, SSE broadcast with dead-stream pruning, and the `postMessage` dispatch |
| `Tools` | tools.dfy | the bedrock agent's `ToolRegistry`, `ToolExecutor` and `ToolController`, and the two Document conversions with their round trips |

Three invariants carry most of the proofs:

- **Orchestration.** Every planned session has an index, and an index never passes its plan's length. Local waiters are fresh, each sits under one key, and each is completed at most once. The object keeps this invariant through every handler, and every handler only moves a session's index forward.
- **Sessions.** A session's events, audit list, completed agents and result only grow. This holds for every message type, except for the one session a chat replaces or a timeout or the orchestrator removes. A session's future is completed once. A waiter the controller registers is completed at most once.
- **Lifecycle.** The start-up loops are folds of one per-item step, so a failing item leaves the world unchanged and the items after it still run.

Two behaviours of the code are worth stating plainly, because the model follows them:

- A finished plan sends no `chat_result` upstream. `continuePlan` only sends a "summary" status update, then drops the session's plan and index and persists (BedrockAgent.java lines 244-249).
- `AgentFactory.createAgent` accepts only BEDROCK and BEDROCK_SPAWNER, ignoring case, and rejects every other type.

Three calls in the source have no matching declaration:

- `AgentFactory` calls a four-argument `upsertActive` that `AgentPersistenceService` does not declare. The model gives that call the evident meaning (`UpsertedWithEndpoint`).
- `PersistenceBootstrap` calls `e.getEndpoint()`, but `AgentEntity` has no endpoint field (its fields are at AgentEntity.java lines 12-27). The optional endpoint column of the model's rows is therefore an addition of the model, not a column of the source. It is what those two calls evidently expect.
- `MessageController` calls `registry.hasAgent`, which `AgentRegistry` does not declare. It is modelled as membership in the agent table.

## Model

| member | source | states |
|---|---|---|
| Json.PutIfAbsent | kernel-service/src/main/java/org/logan/kernel/agent/BedrockAgent.java:771-773 | a key that is absent or mapped to null gets the value, a key already set keeps its own, and every other key is unchanged |
| Json.PutIfAbsentIdempotent | kernel-service/src/main/java/org/logan/kernel/agent/BedrockAgent.java:179-180 | a second putIfAbsent of the same key changes nothing |
| Text.UpperMatchesIgnoreCase | kernel-service/src/main/java/org/logan/kernel/agent/AgentFactory.java:30-34 | switching on the upper-cased type against an upper-case label is the same test as equalsIgnoreCase |
| Orchestration.WaiterKeyAmbiguous | kernel-service/src/main/java/org/logan/kernel/agent/BedrockAgent.java:43-45 | two different (session, agent) pairs can share one waiter key when an id contains ':' |
| Orchestration.Restored | kernel-service/src/main/java/org/logan/kernel/agent/BedrockAgent.java:411-423 | loading the state file restores exactly its plans and indexes; no file leaves both empty; pause markers and waiters always start empty; the restored state is valid |
| Orchestration.RestartForgetsPause | kernel-service/src/main/java/org/logan/kernel/agent/BedrockAgent.java:398-423 | after a write and a restart the plans and indexes come back, and the pause markers do not (they are never written) |
| Orchestration.SafeResult | kernel-service/src/main/java/org/logan/kernel/agent/BedrockAgent.java:769-774 | the completed waiter's payload keeps every non-null entry of the result, and every entry, null or not, under a key other than status, agentId and sessionId; a status, agentId or sessionId that is absent or null becomes "ok", the agent id or the session id; no other key is added |
| Orchestration.AgentChat | kernel-service/src/main/java/org/logan/kernel/agent/BedrockAgent.java:150-194 | an ordinary agent's chat only sends: plans, indexes, pause markers, waiters and the state file are unchanged and the outbox only grows |
| OrchestrationLemmas.ContinuePlanFinishes | kernel-service/src/main/java/org/logan/kernel/agent/BedrockAgent.java:240-251 | with no plan, or the index past its end, continuePlan sends the summary, drops the session's plan and index, writes the state file, and delegates nothing |
| OrchestrationLemmas.ContinuePlanDelegatesStep | kernel-service/src/main/java/org/logan/kernel/agent/BedrockAgent.java:253-263 | with a pending step (agent a, action x) a waiter is registered under waiterKey(sid, a), with the kernel too, and exactly that step is delegated; plan, index and pause stay |
| OrchestrationLemmas.ContinuePlanKeepsIndexes | kernel-service/src/main/java/org/logan/kernel/agent/BedrockAgent.java:240-264 | continuePlan never changes an index or a plan it keeps, and never touches a pause marker |
| OrchestrationLemmas.ContinuePlanDelegations | kernel-service/src/main/java/org/logan/kernel/agent/BedrockAgent.java:240-264 | continuePlan only appends to the outbox, with one delegation when the current step names an agent and an action, and none otherwise |
| OrchestrationLemmas.EmptyChatIgnored | kernel-service/src/main/java/org/logan/kernel/agent/BedrockAgent.java:202 | a null or empty message to the orchestrator changes nothing |
| OrchestrationLemmas.FreshChatPersistsBeforeDelegating | kernel-service/src/main/java/org/logan/kernel/agent/BedrockAgent.java:197-231 | a fresh chat stores the plan at index 0 and writes the state file before any delegation; then the first step, if it names an agent and an action, is the one delegation made; an empty plan finishes at once |
| OrchestrationLemmas.SuccessAdvancesByOne | kernel-service/src/main/java/org/logan/kernel/agent/BedrockAgent.java:314-322 | a result that neither needs input nor reports a failure clears the pause and writes the index raised by exactly one before continuing; afterwards the index is that value or gone because the plan ended |
| OrchestrationLemmas.StepSucceededAdvances | kernel-service/src/main/java/org/logan/kernel/agent/BedrockAgent.java:314-327 | the same for the success branch on its own, including the step-failed report when the next step's casts fail |
| OrchestrationLemmas.PauseEmitsOneWait | kernel-service/src/main/java/org/logan/kernel/agent/BedrockAgent.java:275-305 | a needs-input or failure verdict for an agent the session is not paused for pauses for it and emits one orchestration_pause update and one orchestrator_wait offering exactly provide_input, skip, abort, retry; plans, indexes and waiters stay |
| OrchestrationLemmas.AlreadyPausedNoWait | kernel-service/src/main/java/org/logan/kernel/agent/BedrockAgent.java:307-311 | already paused for the same agent: only a refreshed-reasoning update, and no second wait |
| OrchestrationLemmas.AbortKeepsState | kernel-service/src/main/java/org/logan/kernel/agent/BedrockAgent.java:335 | abort sends one update and changes no plan, index, pause marker, waiter or state file |
| OrchestrationLemmas.RetryRedelegates | kernel-service/src/main/java/org/logan/kernel/agent/BedrockAgent.java:337-346 | retry clears the pause, registers a waiter under waiterKey(sid, a) and re-delegates the decision's own action to the same agent; plan and index stay |
| OrchestrationLemmas.ProvideInputRedelegates | kernel-service/src/main/java/org/logan/kernel/agent/BedrockAgent.java:348-362 | provide_input does the same with " (user input: <input>)" appended to the decision's action |
| OrchestrationLemmas.OtherChoiceSkips | kernel-service/src/main/java/org/logan/kernel/agent/BedrockAgent.java:365-371 | any other choice raises the index by one and writes it to the state file before continuing; the pause marker is left alone |
| OrchestrationLemmas.SkipAdvancesIndex | kernel-service/src/main/java/org/logan/kernel/agent/BedrockAgent.java:365-371 | the skip branch on its own: index raised by one, persisted, pause untouched |
| OrchestrationLemmas.MissingChoiceSkips | kernel-service/src/main/java/org/logan/kernel/agent/BedrockAgent.java:332 | a decision without "choice" is a skip |
| OrchestrationLemmas.CompleteLocalWaiterOnce | kernel-service/src/main/java/org/logan/kernel/agent/BedrockAgent.java:765-776 | completing a registered waiter removes it and records one completion with the safe result; a second completion for the same key changes nothing |
| OrchestrationLemmas.CompleteWithoutWaiterIsNoOp | kernel-service/src/main/java/org/logan/kernel/agent/BedrockAgent.java:777-779 | with no waiter under the key nothing changes |
| OrchestrationLemmas.RegisterLocalKeepsWaiters | kernel-service/src/main/java/org/logan/kernel/agent/BedrockAgent.java:760-763 | registering a fresh waiter keeps waiter ids distinct, fresh and never completed |
| OrchestrationLemmas.CompleteKeepsWaiters | kernel-service/src/main/java/org/logan/kernel/agent/BedrockAgent.java:765-779 | completing a waiter keeps ids distinct and no waiter is completed twice |
| OrchestrationLemmas.OutboxOnlyKeepsValid | kernel-service/src/main/java/org/logan/kernel/agent/BedrockAgent.java:426-442 | a change that only sends keeps the state valid |
| OrchestrationLemmas.AwaitKeepsValid | kernel-service/src/main/java/org/logan/kernel/agent/BedrockAgent.java:760-763 | registering a local and a kernel waiter keeps the state valid |
| OrchestrationLemmas.AwaitDelegateKeepsValid | kernel-service/src/main/java/org/logan/kernel/agent/BedrockAgent.java:256-261 | registering waiters then delegating keeps the state valid |
| OrchestrationLemmas.ContinuePlanKeepsValid | kernel-service/src/main/java/org/logan/kernel/agent/BedrockAgent.java:240-264 | continuePlan keeps waiters well formed and the state file equal to the plans and indexes |
| OrchestrationLemmas.PersistedContinueKeepsValid | kernel-service/src/main/java/org/logan/kernel/agent/BedrockAgent.java:318-321 | whatever plans and indexes were changed, persisting then continuing leaves the state file current |
| OrchestrationLemmas.OrchestratorChatKeepsValid | kernel-service/src/main/java/org/logan/kernel/agent/BedrockAgent.java:197-237 | a fresh chat keeps the state valid |
| OrchestrationLemmas.AgentResultKeepsValid | kernel-service/src/main/java/org/logan/kernel/agent/BedrockAgent.java:267-328 | handling a result keeps the state valid |
| OrchestrationLemmas.StepSucceededKeepsValid | kernel-service/src/main/java/org/logan/kernel/agent/BedrockAgent.java:314-327 | the success branch keeps the state valid |
| OrchestrationLemmas.RetryKeepsValid | kernel-service/src/main/java/org/logan/kernel/agent/BedrockAgent.java:337-346 | retry keeps the state valid |
| OrchestrationLemmas.ProvideInputKeepsValid | kernel-service/src/main/java/org/logan/kernel/agent/BedrockAgent.java:348-362 | provide_input keeps the state valid |
| OrchestrationLemmas.SkipKeepsValid | kernel-service/src/main/java/org/logan/kernel/agent/BedrockAgent.java:365-371 | skip keeps the state valid |
| OrchestrationLemmas.UserDecisionKeepsValid | kernel-service/src/main/java/org/logan/kernel/agent/BedrockAgent.java:331-373 | every decision keeps the state valid |
| OrchestrationLemmas.ResumeKeepsValid | kernel-service/src/main/java/org/logan/kernel/agent/BedrockAgent.java:782-809 | resuming keeps the state valid |
| OrchestrationLemmas.ChatMessageKeepsValid | kernel-service/src/main/java/org/logan/kernel/agent/BedrockAgent.java:79-101 | the chat case keeps the state valid |
| OrchestrationLemmas.ChatToOrchestratorKeepsValid | kernel-service/src/main/java/org/logan/kernel/agent/BedrockAgent.java:84-96 | the orchestrator's resume-or-plan choice keeps the state valid |
| OrchestrationLemmas.ChatResultMessageKeepsValid | kernel-service/src/main/java/org/logan/kernel/agent/BedrockAgent.java:103-124 | the chat_result case keeps the state valid |
| OrchestrationLemmas.ResultReceivedKeepsValid | kernel-service/src/main/java/org/logan/kernel/agent/BedrockAgent.java:105-113 | completing the local waiter and handling the result keeps the state valid |
| OrchestrationLemmas.DecisionMessageKeepsValid | kernel-service/src/main/java/org/logan/kernel/agent/BedrockAgent.java:126-138 | the user_decision case keeps the state valid |
| OrchestrationLemmas.HandleMessageKeepsValid | kernel-service/src/main/java/org/logan/kernel/agent/BedrockAgent.java:71-147 | every message keeps waiter ids fresh and distinct, no waiter completed twice, and the state file equal to the in-memory plans and indexes |
| OrchestrationLemmas.ContinuePlanKeepsSynced | kernel-service/src/main/java/org/logan/kernel/agent/BedrockAgent.java:244-251 | continuePlan leaves every plan with an index and every index with a plan |
| OrchestrationLemmas.AwaitDelegateKeepsPlans | kernel-service/src/main/java/org/logan/kernel/agent/BedrockAgent.java:256-261 | registering waiters and delegating touch neither plans nor indexes |
| OrchestrationLemmas.AgentResultKeepsSynced | kernel-service/src/main/java/org/logan/kernel/agent/BedrockAgent.java:267-328 | handling a result keeps plans and indexes paired and never lowers an index |
| OrchestrationLemmas.StepSucceededKeepsSynced | kernel-service/src/main/java/org/logan/kernel/agent/BedrockAgent.java:314-322 | the success branch keeps plans and indexes paired and never lowers an index |
| OrchestrationLemmas.RetryKeepsPlans | kernel-service/src/main/java/org/logan/kernel/agent/BedrockAgent.java:337-346 | retry changes no plan and no index |
| OrchestrationLemmas.ProvideInputKeepsPlans | kernel-service/src/main/java/org/logan/kernel/agent/BedrockAgent.java:348-362 | provide_input changes no plan and no index |
| OrchestrationLemmas.UserDecisionKeepsSynced | kernel-service/src/main/java/org/logan/kernel/agent/BedrockAgent.java:331-373 | every decision keeps plans and indexes paired and never lowers an index |
| OrchestrationLemmas.SkipKeepsSynced | kernel-service/src/main/java/org/logan/kernel/agent/BedrockAgent.java:365-371 | skip keeps plans and indexes paired and never lowers an index |
| OrchestrationLemmas.ResumeKeepsPlans | kernel-service/src/main/java/org/logan/kernel/agent/BedrockAgent.java:782-809 | resuming changes no plan and no index |
| OrchestrationLemmas.OrchestratorChatKeepsSynced | kernel-service/src/main/java/org/logan/kernel/agent/BedrockAgent.java:224-230 | a fresh chat keeps plans and indexes paired; for a session that had no index it never lowers any index (a session that had one is restarted at 0) |
| OrchestrationLemmas.ChatMessageAdvances | kernel-service/src/main/java/org/logan/kernel/agent/BedrockAgent.java:79-101 | the chat case keeps plans and indexes paired and never lowers an index |
| OrchestrationLemmas.ChatToOrchestratorAdvances | kernel-service/src/main/java/org/logan/kernel/agent/BedrockAgent.java:84-96 | the orchestrator's resume-or-plan choice keeps plans and indexes paired and never lowers an index |
| OrchestrationLemmas.ChatResultMessageAdvances | kernel-service/src/main/java/org/logan/kernel/agent/BedrockAgent.java:103-124 | the chat_result case keeps plans and indexes paired and never lowers an index |
| OrchestrationLemmas.ResultReceivedAdvances | kernel-service/src/main/java/org/logan/kernel/agent/BedrockAgent.java:105-113 | completing the waiter and handling the result keeps plans and indexes paired and never lowers an index |
| OrchestrationLemmas.DecisionMessageAdvances | kernel-service/src/main/java/org/logan/kernel/agent/BedrockAgent.java:126-138 | the user_decision case keeps plans and indexes paired and never lowers an index |
| OrchestrationLemmas.HandleMessageAdvances | kernel-service/src/main/java/org/logan/kernel/agent/BedrockAgent.java:71-147 | with plans and indexes paired and a fresh plan UUID, every message keeps them paired and never lowers a session's index |
| Bedrock.BedrockAgent.constructor | kernel-service/src/main/java/org/logan/kernel/agent/BedrockAgent.java:47-59 | a new agent's session maps are what loadSessionState restores from the state file, with no pause markers and no waiters, and it is valid |
| Bedrock.BedrockAgent.SendToKernel | kernel-service/src/main/java/org/logan/kernel/agent/BedrockAgent.java:686-704 | the message is appended to the outbox and nothing else changes |
| Bedrock.BedrockAgent.SendReasoningUpdate | kernel-service/src/main/java/org/logan/kernel/agent/BedrockAgent.java:426-442 | one agent_status_update with the session, phase and message is sent |
| Bedrock.BedrockAgent.PersistSessionState | kernel-service/src/main/java/org/logan/kernel/agent/BedrockAgent.java:398-408 | the state file now holds the current plans and indexes, and the write is recorded in order |
| Bedrock.BedrockAgent.RegisterLocalWaiter | kernel-service/src/main/java/org/logan/kernel/agent/BedrockAgent.java:760-763 | a fresh waiter replaces whatever waited under waiterKey(session, agent) |
| Bedrock.BedrockAgent.RegisterWaiterWithKernel | kernel-service/src/main/java/org/logan/kernel/agent/BedrockAgent.java:717-741 | a register-waiter request for the session and agent is sent; a null agent sends nothing |
| Bedrock.BedrockAgent.DelegateToAgent | kernel-service/src/main/java/org/logan/kernel/agent/BedrockAgent.java:664-684 | a delegation envelope with target, session and message is sent; a null target or message sends nothing |
| Bedrock.BedrockAgent.AwaitAndDelegate | kernel-service/src/main/java/org/logan/kernel/agent/BedrockAgent.java:256-261 | local waiter, kernel waiter, then delegation, in that order |
| Bedrock.BedrockAgent.CompleteLocalWaiter | kernel-service/src/main/java/org/logan/kernel/agent/BedrockAgent.java:765-779 | the object moves as Orchestration.CompleteLocalWaiter: the waiter is removed and completed once, or nothing changes |
| Bedrock.BedrockAgent.ContinuePlan | kernel-service/src/main/java/org/logan/kernel/agent/BedrockAgent.java:240-264 | the object and the success flag are those of Orchestration.ContinuePlan, whose finishing and delegating cases are proved in OrchestrationLemmas |
| Bedrock.BedrockAgent.HandleOrchestratorChat | kernel-service/src/main/java/org/logan/kernel/agent/BedrockAgent.java:197-237 | the object moves as Orchestration.OrchestratorChat: plan stored at index 0, persisted, then continued |
| Bedrock.BedrockAgent.AdvanceAfterSuccess | kernel-service/src/main/java/org/logan/kernel/agent/BedrockAgent.java:314-327 | the object moves as Orchestration.StepSucceeded (index raised by one, pause cleared, persisted, continued) |
| Bedrock.BedrockAgent.MarkStepDone | kernel-service/src/main/java/org/logan/kernel/agent/BedrockAgent.java:314-321 | the object moves as Orchestration.StepAdvanced: step reported complete, pause cleared, index raised by one, persisted |
| Bedrock.BedrockAgent.HandleAgentResult | kernel-service/src/main/java/org/logan/kernel/agent/BedrockAgent.java:267-328 | the object moves as Orchestration.AgentResult: pause once per agent, or advance |
| Bedrock.BedrockAgent.HandleUserDecision | kernel-service/src/main/java/org/logan/kernel/agent/BedrockAgent.java:331-373 | the object moves as Orchestration.UserDecision |
| Bedrock.BedrockAgent.RetryStep | kernel-service/src/main/java/org/logan/kernel/agent/BedrockAgent.java:337-346 | the object moves as Orchestration.RetryDecision |
| Bedrock.BedrockAgent.ProvideInput | kernel-service/src/main/java/org/logan/kernel/agent/BedrockAgent.java:348-362 | the object moves as Orchestration.ProvideInputDecision |
| Bedrock.BedrockAgent.SkipStep | kernel-service/src/main/java/org/logan/kernel/agent/BedrockAgent.java:365-371 | the object moves as Orchestration.SkipDecision |
| Bedrock.BedrockAgent.MarkSkipped | kernel-service/src/main/java/org/logan/kernel/agent/BedrockAgent.java:366-369 | the object moves as Orchestration.SkipMarked: skip reported, index raised by one, persisted |
| Bedrock.BedrockAgent.ResumePausedSession | kernel-service/src/main/java/org/logan/kernel/agent/BedrockAgent.java:782-809 | the object moves as Orchestration.ResumePausedSession: the current step re-delegated with the user's text, or a summary when nothing is pending |
| Bedrock.BedrockAgent.ForwardChat | kernel-service/src/main/java/org/logan/kernel/agent/BedrockAgent.java:150-194 | the object moves as Orchestration.AgentChat: the agent's reply, with sessionId and agentId filled in, goes back as a chat_result |
| Bedrock.BedrockAgent.HandleChat | kernel-service/src/main/java/org/logan/kernel/agent/BedrockAgent.java:79-101 | the object moves as Orchestration.ChatMessage |
| Bedrock.BedrockAgent.ChatAsOrchestrator | kernel-service/src/main/java/org/logan/kernel/agent/BedrockAgent.java:84-96 | the object moves as Orchestration.ChatToOrchestrator: resume a session with a plan and an index, else plan afresh |
| Bedrock.BedrockAgent.HandleChatResult | kernel-service/src/main/java/org/logan/kernel/agent/BedrockAgent.java:103-124 | the object moves as Orchestration.ChatResultMessage: the orchestrator handles the result, any other agent forwards it to the kernel |
| Bedrock.BedrockAgent.ReceiveResult | kernel-service/src/main/java/org/logan/kernel/agent/BedrockAgent.java:105-113 | the object moves as Orchestration.ResultReceived: local waiter completed, then the result reasoned about |
| Bedrock.BedrockAgent.HandleDecision | kernel-service/src/main/java/org/logan/kernel/agent/BedrockAgent.java:126-138 | the object moves as Orchestration.DecisionMessage; a null or "unknown" agent means the paused agent |
| Bedrock.BedrockAgent.HandleMessage | kernel-service/src/main/java/org/logan/kernel/agent/BedrockAgent.java:71-147 | the object moves as Orchestration.HandleMessage and stays valid (waiters fresh and distinct, none completed twice, the state file current) |
| ModelReplies.RemoveFencesStep | kernel-service/src/main/java/org/logan/kernel/agent/BedrockAgent.java:502-504 | removing fences keeps a character that does not start a fence |
| ModelReplies.FencedReplyUnwraps | kernel-service/src/main/java/org/logan/kernel/agent/BedrockAgent.java:500-504 | a reply wrapped in a json fence unwraps to its trimmed body |
| ModelReplies.UnfencedReplyTrimmed | kernel-service/src/main/java/org/logan/kernel/agent/BedrockAgent.java:500-504 | a reply without backticks is only trimmed |
| ModelReplies.PlanFromReply | kernel-service/src/main/java/org/logan/kernel/agent/BedrockAgent.java:486-531 | the plan has one step per element of the reply's plan list, step i being element i read through the agent and action casts; a failed call, a reply that does not parse to an object, or a plan that is not a list gives the empty plan |
| ModelReplies.HeuristicIgnoresCase | kernel-service/src/main/java/org/logan/kernel/agent/BedrockAgent.java:597-603 | the substring fallback gives the same answer for a text and its lower-cased form |
| ModelReplies.HeuristicSurvivesContext | kernel-service/src/main/java/org/logan/kernel/agent/BedrockAgent.java:597-603 | a text flagged by the fallback stays flagged whatever surrounds it |
| ModelReplies.HeuristicVerdict | kernel-service/src/main/java/org/logan/kernel/agent/BedrockAgent.java:620-637 | when the reasoning call fails, needs-input is "please provide", "missing" or "need" in the lower-cased text, tool-failed is "failed", "error" or "exception", and the options are the four choices |
| ModelReplies.VerdictFromFields | kernel-service/src/main/java/org/logan/kernel/agent/BedrockAgent.java:596-618 | a flag the model gave wins and only a literal true counts; a missing flag falls back to the substring test; a given reason is kept; the options are always the four choices |
| ModelReplies.ReasonFromReply | kernel-service/src/main/java/org/logan/kernel/agent/BedrockAgent.java:540-638 | askModelForReason always offers exactly provide_input, skip, abort, retry |
| ModelReplies.VerdictFallsBackToHeuristic | kernel-service/src/main/java/org/logan/kernel/agent/BedrockAgent.java:596-603 | whenever the model's reply leaves both flags out, the flags are the substring tests |
| ModelReplies.ExtractAgentMessage | kernel-service/src/main/java/org/logan/kernel/agent/BedrockAgent.java:376-394 | a non-blank top-level message is returned as is; otherwise the result is the fixed text or the trimmed message of the last audit entry, and the two lemmas below say which |
| ModelReplies.AuditMessageUsed | kernel-service/src/main/java/org/logan/kernel/agent/BedrockAgent.java:382-389 | with the top-level message absent, null or blank, and the audit a non-empty list whose last entry is a map holding "message", that message is returned trimmed |
| ModelReplies.NoAuditMessageGivesFixedText | kernel-service/src/main/java/org/logan/kernel/agent/BedrockAgent.java:382-393 | with the top-level message absent, null or blank, and the audit absent, not a list, empty, or ending in something other than a map holding "message", the fixed text is returned |
| ModelReplies.StripFences | kernel-service/src/main/java/org/logan/kernel/agent/BedrockAgent.java:500-503 | the cleaned planner reply is always trimmed: trimming it again changes nothing |
| ModelReplies.TopLevelMessageWins | kernel-service/src/main/java/org/logan/kernel/agent/BedrockAgent.java:378-379 | a present non-blank message string is returned whatever the audit holds |
| ModelReplies.NoMessageAnywhere | kernel-service/src/main/java/org/logan/kernel/agent/BedrockAgent.java:393 | with neither a message nor an audit the fixed "No explicit message from agent." comes back |
| Retries.RetriesBounded | kernel-service/src/main/java/org/logan/kernel/agent/BedrockAgent.java:743-758 | a send is tried at most three times, each retry after 2^(attempt-1) seconds, and ends in one success or one permanent failure, the latter exactly when every attempt failed |
| Retries.SendAsyncWithRetries | kernel-service/src/main/java/org/logan/kernel/agent/BedrockAgent.java:743-758 | a request always ends in exactly one outcome, sent or permanent failure, after any retries; it is sent only on an attempt that does not fail |
| Retries.FirstSendDelays | kernel-service/src/main/java/org/logan/kernel/agent/BedrockAgent.java:28-29 | from the first attempt the two retry delays are one and two seconds |
| Sessions.ExtractSessionId | kernel-service/src/main/java/org/logan/kernel/controller/MessageController.java:368-375 | a null payload gives "default-session"; a non-null sessionId is used, a string as is and any other value as `Json.ToText` renders it (exact for integers and booleans, a placeholder for doubles, lists and maps); otherwise the sessionId of a map under "result", rendered the same way, and "default-session" when there is none |
| Sessions.Logged | kernel-service/src/main/java/org/logan/kernel/controller/MessageController.java:412-413 | addEvent and addAudit of one event append it to both lists and change nothing else |
| Sessions.Audited | kernel-service/src/main/java/org/logan/kernel/controller/MessageController.java:413 | addAudit appends to the audit list only |
| Sessions.Joined | kernel-service/src/main/java/org/logan/kernel/controller/MessageController.java:397-399 | registerAgent puts the agent among the active ones and changes nothing else |
| Sessions.Finished | kernel-service/src/main/java/org/logan/kernel/controller/MessageController.java:401-404 | markAgentCompleted moves the agent from the active set to the completed set |
| Sessions.CompletedWith | kernel-service/src/main/java/org/logan/kernel/controller/MessageController.java:418 | the first completion sets the result; a session already completed is unchanged |
| Sessions.UpdatesAppendOnly | kernel-service/src/main/java/org/logan/kernel/controller/MessageController.java:390-418 | none of PendingSession's updates loses a recorded event, audit entry, completed agent or result |
| Sessions.UpdateGrows | kernel-service/src/main/java/org/logan/kernel/controller/MessageController.java:18 | replacing one session by something it grew into keeps every session in the table growing |
| Sessions.StepsGrow | kernel-service/src/main/java/org/logan/kernel/controller/MessageController.java:390-418 | each per-session handler step (log, audit, join, finish), on a session created if absent, keeps the table growing |
| Sessions.ReplaceGrows | kernel-service/src/main/java/org/logan/kernel/controller/MessageController.java:199-200 | putting a fresh session under an id leaves every other session as it was |
| Sessions.RemovalGrows | kernel-service/src/main/java/org/logan/kernel/controller/MessageController.java:221-298 | removing a session leaves every other session as it was |
| Sessions.GrowsTransitively | kernel-service/src/main/java/org/logan/kernel/controller/MessageController.java:18 | growth composes over two steps when no session is dropped and re-created in between |
| Sessions.CompleteOnce | kernel-service/src/main/java/org/logan/kernel/controller/MessageController.java:418 | the session future completes once: a second completion keeps the first result |
| Sessions.PendingSession.constructor | kernel-service/src/main/java/org/logan/kernel/controller/MessageController.java:390-395 | a new session has no events, no audit, no agents and no result |
| Sessions.PendingSession.RegisterAgent | kernel-service/src/main/java/org/logan/kernel/controller/MessageController.java:397-399 | a non-null agent joins the active set; a null one changes nothing |
| Sessions.PendingSession.MarkAgentCompleted | kernel-service/src/main/java/org/logan/kernel/controller/MessageController.java:401-404 | the session becomes Finished of the old one |
| Sessions.PendingSession.AllAgentsCompleted | kernel-service/src/main/java/org/logan/kernel/controller/MessageController.java:406-408 | true exactly when no agent is active |
| Sessions.PendingSession.AddEvent | kernel-service/src/main/java/org/logan/kernel/controller/MessageController.java:412 | the event is appended to the events and nothing else changes |
| Sessions.PendingSession.AddAudit | kernel-service/src/main/java/org/logan/kernel/controller/MessageController.java:413 | the session becomes Audited of the old one |
| Sessions.PendingSession.Complete | kernel-service/src/main/java/org/logan/kernel/controller/MessageController.java:418 | the session becomes CompletedWith of the old one: the first result sticks |
| Sessions.RegisteredWaiter | kernel-service/src/main/java/org/logan/kernel/controller/MessageController.java:378-381 | a registration puts a fresh future under (session, agent), replacing any there, and completes nothing |
| Sessions.CompletedWaiter | kernel-service/src/main/java/org/logan/kernel/controller/MessageController.java:383-387 | the waiter under (session, agent), if any, is removed and completed with the result; without one nothing changes |
| Sessions.RegisterKeepsWaitersValid | kernel-service/src/main/java/org/logan/kernel/controller/MessageController.java:378-381 | a registration keeps futures fresh and under one key each, and keeps every future completed at most once |
| Sessions.RegisteredEntry | kernel-service/src/main/java/org/logan/kernel/controller/MessageController.java:378-381 | after a registration every waiter is the new future under the new key or an old entry under its old key |
| Sessions.CompleteKeepsWaitersValid | kernel-service/src/main/java/org/logan/kernel/controller/MessageController.java:383-387 | a completion removes the future it completes, so no future is ever completed twice |
| Sessions.RegisterThenComplete | kernel-service/src/main/java/org/logan/kernel/controller/MessageController.java:378-387 | the future a registration creates is the one the next completion for that key completes, and a repeated completion changes nothing |
| Sessions.BroadcastReachesSurvivors | kernel-service/src/main/java/org/logan/kernel/controller/MessageController.java:354-365 | a broadcast appends the event to exactly the streams whose send succeeds, those stay open, and every other stream keeps its record |
| Sessions.PrunedStaysSilent | kernel-service/src/main/java/org/logan/kernel/controller/MessageController.java:354-365 | a stream whose send failed is dropped and receives nothing from the next broadcast |
| Sessions.DeliveredToNone | kernel-service/src/main/java/org/logan/kernel/controller/MessageController.java:356 | before any stream is tried nothing has been delivered |
| Sessions.DeliveredStep | kernel-service/src/main/java/org/logan/kernel/controller/MessageController.java:356-363 | trying one more stream changes only that stream's record |
| Sessions.SendOne | kernel-service/src/main/java/org/logan/kernel/controller/MessageController.java:357-362 | one stream is sent the event, or added to the dead list when the send fails |
| Sessions.SendToAll | kernel-service/src/main/java/org/logan/kernel/controller/MessageController.java:355-363 | every open stream is tried once; the event reaches the succeeding ones and the dead list is exactly the failing ones |
| Sessions.Prune | kernel-service/src/main/java/org/logan/kernel/controller/MessageController.java:364 | the open streams left are exactly those not on the dead list |
| Sessions.Loopback | kernel-service/src/main/java/org/logan/kernel/controller/MessageController.java:240 | no sender is never a loopback; a sender equal to the recipient always is; a loopback means the two are equal ignoring case |
| Sessions.ForwardedResult | kernel-service/src/main/java/org/logan/kernel/controller/MessageController.java:257-261 | a chat_result from the agent to orchestrator-agent that dispatches as chat_result with the same payload, and is a loopback exactly when the agent is the orchestrator |
| Sessions.PayloadOf | kernel-service/src/main/java/org/logan/kernel/controller/MessageController.java:77 | a map payload is used, a null payload gives null, and any other payload fails the cast with a server error |
| Sessions.SessionTable.constructor | kernel-service/src/main/java/org/logan/kernel/controller/MessageController.java:18 | the table starts empty |
| Sessions.SessionTable.Remaining | kernel-service/src/main/java/org/logan/kernel/controller/MessageController.java:289 | the number of agents still active in a session |
| Sessions.SessionTable.ComputeIfAbsent | kernel-service/src/main/java/org/logan/kernel/controller/MessageController.java:84 | the session under the id, created empty if absent; every other session is kept |
| Sessions.SessionTable.Put | kernel-service/src/main/java/org/logan/kernel/controller/MessageController.java:199-200 | a fresh empty session replaces any under the id |
| Sessions.SessionTable.Remove | kernel-service/src/main/java/org/logan/kernel/controller/MessageController.java:221 | the id leaves the table |
| Sessions.SessionTable.Log | kernel-service/src/main/java/org/logan/kernel/controller/MessageController.java:92-93 | one session becomes Logged; the others are untouched |
| Sessions.SessionTable.Audit | kernel-service/src/main/java/org/logan/kernel/controller/MessageController.java:151 | one session becomes Audited; the others are untouched |
| Sessions.SessionTable.Join | kernel-service/src/main/java/org/logan/kernel/controller/MessageController.java:116 | one session becomes Joined; the others are untouched |
| Sessions.SessionTable.Finish | kernel-service/src/main/java/org/logan/kernel/controller/MessageController.java:251 | one session becomes Finished; the others are untouched |
| Sessions.SessionTable.LogAt | kernel-service/src/main/java/org/logan/kernel/controller/MessageController.java:84-93 | the session (created if absent) becomes Logged |
| Sessions.SessionTable.AuditAt | kernel-service/src/main/java/org/logan/kernel/controller/MessageController.java:182-189 | the session (created if absent) becomes Audited |
| Sessions.SessionTable.JoinAt | kernel-service/src/main/java/org/logan/kernel/controller/MessageController.java:140-141 | the session (created if absent) becomes Joined |
| Sessions.SessionTable.Finalize | kernel-service/src/main/java/org/logan/kernel/controller/MessageController.java:297-306 | the orchestrator's result removes the session and completes its future with the aggregate of what it recorded |
| Sessions.MessageController.constructor | kernel-service/src/main/java/org/logan/kernel/controller/MessageController.java:18-27 | no sessions, no waiters, no streams, no queued work |
| Sessions.MessageController.OpenStream | kernel-service/src/main/java/org/logan/kernel/controller/MessageController.java:31-53 | a new stream joins the open ones with nothing delivered |
| Sessions.MessageController.CloseStream | kernel-service/src/main/java/org/logan/kernel/controller/MessageController.java:38-50 | a completed, timed-out or failed stream leaves the open ones |
| Sessions.MessageController.Broadcast | kernel-service/src/main/java/org/logan/kernel/controller/MessageController.java:354-365 | the open streams become the survivors and each survivor's record gains the event |
| Sessions.MessageController.Heartbeat | kernel-service/src/main/java/org/logan/kernel/controller/MessageController.java:57-67 | the heartbeat event is broadcast |
| Sessions.MessageController.RegisterAgentWaiter | kernel-service/src/main/java/org/logan/kernel/controller/MessageController.java:378-381 | the waiter table becomes RegisteredWaiter of the old one |
| Sessions.MessageController.CompleteAgentWaiter | kernel-service/src/main/java/org/logan/kernel/controller/MessageController.java:383-387 | the waiter table becomes CompletedWaiter of the old one, and stays sound |
| Sessions.MessageController.RegisterWaiter | kernel-service/src/main/java/org/logan/kernel/controller/MessageController.java:334-351 | a non-string id fails, a missing id is a bad request, and two ids register a waiter and are echoed |
| Sessions.MessageController.Route | kernel-service/src/main/java/org/logan/kernel/controller/MessageController.java:214 | a null recipient fails; otherwise the envelope goes to the registered recipient, or to nobody |
| Sessions.MessageController.RunNextDelegation | kernel-service/src/main/java/org/logan/kernel/controller/MessageController.java:154-168 | the oldest queued delegation leaves the queue and its chat goes to the target when that is registered |
| Sessions.MessageController.LogTo | kernel-service/src/main/java/org/logan/kernel/controller/MessageController.java:84-93 | the session (created if absent) becomes Logged and the table keeps growing |
| Sessions.MessageController.AuditTo | kernel-service/src/main/java/org/logan/kernel/controller/MessageController.java:182-189 | the session (created if absent) becomes Audited and the table keeps growing |
| Sessions.MessageController.JoinTo | kernel-service/src/main/java/org/logan/kernel/controller/MessageController.java:140-141 | the session (created if absent) becomes Joined and the table keeps growing |
| Sessions.MessageController.HandleStatusUpdate | kernel-service/src/main/java/org/logan/kernel/controller/MessageController.java:81-104 | the reasoning event is logged in the session and broadcast; a null payload or a non-string agent id fails first, and a null agent id fails only at the reply |
| Sessions.MessageController.HandleRegisterPlan | kernel-service/src/main/java/org/logan/kernel/controller/MessageController.java:107-128 | a missing target is a bad request, a null session fails, and otherwise the target joins the session; a null sender fails after that |
| Sessions.MessageController.Delegate | kernel-service/src/main/java/org/logan/kernel/controller/MessageController.java:143-168 | the delegation event is audited and broadcast, and the delegation is queued |
| Sessions.MessageController.HandleDelegation | kernel-service/src/main/java/org/logan/kernel/controller/MessageController.java:131-176 | a missing target is a bad request and a null session fails; otherwise the target joins, and with a message and a sender the delegation is audited, broadcast and queued |
| Sessions.MessageController.JoinAndDelegate | kernel-service/src/main/java/org/logan/kernel/controller/MessageController.java:140-175 | the target joins; a null message or sender then fails, otherwise the delegation is audited, broadcast, queued and acknowledged |
| Sessions.MessageController.HandleToolEvent | kernel-service/src/main/java/org/logan/kernel/controller/MessageController.java:179-194 | the tool event is audited in its session (created if absent) and not broadcast |
| Sessions.MessageController.HandleChat | kernel-service/src/main/java/org/logan/kernel/controller/MessageController.java:197-215 | a fresh session replaces the id; a null message fails; otherwise the user input is audited and broadcast and the envelope routed, and the reply waits on that session |
| Sessions.MessageController.StartChat | kernel-service/src/main/java/org/logan/kernel/controller/MessageController.java:204-214 | the chat input is audited and broadcast and the envelope routed |
| Sessions.MessageController.AwaitChatResult | kernel-service/src/main/java/org/logan/kernel/controller/MessageController.java:217-230 | a completed session's result is the reply; a timed-out one leaves the table and its events and audit are returned |
| Sessions.MessageController.CompleteAgent | kernel-service/src/main/java/org/logan/kernel/controller/MessageController.java:251-273 | the agent is finished, its waiter completed, and its result forwarded to a registered orchestrator unless it is the orchestrator |
| Sessions.MessageController.AnnounceResult | kernel-service/src/main/java/org/logan/kernel/controller/MessageController.java:275-290 | the chat_result entry is audited and the notice with the number of agents left is broadcast |
| Sessions.MessageController.FinalizeAndAnnounce | kernel-service/src/main/java/org/logan/kernel/controller/MessageController.java:297-309 | the session is removed, its future completed with the aggregate, and the aggregate broadcast |
| Sessions.MessageController.CompleteAndAnnounce | kernel-service/src/main/java/org/logan/kernel/controller/MessageController.java:251-290 | CompleteAgent then AnnounceResult, with the count taken after the agent finished |
| Sessions.MessageController.RecordResult | kernel-service/src/main/java/org/logan/kernel/controller/MessageController.java:251-316 | every result finishes the agent, completes its waiter, is audited and announced; the orchestrator's also finalizes the session; the reply acknowledges it |
| Sessions.MessageController.HandleChatResult | kernel-service/src/main/java/org/logan/kernel/controller/MessageController.java:234-317 | a loopback is skipped and an unknown session reported, both with no change; a null agent fails; otherwise the result is recorded (ResultRecorded): the agent is finished, its waiter completed, its result forwarded to a registered orchestrator unless it is the orchestrator, the chat_result audited and the notice with the agents still working broadcast; for the orchestrator the session then leaves the table, its future holds the aggregate, and the aggregate is broadcast |
| Sessions.MessageController.HandleDefault | kernel-service/src/main/java/org/logan/kernel/controller/MessageController.java:319-322 | any other type is routed as is; a null recipient fails |
| Sessions.MessageController.PostMessage | kernel-service/src/main/java/org/logan/kernel/controller/MessageController.java:71-330 | a payload that is neither a map nor null fails with no change; otherwise the lower-cased type selects the handler, and the reply and the new session, waiter, stream, task and delivery state are exactly what that handler states (agent_status_update, register_agent_plan, delegation, tool_invocation and tool_result, chat, chat_result, and routing for any other type); whatever the type, every session in the table only grows, except the one a chat replaces; only a chat waits |
| Envelope.NewEnv | shared/src/main/java/org/logan/protocol/MessageEnvelope.java:25-32 | the four-argument constructor keeps the given type, ids and payload, takes a fresh correlation id and the current time, and leaves the signature null |
| Envelope.MessageEnvelope.Empty | shared/src/main/java/org/logan/protocol/MessageEnvelope.java:20-22 | the no-argument constructor leaves every field null |
| Envelope.MessageEnvelope.constructor | shared/src/main/java/org/logan/protocol/MessageEnvelope.java:25-32 | the object holds NewEnv of its arguments |
| Envelope.MessageEnvelope.SetType | shared/src/main/java/org/logan/protocol/MessageEnvelope.java:40-42 | only the type changes |
| Envelope.MessageEnvelope.SetSenderId | shared/src/main/java/org/logan/protocol/MessageEnvelope.java:48-50 | only the sender id changes |
| Envelope.MessageEnvelope.SetRecipientId | shared/src/main/java/org/logan/protocol/MessageEnvelope.java:56-58 | only the recipient id changes |
| Envelope.MessageEnvelope.SetCorrelationId | shared/src/main/java/org/logan/protocol/MessageEnvelope.java:64-66 | only the correlation id changes |
| Envelope.MessageEnvelope.SetPayload | shared/src/main/java/org/logan/protocol/MessageEnvelope.java:72-74 | only the payload changes |
| Envelope.MessageEnvelope.SetSignature | shared/src/main/java/org/logan/protocol/MessageEnvelope.java:80-82 | only the signature changes |
| Envelope.MessageEnvelope.SetTimestamp | shared/src/main/java/org/logan/protocol/MessageEnvelope.java:88-90 | only the timestamp changes |
| Envelope.Builder.constructor | shared/src/main/java/org/logan/protocol/MessageEnvelope.java:97-104 | a new builder holds a fresh correlation id and the current time, every other field null |
| Envelope.Builder.Type | shared/src/main/java/org/logan/protocol/MessageEnvelope.java:106-109 | only the type changes, and the same builder is returned |
| Envelope.Builder.SenderId | shared/src/main/java/org/logan/protocol/MessageEnvelope.java:111-114 | only the sender id changes, and the same builder is returned |
| Envelope.Builder.RecipientId | shared/src/main/java/org/logan/protocol/MessageEnvelope.java:116-119 | only the recipient id changes, and the same builder is returned |
| Envelope.Builder.CorrelationId | shared/src/main/java/org/logan/protocol/MessageEnvelope.java:121-124 | only the correlation id changes, and the same builder is returned |
| Envelope.Builder.Payload | shared/src/main/java/org/logan/protocol/MessageEnvelope.java:126-129 | only the payload changes, and the same builder is returned |
| Envelope.Builder.Signature | shared/src/main/java/org/logan/protocol/MessageEnvelope.java:131-134 | only the signature changes, and the same builder is returned |
| Envelope.Builder.Timestamp | shared/src/main/java/org/logan/protocol/MessageEnvelope.java:136-139 | only the timestamp changes, and the same builder is returned |
| Envelope.Builder.Build | shared/src/main/java/org/logan/protocol/MessageEnvelope.java:141-151 | a new envelope holding all seven builder fields |
| Envelope.BuildWithDefaults | shared/src/main/java/org/logan/protocol/MessageEnvelope.java:93-151 | building with type, ids and payload set gives the same envelope as the four-argument constructor with the same fresh id and time |
| AgentPersistence.Upserted | kernel-service/src/main/java/org/logan/kernel/persistence/AgentPersistenceService.java:18-25 | the row under the id becomes ACTIVE with the given type and state, keeping any endpoint it had; every other row is unchanged |
| AgentPersistence.UpsertedWithEndpoint | kernel-service/src/main/java/org/logan/kernel/agent/AgentFactory.java:71 | the four-argument upsert the factory calls leaves an ACTIVE row with the given type, state and endpoint; every other row is unchanged |
| AgentPersistence.TerminatedRow | kernel-service/src/main/java/org/logan/kernel/persistence/AgentPersistenceService.java:28-35 | an existing row only changes its status to TERMINATED; an absent id changes nothing |
| AgentPersistence.ReactivatedAfterTermination | kernel-service/src/main/java/org/logan/kernel/persistence/AgentPersistenceService.java:18-35 | a terminated agent upserted again is ACTIVE with its new type and state and its old endpoint |
| AgentPersistence.TerminatedNotActive | kernel-service/src/main/java/org/logan/kernel/persistence/AgentPersistenceService.java:28-39 | after markTerminated the active rows are the old ones minus that agent's |
| AgentPersistence.AgentPersistenceService.constructor | kernel-service/src/main/java/org/logan/kernel/persistence/AgentPersistenceService.java:13-15 | the table starts empty |
| AgentPersistence.AgentPersistenceService.FindById | kernel-service/src/main/java/org/logan/kernel/persistence/AgentPersistenceService.java:19 | the row under the id, or nothing when there is none |
| AgentPersistence.AgentPersistenceService.UpsertActive | kernel-service/src/main/java/org/logan/kernel/persistence/AgentPersistenceService.java:18-25 | the table becomes Upserted of the old one |
| AgentPersistence.AgentPersistenceService.UpsertActiveWithEndpoint | kernel-service/src/main/java/org/logan/kernel/agent/AgentFactory.java:71 | the table becomes UpsertedWithEndpoint of the old one |
| AgentPersistence.AgentPersistenceService.MarkTerminated | kernel-service/src/main/java/org/logan/kernel/persistence/AgentPersistenceService.java:28-35 | the table becomes TerminatedRow of the old one |
| AgentPersistence.AgentPersistenceService.LoadActive | kernel-service/src/main/java/org/logan/kernel/persistence/AgentPersistenceService.java:37-39 | exactly the ACTIVE rows, one per agent id |
| AgentPersistence.ActiveRows | kernel-service/src/main/java/org/logan/kernel/persistence/AgentPersistenceService.java:37-39 | findByStatus("ACTIVE"): every ACTIVE row of the table is included, and every included row is an ACTIVE row of the table |
| Registry.TypeName | kernel-service/src/main/java/org/logan/kernel/agent/SpawnerBedrockAgent.java:19-21 | getType: BEDROCK for a Bedrock agent, BEDROCK_SPAWNER for a Bedrock spawner and nothing else of the two, both already upper case, and a plain spawner's declared type |
| Registry.StopHook | kernel-service/src/main/java/org/logan/kernel/agent/BedrockAgent.java:713-715 | onStop of the agent's own id; a Bedrock agent or Bedrock spawner destroys the process it was started with, and a plain spawner destroys nothing |
| Registry.AgentRegistry.constructor | kernel-service/src/main/java/org/logan/kernel/agent/AgentRegistry.java:16-18 | no agents, no hook calls, and the given persistence service |
| Registry.AgentRegistry.RegisterAgent | kernel-service/src/main/java/org/logan/kernel/agent/AgentRegistry.java:20-31 | the agent is stored under its id (replacing any there), onStart is called, and an ACTIVE row with a null state is upserted |
| Registry.AgentRegistry.DeregisterAgent | kernel-service/src/main/java/org/logan/kernel/agent/AgentRegistry.java:33-46 | a present agent is removed, its onStop runs and its row is marked TERMINATED; an absent id changes nothing |
| Registry.AgentRegistry.GetAgent | kernel-service/src/main/java/org/logan/kernel/agent/AgentRegistry.java:48-50 | the agent under the id, or null when there is none |
| Registry.AgentRegistry.HasAgent | kernel-service/src/main/java/org/logan/kernel/controller/MessageController.java:156 | the undeclared `hasAgent` the controller calls: true exactly when an agent is registered under the id |
| Registry.AgentRegistry.ListAgentIds | kernel-service/src/main/java/org/logan/kernel/agent/AgentRegistry.java:61-63 | exactly the ids that have an agent |
| Registry.AgentRegistry.RouteMessage | kernel-service/src/main/java/org/logan/kernel/agent/AgentRegistry.java:52-59 | a null recipient fails; a registered recipient receives the envelope; any other recipient receives nothing |
| Factory.ChooseId | kernel-service/src/main/java/org/logan/kernel/agent/AgentFactory.java:27-29 | a null or empty id is replaced by a fresh one; any other id is kept |
| Factory.ClassifyIgnoresCase | kernel-service/src/main/java/org/logan/kernel/agent/AgentFactory.java:30-37 | a type is BEDROCK or BEDROCK_SPAWNER exactly when it equals one of them ignoring case, and every other type is rejected |
| Factory.AssignedEndpoint | kernel-service/src/main/java/org/logan/kernel/agent/AgentFactory.java:58 | a given endpoint is kept; otherwise http://localhost: and the free port |
| Factory.EndpointAlive | kernel-service/src/main/java/org/logan/kernel/agent/AgentFactory.java:101-119 | a null endpoint, a status other than 200 and a failed request all count as dead |
| Factory.ClassifyType | kernel-service/src/main/java/org/logan/kernel/agent/AgentFactory.java:26-38 | a null type fails as a null type, any other rejected type fails naming that type, and an accepted type is never a plain spawner |
| Factory.TypeNameClassifies | kernel-service/src/main/java/org/logan/kernel/agent/AgentFactory.java:30-37 | the name a Bedrock agent or Bedrock spawner reports through getType selects that same kind in createAgent's switch |
| Factory.AgentFactory.constructor | kernel-service/src/main/java/org/logan/kernel/agent/AgentFactory.java:21-24 | the factory holds the registry and the persistence service the registry writes to |
| Factory.AgentFactory.Spawn | kernel-service/src/main/java/org/logan/kernel/agent/AgentFactory.java:56-98 | a process that starts is recorded ACTIVE with its endpoint and registered; a process that fails to start leaves registry and table unchanged |
| Factory.AgentFactory.CreateBedrockAgent | kernel-service/src/main/java/org/logan/kernel/agent/AgentFactory.java:77-98 | Spawn of a Bedrock agent |
| Factory.AgentFactory.CreateSpawnerAgent | kernel-service/src/main/java/org/logan/kernel/agent/AgentFactory.java:56-74 | Spawn of a spawner agent |
| Factory.AgentFactory.CreateAgent | kernel-service/src/main/java/org/logan/kernel/agent/AgentFactory.java:26-38 | an unknown or null type fails before anything changes; otherwise the chosen id is spawned with a fresh endpoint |
| Factory.AgentFactory.RehydrateAgent | kernel-service/src/main/java/org/logan/kernel/agent/AgentFactory.java:41-53 | a live endpoint is reattached without spawning or registering; a dead one is respawned under the same id |
| Lifecycle.Registered | kernel-service/src/main/java/org/logan/kernel/agent/AgentRegistry.java:20-31 | after registerAgent the agent sits under its id and its row is ACTIVE |
| Lifecycle.Deregistered | kernel-service/src/main/java/org/logan/kernel/agent/AgentRegistry.java:33-46 | after deregisterAgent no agent sits under the id |
| Lifecycle.Created | kernel-service/src/main/java/org/logan/kernel/agent/AgentFactory.java:26-38 | a rejected type changes nothing; an accepted one spawns under the chosen id with the oracle's process, the agent is in the table and its row is ACTIVE, and any failure changes nothing |
| Lifecycle.Rehydrated | kernel-service/src/main/java/org/logan/kernel/agent/AgentFactory.java:41-54 | the agent keeps its id and is a spawner exactly for a BEDROCK_SPAWNER type; a live endpoint is reattached with no process and no change, a dead one respawns, and a failure means a dead endpoint and a failed start |
| Lifecycle.SecondRegistrationRepeatsOnStart | kernel-service/src/main/java/org/logan/kernel/config/AgentBootstrapLoader.java:29-31 | registering an agent the factory just spawned again only repeats its onStart hook; agents and rows stay as the factory left them |
| Lifecycle.UnknownTypeChangesNothing | kernel-service/src/main/java/org/logan/kernel/agent/AgentFactory.java:30-37 | an unknown or null type fails and leaves agents, hooks and rows unchanged |
| Lifecycle.LiveEndpointReattached | kernel-service/src/main/java/org/logan/kernel/agent/AgentFactory.java:42-46 | a live endpoint gives an agent under the same id and endpoint, with no process, and changes nothing |
| Lifecycle.DeadEndpointRespawned | kernel-service/src/main/java/org/logan/kernel/agent/AgentFactory.java:47-52 | a dead endpoint is replaced by a new process under the same id on a fresh localhost port, registered under that id |
| Bootstrap.ReattachedExactlyWhenLive | kernel-service/src/main/java/org/logan/kernel/config/AgentBootstrapLoader.java:22-30 | a definition is reattached without a new process exactly when it has an id, an endpoint and a Bedrock type and the endpoint answers its health check |
| Bootstrap.ObtainedIsRegistered | kernel-service/src/main/java/org/logan/kernel/config/AgentBootstrapLoader.java:20-35 | every agent obtained is registered under its id with an ACTIVE row; a failed definition changes nothing |
| Bootstrap.InitAllAppend | kernel-service/src/main/java/org/logan/kernel/config/AgentBootstrapLoader.java:19-36 | running the definitions of a + b is running a and then b |
| Bootstrap.FailureIsolated | kernel-service/src/main/java/org/logan/kernel/config/AgentBootstrapLoader.java:33-35 | a failing definition does not stop the ones after it |
| Bootstrap.InitAgents | kernel-service/src/main/java/org/logan/kernel/config/AgentBootstrapLoader.java:17-38 | a null list changes nothing; otherwise the outcome is InitAll over the definitions in order |
| Bootstrap.InitOne | kernel-service/src/main/java/org/logan/kernel/config/AgentBootstrapLoader.java:20-35 | one definition is rehydrated or created, then registered; a failure is caught and changes nothing |
| Bootstrap.RestoredUnderOwnId | kernel-service/src/main/java/org/logan/kernel/config/PersistenceBootstrap.java:20-27 | a row that rehydrates ends up registered under its own id with an ACTIVE row |
| Bootstrap.RestoreFailureChangesNothing | kernel-service/src/main/java/org/logan/kernel/config/PersistenceBootstrap.java:29-31 | a row whose rehydration fails changes nothing |
| Bootstrap.LoadPersistedAgents | kernel-service/src/main/java/org/logan/kernel/config/PersistenceBootstrap.java:19-33 | every ACTIVE row is rehydrated and registered, in loadActive's order |
| Bootstrap.RestoreStep | kernel-service/src/main/java/org/logan/kernel/config/PersistenceBootstrap.java:21-31 | one row: hooks only grow, no registered agent disappears, and a row whose endpoint is alive or whose respawn starts a process ends with an agent under its own id |
| Bootstrap.RestoreAll | kernel-service/src/main/java/org/logan/kernel/config/PersistenceBootstrap.java:20-32 | the restore loop as a fold: hooks only grow and no registered agent disappears |
| Bootstrap.RestoreAllRegistersRestorable | kernel-service/src/main/java/org/logan/kernel/config/PersistenceBootstrap.java:20-32 | every row whose endpoint is alive or whose respawn starts a process ends with an agent under its own id, whatever the other rows do |
| Bootstrap.UpsertedRowIsRespawned | kernel-service/src/main/java/org/logan/kernel/persistence/AgentPersistenceService.java:18-25 | a row the service's own upsert creates has no endpoint, so at the next start that agent is always respawned |
| Bootstrap.SpawnedRowIsReattached | kernel-service/src/main/java/org/logan/kernel/agent/AgentFactory.java:71 | with the endpoint recorded, an agent whose process still answers is reattached under the same id and endpoint with no new process |
| Spawners.ToSpawnRequest | kernel-service/src/main/java/org/logan/kernel/agent/SpawnerBedrockAgent.java:28 | a null payload converts to a null request, and only a map with no property other than agentId and agentType converts to a request |
| Spawners.KillTarget | kernel-service/src/main/java/org/logan/kernel/agent/SpawnerBedrockAgent.java:39-40 | a target comes only from a map with no property other than agentId |
| Spawners.SpawnWorld | kernel-service/src/main/java/org/logan/kernel/agent/SpawnerBedrockAgent.java:27-37 | an unconvertible payload changes nothing; otherwise no agent disappears, at most the chosen id is added, and every other agent stays as it was |
| Spawners.KillWorld | kernel-service/src/main/java/org/logan/kernel/agent/SpawnerBedrockAgent.java:38-46 | without a target nothing changes; with one, the agent table loses exactly that id |
| Spawners.SpawnDefaultsToBedrock | kernel-service/src/main/java/org/logan/kernel/agent/SpawnerBedrockAgent.java:27-34 | a SPAWN with no or a blank agentType makes a BEDROCK agent on a fresh localhost port under the requested id (a fresh id when none), and it is registered |
| Spawners.UnspecifiedTypeRejected | kernel-service/src/main/java/org/logan/kernel/agent/SpawnerAgent.java:39-46 | a SpawnerAgent's SPAWN without a type asks the factory for NOT_SPECIFIED, which fails, and nothing changes |
| Spawners.KillRemovesOnlyTarget | kernel-service/src/main/java/org/logan/kernel/agent/SpawnerBedrockAgent.java:38-42 | AGENT_KILL removes the named agent and leaves every other agent as it was |
| Spawners.KillWithoutTargetIsNoOp | kernel-service/src/main/java/org/logan/kernel/agent/SpawnerBedrockAgent.java:38-45 | AGENT_KILL without an agentId, or with a payload that does not convert, changes nothing |
| Spawners.SelfTerminateRemovesSelf | kernel-service/src/main/java/org/logan/kernel/agent/SpawnerBedrockAgent.java:47-49 | SELF_TERMINATE deregisters the spawner itself, calls its onStop and marks its row TERMINATED, and nothing else |
| Spawners.SpawnerBedrockAgent.constructor | kernel-service/src/main/java/org/logan/kernel/agent/SpawnerBedrockAgent.java:11-16 | the spawner wraps its Bedrock behaviour and holds the registry and the factory |
| Spawners.SpawnerBedrockAgent.GetType | kernel-service/src/main/java/org/logan/kernel/agent/SpawnerBedrockAgent.java:19-21 | the type is BEDROCK_SPAWNER |
| Spawners.SpawnerBedrockAgent.HandleMessage | kernel-service/src/main/java/org/logan/kernel/agent/SpawnerBedrockAgent.java:24-59 | SPAWN, AGENT_KILL and SELF_TERMINATE act on registry and table only; any other message is handled as by a Bedrock agent and leaves registry and table alone |
| Spawners.SpawnerBedrockAgent.RunCommand | kernel-service/src/main/java/org/logan/kernel/agent/SpawnerBedrockAgent.java:27-50 | the registry and the table become SpawnerBedrockWorld of the old ones |
| Spawners.SpawnerAgent.constructor | kernel-service/src/main/java/org/logan/kernel/agent/SpawnerAgent.java:13-18 | the spawner holds its id, the registry, the factory and its type |
| Spawners.SpawnerAgent.HandleMessage | kernel-service/src/main/java/org/logan/kernel/agent/SpawnerAgent.java:36-63 | the registry and the table become SpawnerWorld of the old ones: SPAWN and AGENT_KILL act, anything else only logs |
| Messages.FromEnvelope | kernel-service/src/main/java/org/logan/kernel/persistence/MessageEntity.java:30-42 | a null payload fails; otherwise the row copies the six header fields, stores the payload's text (exact for strings, integers, booleans and null), is PENDING and is stamped with the current time |
| Messages.RowDeterminesHeaders | kernel-service/src/main/java/org/logan/kernel/persistence/MessageEntity.java:30-42 | two envelopes stored at the same time with the same row agree on every header field and their payloads print alike |
| Messages.PayloadTextLosesType | kernel-service/src/main/java/org/logan/kernel/persistence/MessageEntity.java:36 | the string "7" and the number 7 give the same row: only the payload's text is kept |
| Routing.RouteSavesThenDispatchesOnce | kernel-service/src/main/java/org/logan/kernel/messaging/KernelRouter.java:26-40 | an envelope is saved PENDING under a new id, then dispatched exactly once: to the registered recipient (and saved again DELIVERED) or on the recipient's channel (and left PENDING); no other row changes |
| Routing.RouteFailures | kernel-service/src/main/java/org/logan/kernel/messaging/KernelRouter.java:28-38 | a null payload stores and sends nothing; a null recipient is stored and then fails before any dispatch |
| Routing.LocalMessageBus.constructor | kernel-service/src/main/java/org/logan/kernel/messaging/LocalMessageBus.java:11-13 | the bus holds the registry |
| Routing.LocalMessageBus.Send | kernel-service/src/main/java/org/logan/kernel/messaging/LocalMessageBus.java:15-22 | on a registry that keeps every agent under its own id, the agent registered under the recipient gets the envelope and its id is the recipient; no agent means no delivery; a null recipient fails |
| Routing.KernelRouter.constructor | kernel-service/src/main/java/org/logan/kernel/messaging/KernelRouter.java:16-24 | an empty messages table and trace, over the given registry and local bus |
| Routing.KernelRouter.Save | kernel-service/src/main/java/org/logan/kernel/messaging/KernelRouter.java:29 | the row is stored under its id, a new id advances the generator, and the save is traced |
| Routing.KernelRouter.RouteEnvelope | kernel-service/src/main/java/org/logan/kernel/messaging/KernelRouter.java:26-40 | the table, the id generator, the trace and the outcome are those of Route |
| Tools.Strict | bedrock-agent/src/main/java/org/logan/ToolRegistry.java:46-60 | a value of an unknown class fails; maps keep their keys and lists their length |
| Tools.Lenient | bedrock-agent/src/main/java/org/logan/controller/ToolController.java:145-164 | null and every unknown class become Document null; maps keep their keys and lists their length |
| Tools.Plain | bedrock-agent/src/main/java/org/logan/controller/ToolController.java:167-184 | the result is a plain tree, null exactly for Document null; maps keep their keys and lists their length |
| Tools.PlainRoundTrip | bedrock-agent/src/main/java/org/logan/controller/ToolController.java:145-184 | a plain tree converted to a Document and back is itself |
| Tools.DocumentRoundTrip | bedrock-agent/src/main/java/org/logan/controller/ToolController.java:145-184 | a Document converted to a plain tree and back is itself |
| Tools.StrictAgreesWithLenient | bedrock-agent/src/main/java/org/logan/ToolRegistry.java:46-60 | the registry's converter fails exactly on trees holding an unknown class, and elsewhere agrees with the controller's |
| Tools.ToolRegistry.constructor | bedrock-agent/src/main/java/org/logan/ToolRegistry.java:10 | no tools |
| Tools.ToolRegistry.Register | bedrock-agent/src/main/java/org/logan/ToolRegistry.java:12-14 | the tool is stored under its name, replacing any tool of that name |
| Tools.ToolRegistry.Get | bedrock-agent/src/main/java/org/logan/ToolRegistry.java:16-22 | the tool under the name, or null for an unknown name |
| Tools.ToolRegistry.HasTool | bedrock-agent/src/main/java/org/logan/ToolRegistry.java:28-30 | true exactly when get finds a tool |
| Tools.ToolRegistry.Execute | bedrock-agent/src/main/java/org/logan/ToolRegistry.java:32-44 | an unknown name and a non-map input fail; otherwise the tool runs on exactly the converted entries, and an entry of an unknown class fails before it runs |
| Tools.ToolExecutor.constructor | bedrock-agent/src/main/java/org/logan/ToolExecutor.java:9-11 | the executor holds the registry |
| Tools.ToolExecutor.Run | bedrock-agent/src/main/java/org/logan/ToolExecutor.java:13-20 | an unknown name gives the not-found map, otherwise exactly the tool's answer; nothing changes |
| Tools.RequestedTool | bedrock-agent/src/main/java/org/logan/controller/ToolController.java:36-47 | the registered tool carries the request's name and consumer service, and its schema is the converted request schema |
| Tools.ToolController.constructor | bedrock-agent/src/main/java/org/logan/controller/ToolController.java:24-28 | the controller holds the registry |
| Tools.ToolController.RegisterTool | bedrock-agent/src/main/java/org/logan/controller/ToolController.java:34-94 | the request's tool is registered under the request's name and the confirmation names it and its consumer |
| Tools.ToolController.ExecuteTool | bedrock-agent/src/main/java/org/logan/controller/ToolController.java:115-138 | failing casts fail with nothing run; an unknown tool gets the not-found reply; a known tool runs once on the converted input and its output is returned as a plain tree |
| Tools.NotFoundReply | bedrock-agent/src/main/java/org/logan/controller/ToolController.java:121 | the reply has exactly "ok", which is false, and a message "Tool not found: " followed by the name |
| Tools.ToolController.ListTools | bedrock-agent/src/main/java/org/logan/controller/ToolController.java:101-109 | the list succeeds exactly when every tool has a name, a description and a plain schema, and then holds one entry per tool |

## Left out

- Language-model calls (Bedrock Converse for the planner and the reasoner): their reply bodies are oracle inputs, and Jackson's parsing is the function parameter `parse`.
- `discoverAllAgentTools`: the HTTP discovery of each agent's tools is left out. Its printed result is the oracle `inventoryText`.
- `registerAgentToKernel` is not modelled. Nothing in the repository calls it.
- HTTP transport (`HttpClient.sendAsync`, `RestTemplate`, status codes): every send to the kernel is an outbox entry.
- `Retries.RetriesBounded` models only the attempt counter and the backoff delays. Scheduling on `SCHED` and the request bodies are left out.
- Concurrency: `ConcurrentHashMap` thread safety, `synchronized`, the cached executor and the heartbeat scheduler are abstracted. A delegation the controller accepts is queued in `tasks` and run by `RunNextDelegation`.
- `Sessions.MessageController.HandleChat` ends at the blocking `waitForCompletion(60 s)`. `AwaitChatResult` is that wait's end: completed if the orchestrator finalized the session meanwhile, otherwise timed out. Races between a timeout and a completion are not modelled.
- SSE I/O: a stream is an id and the list of events it has been sent. A failing send is the oracle `fails`, and emitter callbacks are `CloseStream`.
- Clocks (`new Date()`, `Instant.now`), `UUID.randomUUID`, free ports, `ProcessBuilder.start`, `process.destroy` and the health probe are parameters. A process is an opaque handle.
- The error text of caught exceptions (`e.getMessage()`) is not modelled. A thrown exception in a controller is the reply `ServerError`, and in an agent handler it is "no change".
- Logging (`System.out`, `printStackTrace`) is left out.
- Messages.FromEnvelope: the stored payload text is exact only for strings, integers, booleans and null. `Json.ToText` renders every map as `{...}`, every list as `[...]` and every double as `<double>`, so two different map payloads give the same row in the model, though not in Java. `Map.toString`'s rendering depends on the map class's iteration order and is not modelled.
- Sessions.ExtractSessionId: a sessionId that is a double, a list or a map becomes the `Json.ToText` placeholder, not its Java `toString`. So the payloads `{"sessionId": 1.5}` and `{"sessionId": 2.5}` fall into one session in the model, while Java keeps "1.5" and "2.5" apart. Java's `Double.toString` and `Map.toString` renderings are not modelled.
- Orchestration.ChatResultMessage: a non-string `agentId` in a chat_result is rendered by `Json.ToText` as well, so two double, list or map agent ids give the same waiter key in the model where Java's keys differ. `Bedrock.BedrockAgent.HandleChatResult` inherits this.
- Orchestration.PlanText: the "Generated plan" update prints each step as `{agent=..., action=...}` only. BedrockAgent.java line 223 prints the raw plan maps, with every key they hold, in the map's own iteration order.
- ModelReplies.VerdictFromFields, Sessions.ToolEvent and Spawners.ToSpawnRequest take the same `Json.ToText` rendering for a non-string reason, tool name or agent id and type. They are exact for integers, booleans and strings, and give placeholders for doubles, lists and maps.
- Redis publishing is the trace event `Published(channel, envelope)`. MessagePublisher and MessageSubscriber are not part of this model.
- The `messages` table's generated ids are a counter. JPA save semantics beyond "store this row under this id" are not modelled.
- Numbers in Document conversion are exact reals. `Tools.PlainRoundTrip` covers trees whose numbers are already doubles; the rounding of `Number.doubleValue` on other numbers is not modelled.
- `ToolRegistry.find` and `all` are not separate members. `find` is the same lookup as `Tools.ToolRegistry.Get`, and `all` is the table that `ListTools` walks.
- `Tools.ToolController.RegisterTool` does not model the body of the registered tool's executor (an HTTP POST to its consumer service). Each call's answer is the oracle `run`.
- `Agent.onStart` and `onStop`: a hook call is recorded in the registry's `hooks` list. Only a Bedrock agent's `onStop`, which destroys its process, has an effect beyond logging.
- Orchestration.FileCurrent: every BedrockAgent in the kernel reads and writes the same file, `orchestrator_state.json` in the working directory (BedrockAgent.java lines 404 and 413). That includes configured agents, agents a SpawnerBedrockAgent spawns, and agents the bootstrap restores. The model gives each agent its own `saved` file and takes every read and write to succeed, while Java catches and only logs their exceptions (lines 405-407 and 420-422). So `FileCurrent`, and every "state file current" clause built on it (`OrchestrationLemmas.HandleMessageKeepsValid`, `Bedrock.BedrockAgent.HandleMessage` and the other `...KeepsValid` lemmas), holds only for a single writer whose writes succeed. Another agent's write, a failed write and a failed load are not modelled.
- Text case mapping is ASCII only. Java's full Unicode `toLowerCase` and `equalsIgnoreCase` are not modelled.

## Findings

| source | as written | input that shows it | evidently intended | confidence | as-written member | corrected member |
|---|---|---|---|---|---|---|
| kernel-service/src/main/java/org/logan/kernel/persistence/AgentPersistenceService.java:18-25 | the only `upsertActive` takes no endpoint, so a new agent's row records none, and at the next start `PersistenceBootstrap` never finds it alive and respawns it | an agent `a` spawned at `http://localhost:5000` whose process is still serving when the kernel restarts | record the endpoint, as the four-argument call at AgentFactory.java:71 expects, so that a live agent is reattached under the same id and endpoint with no new process | not executed | Bootstrap.UpsertedRowIsRespawned | Bootstrap.SpawnedRowIsReattached |
