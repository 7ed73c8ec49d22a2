/**
 * MessageController: the kernel's HTTP entry point for envelopes. It keeps
 * one PendingSession per chat session (append-only event and audit lists,
 * the agents still working and those done, and a complete-once result),
 * single-use waiters keyed by session and agent, and the open SSE streams.
 *
 * Clocks are the `now` parameters, a failing SSE send is the oracle
 * `fails`, and the executor's queue is the `tasks` field. A chat request is
 * split at its blocking wait: HandleChat runs up to the wait and
 * AwaitChatResult is its end, with any other messages processed between.
 */
module Sessions {
  import opened Wrappers
  import opened Json
  import Text
  import opened Envelope
  import opened Registry

  const DefaultSession := "default-session"
  const Orchestrator := "orchestrator-agent"

  /**
   * extractSessionId: the payload's own sessionId, else the sessionId of a
   * map under "result", else "default-session" (also for a null payload).
   */
  function ExtractSessionId(payload: Option<Fields>): (r: string)
    ensures payload.None? ==> r == DefaultSession
    ensures payload.Some? && Get(payload.value, "sessionId").Str? ==> r == Get(payload.value, "sessionId").s
    ensures payload.Some? && Get(payload.value, "sessionId") != Null ==> r == ToText(Get(payload.value, "sessionId"))
    ensures payload.Some? && Get(payload.value, "sessionId") == Null ==>
              var inner := Get(payload.value, "result");
              (inner.Obj? && Get(inner.fields, "sessionId").Str? ==> r == Get(inner.fields, "sessionId").s) &&
              (inner.Obj? && Get(inner.fields, "sessionId") != Null ==> r == ToText(Get(inner.fields, "sessionId"))) &&
              (inner.Obj? && Get(inner.fields, "sessionId") == Null ==> r == DefaultSession) &&
              (!inner.Obj? ==> r == DefaultSession)
  {
    if payload.None? then DefaultSession
    else
      var sid := Get(payload.value, "sessionId");
      if sid != Null then ToText(sid)
      else
        var inner := Get(payload.value, "result");
        if inner.Obj? then TextOrDefault(Get(inner.fields, "sessionId"), DefaultSession)
        else DefaultSession
  }

  // ---------------------------------------------------------------------
  // PendingSession

  /** A PendingSession's contents. `result` is its future: None until completed. */
  datatype SessionData = SessionData(
    events: seq<Fields>,
    audit: seq<Fields>,
    active: set<string>,
    completed: set<string>,
    result: Option<Fields>)

  const EmptySession := SessionData([], [], {}, {}, None)

  function SessionOf(m: map<string, SessionData>, sid: string): SessionData {
    if sid in m then m[sid] else EmptySession
  }

  /** addEvent and addAudit of the same event. */
  function Logged(d: SessionData, event: Fields): (r: SessionData)
    ensures r.events == d.events + [event] && r.audit == d.audit + [event]
    ensures r.active == d.active && r.completed == d.completed && r.result == d.result
  {
    d.(events := d.events + [event], audit := d.audit + [event])
  }

  /** addAudit alone. */
  function Audited(d: SessionData, event: Fields): (r: SessionData)
    ensures r.audit == d.audit + [event]
    ensures r.events == d.events && r.active == d.active && r.completed == d.completed && r.result == d.result
  {
    d.(audit := d.audit + [event])
  }

  /** registerAgent of a non-null id. */
  function Joined(d: SessionData, agent: string): (r: SessionData)
    ensures agent in r.active && r.active - {agent} == d.active - {agent}
    ensures r.events == d.events && r.audit == d.audit && r.completed == d.completed && r.result == d.result
  {
    d.(active := d.active + {agent})
  }

  /** markAgentCompleted: the agent moves from the active set to the completed set. */
  function Finished(d: SessionData, agent: string): (r: SessionData)
    ensures agent in r.completed && agent !in r.active
    ensures r.active == d.active - {agent} && r.completed - {agent} == d.completed - {agent}
    ensures r.events == d.events && r.audit == d.audit && r.result == d.result
  {
    d.(completed := d.completed + {agent}, active := d.active - {agent})
  }

  /** complete: the first result sticks; later completions change nothing. */
  function CompletedWith(d: SessionData, result: Fields): (r: SessionData)
    ensures d.result.None? ==> r.result == Some(result)
    ensures d.result.Some? ==> r == d
    ensures r.events == d.events && r.audit == d.audit && r.active == d.active && r.completed == d.completed
  {
    if d.result.Some? then d else d.(result := Some(result))
  }

  /** Nothing recorded is ever lost: events, audit, completed agents and the result only grow. */
  predicate AppendOnly(d1: SessionData, d2: SessionData) {
    d1.events <= d2.events && d1.audit <= d2.audit && d1.completed <= d2.completed &&
    (d1.result.Some? ==> d2.result == d1.result)
  }

  /** Every session present both before and after a step only grew in between. */
  ghost predicate Grew(before: map<string, SessionData>, after: map<string, SessionData>) {
    forall k :: GrewAt(before, after, k)
  }

  /** Grew at one key; the quantifier above fires on this term alone. */
  predicate GrewAt(before: map<string, SessionData>, after: map<string, SessionData>, k: string) {
    k in before && k in after ==> AppendOnly(before[k], after[k])
  }

  /** Each of PendingSession's updates loses nothing it recorded. */
  lemma UpdatesAppendOnly(d: SessionData, event: Fields, agent: string, result: Fields)
    ensures AppendOnly(d, Logged(d, event)) && AppendOnly(d, Audited(d, event))
    ensures AppendOnly(d, Joined(d, agent)) && AppendOnly(d, Finished(d, agent))
    ensures AppendOnly(d, CompletedWith(d, result))
  {
    assert d.events + [event] == Logged(d, event).events;
    assert d.audit + [event] == Audited(d, event).audit;
  }

  /** Changing one session to something it grew into keeps the whole table growing. */
  lemma UpdateGrows(before: map<string, SessionData>, sid: string, d: SessionData)
    requires sid in before ==> AppendOnly(before[sid], d)
    ensures Grew(before, before[sid := d])
  {
    var after := before[sid := d];
    forall k ensures GrewAt(before, after, k) {
    }
  }

  /** Each handler step on one session (created if absent) keeps the table growing. */
  lemma StepsGrow(v: map<string, SessionData>, sid: string, event: Fields, agent: string)
    ensures Grew(v, v[sid := Logged(SessionOf(v, sid), event)])
    ensures Grew(v, v[sid := Audited(SessionOf(v, sid), event)])
    ensures Grew(v, v[sid := Joined(SessionOf(v, sid), agent)])
    ensures Grew(v, v[sid := Finished(SessionOf(v, sid), agent)])
  {
    var d := SessionOf(v, sid);
    UpdatesAppendOnly(d, event, agent, map[]);
    UpdateGrows(v, sid, Logged(d, event));
    UpdateGrows(v, sid, Audited(d, event));
    UpdateGrows(v, sid, Joined(d, agent));
    UpdateGrows(v, sid, Finished(d, agent));
  }

  lemma OverwriteTwice<K, V>(m: map<K, V>, k: K, a: V, b: V)
    ensures m[k := a][k := b] == m[k := b]
  {
  }

  lemma OverwriteThenRemove<K, V>(m: map<K, V>, k: K, a: V)
    ensures m[k := a] - {k} == m - {k}
  {
  }

  /** Replacing a session by a new one leaves every other session as it was. */
  lemma ReplaceGrows(v: map<string, SessionData>, sid: string, d: SessionData)
    ensures Grew(v - {sid}, v[sid := d])
  {
    var before := v - {sid};
    var after := v[sid := d];
    forall k ensures GrewAt(before, after, k) {
    }
  }

  /** Dropping a session keeps every other one as it was. */
  lemma RemovalGrows(v: map<string, SessionData>, sid: string)
    ensures Grew(v, v - {sid})
  {
    var after := v - {sid};
    forall k ensures GrewAt(v, after, k) {
    }
  }

  /** Growth composes when no session is dropped and brought back in between. */
  lemma GrowsTransitively(a: map<string, SessionData>, b: map<string, SessionData>, c: map<string, SessionData>)
    requires Grew(a, b) && Grew(b, c)
    requires forall k :: k in a && k in c ==> k in b
    ensures Grew(a, c)
  {
    forall k ensures GrewAt(a, c, k) {
      assert GrewAt(a, b, k) && GrewAt(b, c, k);
    }
  }

  /** A session completes once: the second completion leaves the first result. */
  lemma CompleteOnce(d: SessionData, r1: Fields, r2: Fields)
    ensures CompletedWith(CompletedWith(d, r1), r2) == CompletedWith(d, r1)
    ensures CompletedWith(CompletedWith(d, r1), r2).result == (if d.result.Some? then d.result else Some(r1))
  {
  }

  class PendingSession {
    var events: seq<Fields>
    var audit: seq<Fields>
    var activeAgents: set<string>
    var completedAgents: set<string>
    var future: Option<Fields>

    function Data(): SessionData
      reads this
    {
      SessionData(events, audit, activeAgents, completedAgents, future)
    }

    constructor ()
      ensures Data() == EmptySession
    {
      events := [];
      audit := [];
      activeAgents := {};
      completedAgents := {};
      future := None;
    }

    /** registerAgent: a null id is ignored. */
    method RegisterAgent(agentId: Option<string>)
      modifies this
      ensures agentId.Some? ==> Data() == Joined(old(Data()), agentId.value)
      ensures agentId.None? ==> Data() == old(Data())
    {
      if agentId.Some? {
        activeAgents := activeAgents + {agentId.value};
      }
    }

    method MarkAgentCompleted(agentId: string)
      modifies this
      ensures Data() == Finished(old(Data()), agentId)
    {
      completedAgents := completedAgents + {agentId};
      activeAgents := activeAgents - {agentId};
    }

    /** allAgentsCompleted: no agent is still working. */
    function AllAgentsCompleted(): (r: bool)
      reads this
      ensures r <==> forall a :: a !in Data().active
    {
      activeAgents == {}
    }

    method AddEvent(event: Fields)
      modifies this
      ensures Data() == old(Data()).(events := old(events) + [event])
    {
      events := events + [event];
    }

    method AddAudit(event: Fields)
      modifies this
      ensures Data() == Audited(old(Data()), event)
    {
      audit := audit + [event];
    }

    method Complete(result: Fields)
      modifies this
      ensures Data() == CompletedWith(old(Data()), result)
    {
      if future.None? {
        future := Some(result);
      }
    }
  }

  // ---------------------------------------------------------------------
  // Agent waiters

  /** A waiter future completed with a result; `future` identifies the CompletableFuture. */
  datatype Completion = Completion(sessionId: string, agentId: string, future: nat, result: Fields)

  /** agentWaiters, the next future to be created, and every completion so far. */
  datatype WaiterTable = WaiterTable(waiters: map<string, map<string, nat>>, next: nat, done: seq<Completion>)

  /**
   * Futures are created fresh, each sits under at most one key, and a
   * future that was completed is no longer waiting.
   */
  predicate WaitersValid(t: WaiterTable) {
    (forall s, a :: s in t.waiters && a in t.waiters[s] ==> t.waiters[s][a] < t.next) &&
    (forall s1, a1, s2, a2 ::
       (s1 in t.waiters && a1 in t.waiters[s1] && s2 in t.waiters && a2 in t.waiters[s2] &&
        t.waiters[s1][a1] == t.waiters[s2][a2]) ==> s1 == s2 && a1 == a2) &&
    (forall i :: 0 <= i < |t.done| ==> t.done[i].future < t.next) &&
    (forall i, s, a :: 0 <= i < |t.done| && s in t.waiters && a in t.waiters[s] ==>
       t.done[i].future != t.waiters[s][a])
  }

  /** No future is completed twice. */
  predicate CompletedAtMostOnce(t: WaiterTable) {
    forall i, j :: 0 <= i < j < |t.done| ==> t.done[i].future != t.done[j].future
  }

  /** The waiter tables the controller can be in. */
  type SoundWaiters = t: WaiterTable | WaitersValid(t) && CompletedAtMostOnce(t) witness WaiterTable(map[], 0, [])

  function InnerOf(t: WaiterTable, sid: string): map<string, nat> {
    if sid in t.waiters then t.waiters[sid] else map[]
  }

  /** registerAgentWaiter with a new future: it replaces any waiter under the same key. */
  function RegisteredWaiter(t: WaiterTable, sid: string, aid: string): (r: WaiterTable)
    ensures sid in r.waiters && aid in r.waiters[sid] && r.waiters[sid][aid] == t.next
    ensures r.next == t.next + 1 && r.done == t.done
  {
    WaiterTable(t.waiters[sid := InnerOf(t, sid)[aid := t.next]], t.next + 1, t.done)
  }

  /** completeAgentWaiter: remove the waiter and complete it; without one, nothing changes. */
  function CompletedWaiter(t: WaiterTable, sid: string, aid: string, result: Fields): (r: WaiterTable)
    ensures sid in t.waiters && aid in t.waiters[sid] ==>
              sid in r.waiters && aid !in r.waiters[sid] &&
              r.waiters[sid] == t.waiters[sid] - {aid} &&
              r.done == t.done + [Completion(sid, aid, t.waiters[sid][aid], result)]
    ensures !(sid in t.waiters && aid in t.waiters[sid]) ==> r == t
    ensures r.next == t.next
  {
    if sid in t.waiters && aid in t.waiters[sid] then
      WaiterTable(t.waiters[sid := t.waiters[sid] - {aid}], t.next,
                  t.done + [Completion(sid, aid, t.waiters[sid][aid], result)])
    else t
  }

  lemma RegisterKeepsWaitersValid(t: WaiterTable, sid: string, aid: string)
    requires WaitersValid(t)
    ensures WaitersValid(RegisteredWaiter(t, sid, aid))
    ensures CompletedAtMostOnce(t) ==> CompletedAtMostOnce(RegisteredWaiter(t, sid, aid))
  {
    var r := RegisteredWaiter(t, sid, aid);
    forall s, a | s in r.waiters && a in r.waiters[s]
      ensures r.waiters[s][a] == t.next || (s in t.waiters && a in t.waiters[s] && r.waiters[s][a] == t.waiters[s][a])
      ensures r.waiters[s][a] == t.next ==> s == sid && a == aid
    {
      RegisteredEntry(t, sid, aid, s, a);
    }
  }

  /** Every entry after a registration is the new future under the new key or an old entry. */
  lemma RegisteredEntry(t: WaiterTable, sid: string, aid: string, s: string, a: string)
    requires WaitersValid(t)
    requires s in RegisteredWaiter(t, sid, aid).waiters && a in RegisteredWaiter(t, sid, aid).waiters[s]
    ensures (s, a) == (sid, aid) ==> RegisteredWaiter(t, sid, aid).waiters[s][a] == t.next
    ensures (s, a) != (sid, aid) ==>
              s in t.waiters && a in t.waiters[s] && RegisteredWaiter(t, sid, aid).waiters[s][a] == t.waiters[s][a] < t.next
  {
  }

  /** A completed future is never waiting again, so a later completion cannot repeat it. */
  lemma CompleteKeepsWaitersValid(t: WaiterTable, sid: string, aid: string, result: Fields)
    requires WaitersValid(t) && CompletedAtMostOnce(t)
    ensures WaitersValid(CompletedWaiter(t, sid, aid, result))
    ensures CompletedAtMostOnce(CompletedWaiter(t, sid, aid, result))
  {
    if sid in t.waiters && aid in t.waiters[sid] {
      var f := t.waiters[sid][aid];
      var w := t.waiters[sid := t.waiters[sid] - {aid}];
      var d := t.done + [Completion(sid, aid, f, result)];
      assert CompletedWaiter(t, sid, aid, result) == WaiterTable(w, t.next, d);
      forall s, a | s in w && a in w[s]
        ensures s in t.waiters && a in t.waiters[s] && w[s][a] == t.waiters[s][a]
        ensures w[s][a] < t.next && w[s][a] != f
      {
        if s == sid {
          assert a != aid;
        }
      }
      forall i | 0 <= i < |d|
        ensures d[i].future < t.next
        ensures forall s, a :: s in w && a in w[s] ==> d[i].future != w[s][a]
      {
        if i < |t.done| {
          assert d[i] == t.done[i];
        }
      }
      forall i, j | 0 <= i < j < |d| ensures d[i].future != d[j].future {
        if j < |t.done| {
          assert d[i] == t.done[i] && d[j] == t.done[j];
        } else {
          assert d[i] == t.done[i];
        }
      }
    }
  }

  /** The future a registration creates is the one a later completion for that key completes. */
  lemma RegisterThenComplete(t: WaiterTable, sid: string, aid: string, result: Fields)
    ensures CompletedWaiter(RegisteredWaiter(t, sid, aid), sid, aid, result).done ==
            t.done + [Completion(sid, aid, t.next, result)]
    ensures var r := CompletedWaiter(CompletedWaiter(RegisteredWaiter(t, sid, aid), sid, aid, result), sid, aid, result);
            r == CompletedWaiter(RegisteredWaiter(t, sid, aid), sid, aid, result)
  {
  }

  // ---------------------------------------------------------------------
  // SSE streams

  /** What a stream has delivered so far: nothing for a stream never opened. */
  function SentSoFar<T>(received: map<string, seq<T>>, id: string): seq<T> {
    if id in received then received[id] else []
  }

  /**
   * The send pass of broadcastSse on the record of what each stream has
   * delivered: every open stream whose send succeeds gains the event.
   */
  function Delivered<T>(emitters: set<string>, received: map<string, seq<T>>, event: T,
                        fails: (string, T) -> bool): map<string, seq<T>>
  {
    map id | id in received.Keys + emitters ::
      SentSoFar(received, id) + (if id in emitters && !fails(id, event) then [event] else [])
  }

  /** broadcastSse's removal pass: the streams whose send fails are closed. */
  function Survivors<T>(emitters: set<string>, event: T, fails: (string, T) -> bool): set<string> {
    set id | id in emitters && !fails(id, event)
  }

  /**
   * A broadcast appends the event to exactly the streams that stay open;
   * every other stream's record is what it was, and no stream is opened.
   */
  lemma BroadcastReachesSurvivors<T>(emitters: set<string>, received: map<string, seq<T>>, event: T,
                                     fails: (string, T) -> bool, id: string)
    ensures var open := Survivors(emitters, event, fails);
            var sent := Delivered(emitters, received, event, fails);
            (id in open <==> id in emitters && !fails(id, event)) &&
            (id in open ==> sent[id] == SentSoFar(received, id) + [event]) &&
            (id in received && id !in open ==> sent[id] == received[id]) &&
            open <= emitters
  {
    var open := Survivors(emitters, event, fails);
    var sent := Delivered(emitters, received, event, fails);
    if id in received && id !in open {
      assert sent[id] == received[id] + [];
    }
  }

  /** A stream pruned by one broadcast receives nothing from the next. */
  lemma PrunedStaysSilent<T>(emitters: set<string>, received: map<string, seq<T>>, e1: T, e2: T,
                             fails: (string, T) -> bool, id: string)
    requires id in emitters && fails(id, e1)
    ensures var open1 := Survivors(emitters, e1, fails);
            var sent1 := Delivered(emitters, received, e1, fails);
            id !in Survivors(open1, e2, fails) &&
            Delivered(open1, sent1, e2, fails)[id] == SentSoFar(received, id)
  {
    var open1 := Survivors(emitters, e1, fails);
    var sent1 := Delivered(emitters, received, e1, fails);
    assert id !in open1;
    assert sent1[id] == SentSoFar(received, id) + [];
    assert Delivered(open1, sent1, e2, fails)[id] == sent1[id] + [];
  }

  /** Before any stream is tried, nothing has been delivered. */
  lemma DeliveredToNone<T>(received: map<string, seq<T>>, event: T, fails: (string, T) -> bool)
    ensures Delivered({}, received, event, fails) == received
  {
    var d := Delivered({}, received, event, fails);
    assert d.Keys == received.Keys;
    forall k | k in d ensures d[k] == received[k] {
      assert d[k] == received[k] + [];
    }
  }

  /** Trying one more stream changes that stream's record only. */
  lemma DeliveredStep<T>(seen: set<string>, received: map<string, seq<T>>, event: T,
                         fails: (string, T) -> bool, id: string)
    requires id !in seen
    ensures Delivered(seen + {id}, received, event, fails) ==
            Delivered(seen, received, event, fails)[id := if fails(id, event) then SentSoFar(received, id)
                                                          else SentSoFar(received, id) + [event]]
  {
    var d := Delivered(seen + {id}, received, event, fails);
    var e := Delivered(seen, received, event, fails)[id := if fails(id, event) then SentSoFar(received, id)
                                                           else SentSoFar(received, id) + [event]];
    assert d.Keys == e.Keys;
    forall k | k in d ensures d[k] == e[k] {
    }
  }

  /** One stream tried: it gains the event, or it joins the dead list. */
  method SendOne<T>(ghost seen: set<string>, received: map<string, seq<T>>, event: T, fails: (string, T) -> bool,
                    id: string, sent: map<string, seq<T>>, dead: seq<string>)
    returns (sent': map<string, seq<T>>, dead': seq<string>)
    requires id !in seen && sent == Delivered(seen, received, event, fails)
    requires forall x :: x in dead <==> x in seen && fails(x, event)
    ensures sent' == Delivered(seen + {id}, received, event, fails)
    ensures forall x :: x in dead' <==> x in seen + {id} && fails(x, event)
  {
    DeliveredStep(seen, received, event, fails, id);
    if fails(id, event) {
      dead' := dead + [id];
      sent' := sent[id := SentSoFar(received, id)];
    } else {
      dead' := dead;
      sent' := sent[id := SentSoFar(received, id) + [event]];
    }
  }

  /** The send pass of broadcastSse: each open stream is tried once; the failing ones are collected. */
  method SendToAll<T>(open: set<string>, received: map<string, seq<T>>, event: T, fails: (string, T) -> bool)
    returns (sent: map<string, seq<T>>, dead: seq<string>)
    ensures sent == Delivered(open, received, event, fails)
    ensures forall id :: id in dead <==> id in open && fails(id, event)
  {
    sent := received;
    dead := [];
    var todo := open;
    ghost var seen: set<string> := {};
    DeliveredToNone(received, event, fails);
    while todo != {}
      invariant todo !! seen && todo + seen == open
      invariant sent == Delivered(seen, received, event, fails)
      invariant forall id :: id in dead <==> id in seen && fails(id, event)
      decreases |todo|
    {
      var id :| id in todo;
      sent, dead := SendOne(seen, received, event, fails, id, sent, dead);
      todo := todo - {id};
      seen := seen + {id};
    }
  }

  /** The removal pass of broadcastSse: drop every collected stream. */
  method Prune(open: set<string>, dead: seq<string>) returns (live: set<string>)
    ensures forall id :: id in live <==> id in open && id !in dead
  {
    live := open;
    for i := 0 to |dead|
      invariant forall id :: id in live <==> id in open && id !in dead[..i]
    {
      live := live - {dead[i]};
    }
    assert dead[..|dead|] == dead;
  }

  // ---------------------------------------------------------------------
  // The messages the controller builds

  function StatusEvent(p: Fields, agent: Option<string>, now: string): Fields {
    map["timestamp" := Str(now), "type" := Str("reasoning"), "phase" := Get(p, "phase"),
        "message" := Get(p, "message"), "agentId" := FromOption(agent)]
  }

  function StatusReply(sid: string, agent: string): Fields {
    map["ok" := Bool(true), "received" := Str("agent_status_update"), "sessionId" := Str(sid),
        "agentId" := Str(agent)]
  }

  const OkReply: Fields := map["ok" := Bool(true)]
  const MissingTargetReply: Fields := map["ok" := Bool(false), "error" := Str("Missing targetAgent")]
  const SkippedReply: Fields := map["ok" := Bool(true), "skipped" := Bool(true)]
  const MissingWaiterKeysReply: Fields := map["ok" := Bool(false), "error" := Str("Missing sessionId or agentId")]

  function DelegationEvent(from: string, target: string, msg: string, sid: string, now: string): Fields {
    map["timestamp" := Str(now), "type" := Str("delegation"), "agentId" := Str(from),
        "targetAgent" := Str(target), "message" := Str(msg), "sessionId" := Str(sid)]
  }

  function DelegationReply(target: string, sid: string): Fields {
    map["ok" := Bool(true), "status" := Str("delegation_executed"), "targetAgent" := Str(target),
        "sessionId" := Str(sid)]
  }

  /** The payload copied, with timestamp, type, agentId and message put over it. */
  function ToolEvent(p: Fields, eventType: string, agent: Option<string>, now: string): Fields {
    p["timestamp" := Str(now)]["type" := Str(eventType)]["agentId" := FromOption(agent)]
     ["message" := Str("Executing tool: " + ToText(Get(p, "tool")))]
  }

  function ChatEvent(sender: string, msg: Value, sid: string, now: string): Fields {
    map["timestamp" := Str(now), "type" := Str("user_input"), "agentId" := Str(sender),
        "message" := msg, "sessionId" := Str(sid)]
  }

  function ListValue(es: seq<Fields>): Value {
    Arr(seq(|es|, i requires 0 <= i < |es| => Obj(es[i])))
  }

  function NameSet(names: set<string>): Value {
    Set(set a | a in names :: Str(a))
  }

  function TimeoutReply(sid: string, d: SessionData): Fields {
    map["ok" := Bool(false), "error" := Str("timeout waiting for chat_result"), "sessionId" := Str(sid),
        "events" := ListValue(d.events), "audit" := ListValue(d.audit)]
  }

  function UnknownSessionReply(sid: string): Fields {
    map["ok" := Bool(false), "unknown_session" := Str(sid)]
  }

  function ResultAudit(agent: string, sid: string, now: string): Fields {
    map["timestamp" := Str(now), "type" := Str("chat_result"), "agentId" := Str(agent),
        "status" := Str("completed"), "sessionId" := Str(sid)]
  }

  function ResultNotice(agent: string, sid: string, left: nat, now: string): Fields {
    ResultAudit(agent, sid, now)["message" := Str("\U{2705} [" + agent + "] Completed session=" + sid +
                                                  " (agents left=" + Text.NatToString(left) + ")")]
  }

  /** The orchestrator's final answer to the waiting chat. */
  function Aggregated(sid: string, d: SessionData, payload: Fields): Fields {
    map["ok" := Bool(true), "sessionId" := Str(sid), "message" := ListValue(d.events),
        "audit" := ListValue(d.audit), "completedAgents" := NameSet(d.completed), "result" := Obj(payload)]
  }

  function ReceivedReply(sid: string, agent: string): Fields {
    map["ok" := Bool(true), "status" := Str("chat_result_received"), "sessionId" := Str(sid),
        "agentId" := Str(agent)]
  }

  function WaiterReply(sid: string, agent: string): Fields {
    map["ok" := Bool(true), "sessionId" := Str(sid), "agentId" := Str(agent)]
  }

  function HeartbeatEvent(now: string): Fields {
    map["timestamp" := Str(now), "type" := Str("heartbeat"), "message" := Str("Orchestrator is listening")]
  }

  /** A chat_result whose sender is also its recipient, ignoring case. */
  predicate Loopback(sender: Option<string>, recipient: string)
    ensures sender.None? ==> !Loopback(sender, recipient)
    ensures sender == Some(recipient) ==> Loopback(sender, recipient)
    ensures Loopback(sender, recipient) ==> Text.Lower(sender.value) == Text.Lower(recipient)
  {
    sender.Some? && Text.EqualsIgnoreCase(sender.value, recipient)
  }

  predicate IsOrchestrator(agent: string) {
    Text.EqualsIgnoreCase(Orchestrator, agent)
  }

  /**
   * The chat_result copy sent on to the orchestrator. Posted back to the
   * controller it dispatches as a chat_result with the same payload, and
   * it is a loopback exactly when the agent is the orchestrator itself.
   */
  function ForwardedResult(agent: string, payload: Fields): (r: Env)
    ensures r.senderId == Some(agent) && r.recipientId == Some(Orchestrator)
    ensures PayloadOf(r) == Success(Some(payload))
    ensures TypeOf(r) == "chat_result"
    ensures Loopback(r.senderId, r.recipientId.value) <==> IsOrchestrator(agent)
  {
    EmptyEnv.(senderId := Some(agent), recipientId := Some(Orchestrator), msgType := Some("chat_result"),
              payload := Obj(payload))
  }

  /** A delegation submitted to the executor, run later. */
  datatype DelegationTask = DelegationTask(fromAgent: string, targetAgent: string, sessionId: string, message: string)

  /** The chat a delegation task sends to its target. */
  function DelegatedChat(t: DelegationTask): Env {
    EmptyEnv.(senderId := Some(t.fromAgent), recipientId := Some(t.targetAgent), msgType := Some("chat"),
              payload := Obj(map["sessionId" := Str(t.sessionId), "message" := Str(t.message)]))
  }

  /** routeMessage's hand-off for a non-null recipient: to its agent, or to nobody. */
  function DeliveriesFor(agents: map<string, AgentHandle>, env: Env): seq<Delivery>
    requires env.recipientId.Some?
  {
    if env.recipientId.value in agents then [DeliverTo(agents[env.recipientId.value], env)] else []
  }

  /** An HTTP answer; a chat's answer waits for AwaitChatResult. */
  datatype Reply =
    | Ok(body: Fields)
    | BadRequest(body: Fields)
    | ServerError
    | AwaitingChatResult(sessionId: string, session: PendingSession)

  /** The payload cast: a map, null, or a ClassCastException. */
  function PayloadOf(env: Env): (r: Result<Option<Fields>, Reply>)
    ensures r.Failure? <==> !env.payload.Obj? && !env.payload.Null?
    ensures r.Failure? ==> r.error == ServerError
    ensures r == Success(None) <==> env.payload.Null?
    ensures r.Success? && r.value.Some? ==> env.payload == Obj(r.value.value)
  {
    match env.payload
    case Obj(fields) => Success(Some(fields))
    case Null => Success(None)
    case _ => Failure(ServerError)
  }

  /** The dispatch key: the lower-cased type, "" for none. */
  function TypeOf(env: Env): string {
    if env.msgType.None? then "" else Text.Lower(env.msgType.value)
  }

  /** The lower-cased types postMessage has a case of its own for. */
  predicate IsHandledType(t: string) {
    t in {"agent_status_update", "register_agent_plan", "delegation", "tool_invocation", "tool_result",
          "chat", "chat_result"}
  }

  /**
   * pendingSessions, the ConcurrentHashMap from session id to its
   * PendingSession. `view` is what every session in it holds.
   */
  class SessionTable {
    var sessions: map<string, PendingSession>
    ghost var view: map<string, SessionData>
    ghost var Repr: set<object>

    /** Each id has its own session object, and `view` is their contents. */
    ghost predicate Valid()
      reads this, Repr
    {
      this in Repr &&
      (forall k :: k in sessions ==> sessions[k] in Repr) &&
      (forall k1, k2 :: k1 in sessions && k2 in sessions && k1 != k2 ==> sessions[k1] != sessions[k2]) &&
      (forall k :: k in view <==> k in sessions) &&
      (forall k :: k in sessions ==> view[k] == sessions[k].Data())
    }

    constructor ()
      ensures Valid() && fresh(Repr) && view == map[]
    {
      sessions := map[];
      view := map[];
      Repr := {this};
    }

    /** getRemainingAgents().size() of a session in the table. */
    function Remaining(sid: string): (n: nat)
      requires Valid() && sid in view
      reads this, Repr
      ensures n == |view[sid].active|
    {
      |sessions[sid].activeAgents|
    }

    /** computeIfAbsent(sid, new PendingSession). */
    method ComputeIfAbsent(sid: string) returns (ps: PendingSession)
      requires Valid()
      modifies this
      ensures Valid() && fresh(Repr - old(Repr))
      ensures sid in sessions && sessions[sid] == ps
      ensures sid in old(sessions) ==> ps == old(sessions[sid])
      ensures forall k :: k in old(sessions) ==> k in sessions && sessions[k] == old(sessions[k])
      ensures view == old(view)[sid := SessionOf(old(view), sid)]
    {
      if sid in sessions {
        ps := sessions[sid];
        view := view[sid := ps.Data()];
      } else {
        ps := new PendingSession();
        sessions := sessions[sid := ps];
        view := view[sid := EmptySession];
        Repr := Repr + {ps};
      }
    }

    /** put(sid, new PendingSession): a fresh session replaces any under the id. */
    method Put(sid: string) returns (ps: PendingSession)
      requires Valid()
      modifies this
      ensures Valid() && fresh(Repr - old(Repr))
      ensures fresh(ps) && sid in sessions && sessions[sid] == ps
      ensures forall k :: k in old(sessions) && k != sid ==> k in sessions && sessions[k] == old(sessions[k])
      ensures view == old(view)[sid := EmptySession]
    {
      ps := new PendingSession();
      sessions := sessions[sid := ps];
      view := view[sid := EmptySession];
      Repr := Repr + {ps};
    }

    /** remove(sid); an absent id changes nothing. */
    method Remove(sid: string)
      requires Valid()
      modifies this
      ensures Valid() && Repr == old(Repr)
      ensures sessions == old(sessions) - {sid}
      ensures view == old(view) - {sid}
    {
      sessions := sessions - {sid};
      view := view - {sid};
    }

    /** addEvent then addAudit of the same event. */
    method Log(sid: string, event: Fields)
      requires Valid() && sid in view
      modifies Repr
      ensures Valid() && Repr == old(Repr) && sessions == old(sessions)
      ensures view == old(view)[sid := Logged(old(view)[sid], event)]
    {
      var ps := sessions[sid];
      assert forall k :: k in sessions && k != sid ==> sessions[k] != ps;
      ps.AddEvent(event);
      ps.AddAudit(event);
      view := view[sid := ps.Data()];
    }

    /** addAudit. */
    method Audit(sid: string, event: Fields)
      requires Valid() && sid in view
      modifies Repr
      ensures Valid() && Repr == old(Repr) && sessions == old(sessions)
      ensures view == old(view)[sid := Audited(old(view)[sid], event)]
    {
      var ps := sessions[sid];
      assert forall k :: k in sessions && k != sid ==> sessions[k] != ps;
      ps.AddAudit(event);
      view := view[sid := ps.Data()];
    }

    /** registerAgent of a non-null id. */
    method Join(sid: string, agent: string)
      requires Valid() && sid in view
      modifies Repr
      ensures Valid() && Repr == old(Repr) && sessions == old(sessions)
      ensures view == old(view)[sid := Joined(old(view)[sid], agent)]
    {
      var ps := sessions[sid];
      assert forall k :: k in sessions && k != sid ==> sessions[k] != ps;
      ps.RegisterAgent(Some(agent));
      view := view[sid := ps.Data()];
    }

    /** markAgentCompleted. */
    method Finish(sid: string, agent: string)
      requires Valid() && sid in view
      modifies Repr
      ensures Valid() && Repr == old(Repr) && sessions == old(sessions)
      ensures view == old(view)[sid := Finished(old(view)[sid], agent)]
    {
      var ps := sessions[sid];
      assert forall k :: k in sessions && k != sid ==> sessions[k] != ps;
      ps.MarkAgentCompleted(agent);
      view := view[sid := ps.Data()];
    }

    /** computeIfAbsent(sid, ...).addEvent(e), then the same for addAudit(e). */
    method LogAt(sid: string, event: Fields)
      requires Valid()
      modifies Repr
      ensures Valid() && fresh(Repr - old(Repr))
      ensures view == old(view)[sid := Logged(SessionOf(old(view), sid), event)]
    {
      var ps := ComputeIfAbsent(sid);
      Log(sid, event);
    }

    /** computeIfAbsent(sid, ...).addAudit(e). */
    method AuditAt(sid: string, event: Fields)
      requires Valid()
      modifies Repr
      ensures Valid() && fresh(Repr - old(Repr))
      ensures view == old(view)[sid := Audited(SessionOf(old(view), sid), event)]
    {
      var ps := ComputeIfAbsent(sid);
      Audit(sid, event);
    }

    /** computeIfAbsent(sid, ...).registerAgent(agent) for a non-null agent. */
    method JoinAt(sid: string, agent: string)
      requires Valid()
      modifies Repr
      ensures Valid() && fresh(Repr - old(Repr))
      ensures view == old(view)[sid := Joined(SessionOf(old(view), sid), agent)]
    {
      var ps := ComputeIfAbsent(sid);
      Join(sid, agent);
    }

    /**
     * The orchestrator's final chat_result: the session leaves the table
     * and its future is completed with the aggregate of what it recorded.
     */
    method Finalize(sid: string, payload: Fields) returns (ps: PendingSession, aggregated: Fields)
      requires Valid() && sid in view
      modifies Repr
      ensures Valid() && Repr == old(Repr)
      ensures ps == old(sessions[sid]) && sessions == old(sessions) - {sid}
      ensures aggregated == Aggregated(sid, old(view)[sid], payload)
      ensures ps.Data() == CompletedWith(old(view)[sid], aggregated)
      ensures view == old(view) - {sid}
    {
      ps := sessions[sid];
      assert forall k :: k in sessions && k != sid ==> sessions[k] != ps;
      sessions := sessions - {sid};
      view := view - {sid};
      aggregated := Aggregated(sid, ps.Data(), payload);
      ps.Complete(aggregated);
    }
  }

  class MessageController {
    const registry: AgentRegistry
    const pendingSessions: SessionTable
    var agentWaiters: SoundWaiters
    var emitters: set<string>
    var received: map<string, seq<Fields>>
    var tasks: seq<DelegationTask>
    var deliveries: seq<Delivery>

    /** The session table is well formed and holds neither the controller nor the registry. */
    ghost predicate Valid()
      reads pendingSessions, pendingSessions.Repr
    {
      pendingSessions.Valid() && this !in pendingSessions.Repr && registry !in pendingSessions.Repr
    }

    constructor (registry: AgentRegistry)
      ensures this.registry == registry && Valid()
      ensures pendingSessions.view == map[] && agentWaiters == WaiterTable(map[], 0, []) && emitters == {}
      ensures received == map[] && tasks == [] && deliveries == []
    {
      this.registry := registry;
      pendingSessions := new SessionTable();
      agentWaiters := WaiterTable(map[], 0, []);
      emitters := {};
      received := map[];
      tasks := [];
      deliveries := [];
    }

    // --- SSE ---

    /** streamEvents: a new stream under a fresh id. */
    method OpenStream(emitterId: string)
      modifies this`emitters, this`received
      ensures emitters == old(emitters) + {emitterId}
      ensures received == old(received)[emitterId := []]
    {
      emitters := emitters + {emitterId};
      received := received[emitterId := []];
    }

    /** The completion, timeout and error callbacks: the stream is dropped. */
    method CloseStream(emitterId: string)
      modifies this`emitters
      ensures emitters == old(emitters) - {emitterId}
    {
      emitters := emitters - {emitterId};
    }

    /** broadcastSse: send to every stream, collecting the failing ones, then drop those. */
    method Broadcast(event: Fields, fails: (string, Fields) -> bool)
      requires Valid()
      modifies this`emitters, this`received
      ensures Valid()
      ensures emitters == Survivors(old(emitters), event, fails)
      ensures received == Delivered(old(emitters), old(received), event, fails)
    {
      var sent, dead := SendToAll(emitters, received, event, fails);
      var live := Prune(emitters, dead);
      assert live == Survivors(emitters, event, fails);
      emitters := live;
      received := sent;
    }

    /** The heartbeat the scheduler broadcasts every minute. */
    method Heartbeat(now: string, fails: (string, Fields) -> bool)
      requires Valid()
      modifies this`emitters, this`received
      ensures Valid()
      ensures emitters == Survivors(old(emitters), HeartbeatEvent(now), fails)
      ensures received == Delivered(old(emitters), old(received), HeartbeatEvent(now), fails)
    {
      Broadcast(HeartbeatEvent(now), fails);
    }

    // --- Waiters ---

    /** registerAgentWaiter: a new future under (sid, aid), replacing any there. */
    method RegisterAgentWaiter(sid: string, aid: string)
      modifies this`agentWaiters
      ensures agentWaiters == RegisteredWaiter(old(agentWaiters), sid, aid)
    {
      RegisterKeepsWaitersValid(agentWaiters, sid, aid);
      agentWaiters := RegisteredWaiter(agentWaiters, sid, aid);
    }

    /** completeAgentWaiter: the waiter under (sid, aid), if any, is removed and completed. */
    method CompleteAgentWaiter(sid: string, aid: string, result: Fields)
      requires Valid()
      modifies this`agentWaiters
      ensures Valid()
      ensures agentWaiters == CompletedWaiter(old(agentWaiters), sid, aid, result)
    {
      CompleteKeepsWaitersValid(agentWaiters, sid, aid, result);
      agentWaiters := CompletedWaiter(agentWaiters, sid, aid, result);
    }

    /** POST /messages/register-waiter: both ids are required. */
    method RegisterWaiter(payload: Fields) returns (r: Reply)
      modifies this`agentWaiters
      ensures var s := AsString(Get(payload, "sessionId"));
              var a := AsString(Get(payload, "agentId"));
              (s.CastFails? || a.CastFails? ==> r == ServerError && agentWaiters == old(agentWaiters)) &&
              (!s.CastFails? && !a.CastFails? && (s.CastNull? || a.CastNull?) ==>
                 r == BadRequest(MissingWaiterKeysReply) && agentWaiters == old(agentWaiters)) &&
              (s.CastString? && a.CastString? ==>
                 r == Ok(WaiterReply(s.s, a.s)) && agentWaiters == RegisteredWaiter(old(agentWaiters), s.s, a.s))
    {
      var s := AsString(Get(payload, "sessionId"));
      var a := AsString(Get(payload, "agentId"));
      if s.CastFails? || a.CastFails? {
        return ServerError;
      }
      if s.CastNull? || a.CastNull? {
        return BadRequest(MissingWaiterKeysReply);
      }
      RegisterAgentWaiter(s.s, a.s);
      r := Ok(WaiterReply(s.s, a.s));
    }

    // --- Routing ---

    /** registry.routeMessage: a null recipient throws; otherwise a registered recipient gets it. */
    method Route(env: Env) returns (ok: bool)
      requires Valid()
      modifies this`deliveries
      ensures Valid()
      ensures ok <==> env.recipientId.Some?
      ensures ok ==> deliveries == old(deliveries) + DeliveriesFor(registry.agents, env)
      ensures !ok ==> deliveries == old(deliveries)
    {
      var d := registry.RouteMessage(env);
      if d.Failure? {
        assert d.error == NullRecipient;
        return false;
      }
      if d.value.DeliverTo? {
        deliveries := deliveries + [d.value];
      }
      ok := true;
    }

    /** The executor runs the oldest submitted delegation: a chat to the target, if it is registered. */
    method RunNextDelegation()
      requires Valid()
      modifies this`tasks, this`deliveries
      ensures Valid()
      ensures old(tasks) == [] ==> tasks == [] && deliveries == old(deliveries)
      ensures old(tasks) != [] ==>
                var t := old(tasks)[0];
                tasks == old(tasks)[1..] &&
                deliveries == old(deliveries) +
                  (if t.targetAgent in registry.agents then [DeliverTo(registry.agents[t.targetAgent], DelegatedChat(t))]
                   else [])
    {
      if tasks == [] {
        return;
      }
      var t := tasks[0];
      tasks := tasks[1..];
      if registry.HasAgent(t.targetAgent) {
        var ok := Route(DelegatedChat(t));
      }
    }

    // --- postMessage handlers ---

    /** computeIfAbsent, then addEvent and addAudit of the same event. */
    method LogTo(sid: string, event: Fields)
      requires Valid()
      modifies pendingSessions, pendingSessions.Repr
      ensures Valid()
      ensures pendingSessions.view == old(pendingSessions.view)[sid := Logged(SessionOf(old(pendingSessions.view), sid), event)]
      ensures Grew(old(pendingSessions.view), pendingSessions.view)
    {
      StepsGrow(pendingSessions.view, sid, event, "");
      pendingSessions.LogAt(sid, event);
    }

    /** computeIfAbsent, then addAudit. */
    method AuditTo(sid: string, event: Fields)
      requires Valid()
      modifies pendingSessions, pendingSessions.Repr
      ensures Valid()
      ensures pendingSessions.view == old(pendingSessions.view)[sid := Audited(SessionOf(old(pendingSessions.view), sid), event)]
      ensures Grew(old(pendingSessions.view), pendingSessions.view)
    {
      StepsGrow(pendingSessions.view, sid, event, "");
      pendingSessions.AuditAt(sid, event);
    }

    /** computeIfAbsent, then registerAgent of a non-null id. */
    method JoinTo(sid: string, agent: string)
      requires Valid()
      modifies pendingSessions, pendingSessions.Repr
      ensures Valid() && sid in pendingSessions.view
      ensures fresh(pendingSessions.Repr - old(pendingSessions.Repr))
      ensures pendingSessions.view == old(pendingSessions.view)[sid := Joined(SessionOf(old(pendingSessions.view), sid), agent)]
      ensures Grew(old(pendingSessions.view), pendingSessions.view)
    {
      StepsGrow(pendingSessions.view, sid, map[], agent);
      pendingSessions.JoinAt(sid, agent);
    }

    /**
     * What agent_status_update does: a missing payload or a non-string
     * agentId fails with no change; otherwise the reasoning event is logged
     * in its session and broadcast. Waiters, tasks and deliveries stay.
     */
    twostate predicate StatusUpdateHandled(env: Env, payload: Option<Fields>, now: string,
                                           fails: (string, Fields) -> bool, new r: Reply)
      reads this, pendingSessions
    {
      agentWaiters == old(agentWaiters) && tasks == old(tasks) && deliveries == old(deliveries) &&
      (payload.None? || AsString(GetOrDefault(payload.value, "agentId", FromOption(env.senderId))).CastFails? ==>
         r == ServerError && pendingSessions.view == old(pendingSessions.view) &&
         emitters == old(emitters) && received == old(received)) &&
      (payload.Some? && !AsString(GetOrDefault(payload.value, "agentId", FromOption(env.senderId))).CastFails? ==>
         var sid := ExtractSessionId(payload);
         var agent := CastValue(AsString(GetOrDefault(payload.value, "agentId", FromOption(env.senderId))));
         var event := StatusEvent(payload.value, agent, now);
         pendingSessions.view == old(pendingSessions.view)[sid := Logged(SessionOf(old(pendingSessions.view), sid), event)] &&
         emitters == Survivors(old(emitters), event, fails) &&
         received == Delivered(old(emitters), old(received), event, fails) &&
         r == (if agent.None? then ServerError else Ok(StatusReply(sid, agent.value))))
    }

    /**
     * agent_status_update: the reasoning event goes to the session's events
     * and audit (the session is created if need be) and to every stream. A
     * null agent id is recorded, and only the reply (Map.of) then fails.
     */
    method HandleStatusUpdate(env: Env, payload: Option<Fields>, now: string, fails: (string, Fields) -> bool)
      returns (r: Reply)
      requires Valid()
      modifies this`emitters, this`received, pendingSessions, pendingSessions.Repr
      ensures Valid()
      ensures StatusUpdateHandled(env, payload, now, fails, r)
      ensures Grew(old(pendingSessions.view), pendingSessions.view)
    {
      if payload.None? {
        return ServerError;
      }
      var cast := AsString(GetOrDefault(payload.value, "agentId", FromOption(env.senderId)));
      if cast.CastFails? {
        return ServerError;
      }
      var sid := ExtractSessionId(payload);
      var agent := CastValue(cast);
      var event := StatusEvent(payload.value, agent, now);
      LogTo(sid, event);
      Broadcast(event, fails);
      r := if agent.None? then ServerError else Ok(StatusReply(sid, agent.value));
    }

    /**
     * What register_agent_plan does: only the session table may change, and
     * only by the target joining the named session.
     */
    twostate predicate PlanRegistrationHandled(env: Env, payload: Option<Fields>, new r: Reply)
      reads this, pendingSessions
    {
      agentWaiters == old(agentWaiters) && tasks == old(tasks) && deliveries == old(deliveries) &&
      emitters == old(emitters) && received == old(received) &&
      (payload.None? ==> r == ServerError && pendingSessions.view == old(pendingSessions.view)) &&
      (payload.Some? ==>
         var target := AsString(Get(payload.value, "targetAgent"));
         var sid := AsString(Get(payload.value, "sessionId"));
         var from := AsString(GetOrDefault(payload.value, "fromAgent", FromOption(env.senderId)));
         (target.CastFails? || sid.CastFails? || from.CastFails? ==>
            r == ServerError && pendingSessions.view == old(pendingSessions.view)) &&
         (!target.CastFails? && !sid.CastFails? && !from.CastFails? && target.CastNull? ==>
            r == BadRequest(MissingTargetReply) && pendingSessions.view == old(pendingSessions.view)) &&
         (!sid.CastFails? && !from.CastFails? && target.CastString? && sid.CastNull? ==>
            r == ServerError && pendingSessions.view == old(pendingSessions.view)) &&
         (target.CastString? && sid.CastString? && !from.CastFails? ==>
            pendingSessions.view ==
              old(pendingSessions.view)[sid.s := Joined(SessionOf(old(pendingSessions.view), sid.s), target.s)] &&
            r == (if from.CastNull? then ServerError else Ok(OkReply))))
    }

    /**
     * register_agent_plan: the target joins the session (created if need
     * be). A missing target is a bad request; a null session id, or a null
     * fromAgent once the target has joined, is a server error. Nothing is
     * broadcast.
     */
    method HandleRegisterPlan(env: Env, payload: Option<Fields>) returns (r: Reply)
      requires Valid()
      modifies pendingSessions, pendingSessions.Repr
      ensures Valid()
      ensures PlanRegistrationHandled(env, payload, r)
      ensures Grew(old(pendingSessions.view), pendingSessions.view)
    {
      if payload.None? {
        return ServerError;
      }
      var target := AsString(Get(payload.value, "targetAgent"));
      var sid := AsString(Get(payload.value, "sessionId"));
      var from := AsString(GetOrDefault(payload.value, "fromAgent", FromOption(env.senderId)));
      if target.CastFails? || sid.CastFails? || from.CastFails? {
        return ServerError;
      }
      if target.CastNull? {
        return BadRequest(MissingTargetReply);
      }
      if sid.CastNull? {
        return ServerError;
      }
      JoinTo(sid.s, target.s);
      r := if from.CastNull? then ServerError else Ok(OkReply);
    }

    /** A delegation's effect once its target has joined: audit, broadcast, and queue the chat. */
    method Delegate(t: DelegationTask, now: string, fails: (string, Fields) -> bool)
      requires Valid() && t.sessionId in pendingSessions.view
      modifies this`emitters, this`received, this`tasks, pendingSessions.Repr
      ensures Valid()
      ensures var event := DelegationEvent(t.fromAgent, t.targetAgent, t.message, t.sessionId, now);
              pendingSessions.view ==
                old(pendingSessions.view)[t.sessionId := Audited(old(pendingSessions.view)[t.sessionId], event)] &&
              emitters == Survivors(old(emitters), event, fails) &&
              received == Delivered(old(emitters), old(received), event, fails) &&
              tasks == old(tasks) + [t]
      ensures Grew(old(pendingSessions.view), pendingSessions.view)
    {
      var event := DelegationEvent(t.fromAgent, t.targetAgent, t.message, t.sessionId, now);
      StepsGrow(pendingSessions.view, t.sessionId, event, "");
      pendingSessions.Audit(t.sessionId, event);
      Broadcast(event, fails);
      tasks := tasks + [t];
    }

    /**
     * What delegation does: the failing casts and the missing target change
     * nothing; a target and a session make the target join; with a message
     * and a sender the delegation is also audited, broadcast and queued.
     */
    twostate predicate DelegationHandled(env: Env, payload: Option<Fields>, now: string,
                                         fails: (string, Fields) -> bool, new r: Reply)
      reads this, pendingSessions
    {
      agentWaiters == old(agentWaiters) && deliveries == old(deliveries) &&
      (payload.None? ==>
         r == ServerError && pendingSessions.view == old(pendingSessions.view) &&
         emitters == old(emitters) && received == old(received) && tasks == old(tasks)) &&
      (payload.Some? ==>
         var target := AsString(Get(payload.value, "targetAgent"));
         var sid := AsString(Get(payload.value, "sessionId"));
         var msg := AsString(Get(payload.value, "message"));
         var from := AsString(GetOrDefault(payload.value, "fromAgent", FromOption(env.senderId)));
         (!(target.CastString? && sid.CastString? && msg.CastString? && from.CastString?) ==>
            emitters == old(emitters) && received == old(received) && tasks == old(tasks)) &&
         (target.CastFails? || sid.CastFails? || msg.CastFails? || from.CastFails? ==>
            r == ServerError && pendingSessions.view == old(pendingSessions.view)) &&
         (!target.CastFails? && !sid.CastFails? && !msg.CastFails? && !from.CastFails? && target.CastNull? ==>
            r == BadRequest(MissingTargetReply) && pendingSessions.view == old(pendingSessions.view)) &&
         (!msg.CastFails? && !from.CastFails? && target.CastString? && sid.CastNull? ==>
            r == ServerError && pendingSessions.view == old(pendingSessions.view)) &&
         (target.CastString? && sid.CastString? && !msg.CastFails? && !from.CastFails? &&
          (msg.CastNull? || from.CastNull?) ==>
            r == ServerError &&
            pendingSessions.view ==
              old(pendingSessions.view)[sid.s := Joined(SessionOf(old(pendingSessions.view), sid.s), target.s)]) &&
         (target.CastString? && sid.CastString? && msg.CastString? && from.CastString? ==>
            var event := DelegationEvent(from.s, target.s, msg.s, sid.s, now);
            r == Ok(DelegationReply(target.s, sid.s)) &&
            pendingSessions.view ==
              old(pendingSessions.view)[sid.s := Audited(Joined(SessionOf(old(pendingSessions.view), sid.s), target.s), event)] &&
            emitters == Survivors(old(emitters), event, fails) &&
            received == Delivered(old(emitters), old(received), event, fails) &&
            tasks == old(tasks) + [DelegationTask(from.s, target.s, sid.s, msg.s)]))
    }

    /**
     * delegation: the target joins the session, the delegation is audited
     * and broadcast, and a chat to the target is queued on the executor.
     * A null fromAgent or message fails after the target has joined.
     */
    method HandleDelegation(env: Env, payload: Option<Fields>, now: string, fails: (string, Fields) -> bool)
      returns (r: Reply)
      requires Valid()
      modifies this`emitters, this`received, this`tasks, pendingSessions, pendingSessions.Repr
      ensures Valid()
      ensures DelegationHandled(env, payload, now, fails, r)
      ensures Grew(old(pendingSessions.view), pendingSessions.view)
    {
      if payload.None? {
        return ServerError;
      }
      var target := AsString(Get(payload.value, "targetAgent"));
      var sid := AsString(Get(payload.value, "sessionId"));
      var msg := AsString(Get(payload.value, "message"));
      var from := AsString(GetOrDefault(payload.value, "fromAgent", FromOption(env.senderId)));
      if target.CastFails? || sid.CastFails? || msg.CastFails? || from.CastFails? {
        return ServerError;
      }
      if target.CastNull? {
        return BadRequest(MissingTargetReply);
      }
      if sid.CastNull? {
        return ServerError;
      }
      r := JoinAndDelegate(target.s, sid.s, CastValue(msg), CastValue(from), now, fails);
    }

    /** The target joins the session; with a message and a sender, the delegation goes out. */
    method JoinAndDelegate(target: string, sid: string, msg: Option<string>, from: Option<string>,
                           now: string, fails: (string, Fields) -> bool)
      returns (r: Reply)
      requires Valid()
      modifies this`emitters, this`received, this`tasks, pendingSessions, pendingSessions.Repr
      ensures Valid()
      ensures msg.None? || from.None? ==>
                r == ServerError &&
                pendingSessions.view == old(pendingSessions.view)[sid := Joined(SessionOf(old(pendingSessions.view), sid), target)] &&
                emitters == old(emitters) && received == old(received) && tasks == old(tasks)
      ensures msg.Some? && from.Some? ==>
                r == Ok(DelegationReply(target, sid)) &&
                tasks == old(tasks) + [DelegationTask(from.value, target, sid, msg.value)]
      ensures msg.Some? && from.Some? ==>
                pendingSessions.view ==
                  old(pendingSessions.view)[sid := Audited(Joined(SessionOf(old(pendingSessions.view), sid), target),
                                                          DelegationEvent(from.value, target, msg.value, sid, now))]
      ensures msg.Some? && from.Some? ==>
                var event := DelegationEvent(from.value, target, msg.value, sid, now);
                emitters == Survivors(old(emitters), event, fails) &&
                received == Delivered(old(emitters), old(received), event, fails)
      ensures Grew(old(pendingSessions.view), pendingSessions.view)
    {
      ghost var v0 := pendingSessions.view;
      ghost var d1 := Joined(SessionOf(v0, sid), target);
      JoinTo(sid, target);
      if msg.None? || from.None? {
        return ServerError;
      }
      ghost var joined := pendingSessions.view;
      assert joined == v0[sid := d1];
      var t := DelegationTask(from.value, target, sid, msg.value);
      Delegate(t, now, fails);
      ghost var event := DelegationEvent(from.value, target, msg.value, sid, now);
      assert pendingSessions.view == joined[sid := Audited(d1, event)];
      OverwriteTwice(v0, sid, d1, Audited(d1, event));
      GrowsTransitively(v0, joined, pendingSessions.view);
      r := Ok(DelegationReply(target, sid));
    }

    /**
     * What tool_invocation and tool_result do: a missing payload or a
     * non-string agentId fails with no change; otherwise the tool event is
     * audited in its session, and nothing else changes.
     */
    twostate predicate ToolEventHandled(env: Env, eventType: string, payload: Option<Fields>, now: string, new r: Reply)
      reads this, pendingSessions
    {
      agentWaiters == old(agentWaiters) && tasks == old(tasks) && deliveries == old(deliveries) &&
      emitters == old(emitters) && received == old(received) &&
      (payload.None? || AsString(GetOrDefault(payload.value, "agentId", FromOption(env.senderId))).CastFails? ==>
         r == ServerError && pendingSessions.view == old(pendingSessions.view)) &&
      (payload.Some? && !AsString(GetOrDefault(payload.value, "agentId", FromOption(env.senderId))).CastFails? ==>
         var sid := ExtractSessionId(payload);
         var agent := CastValue(AsString(GetOrDefault(payload.value, "agentId", FromOption(env.senderId))));
         r == Ok(OkReply) &&
         pendingSessions.view ==
           old(pendingSessions.view)[sid := Audited(SessionOf(old(pendingSessions.view), sid),
                                                    ToolEvent(payload.value, eventType, agent, now))])
    }

    /** tool_invocation / tool_result: audited only, never broadcast. */
    method HandleToolEvent(env: Env, eventType: string, payload: Option<Fields>, now: string) returns (r: Reply)
      requires Valid()
      modifies pendingSessions, pendingSessions.Repr
      ensures Valid()
      ensures ToolEventHandled(env, eventType, payload, now, r)
      ensures Grew(old(pendingSessions.view), pendingSessions.view)
    {
      if payload.None? {
        return ServerError;
      }
      var cast := AsString(GetOrDefault(payload.value, "agentId", FromOption(env.senderId)));
      if cast.CastFails? {
        return ServerError;
      }
      var sid := ExtractSessionId(payload);
      AuditTo(sid, ToolEvent(payload.value, eventType, CastValue(cast), now));
      r := Ok(OkReply);
    }

    /**
     * What chat does up to its wait: a fresh session replaces any under the
     * id; with a message the input is audited and broadcast and, with a
     * recipient, routed, the reply then waiting on the new session.
     */
    twostate predicate ChatHandled(env: Env, payload: Option<Fields>, now: string,
                                   fails: (string, Fields) -> bool, new r: Reply)
      reads this, pendingSessions, registry
    {
      var sid := ExtractSessionId(payload);
      var sender := if env.senderId.Some? then env.senderId.value else "user";
      agentWaiters == old(agentWaiters) && tasks == old(tasks) &&
      sid in pendingSessions.sessions &&
      (payload.None? || Get(payload.value, "message") == Null ==>
         r == ServerError && pendingSessions.view == old(pendingSessions.view)[sid := EmptySession] &&
         emitters == old(emitters) && received == old(received) && deliveries == old(deliveries)) &&
      (payload.Some? && Get(payload.value, "message") != Null ==>
         var event := ChatEvent(sender, Get(payload.value, "message"), sid, now);
         pendingSessions.view == old(pendingSessions.view)[sid := Audited(EmptySession, event)] &&
         emitters == Survivors(old(emitters), event, fails) &&
         received == Delivered(old(emitters), old(received), event, fails) &&
         (env.recipientId.None? ==> r == ServerError && deliveries == old(deliveries)) &&
         (env.recipientId.Some? ==>
            r == AwaitingChatResult(sid, pendingSessions.sessions[sid]) &&
            deliveries == old(deliveries) + DeliveriesFor(registry.agents, env)))
    }

    /**
     * chat, up to its wait: a fresh session replaces any under the id, the
     * user input is audited and broadcast, and the envelope is routed. The
     * caller then waits on the returned session (AwaitChatResult).
     */
    method HandleChat(env: Env, payload: Option<Fields>, now: string, fails: (string, Fields) -> bool)
      returns (r: Reply)
      requires Valid()
      modifies this`emitters, this`received, this`deliveries, pendingSessions, pendingSessions.Repr
      ensures Valid()
      ensures ChatHandled(env, payload, now, fails, r)
      ensures Grew(old(pendingSessions.view) - {ExtractSessionId(payload)}, pendingSessions.view)
    {
      var sid := ExtractSessionId(payload);
      var sender := if env.senderId.Some? then env.senderId.value else "user";
      ghost var v0 := pendingSessions.view;
      var ps := pendingSessions.Put(sid);
      if payload.None? || Get(payload.value, "message") == Null {
        ReplaceGrows(v0, sid, EmptySession);
        return ServerError;
      }
      var event := ChatEvent(sender, Get(payload.value, "message"), sid, now);
      ReplaceGrows(v0, sid, Audited(EmptySession, event));
      var routed := StartChat(sid, event, env, fails);
      if !routed {
        return ServerError;
      }
      r := AwaitingChatResult(sid, ps);
    }

    /** The chat's input is audited in its session and broadcast, then the envelope is routed. */
    method StartChat(sid: string, event: Fields, env: Env, fails: (string, Fields) -> bool) returns (routed: bool)
      requires Valid() && sid in pendingSessions.view
      modifies this`emitters, this`received, this`deliveries, pendingSessions.Repr
      ensures Valid() && pendingSessions.Repr == old(pendingSessions.Repr)
      ensures pendingSessions.sessions == old(pendingSessions.sessions)
      ensures pendingSessions.view == old(pendingSessions.view)[sid := Audited(old(pendingSessions.view)[sid], event)]
      ensures emitters == Survivors(old(emitters), event, fails)
      ensures received == Delivered(old(emitters), old(received), event, fails)
      ensures routed <==> env.recipientId.Some?
      ensures routed ==> deliveries == old(deliveries) + DeliveriesFor(registry.agents, env)
      ensures !routed ==> deliveries == old(deliveries)
    {
      pendingSessions.Audit(sid, event);
      Broadcast(event, fails);
      routed := Route(env);
    }

    /**
     * The end of a chat: the session's result if the orchestrator completed
     * it, otherwise (the wait timed out) the id is dropped from the table
     * and the reply carries what the session recorded.
     */
    method AwaitChatResult(sid: string, ps: PendingSession) returns (r: Reply)
      requires Valid()
      modifies pendingSessions
      ensures Valid()
      ensures ps.future.Some? ==> r == Ok(ps.future.value) && pendingSessions.view == old(pendingSessions.view)
      ensures ps.future.None? ==>
                r == Ok(TimeoutReply(sid, ps.Data())) && pendingSessions.view == old(pendingSessions.view) - {sid}
      ensures Grew(old(pendingSessions.view), pendingSessions.view)
    {
      if ps.future.Some? {
        return Ok(ps.future.value);
      }
      pendingSessions.Remove(sid);
      r := Ok(TimeoutReply(sid, ps.Data()));
    }

    /**
     * A known session's agent completes: it moves to the completed set, its
     * waiter fires, and its result is forwarded to a registered
     * orchestrator unless it comes from the orchestrator itself.
     */
    method CompleteAgent(sid: string, agent: string, payload: Fields)
      requires Valid() && sid in pendingSessions.view
      modifies this`agentWaiters, this`deliveries, pendingSessions.Repr
      ensures Valid() && pendingSessions.Repr == old(pendingSessions.Repr)
      ensures pendingSessions.sessions == old(pendingSessions.sessions)
      ensures pendingSessions.view == old(pendingSessions.view)[sid := Finished(old(pendingSessions.view)[sid], agent)]
      ensures agentWaiters == CompletedWaiter(old(agentWaiters), sid, agent, payload)
      ensures deliveries == old(deliveries) +
                (if !IsOrchestrator(agent) && Orchestrator in registry.agents
                 then [DeliverTo(registry.agents[Orchestrator], ForwardedResult(agent, payload))] else [])
      ensures Grew(old(pendingSessions.view), pendingSessions.view)
    {
      StepsGrow(pendingSessions.view, sid, map[], agent);
      pendingSessions.Finish(sid, agent);
      CompleteAgentWaiter(sid, agent, payload);
      if !IsOrchestrator(agent) && registry.HasAgent(Orchestrator) {
        var ok := Route(ForwardedResult(agent, payload));
      }
    }

    /** The chat_result audit entry, and the notice with the count of agents still working. */
    method AnnounceResult(sid: string, agent: string, now: string, fails: (string, Fields) -> bool)
      requires Valid() && sid in pendingSessions.view
      modifies this`emitters, this`received, pendingSessions.Repr
      ensures Valid() && pendingSessions.Repr == old(pendingSessions.Repr)
      ensures pendingSessions.sessions == old(pendingSessions.sessions)
      ensures pendingSessions.view ==
                old(pendingSessions.view)[sid := Audited(old(pendingSessions.view)[sid], ResultAudit(agent, sid, now))]
      ensures var notice := ResultNotice(agent, sid, |old(pendingSessions.view)[sid].active|, now);
              emitters == Survivors(old(emitters), notice, fails) &&
              received == Delivered(old(emitters), old(received), notice, fails)
      ensures Grew(old(pendingSessions.view), pendingSessions.view)
    {
      StepsGrow(pendingSessions.view, sid, ResultAudit(agent, sid, now), "");
      pendingSessions.Audit(sid, ResultAudit(agent, sid, now));
      var notice := ResultNotice(agent, sid, pendingSessions.Remaining(sid), now);
      Broadcast(notice, fails);
    }

    /** The orchestrator's result: finalize the session and broadcast the aggregate. */
    method FinalizeAndAnnounce(sid: string, payload: Fields, fails: (string, Fields) -> bool)
      returns (ps: PendingSession)
      requires Valid() && sid in pendingSessions.view
      modifies this`emitters, this`received, pendingSessions.Repr
      ensures Valid() && pendingSessions.Repr == old(pendingSessions.Repr)
      ensures ps == old(pendingSessions.sessions[sid])
      ensures var agg := Aggregated(sid, old(pendingSessions.view)[sid], payload);
              pendingSessions.view == old(pendingSessions.view) - {sid} &&
              ps.Data() == CompletedWith(old(pendingSessions.view)[sid], agg) &&
              emitters == Survivors(old(emitters), agg, fails) &&
              received == Delivered(old(emitters), old(received), agg, fails)
      ensures Grew(old(pendingSessions.view), pendingSessions.view)
    {
      RemovalGrows(pendingSessions.view, sid);
      var agg;
      ps, agg := pendingSessions.Finalize(sid, payload);
      Broadcast(agg, fails);
    }

    /** CompleteAgent followed by AnnounceResult, the steps every agent's result takes. */
    method CompleteAndAnnounce(sid: string, agent: string, payload: Fields, now: string, fails: (string, Fields) -> bool)
      requires Valid() && sid in pendingSessions.view
      modifies this`emitters, this`received, this`agentWaiters, this`deliveries, pendingSessions.Repr
      ensures Valid() && pendingSessions.Repr == old(pendingSessions.Repr)
      ensures pendingSessions.sessions == old(pendingSessions.sessions)
      ensures Grew(old(pendingSessions.view), pendingSessions.view)
      ensures var d1 := Finished(old(pendingSessions.view)[sid], agent);
              var notice := ResultNotice(agent, sid, |d1.active|, now);
              pendingSessions.view == old(pendingSessions.view)[sid := Audited(d1, ResultAudit(agent, sid, now))] &&
              agentWaiters == CompletedWaiter(old(agentWaiters), sid, agent, payload) &&
              deliveries == old(deliveries) +
                (if !IsOrchestrator(agent) && Orchestrator in registry.agents
                 then [DeliverTo(registry.agents[Orchestrator], ForwardedResult(agent, payload))] else []) &&
              emitters == Survivors(old(emitters), notice, fails) &&
              received == Delivered(old(emitters), old(received), notice, fails)
    {
      ghost var v0 := pendingSessions.view;
      ghost var d1 := Finished(v0[sid], agent);
      ghost var d2 := Audited(d1, ResultAudit(agent, sid, now));
      CompleteAgent(sid, agent, payload);
      ghost var v1 := pendingSessions.view;
      assert v1 == v0[sid := d1];
      AnnounceResult(sid, agent, now, fails);
      assert pendingSessions.view == v1[sid := d2];
      OverwriteTwice(v0, sid, d1, d2);
      GrowsTransitively(v0, v1, pendingSessions.view);
    }

    /**
     * What a chat_result for a known session and a non-null agent does: the
     * agent is finished, its waiter completed and its result forwarded to
     * the orchestrator; the chat_result is audited and the notice with the
     * agents still working is broadcast; for the orchestrator the session
     * then leaves the table, its future holds the aggregate, and the
     * aggregate is broadcast too.
     */
    twostate predicate ResultRecorded(sid: string, agent: string, payload: Fields, now: string,
                                      fails: (string, Fields) -> bool)
      reads this, pendingSessions, pendingSessions.Repr, registry
    {
      sid in old(pendingSessions.view) && sid in old(pendingSessions.sessions) &&
      var d1 := Finished(old(pendingSessions.view)[sid], agent);
      var d2 := Audited(d1, ResultAudit(agent, sid, now));
      var notice := ResultNotice(agent, sid, |d1.active|, now);
      var agg := Aggregated(sid, d2, payload);
      tasks == old(tasks) &&
      agentWaiters == CompletedWaiter(old(agentWaiters), sid, agent, payload) &&
      deliveries == old(deliveries) +
        (if !IsOrchestrator(agent) && Orchestrator in registry.agents
         then [DeliverTo(registry.agents[Orchestrator], ForwardedResult(agent, payload))] else []) &&
      (!IsOrchestrator(agent) ==>
         pendingSessions.view == old(pendingSessions.view)[sid := d2] &&
         emitters == Survivors(old(emitters), notice, fails) &&
         received == Delivered(old(emitters), old(received), notice, fails)) &&
      (IsOrchestrator(agent) ==>
         pendingSessions.view == old(pendingSessions.view) - {sid} &&
         old(pendingSessions.sessions[sid]) in pendingSessions.Repr &&
         old(pendingSessions.sessions[sid]).Data() == CompletedWith(d2, agg) &&
         emitters == Survivors(Survivors(old(emitters), notice, fails), agg, fails) &&
         received == Delivered(Survivors(old(emitters), notice, fails),
                               Delivered(old(emitters), old(received), notice, fails), agg, fails))
    }

    /**
     * The work of a chat_result for a known session and a non-null agent,
     * in the handler's order: complete the agent, audit and announce, and
     * for the orchestrator finalize the session.
     */
    method RecordResult(sid: string, agent: string, payload: Fields, now: string, fails: (string, Fields) -> bool)
      returns (r: Reply)
      requires Valid() && sid in pendingSessions.view
      modifies this`emitters, this`received, this`agentWaiters, this`deliveries, pendingSessions.Repr
      ensures Valid()
      ensures Grew(old(pendingSessions.view), pendingSessions.view)
      ensures r == Ok(ReceivedReply(sid, agent))
      ensures ResultRecorded(sid, agent, payload, now, fails)
    {
      ghost var v0 := pendingSessions.view;
      ghost var d2 := Audited(Finished(v0[sid], agent), ResultAudit(agent, sid, now));
      CompleteAndAnnounce(sid, agent, payload, now, fails);
      ghost var v1 := pendingSessions.view;
      assert v1 == v0[sid := d2];
      if IsOrchestrator(agent) {
        var ps := FinalizeAndAnnounce(sid, payload, fails);
        assert ps in pendingSessions.Repr;
        assert pendingSessions.view == v1 - {sid};
        OverwriteThenRemove(v0, sid, d2);
        GrowsTransitively(v0, v1, pendingSessions.view);
      }
      r := Ok(ReceivedReply(sid, agent));
    }

    /**
     * What chat_result does: a missing payload, a non-string agentId, a
     * loopback, an unknown session and a null agent change nothing;
     * otherwise the result is recorded (ResultRecorded).
     */
    twostate predicate ChatResultHandled(env: Env, payload: Option<Fields>, now: string,
                                         fails: (string, Fields) -> bool, new r: Reply)
      reads this, pendingSessions, pendingSessions.Repr, registry
    {
      (payload.None? || AsString(GetOrDefault(payload.value, "agentId", FromOption(env.senderId))).CastFails? ==>
         r == ServerError && Untouched()) &&
      (payload.Some? && !AsString(GetOrDefault(payload.value, "agentId", FromOption(env.senderId))).CastFails? ==>
         var sid := ExtractSessionId(payload);
         var agent := CastValue(AsString(GetOrDefault(payload.value, "agentId", FromOption(env.senderId))));
         var recipient := if env.recipientId.Some? then env.recipientId.value else "";
         var sender := if env.senderId.Some? then env.senderId else agent;
         (Loopback(sender, recipient) ==> r == Ok(SkippedReply) && Untouched()) &&
         (!Loopback(sender, recipient) && sid !in old(pendingSessions.view) ==>
            r == Ok(UnknownSessionReply(sid)) && Untouched()) &&
         (!Loopback(sender, recipient) && sid in old(pendingSessions.view) && agent.None? ==>
            r == ServerError && Untouched()) &&
         (!Loopback(sender, recipient) && sid in old(pendingSessions.view) && agent.Some? ==>
            r == Ok(ReceivedReply(sid, agent.value)) &&
            ResultRecorded(sid, agent.value, payload.value, now, fails)))
    }

    /**
     * chat_result: a loopback (sender equals recipient, ignoring case) is
     * skipped and an unknown session is reported, both without any change;
     * a null agent id then fails; otherwise RecordResult.
     */
    method HandleChatResult(env: Env, payload: Option<Fields>, now: string, fails: (string, Fields) -> bool)
      returns (r: Reply)
      requires Valid()
      modifies this`emitters, this`received, this`agentWaiters, this`deliveries, pendingSessions.Repr
      ensures Valid()
      ensures Grew(old(pendingSessions.view), pendingSessions.view)
      ensures ChatResultHandled(env, payload, now, fails, r)
    {
      if payload.None? {
        return ServerError;
      }
      var cast := AsString(GetOrDefault(payload.value, "agentId", FromOption(env.senderId)));
      if cast.CastFails? {
        return ServerError;
      }
      var sid := ExtractSessionId(payload);
      var agent := CastValue(cast);
      var recipient := if env.recipientId.Some? then env.recipientId.value else "";
      var sender := if env.senderId.Some? then env.senderId else agent;
      if Loopback(sender, recipient) {
        return Ok(SkippedReply);
      }
      if sid !in pendingSessions.sessions {
        return Ok(UnknownSessionReply(sid));
      }
      if agent.None? {
        return ServerError;
      }
      r := RecordResult(sid, agent.value, payload.value, now, fails);
    }

    /**
     * What any other type does: with a recipient the envelope is routed and
     * the reply names the type; without one it fails. Only deliveries change.
     */
    twostate predicate DefaultHandled(env: Env, new r: Reply)
      reads this, pendingSessions, registry
    {
      pendingSessions.view == old(pendingSessions.view) && agentWaiters == old(agentWaiters) &&
      tasks == old(tasks) && emitters == old(emitters) && received == old(received) &&
      (env.recipientId.None? ==> r == ServerError && deliveries == old(deliveries)) &&
      (env.recipientId.Some? ==>
         r == Ok(map["ok" := Bool(true), "type" := Str(TypeOf(env))]) &&
         deliveries == old(deliveries) + DeliveriesFor(registry.agents, env))
    }

    /** Any other type: routed as is; a null recipient fails. */
    method HandleDefault(env: Env) returns (r: Reply)
      requires Valid()
      modifies this`deliveries
      ensures Valid()
      ensures DefaultHandled(env, r)
    {
      var routed := Route(env);
      if !routed {
        return ServerError;
      }
      r := Ok(map["ok" := Bool(true), "type" := Str(TypeOf(env))]);
    }

    /** Nothing the controller holds has changed. */
    twostate predicate Untouched()
      reads this, pendingSessions
    {
      pendingSessions.view == old(pendingSessions.view) && emitters == old(emitters) &&
      received == old(received) && agentWaiters == old(agentWaiters) &&
      tasks == old(tasks) && deliveries == old(deliveries)
    }

    /**
     * postMessage: cast the payload (anything but a map or null fails
     * before any change), then dispatch on the lower-cased type. Whatever
     * the message, a session in the table loses nothing it recorded,
     * except the one a chat replaces.
     */
    method PostMessage(env: Env, now: string, fails: (string, Fields) -> bool) returns (r: Reply)
      requires Valid()
      modifies this`emitters, this`received, this`agentWaiters, this`tasks, this`deliveries,
               pendingSessions, pendingSessions.Repr
      ensures Valid()
      ensures PayloadOf(env).Failure? ==> r == ServerError && Untouched()
      ensures PayloadOf(env).Success? ==>
                var payload := PayloadOf(env).value;
                var t := TypeOf(env);
                (t == "agent_status_update" ==> StatusUpdateHandled(env, payload, now, fails, r)) &&
                (t == "register_agent_plan" ==> PlanRegistrationHandled(env, payload, r)) &&
                (t == "delegation" ==> DelegationHandled(env, payload, now, fails, r)) &&
                (t == "tool_invocation" || t == "tool_result" ==> ToolEventHandled(env, t, payload, now, r)) &&
                (t == "chat" ==> ChatHandled(env, payload, now, fails, r)) &&
                (t == "chat_result" ==> ChatResultHandled(env, payload, now, fails, r)) &&
                (!IsHandledType(t) ==> DefaultHandled(env, r))
      ensures TypeOf(env) != "chat" ==> Grew(old(pendingSessions.view), pendingSessions.view)
      ensures PayloadOf(env).Success? && TypeOf(env) == "chat" ==>
                Grew(old(pendingSessions.view) - {ExtractSessionId(PayloadOf(env).value)}, pendingSessions.view)
      ensures r.AwaitingChatResult? ==> TypeOf(env) == "chat"
    {
      var payload := PayloadOf(env);
      if payload.Failure? {
        return ServerError;
      }
      var t := TypeOf(env);
      if t == "agent_status_update" {
        r := HandleStatusUpdate(env, payload.value, now, fails);
      } else if t == "register_agent_plan" {
        r := HandleRegisterPlan(env, payload.value);
      } else if t == "delegation" {
        r := HandleDelegation(env, payload.value, now, fails);
      } else if t == "tool_invocation" || t == "tool_result" {
        r := HandleToolEvent(env, t, payload.value, now);
      } else if t == "chat" {
        r := HandleChat(env, payload.value, now, fails);
      } else if t == "chat_result" {
        r := HandleChatResult(env, payload.value, now, fails);
      } else {
        r := HandleDefault(env);
      }
    }
  }
}
