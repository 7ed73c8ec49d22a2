/**
 * KernelRouter and LocalMessageBus: every routed envelope is stored as
 * PENDING first, then handed to the local agent registered under its
 * recipient (and the row marked DELIVERED), or published on the
 * recipient's Redis channel.
 */
module Routing {
  import opened Wrappers
  import opened Json
  import opened Envelope
  import opened Registry
  import opened Messages

  /** MessagePublisher's channel for an agent. */
  function Channel(agentId: string): string {
    "agent:" + agentId
  }

  /** What the router did, in order. */
  datatype RouterEvent =
    | Saved(rowId: nat, row: MessageRow)
    | LocalSend(agent: AgentHandle, env: Env)
    | Published(channel: string, env: Env)

  datatype RouteFailure =
    | PayloadMissing      // fromEnvelope throws before anything is saved
    | RecipientMissing    // getAgent(null) throws after the PENDING save

  datatype Routed = DeliveredLocally | PublishedRemotely

  /** The messages table (ids generated in order) and the router's trace. */
  datatype RouterState = RouterState(table: map<nat, MessageRow>, nextId: nat, trace: seq<RouterEvent>)

  /** route */
  function Route(s: RouterState, agents: map<string, AgentHandle>, env: Env, now: Instant)
    : (RouterState, Result<Routed, RouteFailure>)
  {
    match FromEnvelope(env, now)
    case Failure(_) => (s, Failure(PayloadMissing))
    case Success(row) =>
      var id := s.nextId;
      var s1 := RouterState(s.table[id := row], id + 1, s.trace + [Saved(id, row)]);
      if env.recipientId.None? then (s1, Failure(RecipientMissing))
      else if env.recipientId.value in agents then
        var delivered := row.(status := Delivered);
        (RouterState(s1.table[id := delivered], s1.nextId,
                     s1.trace + [LocalSend(agents[env.recipientId.value], env), Saved(id, delivered)]),
         Success(DeliveredLocally))
      else
        (s1.(trace := s1.trace + [Published(Channel(env.recipientId.value), env)]), Success(PublishedRemotely))
  }

  predicate IsDispatch(e: RouterEvent) {
    e.LocalSend? || e.Published?
  }

  /**
   * A routed envelope is first saved as PENDING under a new id; then
   * exactly one dispatch happens: to the agent registered under the
   * recipient (and the row is saved again as DELIVERED), or on the
   * recipient's channel (and the row stays PENDING). No other row changes.
   */
  lemma RouteSavesThenDispatchesOnce(s: RouterState, agents: map<string, AgentHandle>, env: Env, now: Instant)
    requires env.payload != Null && env.recipientId.Some?
    ensures var (r, res) := Route(s, agents, env, now);
            var id := s.nextId;
            var row := FromEnvelope(env, now).value;
            var added := r.trace[|s.trace|..];
            res.Success? && r.nextId == id + 1 &&
            |added| >= 2 && added[0] == Saved(id, row) && row.status == Pending &&
            (forall k :: k in s.table && k != id ==> k in r.table && r.table[k] == s.table[k]) &&
            (forall i :: 1 <= i < |added| ==> (IsDispatch(added[i]) <==> i == 1)) &&
            (env.recipientId.value in agents <==> res.value == DeliveredLocally) &&
            (res.value == DeliveredLocally ==>
               added[1] == LocalSend(agents[env.recipientId.value], env) &&
               r.table[id] == row.(status := Delivered) && added == [added[0], added[1], Saved(id, r.table[id])]) &&
            (res.value == PublishedRemotely ==>
               added == [added[0], Published(Channel(env.recipientId.value), env)] && r.table[id] == row)
  {
    var (r, res) := Route(s, agents, env, now);
    var added := r.trace[|s.trace|..];
    assert r.trace == s.trace + added;
  }

  /** A null payload stores nothing and sends nothing; a null recipient is stored but never sent. */
  lemma RouteFailures(s: RouterState, agents: map<string, AgentHandle>, env: Env, now: Instant)
    ensures env.payload == Null ==> Route(s, agents, env, now) == (s, Failure(PayloadMissing))
    ensures env.payload != Null && env.recipientId.None? ==>
              var (r, res) := Route(s, agents, env, now);
              res == Failure(RecipientMissing) &&
              r.trace == s.trace + [Saved(s.nextId, FromEnvelope(env, now).value)]
  {
  }

  class LocalMessageBus {
    const registry: AgentRegistry

    constructor (registry: AgentRegistry)
      ensures this.registry == registry
    {
      this.registry := registry;
    }

    /**
     * send: the agent registered under the recipient gets the envelope,
     * nobody else does; no such agent means no delivery. The registry is
     * only read.
     */
    method Send(env: Env) returns (r: Result<Option<AgentHandle>, RouteFailure>)
      requires registry.Valid()
      ensures env.recipientId.None? <==> r.Failure?
      ensures r.Success? ==> r.value == registry.GetAgent(env.recipientId.value)
      ensures r.Success? && r.value.Some? ==> r.value.value.id == env.recipientId.value
    {
      if env.recipientId.None? {
        return Failure(RecipientMissing);
      }
      var recipient := registry.GetAgent(env.recipientId.value);
      r := Success(recipient);
    }
  }

  class KernelRouter {
    const registry: AgentRegistry
    const localBus: LocalMessageBus
    var table: map<nat, MessageRow>
    var nextId: nat
    var trace: seq<RouterEvent>

    function View(): RouterState
      reads this
    {
      RouterState(table, nextId, trace)
    }

    predicate Valid()
      reads this, localBus
    {
      localBus.registry == registry
    }

    constructor (registry: AgentRegistry, localBus: LocalMessageBus)
      requires localBus.registry == registry
      ensures View() == RouterState(map[], 0, []) && this.registry == registry && this.localBus == localBus
      ensures Valid()
    {
      this.registry := registry;
      this.localBus := localBus;
      table := map[];
      nextId := 0;
      trace := [];
    }

    method Save(id: nat, row: MessageRow)
      modifies this
      ensures View() == RouterState(old(table)[id := row], if id == old(nextId) then id + 1 else old(nextId),
                                    old(trace) + [Saved(id, row)])
    {
      table := table[id := row];
      if id == nextId {
        nextId := nextId + 1;
      }
      trace := trace + [Saved(id, row)];
    }

    method RouteEnvelope(env: Env, now: Instant) returns (r: Result<Routed, RouteFailure>)
      requires Valid() && registry.Valid()
      modifies this
      ensures (View(), r) == Route(old(View()), registry.agents, env, now)
    {
      ghost var s0 := View();
      var entity := FromEnvelope(env, now);
      if entity.Failure? {
        return Failure(PayloadMissing);
      }
      var id := nextId;
      Save(id, entity.value);
      if env.recipientId.None? {
        return Failure(RecipientMissing);
      }
      if registry.GetAgent(env.recipientId.value).Some? {
        var sent := localBus.Send(env);
        trace := trace + [LocalSend(sent.value.value, env)];
        Save(id, entity.value.(status := Delivered));
        r := Success(DeliveredLocally);
        assert table == s0.table[id := entity.value][id := entity.value.(status := Delivered)];
        assert trace == s0.trace + [Saved(id, entity.value)] +
                        [LocalSend(registry.agents[env.recipientId.value], env), Saved(id, entity.value.(status := Delivered))];
      } else {
        trace := trace + [Published(Channel(env.recipientId.value), env)];
        r := Success(PublishedRemotely);
      }
    }
  }
}
