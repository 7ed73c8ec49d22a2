/**
 * AgentRegistry: the kernel's id -> agent table, with lifecycle hooks and
 * the ACTIVE/TERMINATED bookkeeping in AgentPersistenceService.
 */
module Registry {
  import opened Wrappers
  import Text
  import opened Envelope
  import opened AgentPersistence

  /** An operating-system process started for an agent (opaque). */
  type ProcessRef = nat

  /** The agent implementations the kernel creates. */
  datatype Kind =
    | Bedrock
    | BedrockSpawner
    | Spawner(declaredType: string)

  /** What the registry holds for an agent: its id, kind, endpoint and process. */
  datatype AgentHandle = AgentHandle(
    id: string,
    kind: Kind,
    endpoint: Option<string>,
    process: Option<ProcessRef>)

  /**
   * Agent.getType: the two Bedrock kinds report their fixed upper-case
   * names, and a plain spawner the type it was declared with.
   */
  function TypeName(k: Kind): (r: string)
    ensures k.Spawner? ==> r == k.declaredType
    ensures !k.Spawner? ==> Text.Upper(r) == r
    ensures !k.Spawner? ==> (r == "BEDROCK_SPAWNER" <==> k == BedrockSpawner)
  {
    match k
    case Bedrock => "BEDROCK"
    case BedrockSpawner => "BEDROCK_SPAWNER"
    case Spawner(t) => t
  }

  /**
   * A lifecycle hook call. onStop of a Bedrock agent destroys the process
   * it was started with, if any; the other hooks only log. A throwing hook
   * is caught by the registry, so the call is all that matters.
   */
  datatype Hook = OnStart(id: string) | OnStop(id: string, destroys: Option<ProcessRef>)

  /** onStop: a Bedrock agent, spawner or not, destroys its process; a plain spawner only logs. */
  function StopHook(a: AgentHandle): (r: Hook)
    ensures r.OnStop? && r.id == a.id
    ensures r.destroys.Some? ==> !a.kind.Spawner? && r.destroys == a.process
    ensures !a.kind.Spawner? ==> r.destroys == a.process
  {
    OnStop(a.id, if a.kind.Spawner? then None else a.process)
  }

  /** Where routeMessage hands an envelope. */
  datatype Delivery = DeliverTo(agent: AgentHandle, env: Env) | NoAgent(recipient: string)

  /** ConcurrentHashMap.get(null) throws. */
  datatype RouteError = NullRecipient

  class AgentRegistry {
    var agents: map<string, AgentHandle>
    var hooks: seq<Hook>
    const persistence: AgentPersistenceService

    /** Every agent sits under its own id. */
    predicate Valid()
      reads this
    {
      forall id :: id in agents ==> agents[id].id == id
    }

    constructor (persistence: AgentPersistenceService)
      ensures agents == map[] && hooks == [] && this.persistence == persistence
      ensures Valid()
    {
      agents := map[];
      hooks := [];
      this.persistence := persistence;
    }

    /**
     * Store the agent under its id (replacing any agent there), call onStart,
     * and upsert an ACTIVE row with a null state.
     */
    method RegisterAgent(agent: AgentHandle)
      modifies this, persistence
      ensures agents == old(agents)[agent.id := agent]
      ensures hooks == old(hooks) + [OnStart(agent.id)]
      ensures persistence.rows == Upserted(old(persistence.rows), agent.id, TypeName(agent.kind), None)
      ensures old(Valid()) ==> Valid()
    {
      agents := agents[agent.id := agent];
      hooks := hooks + [OnStart(agent.id)];
      persistence.UpsertActive(agent.id, TypeName(agent.kind), None);
    }

    /**
     * Remove a present agent, call its onStop and mark its row TERMINATED.
     * An absent id changes nothing, and the table is not touched.
     */
    method DeregisterAgent(id: string)
      modifies this, persistence
      ensures id in old(agents) ==>
                agents == old(agents) - {id} &&
                hooks == old(hooks) + [StopHook(old(agents)[id])] &&
                persistence.rows == TerminatedRow(old(persistence.rows), id)
      ensures id !in old(agents) ==> unchanged(this) && unchanged(persistence)
      ensures id !in agents
      ensures old(Valid()) ==> Valid()
    {
      var removed := GetAgent(id);
      if removed.Some? {
        agents := agents - {id};
        hooks := hooks + [StopHook(removed.value)];
        persistence.MarkTerminated(id);
      }
    }

    /** getAgent: null for an id with no agent. */
    function GetAgent(id: string): (r: Option<AgentHandle>)
      reads this
      ensures r.Some? <==> id in agents
      ensures r.Some? ==> r.value == agents[id]
    {
      if id in agents then Some(agents[id]) else None
    }

    /** The membership test MessageController calls as `hasAgent`. */
    predicate HasAgent(id: string)
      reads this
      ensures HasAgent(id) <==> id in agents
    {
      GetAgent(id).Some?
    }

    /** listAgentIds: the live key set. */
    function ListAgentIds(): (ids: set<string>)
      reads this
      ensures forall id :: id in ids <==> GetAgent(id).Some?
    {
      agents.Keys
    }

    /**
     * routeMessage: hand the envelope to the agent registered under its
     * recipient, or to nobody. The table is only read.
     */
    method RouteMessage(env: Env) returns (r: Result<Delivery, RouteError>)
      ensures env.recipientId.None? <==> r == Failure(NullRecipient)
      ensures r.Success? && r.value.DeliverTo? ==>
                env.recipientId.Some? && r.value.env == env &&
                GetAgent(env.recipientId.value) == Some(r.value.agent)
      ensures r.Success? && r.value.NoAgent? ==>
                env.recipientId == Some(r.value.recipient) && GetAgent(r.value.recipient).None?
    {
      if env.recipientId.None? {
        return Failure(NullRecipient);
      }
      var agent := GetAgent(env.recipientId.value);
      if agent.Some? {
        r := Success(DeliverTo(agent.value, env));
      } else {
        r := Success(NoAgent(env.recipientId.value));
      }
    }
  }
}
