/**
 * AgentFactory: chooses an agent's id and kind, spawns a Bedrock agent
 * process, or reattaches to one that is still alive.
 */
module Factory {
  import opened Wrappers
  import Text
  import opened AgentPersistence
  import opened Registry

  /** The outside world a spawn sees: a fresh UUID, a free port, and the started process (None when the start throws). */
  datatype SpawnOracle = SpawnOracle(freshId: string, port: nat, process: Option<ProcessRef>)

  /** The health probe's outcome for a URL: an HTTP status, or an exception. */
  datatype Probe = Status(code: int) | Unreachable

  datatype FactoryError =
    | NullType
    | UnknownAgentType(agentType: string)
    | ProcessStartFailed

  const HealthPath := "/actuator/health"
  const LocalhostPrefix := "http://localhost:"

  /** A null or empty id is replaced by a fresh one. */
  function ChooseId(id: Option<string>, freshId: string): (r: string)
    ensures id.Some? && id.value != "" ==> r == id.value
    ensures (id.None? || id.value == "") ==> r == freshId
    ensures freshId != "" ==> r != ""
  {
    if id.None? || id.value == "" then freshId else id.value
  }

  /** createAgent's switch on type.toUpperCase(); a null type throws. */
  function ClassifyType(agentType: Option<string>): (r: Result<Kind, FactoryError>)
    ensures agentType.None? ==> r == Failure(NullType)
    ensures agentType.Some? && r.Failure? ==> r.error == UnknownAgentType(agentType.value)
    ensures r.Success? ==> !r.value.Spawner?
  {
    match agentType
    case None => Failure(NullType)
    case Some(t) =>
      if Text.Upper(t) == "BEDROCK" then Success(Bedrock)
      else if Text.Upper(t) == "BEDROCK_SPAWNER" then Success(BedrockSpawner)
      else Failure(UnknownAgentType(t))
  }

  /**
   * The type switch is case-insensitive: a type is accepted exactly when it
   * equals BEDROCK or BEDROCK_SPAWNER ignoring case, and it makes a spawner
   * exactly when it equals BEDROCK_SPAWNER ignoring case.
   */
  lemma ClassifyIgnoresCase(t: string)
    ensures ClassifyType(Some(t)) == Success(Bedrock) <==> Text.EqualsIgnoreCase("BEDROCK", t)
    ensures ClassifyType(Some(t)) == Success(BedrockSpawner) <==> Text.EqualsIgnoreCase("BEDROCK_SPAWNER", t)
    ensures ClassifyType(Some(t)).Failure? <==>
              !Text.EqualsIgnoreCase("BEDROCK", t) && !Text.EqualsIgnoreCase("BEDROCK_SPAWNER", t)
  {
    Text.UpperMatchesIgnoreCase(t, "BEDROCK");
    Text.UpperMatchesIgnoreCase(t, "BEDROCK_SPAWNER");
  }

  /** The given endpoint, or one on localhost at the free port. */
  function AssignedEndpoint(endpoint: Option<string>, port: nat): (r: string)
    ensures endpoint.Some? ==> r == endpoint.value
    ensures endpoint.None? ==> Text.StartsWith(r, LocalhostPrefix) && r[|LocalhostPrefix|..] == Text.NatToString(port)
  {
    if endpoint.Some? then endpoint.value else LocalhostPrefix + Text.NatToString(port)
  }

  /**
   * isEndpointAlive: a non-null endpoint whose health URL answers 200. A
   * null endpoint, a non-200 answer and an exception all count as dead.
   */
  predicate EndpointAlive(endpoint: Option<string>, probe: string -> Probe)
    ensures endpoint.None? ==> !EndpointAlive(endpoint, probe)
    ensures endpoint.Some? && probe(endpoint.value + HealthPath).Unreachable? ==> !EndpointAlive(endpoint, probe)
    ensures (endpoint.Some? && probe(endpoint.value + HealthPath).Status? &&
             probe(endpoint.value + HealthPath).code != 200) ==> !EndpointAlive(endpoint, probe)
  {
    endpoint.Some? && probe(endpoint.value + HealthPath) == Status(200)
  }

  /** getType and the factory's type switch agree: each Bedrock kind's own name selects that kind. */
  lemma TypeNameClassifies(k: Kind)
    requires !k.Spawner?
    ensures ClassifyType(Some(TypeName(k))) == Success(k)
  {
    ClassifyIgnoresCase(TypeName(k));
  }

  /** `"BEDROCK_SPAWNER".equalsIgnoreCase(type)`, false for a null type. */
  predicate IsSpawnerType(agentType: Option<string>) {
    agentType.Some? && Text.EqualsIgnoreCase("BEDROCK_SPAWNER", agentType.value)
  }

  /** The row a successful spawn leaves: ACTIVE, null state, with the endpoint. */
  function SpawnedRow(id: string, kind: Kind, endpoint: string): AgentRow {
    AgentRow(id, TypeName(kind), None, Active, Some(endpoint))
  }

  class AgentFactory {
    const registry: AgentRegistry
    const persistence: AgentPersistenceService

    /** The registry writes to the same table the factory writes to. */
    predicate Valid()
      reads this, registry
    {
      registry.persistence == persistence
    }

    constructor (registry: AgentRegistry, persistence: AgentPersistenceService)
      requires registry.persistence == persistence
      ensures this.registry == registry && this.persistence == persistence && Valid()
    {
      this.registry := registry;
      this.persistence := persistence;
    }

    /**
     * createBedrockAgent / createSpawnerAgent: start the process, record the
     * agent ACTIVE with its endpoint, register it. Nothing is recorded or
     * registered when the process cannot be started.
     */
    method Spawn(id: string, kind: Kind, endpoint: Option<string>, o: SpawnOracle)
      returns (r: Result<AgentHandle, FactoryError>)
      requires Valid() && !kind.Spawner?
      modifies registry, persistence
      ensures o.process.None? ==>
                r == Failure(ProcessStartFailed) && unchanged(registry) && unchanged(persistence)
      ensures o.process.Some? ==>
                var ep := AssignedEndpoint(endpoint, o.port);
                var h := AgentHandle(id, kind, Some(ep), o.process);
                r == Success(h) &&
                registry.agents == old(registry.agents)[id := h] &&
                registry.hooks == old(registry.hooks) + [OnStart(id)] &&
                persistence.rows == old(persistence.rows)[id := SpawnedRow(id, kind, ep)]
    {
      var chosen := AssignedEndpoint(endpoint, o.port);
      if o.process.None? {
        return Failure(ProcessStartFailed);
      }
      var agent := AgentHandle(id, kind, Some(chosen), o.process);
      persistence.UpsertActiveWithEndpoint(id, TypeName(kind), None, chosen);
      registry.RegisterAgent(agent);
      r := Success(agent);
    }

    method CreateBedrockAgent(id: string, endpoint: Option<string>, o: SpawnOracle)
      returns (r: Result<AgentHandle, FactoryError>)
      requires Valid()
      modifies registry, persistence
      ensures o.process.None? ==>
                r == Failure(ProcessStartFailed) && unchanged(registry) && unchanged(persistence)
      ensures o.process.Some? ==>
                var ep := AssignedEndpoint(endpoint, o.port);
                var h := AgentHandle(id, Bedrock, Some(ep), o.process);
                r == Success(h) &&
                registry.agents == old(registry.agents)[id := h] &&
                registry.hooks == old(registry.hooks) + [OnStart(id)] &&
                persistence.rows == old(persistence.rows)[id := SpawnedRow(id, Bedrock, ep)]
    {
      r := Spawn(id, Bedrock, endpoint, o);
    }

    method CreateSpawnerAgent(id: string, endpoint: Option<string>, o: SpawnOracle)
      returns (r: Result<AgentHandle, FactoryError>)
      requires Valid()
      modifies registry, persistence
      ensures o.process.None? ==>
                r == Failure(ProcessStartFailed) && unchanged(registry) && unchanged(persistence)
      ensures o.process.Some? ==>
                var ep := AssignedEndpoint(endpoint, o.port);
                var h := AgentHandle(id, BedrockSpawner, Some(ep), o.process);
                r == Success(h) &&
                registry.agents == old(registry.agents)[id := h] &&
                registry.hooks == old(registry.hooks) + [OnStart(id)] &&
                persistence.rows == old(persistence.rows)[id := SpawnedRow(id, BedrockSpawner, ep)]
    {
      r := Spawn(id, BedrockSpawner, endpoint, o);
    }

    /**
     * createAgent: choose the id, then spawn by type. An unknown or null
     * type fails before anything is spawned, recorded or registered.
     */
    method CreateAgent(id: Option<string>, agentType: Option<string>, o: SpawnOracle)
      returns (r: Result<AgentHandle, FactoryError>)
      requires Valid()
      modifies registry, persistence
      ensures ClassifyType(agentType).Failure? ==>
                r == Failure(ClassifyType(agentType).error) && unchanged(registry) && unchanged(persistence)
      ensures ClassifyType(agentType).Success? && o.process.None? ==>
                r == Failure(ProcessStartFailed) && unchanged(registry) && unchanged(persistence)
      ensures ClassifyType(agentType).Success? && o.process.Some? ==>
                var newId := ChooseId(id, o.freshId);
                var kind := ClassifyType(agentType).value;
                var ep := AssignedEndpoint(None, o.port);
                var h := AgentHandle(newId, kind, Some(ep), o.process);
                r == Success(h) &&
                registry.agents == old(registry.agents)[newId := h] &&
                registry.hooks == old(registry.hooks) + [OnStart(newId)] &&
                persistence.rows == old(persistence.rows)[newId := SpawnedRow(newId, kind, ep)]
    {
      var newId := ChooseId(id, o.freshId);
      var kind := ClassifyType(agentType);
      if kind.Failure? {
        return Failure(kind.error);
      }
      r := Spawn(newId, kind.value, None, o);
    }

    /**
     * rehydrateAgent: reattach to a live endpoint without spawning (the
     * wrapper is not registered here), or spawn afresh under the same id.
     */
    method RehydrateAgent(id: string, agentType: Option<string>, endpoint: Option<string>,
                          probe: string -> Probe, o: SpawnOracle)
      returns (r: Result<AgentHandle, FactoryError>)
      requires Valid()
      modifies registry, persistence
      ensures EndpointAlive(endpoint, probe) ==>
                r == Success(AgentHandle(id, if IsSpawnerType(agentType) then BedrockSpawner else Bedrock,
                                         endpoint, None)) &&
                unchanged(registry) && unchanged(persistence)
      ensures !EndpointAlive(endpoint, probe) && o.process.None? ==>
                r == Failure(ProcessStartFailed) && unchanged(registry) && unchanged(persistence)
      ensures !EndpointAlive(endpoint, probe) && o.process.Some? ==>
                var kind := if IsSpawnerType(agentType) then BedrockSpawner else Bedrock;
                var ep := AssignedEndpoint(None, o.port);
                var h := AgentHandle(id, kind, Some(ep), o.process);
                r == Success(h) &&
                registry.agents == old(registry.agents)[id := h] &&
                registry.hooks == old(registry.hooks) + [OnStart(id)] &&
                persistence.rows == old(persistence.rows)[id := SpawnedRow(id, kind, ep)]
    {
      var kind := if IsSpawnerType(agentType) then BedrockSpawner else Bedrock;
      if EndpointAlive(endpoint, probe) {
        return Success(AgentHandle(id, kind, endpoint, None));
      }
      r := Spawn(id, kind, None, o);
    }
  }
}
