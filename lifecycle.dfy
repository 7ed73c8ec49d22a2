/**
 * The kernel's agent bookkeeping as one value: the registry's table, the
 * lifecycle hooks called so far, and the persistence table. The factory's
 * and the registry's methods are restated here as functions on that value,
 * so the loops and handlers that call them can be specified by folds.
 */
module Lifecycle {
  import opened Wrappers
  import Text
  import opened AgentPersistence
  import opened Registry
  import opened Factory

  datatype World = World(agents: map<string, AgentHandle>, hooks: seq<Hook>, rows: Table)

  function WorldOf(registry: AgentRegistry, persistence: AgentPersistenceService): World
    reads registry, persistence
  {
    World(registry.agents, registry.hooks, persistence.rows)
  }

  /** registry.registerAgent */
  function Registered(w: World, h: AgentHandle): (r: World)
    ensures h.id in r.agents && r.agents[h.id] == h
    ensures h.id in r.rows && r.rows[h.id].status == Active
  {
    World(w.agents[h.id := h], w.hooks + [OnStart(h.id)], Upserted(w.rows, h.id, TypeName(h.kind), None))
  }

  /** registry.deregisterAgent */
  function Deregistered(w: World, id: string): (r: World)
    ensures id !in r.agents
  {
    if id in w.agents then
      World(w.agents - {id}, w.hooks + [StopHook(w.agents[id])], TerminatedRow(w.rows, id))
    else w
  }

  /** createBedrockAgent / createSpawnerAgent with a null endpoint. */
  function Spawned(w: World, id: string, kind: Kind, o: SpawnOracle): (Result<AgentHandle, FactoryError>, World) {
    if o.process.None? then (Failure(ProcessStartFailed), w)
    else
      var ep := AssignedEndpoint(None, o.port);
      var h := AgentHandle(id, kind, Some(ep), o.process);
      (Success(h), World(w.agents[id := h], w.hooks + [OnStart(id)], w.rows[id := SpawnedRow(id, kind, ep)]))
  }

  /** factory.createAgent */
  function Created(w: World, id: Option<string>, agentType: Option<string>, o: SpawnOracle)
    : (r: (Result<AgentHandle, FactoryError>, World))
    ensures r.0.Failure? ==> r.1 == w
    ensures ClassifyType(agentType).Failure? ==> r.0 == Failure(ClassifyType(agentType).error)
    ensures r.0.Success? ==>
              ClassifyType(agentType) == Success(r.0.value.kind) && r.0.value.id == ChooseId(id, o.freshId) &&
              r.0.value.process == o.process && r.0.value.id in r.1.agents && r.1.agents[r.0.value.id] == r.0.value &&
              r.0.value.id in r.1.rows && r.1.rows[r.0.value.id].status == Active
  {
    match ClassifyType(agentType)
    case Failure(e) => (Failure(e), w)
    case Success(kind) => Spawned(w, ChooseId(id, o.freshId), kind, o)
  }

  /** factory.rehydrateAgent */
  function Rehydrated(w: World, id: string, agentType: Option<string>, endpoint: Option<string>,
                      probe: string -> Probe, o: SpawnOracle): (r: (Result<AgentHandle, FactoryError>, World))
    ensures r.0.Failure? ==> r.1 == w && !EndpointAlive(endpoint, probe) && o.process.None?
    ensures r.0.Success? ==> r.0.value.id == id && (r.0.value.kind == BedrockSpawner <==> IsSpawnerType(agentType))
    ensures EndpointAlive(endpoint, probe) ==>
              r.1 == w && r.0.Success? && r.0.value.endpoint == endpoint && r.0.value.process.None?
    ensures !EndpointAlive(endpoint, probe) && o.process.Some? ==>
              r.0.Success? && r.0.value.process == o.process && id in r.1.agents && r.1.agents[id] == r.0.value
  {
    var kind := if IsSpawnerType(agentType) then BedrockSpawner else Bedrock;
    if EndpointAlive(endpoint, probe) then (Success(AgentHandle(id, kind, endpoint, None)), w)
    else Spawned(w, id, kind, o)
  }

  /**
   * The callers of createAgent register the agent a second time: that
   * second registration only repeats the onStart hook; table and rows are
   * as the factory left them.
   */
  lemma SecondRegistrationRepeatsOnStart(w: World, id: string, kind: Kind, o: SpawnOracle)
    requires !kind.Spawner? && o.process.Some?
    ensures var (r, w1) := Spawned(w, id, kind, o);
            r.Success? &&
            Registered(w1, r.value) == w1.(hooks := w1.hooks + [OnStart(id)]) &&
            w1.hooks == w.hooks + [OnStart(id)]
  {
    var (r, w1) := Spawned(w, id, kind, o);
    var h := r.value;
    assert Upserted(w1.rows, id, TypeName(kind), None) == w1.rows;
  }

  /** An unknown type leaves everything as it was, with nothing spawned. */
  lemma UnknownTypeChangesNothing(w: World, id: Option<string>, agentType: Option<string>, o: SpawnOracle)
    requires agentType.None? ||
             (!Text.EqualsIgnoreCase("BEDROCK", agentType.value) &&
              !Text.EqualsIgnoreCase("BEDROCK_SPAWNER", agentType.value))
    ensures Created(w, id, agentType, o).0.Failure? && Created(w, id, agentType, o).1 == w
  {
    if agentType.Some? {
      ClassifyIgnoresCase(agentType.value);
    }
  }

  /** A live endpoint is reattached under the same id and endpoint, with no process and no change. */
  lemma LiveEndpointReattached(w: World, id: string, agentType: Option<string>, endpoint: Option<string>,
                               probe: string -> Probe, o: SpawnOracle)
    requires EndpointAlive(endpoint, probe)
    ensures var (r, w1) := Rehydrated(w, id, agentType, endpoint, probe, o);
            w1 == w && r.Success? && r.value.id == id && r.value.endpoint == endpoint && r.value.process.None?
  {
  }

  /** A dead endpoint is replaced by a new process under the same id, on a fresh localhost port. */
  lemma DeadEndpointRespawned(w: World, id: string, agentType: Option<string>, endpoint: Option<string>,
                              probe: string -> Probe, o: SpawnOracle)
    requires !EndpointAlive(endpoint, probe) && o.process.Some?
    ensures var (r, w1) := Rehydrated(w, id, agentType, endpoint, probe, o);
            r.Success? && r.value.id == id && r.value.process == o.process &&
            r.value.endpoint == Some(LocalhostPrefix + Text.NatToString(o.port)) &&
            w1.agents == w.agents[id := r.value]
  {
  }
}
