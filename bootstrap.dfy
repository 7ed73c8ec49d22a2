/**
 * The two start-up runners: AgentBootstrapLoader.initAgents walks the
 * configured agent definitions, PersistenceBootstrap.loadPersistedAgents
 * walks the ACTIVE rows. Each item is obtained from the factory (created,
 * or rehydrated), then registered; an item that throws is skipped.
 */
module Bootstrap {
  import opened Wrappers
  import Text
  import opened AgentPersistence
  import opened Registry
  import opened Factory
  import opened Lifecycle

  /** AgentConfigProperties.AgentDefinition: every field may be null. */
  datatype AgentDefinition = AgentDefinition(id: Option<string>, agentType: Option<string>, endpoint: Option<string>)

  /** What the outside world contributes to one item: health probes and the spawn oracle. */
  datatype BootOracle = BootOracle(probe: string -> Probe, spawn: SpawnOracle)

  /** Why an item was skipped. */
  datatype BootError = FactoryFailed(e: FactoryError) | NullId

  /** The loader rehydrates a definition with an endpoint and a Bedrock type, ignoring case. */
  predicate Reattachable(d: AgentDefinition) {
    d.endpoint.Some? && d.agentType.Some? &&
    (Text.EqualsIgnoreCase("BEDROCK", d.agentType.value) || Text.EqualsIgnoreCase("BEDROCK_SPAWNER", d.agentType.value))
  }

  /**
   * The agent initAgents obtains for a definition, and the bookkeeping the
   * factory did on the way. A null id on the rehydrate path throws (in the
   * registry's put, or in the table's findById) before anything changes.
   */
  function Obtain(w: World, d: AgentDefinition, io: BootOracle): (Result<AgentHandle, BootError>, World) {
    if Reattachable(d) then
      if d.id.None? then (Failure(NullId), w)
      else
        var (r, w1) := Rehydrated(w, d.id.value, d.agentType, d.endpoint, io.probe, io.spawn);
        (if r.Success? then Success(r.value) else Failure(FactoryFailed(r.error)), w1)
    else
      var (r, w1) := Created(w, d.id, d.agentType, io.spawn);
      (if r.Success? then Success(r.value) else Failure(FactoryFailed(r.error)), w1)
  }

  /** One iteration of initAgents' forEach: obtain, then register; a failure is caught. */
  function InitStep(w: World, d: AgentDefinition, io: BootOracle): World {
    var (r, w1) := Obtain(w, d, io);
    if r.Success? then Registered(w1, r.value) else w1
  }

  /** initAgents over the first |defs| definitions. */
  function InitAll(w: World, defs: seq<AgentDefinition>, io: nat -> BootOracle): World
    decreases |defs|
  {
    if defs == [] then w
    else InitStep(InitAll(w, defs[..|defs| - 1], io), defs[|defs| - 1], io(|defs| - 1))
  }

  /**
   * An agent is reattached without a new process exactly when the
   * definition names an id, an endpoint and a Bedrock type, and the
   * endpoint answers its health check; otherwise a process is spawned.
   */
  lemma ReattachedExactlyWhenLive(w: World, d: AgentDefinition, io: BootOracle)
    requires io.spawn.process.Some?
    ensures var r := Obtain(w, d, io).0;
            (r.Success? && r.value.process.None?) <==>
            (Reattachable(d) && d.id.Some? && EndpointAlive(d.endpoint, io.probe))
  {
  }

  /** Every agent obtained is registered under its id; a failed item changes nothing. */
  lemma ObtainedIsRegistered(w: World, d: AgentDefinition, io: BootOracle)
    ensures var (r, w1) := Obtain(w, d, io);
            (r.Success? ==> var w2 := InitStep(w, d, io);
                            r.value.id in w2.agents && w2.agents[r.value.id] == r.value &&
                            w2.rows[r.value.id].status == Active) &&
            (r.Failure? ==> InitStep(w, d, io) == w)
  {
    var (r, w1) := Obtain(w, d, io);
    if r.Failure? {
      if Reattachable(d) && d.id.Some? {
        var (rr, ww) := Rehydrated(w, d.id.value, d.agentType, d.endpoint, io.probe, io.spawn);
        assert rr.Failure? && ww == w;
      } else if !Reattachable(d) {
        var (rr, ww) := Created(w, d.id, d.agentType, io.spawn);
        assert rr.Failure? && ww == w;
      }
    }
  }

  lemma {:induction false} InitAllAppend(w: World, a: seq<AgentDefinition>, b: seq<AgentDefinition>, io: nat -> BootOracle)
    ensures InitAll(w, a + b, io) == InitAll(InitAll(w, a, io), b, ShiftedBoot(io, |a|))
    decreases |b|
  {
    var sh := ShiftedBoot(io, |a|);
    if b == [] {
      assert a + b == a;
    } else {
      var b' := b[..|b| - 1];
      var d := b[|b| - 1];
      assert (a + b)[..|a + b| - 1] == a + b';
      assert (a + b)[|a + b| - 1] == d;
      InitAllAppend(w, a, b', io);
      var before := InitAll(w, a + b', io);
      assert InitAll(w, a + b, io) == InitStep(before, d, io(|a + b| - 1));
      assert sh(|b| - 1) == io(|a + b| - 1);
      assert InitAll(InitAll(w, a, io), b, sh) == InitStep(InitAll(InitAll(w, a, io), b', sh), d, sh(|b| - 1));
    }
  }

  /** The oracles seen by the items after the first k. */
  function ShiftedBoot(io: nat -> BootOracle, k: nat): nat -> BootOracle {
    (i: nat) => io(k + i)
  }

  /**
   * A definition that fails does not stop the ones after it: the run is
   * the run of the definitions before it followed by those after it.
   */
  lemma FailureIsolated(w: World, a: seq<AgentDefinition>, d: AgentDefinition, b: seq<AgentDefinition>,
                        io: nat -> BootOracle)
    requires Obtain(InitAll(w, a, io), d, io(|a|)).0.Failure?
    ensures InitAll(w, a + [d] + b, io) == InitAll(InitAll(w, a, io), b, ShiftedBoot(io, |a| + 1))
  {
    var w1 := InitAll(w, a, io);
    ObtainedIsRegistered(w1, d, io(|a|));
    InitAllAppend(w, a + [d], b, io);
    InitAllAppend(w, a, [d], io);
    assert [d][..0] == [];
  }

  /** initAgents: nothing for a null list, else each definition in turn. */
  method InitAgents(factory: AgentFactory, defs: Option<seq<AgentDefinition>>, io: nat -> BootOracle)
    requires factory.Valid()
    modifies factory.registry, factory.persistence
    ensures defs.None? ==> unchanged(factory.registry) && unchanged(factory.persistence)
    ensures defs.Some? ==>
              WorldOf(factory.registry, factory.persistence) ==
              InitAll(old(WorldOf(factory.registry, factory.persistence)), defs.value, io)
  {
    if defs.None? {
      return;
    }
    var registry := factory.registry;
    var persistence := factory.persistence;
    ghost var w0 := WorldOf(registry, persistence);
    var i := 0;
    while i < |defs.value|
      invariant 0 <= i <= |defs.value|
      invariant factory.Valid()
      invariant WorldOf(registry, persistence) == InitAll(w0, defs.value[..i], io)
    {
      var d := defs.value[i];
      assert defs.value[..i + 1][..i] == defs.value[..i];
      InitOne(factory, d, io(i));
      i := i + 1;
    }
    assert defs.value[..i] == defs.value;
  }

  /** One definition: rehydrate or create, then register; a thrown exception is caught. */
  method InitOne(factory: AgentFactory, d: AgentDefinition, io: BootOracle)
    requires factory.Valid()
    modifies factory.registry, factory.persistence
    ensures WorldOf(factory.registry, factory.persistence) ==
            InitStep(old(WorldOf(factory.registry, factory.persistence)), d, io)
  {
    var agent: Result<AgentHandle, FactoryError>;
    if Reattachable(d) {
      if d.id.None? {
        return;
      }
      agent := factory.RehydrateAgent(d.id.value, d.agentType, d.endpoint, io.probe, io.spawn);
    } else {
      agent := factory.CreateAgent(d.id, d.agentType, io.spawn);
    }
    if agent.Success? {
      factory.registry.RegisterAgent(agent.value);
    }
  }

  // ---------------------------------------------------------------------
  // PersistenceBootstrap

  /** One ACTIVE row: rehydrate under its own id and type, then register. */
  function RestoreStep(w: World, row: AgentRow, io: BootOracle): (r: World)
    ensures w.hooks <= r.hooks && w.agents.Keys <= r.agents.Keys
    ensures (EndpointAlive(row.endpoint, io.probe) || io.spawn.process.Some?) ==> row.agentId in r.agents
  {
    var (r, w1) := Rehydrated(w, row.agentId, Some(row.agentType), row.endpoint, io.probe, io.spawn);
    if r.Success? then Registered(w1, r.value) else w1
  }

  /** loadPersistedAgents as a fold over loadActive's rows: hooks and agents only accumulate. */
  function RestoreAll(w: World, rows: seq<AgentRow>, io: nat -> BootOracle): (r: World)
    ensures w.hooks <= r.hooks && w.agents.Keys <= r.agents.Keys
    decreases |rows|
  {
    if rows == [] then w
    else RestoreStep(RestoreAll(w, rows[..|rows| - 1], io), rows[|rows| - 1], io(|rows| - 1))
  }

  /**
   * Every row that can be reattached or respawned ends with an agent under
   * its own id, whatever happens to the rows before and after it.
   */
  lemma {:induction false} RestoreAllRegistersRestorable(w: World, rows: seq<AgentRow>, io: nat -> BootOracle)
    ensures forall i :: 0 <= i < |rows| && (EndpointAlive(rows[i].endpoint, io(i).probe) || io(i).spawn.process.Some?) ==>
              rows[i].agentId in RestoreAll(w, rows, io).agents
    decreases |rows|
  {
    if rows != [] {
      var front := rows[..|rows| - 1];
      RestoreAllRegistersRestorable(w, front, io);
      assert forall i :: 0 <= i < |front| ==> front[i] == rows[i];
    }
  }

  /** A restored row keeps its logical id: the agent registered for it sits under row.agentId. */
  lemma RestoredUnderOwnId(w: World, row: AgentRow, io: BootOracle)
    requires EndpointAlive(row.endpoint, io.probe) || io.spawn.process.Some?
    ensures var w1 := RestoreStep(w, row, io);
            row.agentId in w1.agents && w1.agents[row.agentId].id == row.agentId &&
            w1.rows[row.agentId].status == Active
  {
  }

  /** A row whose rehydration fails changes nothing, so the loop carries on unchanged. */
  lemma RestoreFailureChangesNothing(w: World, row: AgentRow, io: BootOracle)
    requires !EndpointAlive(row.endpoint, io.probe) && io.spawn.process.None?
    ensures RestoreStep(w, row, io) == w
  {
  }

  /** loadPersistedAgents: rehydrate and register every ACTIVE row, in loadActive's order. */
  method LoadPersistedAgents(factory: AgentFactory, io: nat -> BootOracle) returns (active: seq<AgentRow>)
    requires factory.Valid() && factory.persistence.Valid()
    modifies factory.registry, factory.persistence
    ensures forall row :: row in active <==> row in ActiveRows(old(factory.persistence.rows))
    ensures WorldOf(factory.registry, factory.persistence) ==
            RestoreAll(old(WorldOf(factory.registry, factory.persistence)), active, io)
  {
    var registry := factory.registry;
    var persistence := factory.persistence;
    active := persistence.LoadActive();
    ghost var w0 := WorldOf(registry, persistence);
    var i := 0;
    while i < |active|
      invariant 0 <= i <= |active|
      invariant factory.Valid()
      invariant WorldOf(registry, persistence) == RestoreAll(w0, active[..i], io)
    {
      var row := active[i];
      assert active[..i + 1][..i] == active[..i];
      var agent := factory.RehydrateAgent(row.agentId, Some(row.agentType), row.endpoint, io(i).probe, io(i).spawn);
      if agent.Success? {
        registry.RegisterAgent(agent.value);
      }
      i := i + 1;
    }
    assert active[..i] == active;
  }

  // ---------------------------------------------------------------------
  // The endpoint column

  /**
   * As written, the table's upsert has no endpoint parameter: a row it
   * creates has no endpoint, so at the next start that agent is never
   * reattached, only respawned, even while its process is still serving.
   */
  lemma UpsertedRowIsRespawned(t: Table, id: string, agentType: string, w: World, io: BootOracle)
    requires id !in t
    ensures var row := Upserted(t, id, agentType, None)[id];
            row.endpoint.None? &&
            RestoreStep(w, row, io) == (if io.spawn.process.Some? then Registered(Spawned(w, id, if IsSpawnerType(Some(agentType)) then BedrockSpawner else Bedrock, io.spawn).1, Spawned(w, id, if IsSpawnerType(Some(agentType)) then BedrockSpawner else Bedrock, io.spawn).0.value) else w)
  {
  }

  /**
   * With the endpoint recorded, as the factory intends, an agent whose
   * process still answers is reattached at the next start under the same
   * id and endpoint, and no process is spawned.
   */
  lemma SpawnedRowIsReattached(t: Table, id: string, kind: Kind, ep: string, w: World, io: BootOracle)
    requires kind == Bedrock || kind == BedrockSpawner
    requires EndpointAlive(Some(ep), io.probe)
    ensures var row := UpsertedWithEndpoint(t, id, TypeName(kind), None, ep)[id];
            var w1 := RestoreStep(w, row, io);
            w1 == Registered(w, AgentHandle(id, kind, Some(ep), None))
  {
    assert Text.EqualsIgnoreCase("BEDROCK_SPAWNER", TypeName(kind)) <==> kind == BedrockSpawner by {
      if kind == Bedrock {
        assert Text.Lower("BEDROCK_SPAWNER") != Text.Lower("BEDROCK") by {
          assert |Text.Lower("BEDROCK_SPAWNER")| != |Text.Lower("BEDROCK")|;
        }
      }
    }
  }
}
