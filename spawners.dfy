/**
 * The spawner agents' message handlers. SpawnerBedrockAgent answers SPAWN,
 * AGENT_KILL and SELF_TERMINATE itself and hands every other message to
 * the BedrockAgent behaviour; SpawnerAgent answers SPAWN and AGENT_KILL
 * and only logs the rest. Every exception is caught, so a failing command
 * changes nothing.
 */
module Spawners {
  import opened Wrappers
  import Text
  import opened Json
  import opened AgentPersistence
  import opened Registry
  import opened Factory
  import opened Lifecycle
  import O = Orchestration
  import Bedrock

  datatype SpawnRequest = SpawnRequest(agentId: Option<string>, agentType: Option<string>)

  /** ObjectMapper.convertValue into a request class: a null payload gives a null request. */
  datatype Converted<T> = NullRequest | Request(request: T) | Unconvertible

  /**
   * A JSON value bound to a String property: null stays null, text is
   * taken as is, numbers and booleans are coerced to their text, anything
   * else fails.
   */
  function FieldText(v: Value): Option<Option<string>> {
    match v
    case Null => Some(None)
    case Str(s) => Some(Some(s))
    case Bool(_) => Some(Some(ToText(v)))
    case Num(_) => Some(Some(ToText(v)))
    case _ => None
  }

  /** convertValue(payload, SpawnRequest.class); an unknown property fails the conversion. */
  function ToSpawnRequest(payload: Value): (r: Converted<SpawnRequest>)
    ensures r.Request? ==> payload.Obj? && payload.fields.Keys <= {"agentId", "agentType"}
    ensures r.NullRequest? <==> payload.Null?
    ensures payload == Obj(map[]) ==> r == Request(SpawnRequest(None, None))
  {
    match payload
    case Null => NullRequest
    case Obj(m) =>
      var id := FieldText(GetOrDefault(m, "agentId", Null));
      var t := FieldText(GetOrDefault(m, "agentType", Null));
      if !(m.Keys <= {"agentId", "agentType"}) || id.None? || t.None? then Unconvertible
      else Request(SpawnRequest(id.value, t.value))
    case _ => Unconvertible
  }

  /** convertValue(payload, KillRequest.class), reduced to the agentId it yields, if any. */
  function KillTarget(payload: Value): (r: Option<string>)
    ensures r.Some? ==> payload.Obj? && payload.fields.Keys <= {"agentId"}
    ensures payload.Obj? && payload.fields == map["agentId" := Str("x")] ==> r == Some("x")
  {
    match payload
    case Obj(m) =>
      var id := FieldText(GetOrDefault(m, "agentId", Null));
      if !(m.Keys <= {"agentId"}) || id.None? then None else id.value
    case _ => None
  }

  /** The requested type, or the handler's default when it is null or blank. */
  function RequestedType(req: SpawnRequest, default: string): string {
    if req.agentType.None? || Text.IsBlank(req.agentType.value) then default else req.agentType.value
  }

  /** SPAWN: createAgent, then register the new agent again. */
  function SpawnWorld(w: World, payload: Value, default: string, so: SpawnOracle): (r: World)
    ensures !ToSpawnRequest(payload).Request? ==> r == w
    ensures w.agents.Keys <= r.agents.Keys
    ensures ToSpawnRequest(payload).Request? ==>
              var newId := ChooseId(ToSpawnRequest(payload).request.agentId, so.freshId);
              r.agents.Keys <= w.agents.Keys + {newId} &&
              (forall k :: k in w.agents && k != newId ==> r.agents[k] == w.agents[k])
  {
    match ToSpawnRequest(payload)
    case Request(req) =>
      var (r, w1) := Created(w, req.agentId, Some(RequestedType(req, default)), so);
      if r.Success? then Registered(w1, r.value) else w1
    case _ => w
  }

  /** AGENT_KILL: deregister the named agent, if the payload names one. */
  function KillWorld(w: World, payload: Value): (r: World)
    ensures KillTarget(payload).None? ==> r == w
    ensures KillTarget(payload).Some? ==> r.agents == w.agents - {KillTarget(payload).value}
  {
    match KillTarget(payload)
    case Some(id) => Deregistered(w, id)
    case None => w
  }

  predicate IsCommand(msgType: Option<string>, command: string) {
    msgType.Some? && Text.EqualsIgnoreCase(command, msgType.value)
  }

  /** SPAWN, AGENT_KILL and SELF_TERMINATE for SpawnerBedrockAgent `self`. */
  function SpawnerBedrockWorld(w: World, self: string, msgType: Option<string>, payload: Value, so: SpawnOracle): World {
    if IsCommand(msgType, "SPAWN") then SpawnWorld(w, payload, "BEDROCK", so)
    else if IsCommand(msgType, "AGENT_KILL") then KillWorld(w, payload)
    else if IsCommand(msgType, "SELF_TERMINATE") then Deregistered(w, self)
    else w
  }

  /** SPAWN and AGENT_KILL for a SpawnerAgent; any other type only logs. */
  function SpawnerWorld(w: World, msgType: Option<string>, payload: Value, so: SpawnOracle): World {
    if IsCommand(msgType, "SPAWN") then SpawnWorld(w, payload, "NOT_SPECIFIED", so)
    else if IsCommand(msgType, "AGENT_KILL") then KillWorld(w, payload)
    else w
  }

  /**
   * SpawnerBedrockAgent: a SPAWN with no or a blank agentType makes a
   * BEDROCK agent under the requested id (a fresh one when absent), and
   * it is registered.
   */
  lemma SpawnDefaultsToBedrock(w: World, self: string, msgType: Option<string>, id: Option<string>,
                               t: Value, so: SpawnOracle)
    requires IsCommand(msgType, "SPAWN") && so.process.Some?
    requires t == Null || (t.Str? && Text.IsBlank(t.s))
    requires id.Some? ==> id.value != ""
    ensures var payload := Obj(map["agentId" := FromOption(id), "agentType" := t]);
            var newId := ChooseId(id, so.freshId);
            var w1 := SpawnerBedrockWorld(w, self, msgType, payload, so);
            newId in w1.agents && w1.agents[newId].kind == Bedrock &&
            w1.agents[newId].endpoint == Some(LocalhostPrefix + Text.NatToString(so.port)) &&
            (id.Some? ==> newId == id.value)
  {
    var payload := Obj(map["agentId" := FromOption(id), "agentType" := t]);
    var req := ToSpawnRequest(payload);
    assert req == Request(SpawnRequest(id, if t == Null then None else Some(t.s)));
    assert RequestedType(req.request, "BEDROCK") == "BEDROCK";
    ClassifyIgnoresCase("BEDROCK");
  }

  /** A SpawnerAgent's SPAWN without a type asks for NOT_SPECIFIED, which the factory rejects: nothing changes. */
  lemma UnspecifiedTypeRejected(w: World, msgType: Option<string>, payload: Value, so: SpawnOracle)
    requires IsCommand(msgType, "SPAWN")
    requires ToSpawnRequest(payload).Request? && ToSpawnRequest(payload).request.agentType.None?
    ensures SpawnerWorld(w, msgType, payload, so) == w
  {
    assert Text.Upper("NOT_SPECIFIED") == "NOT_SPECIFIED";
  }

  /** AGENT_KILL removes exactly the named agent; every other agent stays as it was. */
  lemma KillRemovesOnlyTarget(w: World, self: string, msgType: Option<string>, id: string, so: SpawnOracle)
    requires IsCommand(msgType, "AGENT_KILL") && !IsCommand(msgType, "SPAWN")
    ensures var w1 := SpawnerBedrockWorld(w, self, msgType, Obj(map["agentId" := Str(id)]), so);
            id !in w1.agents &&
            (forall k :: k != id ==> (k in w1.agents <==> k in w.agents)) &&
            (forall k :: k in w1.agents ==> w1.agents[k] == w.agents[k])
  {
  }

  /** AGENT_KILL without an agentId, or with an unconvertible payload, changes nothing. */
  lemma KillWithoutTargetIsNoOp(w: World, self: string, msgType: Option<string>, payload: Value, so: SpawnOracle)
    requires IsCommand(msgType, "AGENT_KILL") && !IsCommand(msgType, "SPAWN")
    requires KillTarget(payload).None?
    ensures SpawnerBedrockWorld(w, self, msgType, payload, so) == w
    ensures SpawnerWorld(w, msgType, payload, so) == w
  {
  }

  /** SELF_TERMINATE deregisters the spawner itself and nothing else. */
  lemma SelfTerminateRemovesSelf(w: World, self: string, msgType: Option<string>, payload: Value, so: SpawnOracle)
    requires IsCommand(msgType, "SELF_TERMINATE")
    requires !IsCommand(msgType, "SPAWN") && !IsCommand(msgType, "AGENT_KILL")
    requires self in w.agents
    ensures var w1 := SpawnerBedrockWorld(w, self, msgType, payload, so);
            w1.agents == w.agents - {self} &&
            w1.hooks == w.hooks + [StopHook(w.agents[self])] &&
            w1.rows == TerminatedRow(w.rows, self)
  {
  }

  predicate IsSpawnerCommand(msgType: Option<string>) {
    IsCommand(msgType, "SPAWN") || IsCommand(msgType, "AGENT_KILL") || IsCommand(msgType, "SELF_TERMINATE")
  }

  class SpawnerBedrockAgent {
    const base: Bedrock.BedrockAgent
    const registry: AgentRegistry
    const factory: AgentFactory

    predicate Valid()
      reads this, factory, registry, base
    {
      factory.registry == registry && factory.Valid() && base.Valid()
    }

    constructor (base: Bedrock.BedrockAgent, registry: AgentRegistry, factory: AgentFactory)
      requires factory.registry == registry && factory.Valid() && base.Valid()
      ensures this.base == base && this.registry == registry && this.factory == factory && Valid()
    {
      this.base := base;
      this.registry := registry;
      this.factory := factory;
    }

    /** getType */
    function GetType(): (t: string)
      ensures t == TypeName(BedrockSpawner)
    {
      "BEDROCK_SPAWNER"
    }

    method HandleMessage(msgType: Option<string>, sender: Option<string>, payload: Value,
                         o: O.Oracles, so: SpawnOracle)
      requires Valid()
      modifies base, registry, factory.persistence
      ensures Valid()
      ensures IsSpawnerCommand(msgType) ==>
                WorldOf(registry, factory.persistence) ==
                SpawnerBedrockWorld(old(WorldOf(registry, factory.persistence)), base.id, msgType, payload, so) &&
                unchanged(base)
      ensures !IsSpawnerCommand(msgType) ==>
                base.View() == O.HandleMessage(old(base.View()), base.id, msgType, sender, payload, o) &&
                unchanged(registry) && unchanged(factory.persistence)
    {
      if IsSpawnerCommand(msgType) {
        RunCommand(msgType, payload, so);
      } else {
        base.HandleMessage(msgType, sender, payload, o);
      }
    }

    /** SPAWN, AGENT_KILL and SELF_TERMINATE act on the registry; the base agent is left alone. */
    method RunCommand(msgType: Option<string>, payload: Value, so: SpawnOracle)
      requires Valid() && IsSpawnerCommand(msgType)
      modifies registry, factory.persistence
      ensures Valid()
      ensures WorldOf(registry, factory.persistence) ==
              SpawnerBedrockWorld(old(WorldOf(registry, factory.persistence)), base.id, msgType, payload, so)
    {
      if IsCommand(msgType, "SPAWN") {
        match ToSpawnRequest(payload) {
          case Request(req) =>
            var agent := factory.CreateAgent(req.agentId, Some(RequestedType(req, "BEDROCK")), so);
            if agent.Success? {
              registry.RegisterAgent(agent.value);
            }
          case _ =>
        }
      } else if IsCommand(msgType, "AGENT_KILL") {
        var target := KillTarget(payload);
        if target.Some? {
          registry.DeregisterAgent(target.value);
        }
      } else {
        registry.DeregisterAgent(base.id);
      }
    }
  }

  class SpawnerAgent {
    const id: string
    const registry: AgentRegistry
    const factory: AgentFactory
    const agentType: string

    predicate Valid()
      reads this, factory, registry
    {
      factory.registry == registry && factory.Valid()
    }

    constructor (id: string, registry: AgentRegistry, factory: AgentFactory, agentType: string)
      requires factory.registry == registry && factory.Valid()
      ensures this.id == id && this.registry == registry && this.factory == factory
      ensures GetType() == agentType && Valid()
    {
      this.id := id;
      this.registry := registry;
      this.factory := factory;
      this.agentType := agentType;
    }

    /** getType: the type given at construction. */
    function GetType(): string
      reads this
    {
      agentType
    }

    method HandleMessage(msgType: Option<string>, payload: Value, so: SpawnOracle)
      requires Valid()
      modifies registry, factory.persistence
      ensures WorldOf(registry, factory.persistence) ==
              SpawnerWorld(old(WorldOf(registry, factory.persistence)), msgType, payload, so)
    {
      if IsCommand(msgType, "SPAWN") {
        match ToSpawnRequest(payload) {
          case Request(req) =>
            var agent := factory.CreateAgent(req.agentId, Some(RequestedType(req, "NOT_SPECIFIED")), so);
            if agent.Success? {
              registry.RegisterAgent(agent.value);
            }
          case _ =>
        }
      } else if IsCommand(msgType, "AGENT_KILL") {
        var target := KillTarget(payload);
        if target.Some? {
          registry.DeregisterAgent(target.value);
        }
      }
    }
  }
}
