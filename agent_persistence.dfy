/**
 * AgentPersistenceService: the `agents` table, one row per agent id, each
 * ACTIVE or TERMINATED. Rows are modelled with an optional endpoint column.
 */
module AgentPersistence {
  import opened Wrappers

  datatype Status = Active | Terminated

  datatype AgentRow = AgentRow(
    agentId: string,
    agentType: string,
    state: Option<string>,
    status: Status,
    endpoint: Option<string>)

  /** The table, keyed by the row's primary key. */
  type Table = map<string, AgentRow>

  /** Every row sits under its own id. */
  predicate WellKeyed(t: Table) {
    forall id :: id in t ==> t[id].agentId == id
  }

  /**
   * upsertActive(agentId, agentType, stateJson): find or create the row,
   * overwrite id, type and state, set ACTIVE. The 3-argument form leaves an
   * existing endpoint alone and gives a new row none.
   */
  function Upserted(t: Table, id: string, agentType: string, state: Option<string>): (r: Table)
    ensures id in r && r[id].agentId == id && r[id].status == Active
    ensures r[id].agentType == agentType && r[id].state == state
    ensures r[id].endpoint == (if id in t then t[id].endpoint else None)
    ensures r.Keys == t.Keys + {id}
    ensures forall k :: k in t && k != id ==> r[k] == t[k]
    ensures WellKeyed(t) ==> WellKeyed(r)
  {
    var endpoint := if id in t then t[id].endpoint else None;
    t[id := AgentRow(id, agentType, state, Active, endpoint)]
  }

  /** The 4-argument upsert AgentFactory calls: the same, and it records the endpoint. */
  function UpsertedWithEndpoint(t: Table, id: string, agentType: string, state: Option<string>,
                                endpoint: string): (r: Table)
    ensures id in r && r[id] == AgentRow(id, agentType, state, Active, Some(endpoint))
    ensures r.Keys == t.Keys + {id}
    ensures forall k :: k in t && k != id ==> r[k] == t[k]
    ensures WellKeyed(t) ==> WellKeyed(r)
  {
    t[id := AgentRow(id, agentType, state, Active, Some(endpoint))]
  }

  /** markTerminated: only an existing row changes, and only its status. */
  function TerminatedRow(t: Table, id: string): (r: Table)
    ensures id in t ==> r == t[id := t[id].(status := Terminated)]
    ensures id !in t ==> r == t
    ensures r.Keys == t.Keys
    ensures WellKeyed(t) ==> WellKeyed(r)
  {
    if id in t then t[id := t[id].(status := Terminated)] else t
  }

  /** Rows whose status is ACTIVE, among the given ids. */
  function ActiveAmong(t: Table, ids: set<string>): set<AgentRow>
    requires ids <= t.Keys
  {
    set id | id in ids && t[id].status == Active :: t[id]
  }

  /** findByStatus("ACTIVE"): every ACTIVE row of the table and nothing else. */
  function ActiveRows(t: Table): (rs: set<AgentRow>)
    ensures forall id :: id in t && t[id].status == Active ==> t[id] in rs
    ensures forall row :: row in rs ==> row.status == Active && row in t.Values
  {
    ActiveAmong(t, t.Keys)
  }

  /** A terminated agent comes back ACTIVE when upserted again, with its type and state replaced. */
  lemma ReactivatedAfterTermination(t: Table, id: string, agentType: string, state: Option<string>)
    requires id in t
    ensures var r := Upserted(TerminatedRow(t, id), id, agentType, state);
            r[id] == AgentRow(id, agentType, state, Active, t[id].endpoint)
  {
  }

  /** A terminated row is not loaded; every other active row still is. */
  lemma TerminatedNotActive(t: Table, id: string)
    requires WellKeyed(t)
    ensures forall row :: row in ActiveRows(TerminatedRow(t, id)) <==>
                          row in ActiveRows(t) && row.agentId != id
  {
    var r := TerminatedRow(t, id);
    forall row | row in ActiveRows(t) && row.agentId != id
      ensures row in ActiveRows(r)
    {
      var k :| k in t.Keys && t[k].status == Active && t[k] == row;
      assert r[k] == row;
    }
  }

  class AgentPersistenceService {
    var rows: Table

    predicate Valid()
      reads this
    {
      WellKeyed(rows)
    }

    constructor ()
      ensures rows == map[] && Valid()
    {
      rows := map[];
    }

    /** repo.findById */
    function FindById(id: string): (r: Option<AgentRow>)
      reads this
      ensures r.Some? <==> id in rows
      ensures r.Some? ==> r.value == rows[id]
    {
      if id in rows then Some(rows[id]) else None
    }

    method UpsertActive(id: string, agentType: string, state: Option<string>)
      modifies this
      ensures rows == Upserted(old(rows), id, agentType, state)
    {
      var entity := FindById(id).GetOr(AgentRow("", "", None, Active, None));
      entity := entity.(agentId := id);
      entity := entity.(agentType := agentType);
      entity := entity.(state := state);
      entity := entity.(status := Active);
      rows := rows[id := entity];
    }

    method UpsertActiveWithEndpoint(id: string, agentType: string, state: Option<string>, endpoint: string)
      modifies this
      ensures rows == UpsertedWithEndpoint(old(rows), id, agentType, state, endpoint)
    {
      var entity := FindById(id).GetOr(AgentRow("", "", None, Active, None));
      entity := entity.(agentId := id, agentType := agentType, state := state);
      entity := entity.(status := Active, endpoint := Some(endpoint));
      rows := rows[id := entity];
    }

    method MarkTerminated(id: string)
      modifies this
      ensures rows == TerminatedRow(old(rows), id)
    {
      var o := FindById(id);
      if o.Some? {
        var e := o.value.(status := Terminated);
        rows := rows[id := e];
      }
    }

    /** findByStatus("ACTIVE"): every ACTIVE row, once each. */
    method LoadActive() returns (active: seq<AgentRow>)
      requires Valid()
      ensures forall row :: row in active <==> row in ActiveRows(rows)
      ensures forall i, j :: 0 <= i < j < |active| ==> active[i].agentId != active[j].agentId
    {
      active := [];
      var todo := rows.Keys;
      ghost var seen: set<string> := {};
      while todo != {}
        invariant todo !! seen && todo + seen == rows.Keys
        invariant forall row :: row in active <==> row in ActiveAmong(rows, seen)
        invariant forall i :: 0 <= i < |active| ==> active[i].agentId in seen
        invariant forall i, j :: 0 <= i < j < |active| ==> active[i].agentId != active[j].agentId
        decreases |todo|
      {
        var id :| id in todo;
        if rows[id].status == Active {
          active := active + [rows[id]];
        }
        todo := todo - {id};
        seen := seen + {id};
      }
    }
  }
}
