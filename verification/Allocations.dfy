/** The DigitalOcean allocation table: one row per invocation that only moves forward. */
module Allocations {
  import opened Managed

  datatype Phase = Creating | Ready | Stopping | Deleted

  datatype Row = Row(config: Id, session: Option<Id>, phase: Phase)

  type Rows = map<Id, Row>

  const NO_CONFIG: Id := Id("")

  function Order(p: Phase): nat {
    match p
    case Creating => 0
    case Ready => 1
    case Stopping => 2
    case Deleted => 3
  }

  function Reserve(rows: Rows, id: Id, config: Id): Rows {
    if id in rows then rows else rows[id := Row(config, None, Creating)]
  }

  /** The identity is always kept for cleanup, but a racing stop is not undone. */
  function Attach(rows: Rows, id: Id, session: Id): Rows {
    if id in rows && rows[id].phase != Deleted
    then
      var phase := if rows[id].phase == Creating then Ready else rows[id].phase;
      rows[id := rows[id].(session := Some(session), phase := phase)]
    else rows
  }

  /** Stopping an invocation that was never reserved leaves a tombstone. */
  function Stop(rows: Rows, id: Id): Rows {
    if id !in rows then rows[id := Row(NO_CONFIG, None, Deleted)]
    else rows[id := rows[id].(phase := if rows[id].phase == Deleted then Deleted else Stopping)]
  }

  function MarkDeleted(rows: Rows, id: Id): Rows {
    if id in rows then rows[id := rows[id].(phase := Deleted)] else rows
  }

  /** Rows never disappear, their phase never goes back, and a deleted row never changes. */
  ghost predicate Forward(rows: Rows, rows': Rows) {
    forall id | id in rows ::
      && id in rows'
      && Order(rows[id].phase) <= Order(rows'[id].phase)
      && rows'[id].config == rows[id].config
      && (rows[id].phase == Deleted ==> rows'[id] == rows[id])
  }

  class D1DigitalOceanAllocations {
    var rows: Rows

    constructor ()
      ensures rows == map[]
    {
      rows := map[];
    }

    method ReserveAllocation(id: Id, config: Id) returns (reserved: bool)
      modifies this
      ensures rows == Reserve(old(rows), id, config) && Forward(old(rows), rows)
      ensures reserved <==> id !in old(rows)
      ensures reserved ==> rows[id] == Row(config, None, Creating)
    {
      reserved := id !in rows;
      rows := Reserve(rows, id, config);
    }

    /** Reports success only to the caller that moved, or found, the row in `ready`. */
    method AttachSession(id: Id, session: Id) returns (ready: bool)
      modifies this
      ensures rows == Attach(old(rows), id, session) && Forward(old(rows), rows)
      ensures ready <==> id in old(rows) && old(rows)[id].phase in {Creating, Ready}
      ensures id in old(rows) && old(rows)[id].phase != Deleted ==> rows[id].session == Some(session)
    {
      rows := Attach(rows, id, session);
      ready := id in rows && rows[id].phase == Ready;
    }

    method StopAllocation(id: Id) returns (row: Row)
      modifies this
      ensures rows == Stop(old(rows), id) && Forward(old(rows), rows)
      ensures id in rows && row == rows[id] && row.phase in {Stopping, Deleted}
      ensures id !in old(rows) ==> row == Row(NO_CONFIG, None, Deleted)
      ensures id in old(rows) ==> row.session == old(rows)[id].session
    {
      rows := Stop(rows, id);
      row := rows[id];
    }

    method DeleteAllocation(id: Id)
      modifies this
      ensures rows == MarkDeleted(old(rows), id) && Forward(old(rows), rows)
      ensures id in old(rows) ==> rows[id].phase == Deleted
    {
      rows := MarkDeleted(rows, id);
    }
  }
}
