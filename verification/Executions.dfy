/** The execution table: claimed by one guarded insert, finished by one compare-and-set. */
module Executions {
  import opened Managed
  import opened Artifacts
  import R = Reservations

  datatype Record = Record(
    invocationId: Id, idempotencyKey: Id, requestHash: RequestHash, executionDigest: Id, policyRevision: Id,
    sessionId: Id, owner: Owner, allowance: Allowance, attribution: Attribution, status: Status, ownerToken: Id,
    leaseExpiresAt: int, createdAt: int, updatedAt: int, artifactRef: Option<Ref>)

  datatype ClaimInput = ClaimInput(
    invocationId: Id, idempotencyKey: Id, requestHash: RequestHash, executionDigest: Id, policyRevision: Id,
    sessionId: Id, owner: Owner, allowance: Allowance, attribution: Attribution, ownerToken: Id,
    now: int, leaseExpiresAt: int)

  /** Rows by primary key, and the unique index on the idempotency key. */
  datatype Table = Table(rows: map<Id, Record>, byKey: map<Id, Id>)

  function RecordFromClaim(c: ClaimInput): Record {
    Record(
      c.invocationId, c.idempotencyKey, c.requestHash, c.executionDigest, c.policyRevision, c.sessionId,
      c.owner, c.allowance, c.attribution, Running, c.ownerToken, c.leaseExpiresAt, c.now, c.now, None)
  }

  function Get(t: Table, id: Id, owner: Owner): Option<Record> {
    if id in t.rows && t.rows[id].owner == owner then Some(t.rows[id]) else None
  }

  function GetByKey(t: Table, key: Id, owner: Owner): Option<Record> {
    if key in t.byKey then Get(t, t.byKey[key], owner) else None
  }

  predicate Exact(r: Record, c: ClaimInput) {
    && r.invocationId == c.invocationId
    && r.idempotencyKey == c.idempotencyKey
    && r.requestHash == c.requestHash
  }

  /** The `BEFORE INSERT` trigger's condition. */
  predicate HasReadyReservation(rs: R.Tables, c: ClaimInput) {
    && c.invocationId in rs.rows
    && var r := rs.rows[c.invocationId];
    && r.sessionId == c.sessionId
    && r.owner == c.owner
    && r.requestHash == c.requestHash
    && r.allowance == c.allowance
    && r.phase == R.Ready
  }

  datatype Insertion = Added(table: Table) | Skipped | Aborted

  function Insert(t: Table, rs: R.Tables, c: ClaimInput): Insertion {
    if !HasReadyReservation(rs, c) then Aborted
    else if c.invocationId in t.rows || c.idempotencyKey in t.byKey then Skipped
    else
      Added(Table(
        t.rows[c.invocationId := RecordFromClaim(c)],
        t.byKey[c.idempotencyKey := c.invocationId]))
  }

  /** The predicate of the terminal update: only a row still `running` under the same identity matches. */
  predicate CanFinish(t: Table, r: Record) {
    && r.invocationId in t.rows
    && var row := t.rows[r.invocationId];
    && row.requestHash == r.requestHash
    && row.ownerToken == r.ownerToken
    && row.owner == r.owner
    && row.status == Running
  }

  function Finish(t: Table, r: Record, status: Status, ref: Ref, now: int): Table {
    if CanFinish(t, r)
    then
      var row := t.rows[r.invocationId].(status := status, artifactRef := Some(ref), updatedAt := now);
      t.(rows := t.rows[r.invocationId := row])
    else t
  }

  /** The columns no statement ever rewrites. */
  predicate SameIdentity(a: Record, b: Record) {
    a == b.(status := a.status, artifactRef := a.artifactRef, updatedAt := a.updatedAt)
  }

  ghost predicate Valid(t: Table) {
    && (forall id | id in t.rows ::
      && t.rows[id].invocationId == id
      && t.rows[id].idempotencyKey in t.byKey
      && t.byKey[t.rows[id].idempotencyKey] == id)
    && (forall k | k in t.byKey :: t.byKey[k] in t.rows && t.rows[t.byKey[k]].idempotencyKey == k)
  }

  lemma InsertKeepsValid(t: Table, rs: R.Tables, c: ClaimInput)
    requires Valid(t) && Insert(t, rs, c).Added?
    ensures Valid(Insert(t, rs, c).table)
  {
  }

  lemma FinishKeepsValid(t: Table, r: Record, status: Status, ref: Ref, now: int)
    requires Valid(t)
    ensures Valid(Finish(t, r, status, ref, now))
  {
  }

  datatype Claim = Created(record: Record) | Reuse(record: Record) | Clash(record: Record) | Unavailable

  function ClassifyClaim(r: Record, c: ClaimInput): Claim {
    if Exact(r, c) then Reuse(r) else Clash(r)
  }

  datatype Claimed = Claimed(table: Table, claim: Claim)

  /** What a claim comes to when nothing happens between its statements. */
  function SequentialClaim(t: Table, rs: R.Tables, c: ClaimInput): Claimed {
    match Get(t, c.invocationId, c.owner)
    case Some(r) => Claimed(t, ClassifyClaim(r, c))
    case None =>
      match Insert(t, rs, c)
      case Aborted => Claimed(t, Unavailable)
      case Added(t') => Claimed(t', Claim.Created(RecordFromClaim(c)))
      case Skipped =>
        // The row is not the owner's, so only the idempotency key can lead to a row of the owner.
        match GetByKey(t, c.idempotencyKey, c.owner)
        case Some(r) => Claimed(t, ClassifyClaim(r, c))
        case None => Claimed(t, Unavailable)
  }

  /** The store as one caller sees it when nothing else is running. */
  class D1ExecutionStore {
    var table: Table

    constructor ()
      ensures table == Table(map[], map[]) && Valid(table)
    {
      table := Table(map[], map[]);
    }

    /** Created exactly when both unique columns are free and the reservation is ready; nothing else writes. */
    method ClaimInvocation(rs: R.Tables, c: ClaimInput) returns (claim: Claim)
      requires Valid(table)
      modifies this
      ensures Valid(table) && Claimed(table, claim) == SequentialClaim(old(table), rs, c)
      ensures claim.Created? <==> Insert(old(table), rs, c).Added?
      ensures claim.Created? ==> table == Insert(old(table), rs, c).table && claim.record == table.rows[c.invocationId]
      ensures !claim.Created? ==> table == old(table)
      ensures claim.Reuse? ==> Get(table, c.invocationId, c.owner) == Some(claim.record) && Exact(claim.record, c)
      ensures claim.Clash? ==> claim.record in table.rows.Values && claim.record.owner == c.owner && !Exact(claim.record, c)
      ensures Get(old(table), c.invocationId, c.owner).Some? ==> claim.Reuse? || claim.Clash?
    {
      match Get(table, c.invocationId, c.owner)
      case Some(r) =>
        return ClassifyClaim(r, c);
      case None =>
        match Insert(table, rs, c) {
          case Aborted =>
            return Unavailable;
          case Added(t) =>
            table := t;
            return Claim.Created(RecordFromClaim(c));
          case Skipped =>
            var winner := Get(table, c.invocationId, c.owner);
            if winner.None? { winner := GetByKey(table, c.idempotencyKey, c.owner); }
            if winner.None? { return Unavailable; }
            return ClassifyClaim(winner.value, c);
        }
    }

    /** Wins exactly when the row was still running; a row that has left `running` is untouched. */
    method FinishInvocation(r: Record, status: Status, ref: Ref, now: int) returns (won: bool)
      requires Valid(table) && status != Running
      modifies this
      ensures Valid(table) && table == Finish(old(table), r, status, ref, now)
      ensures won == CanFinish(old(table), r)
      ensures table.rows.Keys == old(table).rows.Keys
      ensures won ==> table.rows[r.invocationId].status == status && table.rows[r.invocationId].artifactRef == Some(ref)
      ensures won ==> SameIdentity(table.rows[r.invocationId], old(table).rows[r.invocationId])
      ensures forall id | id in old(table).rows && (!won || id != r.invocationId) :: id in table.rows && table.rows[id] == old(table).rows[id]
      ensures !CanFinish(table, r)
    {
      won := CanFinish(table, r);
      table := Finish(table, r, status, ref, now);
    }
  }
}
