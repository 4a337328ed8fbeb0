/** The invariant of the managed execution protocol: what every step of every handler keeps. */
module ProtocolSafety {
  import opened Managed
  import opened Artifacts
  import opened Protocol
  import E = Executions
  import R = Reservations

  type Rows = map<Id, E.Record>
  type Objects = map<Key, Artifact>
  type Reserved = map<Id, R.Reservation>

  // ---------- What each local and each stored value promises ----------

  predicate Committed(rows: Rows, id: Id) {
    id in rows && rows[id].status != Running
  }

  /** A record a handler holds is the row it was read from, possibly from before the row was finished. */
  predicate RecordOk(rows: Rows, r: E.Record) {
    && r.invocationId in rows
    && E.SameIdentity(r, rows[r.invocationId])
    && (r.status == Running ==> r.artifactRef.None?)
    && (r.status != Running ==> r == rows[r.invocationId])
  }

  /** An artifact written for a record: same identity, a normalised terminal result, exact positions. */
  predicate ArtifactFor(r: E.Record, a: Artifact) {
    && a.invocationId == r.invocationId
    && a.requestHash == r.requestHash
    && a.result.invocationId == r.invocationId
    && a.result.requestHash == r.requestHash
    && a.result.executionDigest == r.executionDigest
    && a.result.policyRevision == r.policyRevision
    && a.result.sessionRef == PositionalRef(r.sessionId, |a.evidence|)
    && IsTerminal(a.result.terminal)
    && (a.result.terminal.Success? ==> a.evidence != [])
  }

  /** A row carries the fields of the request that its hash digests. */
  predicate Presented(r: E.Record) {
    var q := r.requestHash.of;
    && r.invocationId == q.invocationId && r.idempotencyKey == q.idempotencyKey
    && r.executionDigest == q.executionDigest && r.policyRevision == q.policyRevision
    && r.sessionId == q.sessionId && r.attribution == AttributionFromRequest(q, None)
  }

  /** A claim that presents the very request a row was created for. */
  predicate SameRequest(r: E.Record, c: E.ClaimInput) {
    && E.Exact(r, c)
    && r.executionDigest == c.executionDigest && r.policyRevision == c.policyRevision
    && r.sessionId == c.sessionId && r.attribution == c.attribution
  }

  /** The record is the one the caller asked about: its invocation, its owner, and for an execute call its own request. */
  predicate Fits(r: E.Record, asked: Asked) {
    && r.invocationId == asked.invocationId
    && r.owner == asked.owner
    && (asked.claim.Some? ==> SameRequest(r, asked.claim.value))
  }

  /** A handler that answers for a record attributes it as the record does. */
  predicate ReplyOk(r: E.Record, reply: Reply) {
    Fits(r, reply.asked) && (reply.attribution.Some? ==> reply.attribution.value == r.attribution)
  }

  predicate FinishingOk(rows: Rows, fin: Finishing) {
    && RecordOk(rows, fin.record) && fin.record.status == Running && ArtifactFor(fin.record, fin.artifact)
    && ReplyOk(fin.record, fin.reply)
  }

  // Where an artifact's content may come from.

  predicate FromTurn(r: E.Record, t: Turn, a: Artifact) {
    && a.evidence == t.evidence
    && a.result.terminal == TerminalOutcome(TurnTerminal(t), |t.evidence|)
    && a.result.attribution == r.attribution.(servedModel := t.servedModel)
  }

  ghost predicate FromCancel(r: E.Record, cancels: set<Cancellation>, a: Artifact) {
    && a.evidence == []
    && a.result.attribution == r.attribution
    && exists c :: c in cancels && c.invocationId == r.invocationId && a.result.terminal == CancelledWith(c.reason)
  }

  predicate FromExpiry(r: E.Record, now: int, a: Artifact) {
    a.evidence == [] && a.result.attribution == r.attribution && a.result.terminal == LEASE_EXPIRED && r.leaseExpiresAt <= now
  }

  /** An artifact reports what the one runtime call returned, a cancellation, or the end of the owner's lease. */
  ghost predicate Authored(turns: map<Id, Turn>, cancels: set<Cancellation>, now: int, r: E.Record, a: Artifact) {
    || (r.invocationId in turns && FromTurn(r, turns[r.invocationId], a))
    || FromCancel(r, cancels, a)
    || FromExpiry(r, now, a)
  }

  predicate Decided(rows: Rows, objects: Objects, fin: Finishing) {
    && FinishingOk(rows, fin)
    && KeyOf(fin.artifact) in objects
    && objects[KeyOf(fin.artifact)] == fin.artifact
  }

  function KeyOfRow(r: E.Record): Key {
    Key(r.invocationId, r.requestHash)
  }

  /** A terminal row names an object that exists, byte for byte, and carries that object's status. */
  predicate RowOk(row: E.Record, objects: Objects) {
    && (row.status == Running ==> row.artifactRef.None?)
    && (row.status != Running ==>
      && KeyOfRow(row) in objects
      && row.artifactRef == Some(RefOf(objects[KeyOfRow(row)]))
      && row.status == StatusOf(objects[KeyOfRow(row)].result.terminal))
  }

  predicate ReadyFor(row: E.Record, r: R.Reservation) {
    && r.sessionId == row.sessionId && r.owner == row.owner && r.requestHash == row.requestHash
    && r.allowance == row.allowance && r.phase == R.Ready
    && (row.attribution.transport == DIGITALOCEAN_TRANSPORT ==> r.source == R.DirectExecution)
  }

  /** The execution may go on to its claim: its transport can use the workspace that was reserved. */
  predicate Adoptable(reserved: Reserved, job: Job) {
    && job.request.invocationId in reserved
    && (job.request.transport == DIGITALOCEAN_TRANSPORT ==> reserved[job.request.invocationId].source == R.DirectExecution)
  }

  predicate ObjectOk(rows: Rows, k: Key, a: Artifact) {
    && k.invocationId in rows
    && KeyOfRow(rows[k.invocationId]) == k
    && ArtifactFor(rows[k.invocationId], a)
    && Writable(a)
  }

  function Neutral(r: Result): Result {
    r.(disposition := Created)
  }

  ghost predicate PageOf(page: Page, evidence: seq<Event>) {
    exists after: nat, limit: nat :: page == EvidencePage(evidence, after, limit)
  }

  /** A terminal answer repeats the committed object: result, cost, ref, and a page of its evidence. */
  ghost predicate Repeats(r: Response, a: Artifact) {
    && Neutral(r.result) == Neutral(a.result)
    && r.cost == a.cost
    && r.ref == Some(RefOf(a))
    && PageOf(r.page, a.evidence)
  }

  ghost predicate ResponseOk(rows: Rows, objects: Objects, r: Response) {
    && Committed(rows, r.result.invocationId)
    && KeyOfRow(rows[r.result.invocationId]) in objects
    && Fits(rows[r.result.invocationId], r.asked)
    && Repeats(r, objects[KeyOfRow(rows[r.result.invocationId])])
  }

  predicate Sole(winners: map<Id, nat>, count: multiset<Id>, id: Id, h: nat) {
    id in winners && winners[id] == h && count[id] == 0
  }

  /** The one runtime call for `id` is `h`'s, and has not returned. */
  predicate AtRuntime(claimed: map<Id, nat>, calls: multiset<Id>, turns: map<Id, Turn>, id: Id, h: nat) {
    id in claimed && claimed[id] == h && calls[id] == 1 && id !in turns
  }

  ghost predicate HandlerOk(w: World, h: nat, pc: Pc) {
    match pc
    case ClaimLookup(job) => Adoptable(w.reservations.rows, job)
    case ClaimInsert(job) => Adoptable(w.reservations.rows, job)
    case Invoke(job, r) =>
      && RecordOk(w.executions.rows, r) && r == E.RecordFromClaim(ClaimInputOf(job))
      && Sole(w.log.claimed, w.log.calls, r.invocationId, h) && r.invocationId !in w.log.turns
    case Invoked(job, r) =>
      && RecordOk(w.executions.rows, r) && r == E.RecordFromClaim(ClaimInputOf(job))
      && AtRuntime(w.log.claimed, w.log.calls, w.log.turns, r.invocationId, h)
    case CancelRuntime(r, reply, _) => RecordOk(w.executions.rows, r) && r.status == Running && ReplyOk(r, reply)
    case Resolve(r, reply) => RecordOk(w.executions.rows, r) && ReplyOk(r, reply)
    case ReadArtifact(r, reply) => RecordOk(w.executions.rows, r) && r.status != Running && ReplyOk(r, reply)
    case Reload(r, reply) => RecordOk(w.executions.rows, r) && Committed(w.executions.rows, r.invocationId) && ReplyOk(r, reply)
    case Put(fin) => FinishingOk(w.executions.rows, fin) && Authored(w.log.turns, w.log.cancels, w.now, fin.record, fin.artifact)
    case PutReload(fin) => FinishingOk(w.executions.rows, fin) && KeyOf(fin.artifact) in w.objects
    case Commit(fin) => Decided(w.executions.rows, w.objects, fin)
    case Emit(fin, stored) =>
      && Decided(w.executions.rows, w.objects, fin) && stored == fin.artifact.result
      && Committed(w.executions.rows, fin.record.invocationId)
      && Sole(w.log.committed, w.log.emitted, fin.record.invocationId, h)
    case Answer(r) => ResponseOk(w.executions.rows, w.objects, r)
    case Restore(p) => Sole(w.log.provisioned, w.log.restores, p.invocationId, h)
    case SetReady(p) => p.invocationId in w.log.restored
    case _ => true
  }

  ghost predicate RowsOk(rows: Rows, objects: Objects, reserved: Reserved) {
    forall id | id in rows ::
      RowOk(rows[id], objects) && Presented(rows[id]) && id in reserved && ReadyFor(rows[id], reserved[id])
  }

  ghost predicate ObjectsOk(rows: Rows, objects: Objects) {
    forall k | k in objects :: ObjectOk(rows, k, objects[k])
  }

  ghost predicate ObjectsAuthored(
    rows: Rows, objects: Objects, turns: map<Id, Turn>, cancels: set<Cancellation>, now: int)
  {
    forall k | k in objects :: k.invocationId in rows && Authored(turns, cancels, now, rows[k.invocationId], objects[k])
  }

  /** A turn is on record only for an invocation whose one call was made. */
  ghost predicate TurnsCalled(turns: map<Id, Turn>, calls: multiset<Id>) {
    forall id | id in turns :: calls[id] == 1
  }

  /** An effect happens at most once per winner, and never without one. */
  ghost predicate Once(winners: map<Id, nat>, count: multiset<Id>) {
    forall id :: count[id] <= 1 && (count[id] > 0 ==> id in winners)
  }

  ghost predicate CommittedOk(rows: Rows, committed: map<Id, nat>) {
    forall id :: id in committed <==> Committed(rows, id)
  }

  ghost predicate RestoredFirst(reserved: Reserved, restored: set<Id>) {
    forall id | id in reserved ::
      reserved[id].source == R.WorkspaceProvision && reserved[id].phase == R.Ready ==> id in restored
  }

  ghost predicate ResponsesOk(rows: Rows, objects: Objects, responses: set<Response>) {
    forall r | r in responses :: ResponseOk(rows, objects, r)
  }

  ghost predicate WorldOk(w: World) {
    && R.Valid(w.reservations)
    && E.Valid(w.executions)
    && RowsOk(w.executions.rows, w.objects, w.reservations.rows)
    && ObjectsOk(w.executions.rows, w.objects)
    && ObjectsAuthored(w.executions.rows, w.objects, w.log.turns, w.log.cancels, w.now)
    && TurnsCalled(w.log.turns, w.log.calls)
    && w.log.claimed.Keys == w.executions.rows.Keys
    && Once(w.log.claimed, w.log.calls)
    && CommittedOk(w.executions.rows, w.log.committed)
    && Once(w.log.committed, w.log.emitted)
    && w.log.provisioned.Keys <= w.reservations.rows.Keys
    && Once(w.log.provisioned, w.log.restores)
    && RestoredFirst(w.reservations.rows, w.log.restored)
    && ResponsesOk(w.executions.rows, w.objects, w.log.responses)
  }

  // ---------- What a step by handler `h` leaves intact for everyone else (-1 is the operator and the clock) ----------

  ghost predicate RowsGrow(rows: Rows, rows': Rows) {
    forall id | id in rows ::
      && id in rows'
      && E.SameIdentity(rows[id], rows'[id])
      && (rows[id].status != Running ==> rows'[id] == rows[id])
  }

  ghost predicate ObjectsGrow(objects: Objects, objects': Objects) {
    forall k | k in objects :: k in objects' && objects'[k] == objects[k]
  }

  ghost predicate ReservedGrow(reserved: Reserved, reserved': Reserved) {
    forall id | id in reserved ::
      && id in reserved'
      && R.SameIdentity(reserved[id], reserved'[id])
      && (reserved[id].phase == R.Ready ==> reserved'[id].phase == R.Ready)
  }

  ghost predicate WinnersGrow(winners: map<Id, nat>, winners': map<Id, nat>) {
    forall id | id in winners :: id in winners' && winners'[id] == winners[id]
  }

  ghost predicate CountedBy(winners: map<Id, nat>, count: multiset<Id>, count': multiset<Id>, h: int) {
    forall id :: count'[id] == count[id] || (id in winners && winners[id] == h)
  }

  /** Turns stay on record, and only the claimant adds one. */
  ghost predicate TurnsGrow(claimed: map<Id, nat>, turns: map<Id, Turn>, turns': map<Id, Turn>, h: int) {
    && (forall id | id in turns :: id in turns' && turns'[id] == turns[id])
    && (forall id | id in turns' && id !in turns :: id in claimed && claimed[id] == h)
  }

  ghost predicate Grows(w: World, w': World, h: int) {
    && RowsGrow(w.executions.rows, w'.executions.rows)
    && ObjectsGrow(w.objects, w'.objects)
    && ReservedGrow(w.reservations.rows, w'.reservations.rows)
    && WinnersGrow(w.log.claimed, w'.log.claimed)
    && WinnersGrow(w.log.committed, w'.log.committed)
    && WinnersGrow(w.log.provisioned, w'.log.provisioned)
    && CountedBy(w.log.claimed, w.log.calls, w'.log.calls, h)
    && CountedBy(w.log.committed, w.log.emitted, w'.log.emitted, h)
    && CountedBy(w.log.provisioned, w.log.restores, w'.log.restores, h)
    && TurnsGrow(w.log.claimed, w.log.turns, w'.log.turns, h)
    && w.log.cancels <= w'.log.cancels
    && w.log.restored <= w'.log.restored
    && w.log.responses <= w'.log.responses && w.log.given <= w'.log.given
    && w.now <= w'.now
  }

  lemma Unchanged(w: World, h: int)
    ensures Grows(w, w, h)
  {
  }

  lemma ResponseStable(rows: Rows, rows': Rows, objects: Objects, objects': Objects, r: Response)
    requires RowsGrow(rows, rows') && ObjectsGrow(objects, objects') && ResponseOk(rows, objects, r)
    ensures ResponseOk(rows', objects', r)
  {
    var id := r.result.invocationId;
    assert rows'[id] == rows[id];
    assert objects'[KeyOfRow(rows[id])] == objects[KeyOfRow(rows[id])];
  }

  lemma ResponsesStable(rows: Rows, rows': Rows, objects: Objects, objects': Objects, responses: set<Response>)
    requires RowsGrow(rows, rows') && ObjectsGrow(objects, objects') && ResponsesOk(rows, objects, responses)
    ensures ResponsesOk(rows', objects', responses)
  {
    forall r | r in responses ensures ResponseOk(rows', objects', r) {
      ResponseStable(rows, rows', objects, objects', r);
    }
  }

  lemma RecordStable(rows: Rows, rows': Rows, r: E.Record)
    requires RowsGrow(rows, rows') && RecordOk(rows, r)
    ensures RecordOk(rows', r)
  {
  }

  lemma AuthoredStable(w: World, w': World, h: int, r: E.Record, r': E.Record, a: Artifact)
    requires Grows(w, w', h) && E.SameIdentity(r, r') && Authored(w.log.turns, w.log.cancels, w.now, r, a)
    ensures Authored(w'.log.turns, w'.log.cancels, w'.now, r', a)
  {
    hide RowsGrow, ObjectsGrow, ReservedGrow, WinnersGrow, CountedBy;
    if FromCancel(r, w.log.cancels, a) {
      var c :| c in w.log.cancels && c.invocationId == r.invocationId && a.result.terminal == CancelledWith(c.reason);
      assert c in w'.log.cancels;
    }
  }

  /** Objects already stored keep their authors. */
  lemma AuthorsStable(w: World, w': World, h: int)
    requires WorldOk(w) && Grows(w, w', h)
    ensures ObjectsAuthored(w'.executions.rows, w.objects, w'.log.turns, w'.log.cancels, w'.now)
  {
    hide Authored, E.SameIdentity, ReservedGrow, WinnersGrow, CountedBy, TurnsGrow;
    forall k | k in w.objects
      ensures k.invocationId in w'.executions.rows
      ensures Authored(w'.log.turns, w'.log.cancels, w'.now, w'.executions.rows[k.invocationId], w.objects[k])
    {
      AuthoredStable(w, w', h, w.executions.rows[k.invocationId], w'.executions.rows[k.invocationId], w.objects[k]);
    }
  }

  lemma HandlerStable(w: World, w': World, h: int, other: nat, pc: Pc)
    requires Grows(w, w', h) && other != h && HandlerOk(w, other, pc)
    ensures HandlerOk(w', other, pc)
  {
    match pc
    case Answer(r) => ResponseStable(w.executions.rows, w'.executions.rows, w.objects, w'.objects, r);
    case Invoke(_, r) => RecordStable(w.executions.rows, w'.executions.rows, r);
    case Invoked(_, r) => RecordStable(w.executions.rows, w'.executions.rows, r);
    case CancelRuntime(r, _, _) => RecordStable(w.executions.rows, w'.executions.rows, r);
    case Resolve(r, _) => RecordStable(w.executions.rows, w'.executions.rows, r);
    case ReadArtifact(r, _) => RecordStable(w.executions.rows, w'.executions.rows, r);
    case Reload(r, _) => RecordStable(w.executions.rows, w'.executions.rows, r);
    case Put(fin) =>
      RecordStable(w.executions.rows, w'.executions.rows, fin.record);
      AuthoredStable(w, w', h, fin.record, fin.record, fin.artifact);
    case PutReload(fin) => RecordStable(w.executions.rows, w'.executions.rows, fin.record);
    case Commit(fin) => RecordStable(w.executions.rows, w'.executions.rows, fin.record);
    case Emit(fin, _) => RecordStable(w.executions.rows, w'.executions.rows, fin.record);
    case _ =>
  }

  lemma StoredResult(r: E.Record, a: Artifact)
    requires ArtifactFor(r, a)
    ensures TerminalWithSessionRef(r, a) == Some(a.result)
  {
  }

  lemma CandidateOk(r: E.Record, t: Terminal, evidence: seq<Event>, attribution: Attribution, d: Disposition, c: Choice)
    requires IsTerminal(t)
    ensures ArtifactFor(r, Candidate(r, t, evidence, attribution, d, c))
  {
  }

  // ---------- Each family of steps keeps the invariant ----------

  ghost predicate StepOk(w: World, h: nat, o: Outcome) {
    WorldOk(o.world) && HandlerOk(o.world, h, o.pc) && Grows(w, o.world, h)
  }

  lemma RowsKeepReservation(rows: Rows, objects: Objects, reserved: Reserved, reserved': Reserved)
    requires RowsOk(rows, objects, reserved) && ReservedGrow(reserved, reserved')
    ensures RowsOk(rows, objects, reserved')
  {
  }

  lemma RowsKeepObject(rows: Rows, objects: Objects, objects': Objects, reserved: Reserved)
    requires RowsOk(rows, objects, reserved) && ObjectsGrow(objects, objects')
    ensures RowsOk(rows, objects', reserved)
  {
  }

  lemma ObjectsKeepRow(rows: Rows, rows': Rows, objects: Objects)
    requires ObjectsOk(rows, objects) && RowsGrow(rows, rows')
    ensures ObjectsOk(rows', objects)
  {
    forall k | k in objects ensures ObjectOk(rows', k, objects[k]) {
      assert ObjectOk(rows, k, objects[k]);
    }
  }

  /** A reservation table that only grew keeps the whole world's invariant. */
  lemma ReservationsOk(w: World, t: R.Tables, h: int)
    requires WorldOk(w) && R.Valid(t) && ReservedGrow(w.reservations.rows, t.rows)
    requires RestoredFirst(t.rows, w.log.restored)
    ensures WorldOk(w.(reservations := t)) && Grows(w, w.(reservations := t), h)
  {
    Unchanged(w, h);
    RowsKeepReservation(w.executions.rows, w.objects, w.reservations.rows, t.rows);
  }

  lemma InsertReservationOk(w: World, r: R.Reservation, h: nat)
    requires WorldOk(w) && R.Insert(w.reservations, r).Added?
    requires !(r.source == R.WorkspaceProvision && r.phase == R.Ready)
    ensures var t := R.Insert(w.reservations, r).tables;
            WorldOk(w.(reservations := t)) && Grows(w, w.(reservations := t), h)
  {
    R.InsertKeepsValid(w.reservations, r);
    var t := R.Insert(w.reservations, r).tables;
    assert ReservedGrow(w.reservations.rows, t.rows);
    assert RestoredFirst(t.rows, w.log.restored);
    ReservationsOk(w, t, h);
  }

  lemma ReserveOk(w: World, h: nat, pc: Pc)
    requires WorldOk(w) && HandlerOk(w, h, pc)
    requires pc.ReserveLookup? || pc.ReserveInsert? || pc.ReserveReload?
    ensures StepOk(w, h, ReserveStep(w, pc))
  {
    hide WorldOk, Grows;
    Unchanged(w, h);
    if pc.ReserveInsert? && R.Insert(w.reservations, DirectReservation(pc.job)).Added? {
      InsertReservationOk(w, DirectReservation(pc.job), h);
    }
  }

  /** Adding a fresh running row. */
  lemma AddRow(rows: Rows, row: E.Record, objects: Objects, reserved: Reserved, committed: map<Id, nat>)
    requires row.invocationId !in rows && row.status == Running && row.artifactRef.None?
    requires row.invocationId in reserved && ReadyFor(row, reserved[row.invocationId]) && Presented(row)
    requires RowsOk(rows, objects, reserved) && CommittedOk(rows, committed)
    ensures RowsGrow(rows, rows[row.invocationId := row])
    ensures RowsOk(rows[row.invocationId := row], objects, reserved)
    ensures CommittedOk(rows[row.invocationId := row], committed)
  {
    var rows' := rows[row.invocationId := row];
    assert forall id :: Committed(rows', id) <==> Committed(rows, id);
    assert forall id | id in rows' :: id != row.invocationId ==> rows'[id] == rows[id];
  }

  lemma InsertRowOk(w: World, input: E.ClaimInput, h: nat)
    requires WorldOk(w) && E.Insert(w.executions, w.reservations, input).Added?
    requires Presented(E.RecordFromClaim(input))
    requires input.attribution.transport == DIGITALOCEAN_TRANSPORT ==>
      w.reservations.rows[input.invocationId].source == R.DirectExecution
    ensures
      var t := E.Insert(w.executions, w.reservations, input).table;
      var w' := w.(executions := t, log := w.log.(claimed := w.log.claimed[input.invocationId := h]));
      && WorldOk(w') && Grows(w, w', h)
      && w.log.calls[input.invocationId] == 0 && input.invocationId !in w.log.turns
  {
    hide E.Valid, RowsOk, ObjectsOk, ObjectsAuthored, CommittedOk, ResponsesOk, RowsGrow, ObjectsGrow, ReservedGrow;
    Unchanged(w, h);
    var t := E.Insert(w.executions, w.reservations, input).table;
    E.InsertKeepsValid(w.executions, w.reservations, input);
    AddRow(w.executions.rows, E.RecordFromClaim(input), w.objects, w.reservations.rows, w.log.committed);
    ObjectsKeepRow(w.executions.rows, t.rows, w.objects);
    var w' := w.(executions := t, log := w.log.(claimed := w.log.claimed[input.invocationId := h]));
    AuthorsStable(w, w', h);
    ResponsesStable(w.executions.rows, t.rows, w.objects, w.objects, w.log.responses);
  }

  lemma LookupOk(w: World, id: Id, owner: Owner)
    requires WorldOk(w)
    ensures E.Get(w.executions, id, owner).Some? ==>
              RecordOk(w.executions.rows, E.Get(w.executions, id, owner).value)
              && E.Get(w.executions, id, owner).value == w.executions.rows[id]
              && w.executions.rows[id].invocationId == id && Presented(w.executions.rows[id])
  {
    if E.Get(w.executions, id, owner).Some? {
      assert RowOk(w.executions.rows[id], w.objects);
    }
  }

  lemma ObjectAt(w: World, k: Key)
    requires WorldOk(w) && k in w.objects
    ensures ObjectOk(w.executions.rows, k, w.objects[k])
  {
  }

  lemma ClaimOk(w: World, h: nat, pc: Pc)
    requires WorldOk(w) && HandlerOk(w, h, pc)
    requires pc.ClaimLookup? || pc.ClaimInsert? || pc.ClaimReload? || pc.ClaimReloadByKey?
    ensures StepOk(w, h, ClaimStep(w, h, pc))
  {
    hide WorldOk, Grows;
    Unchanged(w, h);
    var input := ClaimInputOf(pc.job);
    if pc.ClaimInsert? {
      if E.Insert(w.executions, w.reservations, input).Added? { InsertRowOk(w, input, h); }
    } else if pc.ClaimReloadByKey? {
      if input.idempotencyKey in w.executions.byKey {
        LookupOk(w, w.executions.byKey[input.idempotencyKey], pc.job.owner);
      }
    } else {
      LookupOk(w, input.invocationId, pc.job.owner);
    }
  }

  lemma LogCall(w: World, id: Id, h: nat)
    requires WorldOk(w) && Sole(w.log.claimed, w.log.calls, id, h) && id !in w.log.turns
    ensures
      var w' := w.(log := w.log.(calls := w.log.calls + multiset{id}));
      WorldOk(w') && Grows(w, w', h)
  {
    hide Once, CountedBy, RowsOk, ObjectsOk, ObjectsAuthored, CommittedOk, ResponsesOk, E.Valid, R.Valid, RestoredFirst;
    Unchanged(w, h);
    CountOnce(w.log.claimed, w.log.calls, id, h);
  }

  lemma LogTurn(w: World, id: Id, t: Turn, h: nat)
    requires WorldOk(w) && AtRuntime(w.log.claimed, w.log.calls, w.log.turns, id, h)
    ensures
      var w' := w.(log := w.log.(turns := w.log.turns[id := t]));
      WorldOk(w') && Grows(w, w', h)
  {
    hide Once, RowsOk, ObjectsOk, ObjectsAuthored, CommittedOk, ResponsesOk, E.Valid, R.Valid, RestoredFirst;
    hide RowsGrow, ObjectsGrow, ReservedGrow, WinnersGrow, CountedBy;
    Unchanged(w, h);
    AuthorsStable(w, w.(log := w.log.(turns := w.log.turns[id := t])), h);
  }

  lemma InvokeOk(w: World, h: nat, pc: Pc, c: Choice)
    requires WorldOk(w) && HandlerOk(w, h, pc)
    requires pc.Invoke? || pc.Invoked?
    ensures StepOk(w, h, InvokeStep(w, pc, c))
  {
    hide WorldOk, Grows;
    var id := pc.record.invocationId;
    if pc.Invoked? {
      var attribution := AttributionFromRequest(pc.job.request, c.turn.servedModel);
      CandidateOk(pc.record, TurnTerminal(c.turn), c.turn.evidence, attribution, Created, c);
      LogTurn(w, id, c.turn, h);
    } else {
      LogCall(w, id, h);
    }
  }

  lemma LookupStepOk(w: World, h: nat, pc: Pc, c: Choice)
    requires WorldOk(w) && HandlerOk(w, h, pc)
    requires pc.StatusLookup? || pc.CancelLookup? || pc.Reload?
    ensures StepOk(w, h, ReadStep(w, pc, c))
    ensures pc.Reload? ==> ReadStep(w, pc, c).pc.Resolve? && ReadStep(w, pc, c).pc.record.status != Running
  {
    hide WorldOk, Grows;
    Unchanged(w, h);
    match pc
    case StatusLookup(id, owner, _, _) => LookupOk(w, id, owner);
    case CancelLookup(id, owner, _) => LookupOk(w, id, owner);
    case Reload(r, _) => LookupOk(w, r.invocationId, r.owner);
  }

  lemma LogCancel(w: World, c: Cancellation, h: nat)
    requires WorldOk(w)
    ensures
      var w' := w.(log := w.log.(cancels := w.log.cancels + {c}));
      WorldOk(w') && Grows(w, w', h)
  {
    hide Once, RowsOk, ObjectsOk, ObjectsAuthored, CommittedOk, ResponsesOk, E.Valid, R.Valid, RestoredFirst;
    hide RowsGrow, ObjectsGrow, ReservedGrow, WinnersGrow, CountedBy, TurnsGrow, TurnsCalled;
    Unchanged(w, h);
    AuthorsStable(w, w.(log := w.log.(cancels := w.log.cancels + {c})), h);
  }

  lemma ResolveOk(w: World, h: nat, pc: Pc, c: Choice)
    requires WorldOk(w) && HandlerOk(w, h, pc)
    requires pc.CancelRuntime? || pc.Resolve?
    ensures StepOk(w, h, ReadStep(w, pc, c))
  {
    hide WorldOk, Grows;
    Unchanged(w, h);
    match pc
    case CancelRuntime(r, _, reason) =>
      CandidateOk(r, CancelledWith(reason), [], r.attribution, Reused, c);
      LogCancel(w, Cancellation(r.invocationId, reason), h);
      assert Cancellation(r.invocationId, reason) in w.log.cancels + {Cancellation(r.invocationId, reason)};
    case Resolve(r, reply) => CandidateOk(r, LEASE_EXPIRED, [], ReplyAttribution(r, reply), Reused, c);
  }

  lemma CommittedObject(w: World, r: E.Record)
    requires WorldOk(w) && RecordOk(w.executions.rows, r) && r.status != Running
    ensures KeyOfRow(r) in w.objects
    ensures var a := w.objects[KeyOfRow(r)];
            r.artifactRef == Some(RefOf(a)) && KeyOf(a) == KeyOfRow(r) && ArtifactFor(r, a)
  {
    assert RowOk(r, w.objects);
    ObjectAt(w, KeyOfRow(r));
  }

  /** Reading the artifact of a terminal record never fails, and answers with the committed object. */
  lemma ReadArtifactOk(w: World, h: nat, r: E.Record, reply: Reply, c: Choice)
    requires WorldOk(w) && HandlerOk(w, h, ReadArtifact(r, reply))
    ensures StepOk(w, h, ReadStep(w, ReadArtifact(r, reply), c))
    ensures ReadStep(w, ReadArtifact(r, reply), c).pc.Answer?
  {
    hide WorldOk, Grows, EvidencePage, TerminalWithSessionRef, E.Get;
    Unchanged(w, h);
    CommittedObject(w, r);
    var a := w.objects[KeyOfRow(r)];
    StoredResult(r, a);
    assert PageOf(EvidencePage(a.evidence, reply.asked.after, reply.asked.limit), a.evidence);
  }

  /** Replacing a running row by its committed form. */
  lemma CommitRow(
    rows: Rows, row: E.Record, objects: Objects, reserved: Reserved, committed: map<Id, nat>, fin: Finishing, h: nat)
    requires Decided(rows, objects, fin) && !Committed(rows, fin.record.invocationId)
    requires row.status == StatusOf(fin.artifact.result.terminal) && row.artifactRef == Some(RefOf(fin.artifact))
    requires E.SameIdentity(row, fin.record)
    requires RowsOk(rows, objects, reserved) && CommittedOk(rows, committed)
    ensures var id := fin.record.invocationId;
      && RowsGrow(rows, rows[id := row])
      && RowsOk(rows[id := row], objects, reserved)
      && CommittedOk(rows[id := row], committed[id := h])
      && Decided(rows[id := row], objects, fin)
      && Committed(rows[id := row], id)
      && id !in committed
  {
    var id := fin.record.invocationId;
    var rows' := rows[id := row];
    assert RowOk(rows[id], objects) && ReadyFor(rows[id], reserved[id]);
    assert RowOk(row, objects) && ReadyFor(row, reserved[id]);
    assert forall other :: other != id ==> (Committed(rows', other) <==> Committed(rows, other));
    assert forall other | other in rows' :: other != id ==> rows'[other] == rows[other];
  }

  function FinishedTable(w: World, fin: Finishing): E.Table {
    E.Finish(w.executions, fin.record, StatusOf(fin.artifact.result.terminal), RefOf(fin.artifact), w.now)
  }

  lemma FinishRowOk(w: World, fin: Finishing, h: nat)
    requires WorldOk(w) && Decided(w.executions.rows, w.objects, fin) && E.CanFinish(w.executions, fin.record)
    ensures
      var t := FinishedTable(w, fin);
      var w' := w.(executions := t, log := w.log.(committed := w.log.committed[fin.record.invocationId := h]));
      && WorldOk(w') && Grows(w, w', h)
      && Decided(t.rows, w.objects, fin) && Committed(t.rows, fin.record.invocationId)
      && w.log.emitted[fin.record.invocationId] == 0
  {
    hide E.Valid, RowsOk, ObjectsOk, ObjectsAuthored, CommittedOk, ResponsesOk, RowsGrow, ObjectsGrow, ReservedGrow;
    Unchanged(w, h);
    var t := FinishedTable(w, fin);
    E.FinishKeepsValid(w.executions, fin.record, StatusOf(fin.artifact.result.terminal), RefOf(fin.artifact), w.now);
    CommitRow(
      w.executions.rows, t.rows[fin.record.invocationId], w.objects, w.reservations.rows, w.log.committed, fin, h);
    ObjectsKeepRow(w.executions.rows, t.rows, w.objects);
    AuthorsStable(w, w.(executions := t, log := w.log.(committed := w.log.committed[fin.record.invocationId := h])), h);
    ResponsesStable(w.executions.rows, t.rows, w.objects, w.objects, w.log.responses);
  }

  /** A lost compare-and-set means the row has already been committed. */
  lemma CommitOk(w: World, h: nat, fin: Finishing, c: Choice)
    requires WorldOk(w) && HandlerOk(w, h, Commit(fin))
    ensures StepOk(w, h, FinishStep(w, h, Commit(fin), c))
  {
    hide WorldOk, Grows;
    Unchanged(w, h);
    StoredResult(fin.record, fin.artifact);
    if E.CanFinish(w.executions, fin.record) { FinishRowOk(w, fin, h); }
  }

  /** The first object at a key. */
  lemma AddObject(w: World, fin: Finishing)
    requires FinishingOk(w.executions.rows, fin) && Writable(fin.artifact)
    requires Authored(w.log.turns, w.log.cancels, w.now, fin.record, fin.artifact)
    requires ObjectsOk(w.executions.rows, w.objects)
    requires ObjectsAuthored(w.executions.rows, w.objects, w.log.turns, w.log.cancels, w.now)
    requires KeyOf(fin.artifact) !in w.objects
    ensures var objects' := w.objects[KeyOf(fin.artifact) := fin.artifact];
      && ObjectsGrow(w.objects, objects')
      && ObjectsOk(w.executions.rows, objects')
      && ObjectsAuthored(w.executions.rows, objects', w.log.turns, w.log.cancels, w.now)
      && Decided(w.executions.rows, objects', fin)
  {
    var objects' := w.objects[KeyOf(fin.artifact) := fin.artifact];
    var row := w.executions.rows[fin.record.invocationId];
    assert Authored(w.log.turns, w.log.cancels, w.now, row, fin.artifact);
    forall k | k in objects' ensures ObjectOk(w.executions.rows, k, objects'[k]) {
      assert k in w.objects ==> ObjectOk(w.executions.rows, k, w.objects[k]);
    }
  }

  lemma PutObjectOk(w: World, fin: Finishing, h: nat)
    requires WorldOk(w) && FinishingOk(w.executions.rows, fin) && Writable(fin.artifact)
    requires Authored(w.log.turns, w.log.cancels, w.now, fin.record, fin.artifact)
    requires KeyOf(fin.artifact) !in w.objects
    ensures
      var w' := w.(objects := w.objects[KeyOf(fin.artifact) := fin.artifact]);
      WorldOk(w') && Grows(w, w', h) && Decided(w'.executions.rows, w'.objects, fin)
  {
    hide E.Valid, R.Valid, RowsOk, ObjectsOk, ObjectsAuthored, Authored, CommittedOk, ResponsesOk, ObjectsGrow;
    hide FinishingOk, Decided, Writable, Once, RestoredFirst, TurnsCalled;
    Unchanged(w, h);
    var objects' := w.objects[KeyOf(fin.artifact) := fin.artifact];
    AddObject(w, fin);
    RowsKeepObject(w.executions.rows, w.objects, objects', w.reservations.rows);
    ResponsesStable(w.executions.rows, w.executions.rows, w.objects, objects', w.log.responses);
  }

  lemma PutOk(w: World, h: nat, pc: Pc, c: Choice)
    requires WorldOk(w) && HandlerOk(w, h, pc)
    requires pc.Put? || pc.PutReload?
    ensures StepOk(w, h, FinishStep(w, h, pc, c))
  {
    hide WorldOk, Grows, Authored, Writable, E.CanFinish, E.Finish, TerminalWithSessionRef, EvidencePage;
    Unchanged(w, h);
    var key := KeyOf(pc.fin.artifact);
    if pc.Put? && Writable(pc.fin.artifact) && key !in w.objects { PutObjectOk(w, pc.fin, h); }
    if pc.PutReload? {
      AdoptedObject(w, pc.fin);
    }
  }

  /** The object a loser adopts is one written for its own record. */
  lemma AdoptedObject(w: World, fin: Finishing)
    requires WorldOk(w) && FinishingOk(w.executions.rows, fin) && KeyOf(fin.artifact) in w.objects
    ensures var a := w.objects[KeyOf(fin.artifact)];
      ArtifactFor(fin.record, a) && KeyOf(a) == KeyOf(fin.artifact)
  {
    hide WorldOk, Writable;
    ObjectAt(w, KeyOf(fin.artifact));
  }

  /** Counting one effect for its sole winner. */
  lemma CountOnce(winners: map<Id, nat>, count: multiset<Id>, id: Id, h: nat)
    requires Once(winners, count) && Sole(winners, count, id, h)
    ensures Once(winners, count + multiset{id}) && CountedBy(winners, count, count + multiset{id}, h)
  {
  }

  lemma LogEmission(w: World, id: Id, h: nat)
    requires WorldOk(w) && Sole(w.log.committed, w.log.emitted, id, h)
    ensures
      var w' := w.(log := w.log.(emitted := w.log.emitted + multiset{id}));
      WorldOk(w') && Grows(w, w', h)
  {
    hide Once, CountedBy, Sole, RowsOk, ObjectsOk, ObjectsAuthored, CommittedOk, ResponsesOk, E.Valid, R.Valid, RestoredFirst;
    Unchanged(w, h);
    CountOnce(w.log.committed, w.log.emitted, id, h);
  }

  lemma LogRestore(w: World, id: Id, h: nat)
    requires WorldOk(w) && Sole(w.log.provisioned, w.log.restores, id, h)
    ensures
      var w' := w.(log := w.log.(restores := w.log.restores + multiset{id}));
      WorldOk(w') && Grows(w, w', h)
  {
    hide Once, CountedBy, Sole, RowsOk, ObjectsOk, ObjectsAuthored, CommittedOk, ResponsesOk, E.Valid, R.Valid, RestoredFirst;
    Unchanged(w, h);
    CountOnce(w.log.provisioned, w.log.restores, id, h);
  }

  lemma LogRestored(w: World, id: Id, h: nat)
    requires WorldOk(w)
    ensures
      var w' := w.(log := w.log.(restored := w.log.restored + {id}));
      WorldOk(w') && Grows(w, w', h)
  {
    hide Once, CountedBy, RowsOk, ObjectsOk, ObjectsAuthored, CommittedOk, ResponsesOk, E.Valid, R.Valid;
    Unchanged(w, h);
  }

  lemma EmitOk(w: World, h: nat, fin: Finishing, stored: Result, c: Choice)
    requires WorldOk(w) && HandlerOk(w, h, Emit(fin, stored))
    ensures StepOk(w, h, FinishStep(w, h, Emit(fin, stored), c))
  {
    hide WorldOk, Grows, EvidencePage, E.CanFinish, E.Finish, TerminalWithSessionRef;
    Unchanged(w, h);
    LogEmission(w, fin.record.invocationId, h);
    assert PageOf(EvidencePage(fin.artifact.evidence, 0, MAX_PAGE), fin.artifact.evidence);
  }

  lemma ReservationsHold(w: World)
    requires WorldOk(w)
    ensures R.Valid(w.reservations) && RestoredFirst(w.reservations.rows, w.log.restored)
  {
  }

  lemma TransitionRows(t: R.Tables, p: Provision, code: Id, restored: set<Id>)
    requires RestoredFirst(t.rows, restored)
    ensures
      var ready, failed := R.MarkReady(t, p.invocationId, p.owner).rows, R.MarkFailed(t, p.invocationId, p.owner, code).rows;
      && ReservedGrow(t.rows, ready) && ReservedGrow(t.rows, failed) && RestoredFirst(failed, restored)
      && (p.invocationId in restored ==> RestoredFirst(ready, restored))
  {
  }

  lemma TransitionOk(w: World, p: Provision, code: Id, h: nat)
    requires WorldOk(w)
    ensures
      var ready := w.(reservations := R.MarkReady(w.reservations, p.invocationId, p.owner));
      p.invocationId in w.log.restored ==> WorldOk(ready) && Grows(w, ready, h)
    ensures
      var failed := w.(reservations := R.MarkFailed(w.reservations, p.invocationId, p.owner, code));
      WorldOk(failed) && Grows(w, failed, h)
  {
    hide WorldOk, Grows, ReservedGrow, RestoredFirst, R.Valid, R.MarkReady, R.MarkFailed;
    ReservationsHold(w);
    TransitionRows(w.reservations, p, code, w.log.restored);
    R.TransitionKeepsValid(w.reservations, p.invocationId, p.owner, code);
    var ready := R.MarkReady(w.reservations, p.invocationId, p.owner);
    var failed := R.MarkFailed(w.reservations, p.invocationId, p.owner, code);
    ReservationsOk(w, failed, h);
    if p.invocationId in w.log.restored { ReservationsOk(w, ready, h); }
  }

  lemma ClaimProvisionOk(w: World, p: Provision, h: nat)
    requires WorldOk(w) && R.Insert(w.reservations, ProvisionReservation(p)).Added?
    ensures
      var t := R.Insert(w.reservations, ProvisionReservation(p)).tables;
      var w' := w.(reservations := t, log := w.log.(provisioned := w.log.provisioned[p.invocationId := h]));
      WorldOk(w') && Grows(w, w', h) && w.log.restores[p.invocationId] == 0
  {
    InsertReservationOk(w, ProvisionReservation(p), h);
  }

  lemma RestoreOk(w: World, h: nat, pc: Pc, c: Choice)
    requires WorldOk(w) && HandlerOk(w, h, pc)
    requires pc.Restore? || pc.Restoring?
    ensures StepOk(w, h, ProvisionStep(w, h, pc, c))
  {
    hide WorldOk, Grows, R.Insert, R.MarkReady, R.MarkFailed, R.Owned;
    Unchanged(w, h);
    if pc.Restore? { LogRestore(w, pc.p.invocationId, h); } else { LogRestored(w, pc.p.invocationId, h); }
  }

  lemma ProvisionOk(w: World, h: nat, pc: Pc, c: Choice)
    requires WorldOk(w) && HandlerOk(w, h, pc)
    requires pc.ProvisionLookup? || pc.ProvisionInsert? || pc.SetReady? || pc.SetFailed?
    ensures StepOk(w, h, ProvisionStep(w, h, pc, c))
  {
    hide WorldOk, Grows, R.MarkReady, R.MarkFailed, R.Owned;
    Unchanged(w, h);
    var p := pc.p;
    if pc.ProvisionInsert? {
      if R.Insert(w.reservations, ProvisionReservation(p)).Added? { ClaimProvisionOk(w, p, h); }
    } else if pc.SetReady? {
      TransitionOk(w, p, Id(""), h);
    } else if pc.SetFailed? {
      TransitionOk(w, p, pc.code, h);
    }
  }

  lemma AnswerOk(w: World, h: nat, r: Response, c: Choice)
    requires WorldOk(w) && HandlerOk(w, h, Answer(r))
    ensures StepOk(w, h, Advance(w, h, Answer(r), c))
  {
    hide E.Valid, R.Valid, RowsOk, ObjectsOk, ObjectsAuthored, CommittedOk, ResponseOk, Once, RestoredFirst, TurnsCalled;
    Unchanged(w, h);
  }

  lemma DoneOk(w: World, h: nat, c: Choice)
    requires WorldOk(w)
    ensures StepOk(w, h, Advance(w, h, Done, c))
  {
    hide WorldOk, Grows;
    Unchanged(w, h);
  }

  lemma AdvanceOk(w: World, h: nat, pc: Pc, c: Choice)
    requires WorldOk(w) && HandlerOk(w, h, pc)
    ensures StepOk(w, h, Advance(w, h, pc, c))
  {
    hide StepOk, WorldOk, HandlerOk, ReserveStep, ClaimStep, InvokeStep, ReadStep, FinishStep, ProvisionStep;
    match pc
    case ReserveLookup(_) | ReserveInsert(_) | ReserveReload(_) => ReserveOk(w, h, pc);
    case ClaimLookup(_) | ClaimInsert(_) | ClaimReload(_) | ClaimReloadByKey(_) => ClaimOk(w, h, pc);
    case Invoke(_, _) | Invoked(_, _) => InvokeOk(w, h, pc, c);
    case StatusLookup(_, _, _, _) | CancelLookup(_, _, _) | Reload(_, _) => LookupStepOk(w, h, pc, c);
    case CancelRuntime(_, _, _) | Resolve(_, _) => ResolveOk(w, h, pc, c);
    case ReadArtifact(r, reply) => ReadArtifactOk(w, h, r, reply, c);
    case Commit(fin) => CommitOk(w, h, fin, c);
    case Put(_) | PutReload(_) => PutOk(w, h, pc, c);
    case Emit(fin, stored) => EmitOk(w, h, fin, stored, c);
    case Restore(_) | Restoring(_) => RestoreOk(w, h, pc, c);
    case ProvisionLookup(_) | ProvisionInsert(_) | SetReady(_) | SetFailed(_, _) => ProvisionOk(w, h, pc, c);
    case Answer(r) => AnswerOk(w, h, r, c);
    case Done => DoneOk(w, h, c);
  }
}
