/** What a handler that is left alone gets done: the protocol's safety is not bought by doing nothing. */
module ProtocolSolo {
  import opened Managed
  import opened Artifacts
  import opened Protocol
  import opened ProtocolTheorems
  import E = Executions
  import R = Reservations

  /** `n` steps of one handler, with nothing in between. */
  function Solo(w: World, h: nat, pc: Pc, c: Choice, n: nat): Outcome
    decreases n
  {
    if n == 0 then Outcome(w, pc)
    else
      var o := Advance(w, h, pc, c);
      Solo(o.world, h, o.pc, c, n - 1)
  }

  lemma Next(w: World, h: nat, pc: Pc, c: Choice, n: nat)
    requires n > 0
    ensures Solo(w, h, pc, c, n) == Solo(Advance(w, h, pc, c).world, h, Advance(w, h, pc, c).pc, c, n - 1)
  {
    hide Advance;
  }

  lemma NextProvision(w: World, h: nat, pc: Pc, c: Choice, n: nat)
    requires n > 0
    requires pc.ProvisionLookup? || pc.ProvisionInsert? || pc.Restore? || pc.Restoring? || pc.SetReady? || pc.SetFailed?
    ensures var o := ProvisionStep(w, h, pc, c); Solo(w, h, pc, c, n) == Solo(o.world, h, o.pc, c, n - 1)
  {
    hide ProvisionStep, ReserveStep, ClaimStep, InvokeStep, ReadStep, FinishStep;
  }

  lemma NextFinish(w: World, h: nat, pc: Pc, c: Choice, n: nat)
    requires n > 0 && (pc.Put? || pc.Commit? || pc.Emit?)
    ensures var o := FinishStep(w, h, pc, c); Solo(w, h, pc, c, n) == Solo(o.world, h, o.pc, c, n - 1)
  {
    hide ProvisionStep, ReserveStep, ClaimStep, InvokeStep, ReadStep, FinishStep;
  }

  lemma NextInvoke(w: World, h: nat, pc: Pc, c: Choice, n: nat)
    requires n > 0 && (pc.Invoke? || pc.Invoked?)
    ensures var o := InvokeStep(w, pc, c); Solo(w, h, pc, c, n) == Solo(o.world, h, o.pc, c, n - 1)
  {
    hide ProvisionStep, ReserveStep, ClaimStep, InvokeStep, ReadStep, FinishStep;
  }

  lemma NextAnswer(w: World, h: nat, r: Response, c: Choice)
    ensures Solo(w, h, Answer(r), c, 1) ==
      Outcome(w.(log := w.log.(responses := w.log.responses + {r}, given := w.log.given + {Given(h, r)})), Done)
  {
    hide ProvisionStep, ReserveStep, ClaimStep, InvokeStep, ReadStep, FinishStep;
    var o := Advance(w, h, Answer(r), c);
    assert Solo(o.world, h, o.pc, c, 0) == o;
  }

  // ---------- Execute ----------

  /** Nothing is known of the invocation, its idempotency key is free, its session is the owner's or nobody's,
      and the allowance is not spent. */
  predicate FreeFor(w: World, job: Job) {
    var id := job.request.invocationId;
    && id !in w.reservations.rows
    && (job.request.sessionId in w.reservations.owners ==> w.reservations.owners[job.request.sessionId] == job.owner)
    && w.reservations.counter.Some?
    && w.reservations.counter.value.allowance == job.allowance
    && w.reservations.counter.value.reserved < job.allowance.limit
    && Unclaimed(w, job)
  }

  predicate Unclaimed(w: World, job: Job) {
    job.request.invocationId !in w.executions.rows && job.request.idempotencyKey !in w.executions.byKey
  }

  /** A ready reservation for exactly this execution, of a kind its transport can use. */
  predicate ReservedFor(w: World, job: Job) {
    var q := job.request;
    && q.invocationId in w.reservations.rows
    && var r := w.reservations.rows[q.invocationId];
    && r.invocationId == q.invocationId && r.sessionId == q.sessionId && r.owner == job.owner
    && r.requestHash == RequestHash(q) && r.allowance == job.allowance && r.phase == R.Ready
    && (q.transport == Id("digitalocean-sandbox-exec") ==> r.source == R.DirectExecution)
  }

  /** The runtime has been called once more, for this invocation, and the claim is on record. */
  ghost predicate Called(w: World, o: Outcome, h: nat, job: Job) {
    var id := job.request.invocationId;
    && o.pc.Invoked? && o.pc.job == job && o.pc.record.invocationId == id && o.pc.record.status == Running
    && o.world.log.calls == w.log.calls + multiset{id}
    && id in o.world.executions.rows && o.world.executions.rows[id] == o.pc.record
    && o.pc.record.requestHash == RequestHash(job.request) && o.pc.record.owner == job.owner
    && o.pc.record.ownerToken == job.token && o.pc.record.leaseExpiresAt == job.now + 600_000
    && o.pc.record.sessionId == job.request.sessionId
    && o.pc.record.attribution == Attribution(job.request.harness, job.request.transport, job.request.requestedModel, None)
    && id in o.world.log.claimed && o.world.log.claimed[id] == h
    && o.world.objects == w.objects
  }

  lemma ReservedExecuteClaims(w: World, h: nat, job: Job, c: Choice)
    requires ReservedFor(w, job) && Unclaimed(w, job)
    ensures Called(w, Solo(w, h, ClaimLookup(job), c, 3), h, job)
  {
    hide Solo;
    var input := ClaimInputOf(job);
    Next(w, h, ClaimLookup(job), c, 3);
    Next(w, h, ClaimInsert(job), c, 2);
    var o := ClaimStep(w, h, ClaimInsert(job));
    assert o.pc == Invoke(job, E.RecordFromClaim(input));
    Next(o.world, h, o.pc, c, 1);
    Stop(InvokeStep(o.world, o.pc, c).world, h, InvokeStep(o.world, o.pc, c).pc, c);
  }

  lemma Stop(w: World, h: nat, pc: Pc, c: Choice)
    ensures Solo(w, h, pc, c, 0) == Outcome(w, pc)
  {
  }

  /** Under a matching ready reservation, four steps lead an execute call to the runtime. */
  lemma ReservedExecuteCalls(w: World, h: nat, job: Job, c: Choice)
    requires ReservedFor(w, job) && Unclaimed(w, job)
    ensures Called(w, Solo(w, h, ReserveLookup(job), c, 4), h, job)
  {
    hide Solo, Called, Unclaimed;
    Next(w, h, ReserveLookup(job), c, 4);
    assert Advance(w, h, ReserveLookup(job), c) == Outcome(w, ClaimLookup(job));
    ReservedExecuteClaims(w, h, job, c);
  }

  /** On a free invocation with allowance left, an execute call reserves, claims and calls the runtime in five steps. */
  lemma FreeExecuteCalls(w: World, h: nat, job: Job, c: Choice)
    requires FreeFor(w, job)
    ensures Called(w, Solo(w, h, ReserveLookup(job), c, 5), h, job)
    ensures var o := Solo(w, h, ReserveLookup(job), c, 5);
      && o.world.reservations.counter.Some?
      && o.world.reservations.counter.value.reserved == w.reservations.counter.value.reserved + 1
  {
    hide Solo, Unclaimed, Called;
    Next(w, h, ReserveLookup(job), c, 5);
    Next(w, h, ReserveInsert(job), c, 4);
    var w1 := ReserveStep(w, ReserveInsert(job)).world;
    assert ReserveStep(w, ReserveInsert(job)).pc == ClaimLookup(job);
    assert Unclaimed(w1, job) by { StillUnclaimed(w, w1, job); }
    ReservedExecuteClaims(w1, h, job, c);
    ClaimKeepsReservations(w1, h, job, c);
    CalledFrom(w, w1, Solo(w1, h, ClaimLookup(job), c, 3), h, job);
  }

  lemma CalledFrom(w: World, w1: World, o: Outcome, h: nat, job: Job)
    requires Called(w1, o, h, job) && w1.log == w.log && w1.objects == w.objects
    ensures Called(w, o, h, job)
  {
  }

  lemma StillUnclaimed(w: World, w1: World, job: Job)
    requires Unclaimed(w, job) && w1.executions == w.executions
    ensures Unclaimed(w1, job)
  {
  }

  lemma ClaimKeepsReservations(w: World, h: nat, job: Job, c: Choice)
    requires ReservedFor(w, job) && Unclaimed(w, job)
    ensures Solo(w, h, ClaimLookup(job), c, 3).world.reservations == w.reservations
  {
    hide Solo;
    Next(w, h, ClaimLookup(job), c, 3);
    Next(w, h, ClaimInsert(job), c, 2);
    var o := ClaimStep(w, h, ClaimInsert(job));
    Next(o.world, h, o.pc, c, 1);
    Stop(InvokeStep(o.world, o.pc, c).world, h, InvokeStep(o.world, o.pc, c).pc, c);
  }

  predicate HasReservation(w: World, job: Job) {
    && job.request.invocationId in w.reservations.rows
    && w.reservations.rows[job.request.invocationId].owner == job.owner
  }

  /** Which reservation lets an execution go on to its claim: its own session, owner, content and allowance, ready, and
      not a provisioned workspace for the DigitalOcean transport; after a lost insert also only a direct one. */
  lemma ReservationDecides(w: World, h: nat, job: Job, c: Choice)
    ensures HasReservation(w, job) ==>
      var r := w.reservations.rows[job.request.invocationId];
      var direct := r.source == R.DirectExecution && r.provisionDigest.None?;
      && Advance(w, h, ReserveLookup(job), c) == Outcome(w, if ReservedFor(w, job) then ClaimLookup(job) else Done)
      && Advance(w, h, ReserveReload(job), c) == Outcome(w, if ReservedFor(w, job) && direct then ClaimLookup(job) else Done)
    ensures !HasReservation(w, job) ==>
      && Advance(w, h, ReserveLookup(job), c) == Outcome(w, ReserveInsert(job))
      && Advance(w, h, ReserveReload(job), c) == Outcome(w, Done)
  {
    ReserveIsReserve(w, h, ReserveLookup(job), c);
    ReserveIsReserve(w, h, ReserveReload(job), c);
    hide Advance;
  }

  lemma ReserveIsReserve(w: World, h: nat, pc: Pc, c: Choice)
    requires pc.ReserveLookup? || pc.ReserveReload?
    ensures Advance(w, h, pc, c) == ReserveStep(w, pc)
  {
    hide ProvisionStep, ReserveStep, ClaimStep, InvokeStep, ReadStep, FinishStep;
  }

  /** The artifact that a turn makes fits in the bucket. */
  predicate Fits(c: Choice) {
    && |c.turn.evidence| <= MAX_EVIDENCE_EVENTS
    && (forall i | 0 <= i < |c.turn.evidence| :: c.turn.evidence[i].bytes <= MAX_EVENT_BYTES)
    && c.bytes <= MAX_ARTIFACT_BYTES
  }

  /** The claimant has called the runtime; its row is running and nothing has been written for it. */
  predicate Awaiting(w: World, pc: Pc) {
    && pc.Invoked?
    && pc.record.invocationId in w.executions.rows && w.executions.rows[pc.record.invocationId] == pc.record
    && pc.record.status == Running && Key(pc.record.invocationId, pc.record.requestHash) !in w.objects
  }

  /** The turn is committed with its status, emitted once if it is to be, and answered by the handler itself. */
  ghost predicate Finished(emitted: nat, o: Outcome, h: nat, record: E.Record, c: Choice, r: Response) {
    var id := record.invocationId;
    && o.pc == Done && Given(h, r) in o.world.log.given && r in o.world.log.responses
    && r.result.invocationId == id && r.result.disposition == Created
    && Records(c.turn, r.result.terminal)
    && id in o.world.executions.rows && o.world.executions.rows[id].status == StatusOf(r.result.terminal)
    && o.world.executions.rows[id].artifactRef == r.ref
    && r.ref.Some? && EvidenceOf(r) == c.turn.evidence && r.cost == c.cost
    && o.world.log.emitted[id] == emitted
         + (if c.analytics && c.cost.Some? && c.cost.value.analyticsPlanned == 1 then 1 else 0)
  }

  function CandidateOf(record: E.Record, job: Job, c: Choice): Artifact {
    Candidate(
      record, TurnTerminal(c.turn), c.turn.evidence, AttributionFromRequest(job.request, c.turn.servedModel), Created, c)
  }

  /** The put of a first object. */
  lemma PutSolo(w: World, h: nat, fin: Finishing, c: Choice)
    requires Writable(fin.artifact) && KeyOf(fin.artifact) !in w.objects
    ensures FinishStep(w, h, Put(fin), c) == Outcome(w.(objects := w.objects[KeyOf(fin.artifact) := fin.artifact]), Commit(fin))
  {
    hide Writable, KeyOf, RefOf, TerminalWithSessionRef, E.CanFinish, E.Finish, EvidencePage;
  }

  /** The commit of a running row. */
  lemma CommitSolo(w: World, h: nat, fin: Finishing, c: Choice)
    requires TerminalWithSessionRef(fin.record, fin.artifact) == Some(fin.artifact.result)
    requires var id := fin.record.invocationId;
      id in w.executions.rows && w.executions.rows[id] == fin.record && fin.record.status == Running
    ensures var o, id := FinishStep(w, h, Commit(fin), c), fin.record.invocationId;
      && o.pc == Emit(fin, fin.artifact.result)
      && id in o.world.executions.rows
      && o.world.executions.rows[id].status == StatusOf(fin.artifact.result.terminal)
      && o.world.executions.rows[id].artifactRef == Some(RefOf(fin.artifact))
      && o.world.log.emitted == w.log.emitted
  {
    hide Writable, KeyOf, RefOf, TerminalWithSessionRef, EvidencePage;
  }

  lemma EmitSolo(w: World, h: nat, fin: Finishing, stored: Result, c: Choice)
    ensures var o, id, cost := FinishStep(w, h, Emit(fin, stored), c), fin.record.invocationId, fin.artifact.cost;
      && o.world.executions == w.executions
      && o.world.log.emitted[id] == w.log.emitted[id]
           + (if c.analytics && cost.Some? && cost.value.analyticsPlanned == 1 then 1 else 0)
      && o.pc.Answer? && o.pc.response.result == stored.(disposition := fin.disposition)
      && o.pc.response.ref == Some(RefOf(fin.artifact)) && o.pc.response.cost == cost
  {
    hide Writable, KeyOf, RefOf, TerminalWithSessionRef, EvidencePage, E.CanFinish, E.Finish;
  }

  lemma InvokedSolo(w: World, pc: Pc, c: Choice)
    requires pc.Invoked?
    ensures var o := InvokeStep(w, pc, c);
      && o.pc == Put(Finishing(pc.record, CandidateOf(pc.record, pc.job, c), Created, ExecuteReply(pc.job)))
      && o.world.objects == w.objects && o.world.executions == w.executions && o.world.log.emitted == w.log.emitted
  {
    hide Candidate, ExecuteReply;
  }

  /** From the commit on: three steps to the answer. */
  lemma CommittedTurn(w: World, h: nat, fin: Finishing, c: Choice) returns (r: Response)
    requires TerminalWithSessionRef(fin.record, fin.artifact) == Some(fin.artifact.result)
    requires var id := fin.record.invocationId;
      id in w.executions.rows && w.executions.rows[id] == fin.record && fin.record.status == Running
    requires fin.artifact.result.invocationId == fin.record.invocationId && fin.disposition == Created
    requires fin.artifact.result.disposition == Created
    requires Records(c.turn, fin.artifact.result.terminal)
    requires fin.artifact.evidence == c.turn.evidence && fin.artifact.cost == c.cost
    ensures Finished(w.log.emitted[fin.record.invocationId], Solo(w, h, Commit(fin), c, 3), h, fin.record, c, r)
  {
    hide Solo, FinishStep, TerminalWithSessionRef, Records;
    var stored := fin.artifact.result;
    NextFinish(w, h, Commit(fin), c, 3);
    CommitSolo(w, h, fin, c);
    var w1 := FinishStep(w, h, Commit(fin), c).world;
    NextFinish(w1, h, Emit(fin, stored), c, 2);
    EmitSolo(w1, h, fin, stored, c);
    var o := FinishStep(w1, h, Emit(fin, stored), c);
    r := o.pc.response;
    NextAnswer(o.world, h, r, c);
    assert r.result.terminal == stored.terminal;
  }

  /** From the put on: the first object at its key, then the commit. */
  lemma PutTurn(w: World, h: nat, fin: Finishing, c: Choice) returns (r: Response)
    requires Writable(fin.artifact) && KeyOf(fin.artifact) !in w.objects
    requires TerminalWithSessionRef(fin.record, fin.artifact) == Some(fin.artifact.result)
    requires var id := fin.record.invocationId;
      id in w.executions.rows && w.executions.rows[id] == fin.record && fin.record.status == Running
    requires fin.artifact.result.invocationId == fin.record.invocationId && fin.disposition == Created
    requires fin.artifact.result.disposition == Created
    requires Records(c.turn, fin.artifact.result.terminal)
    requires fin.artifact.evidence == c.turn.evidence && fin.artifact.cost == c.cost
    ensures Finished(w.log.emitted[fin.record.invocationId], Solo(w, h, Put(fin), c, 4), h, fin.record, c, r)
  {
    hide Solo, FinishStep, Writable, TerminalWithSessionRef, KeyOf, Records, Finished;
    NextFinish(w, h, Put(fin), c, 4);
    PutSolo(w, h, fin, c);
    r := CommittedTurn(w.(objects := w.objects[KeyOf(fin.artifact) := fin.artifact]), h, fin, c);
  }

  /** Left alone, the claimant commits and answers what the runtime returned, in five steps. */
  lemma ReturnedTurnIsAnswered(w: World, h: nat, pc: Pc, c: Choice) returns (r: Response)
    requires Awaiting(w, pc) && Fits(c)
    ensures Finished(w.log.emitted[pc.record.invocationId], Solo(w, h, pc, c, 5), h, pc.record, c, r)
  {
    hide Solo, Candidate, CandidateOf, InvokeStep, FinishStep, Writable, KeyOf, TerminalWithSessionRef, Fits, Records, Finished;
    hide ExecuteReply, ClaimInputOf;
    CandidateFacts(pc.record, pc.job, c);
    NextInvoke(w, h, pc, c, 5);
    InvokedSolo(w, pc, c);
    var fin := Finishing(pc.record, CandidateOf(pc.record, pc.job, c), Created, ExecuteReply(pc.job));
    r := PutTurn(InvokeStep(w, pc, c).world, h, fin, c);
  }

  lemma CandidateFacts(record: E.Record, job: Job, c: Choice)
    ensures var a := CandidateOf(record, job, c);
      && KeyOf(a) == Key(record.invocationId, record.requestHash)
      && a.evidence == c.turn.evidence && a.cost == c.cost && a.bytes == c.bytes
      && a.result.invocationId == record.invocationId && a.result.disposition == Created
      && Records(c.turn, a.result.terminal)
      && TerminalWithSessionRef(record, a) == Some(a.result)
      && (Fits(c) ==> Writable(a))
  {
    TurnIsRecorded(c.turn);
  }

  // ---------- Status and cancel ----------

  lemma ReadIsRead(w: World, h: nat, pc: Pc, c: Choice)
    requires pc.CancelRuntime? || pc.Resolve?
    ensures Advance(w, h, pc, c) == ReadStep(w, pc, c)
  {
    hide ProvisionStep, ReserveStep, ClaimStep, InvokeStep, ReadStep, FinishStep;
  }

  /** A stop or a reconciliation that the runtime refuses leaves everything as it is, and so does reading a running row
      before its lease has run out. */
  lemma NothingIsRecorded(w: World, h: nat, pc: Pc, c: Choice)
    requires pc.CancelRuntime? || pc.Resolve?
    requires !c.ok || (pc.Resolve? && pc.record.status == Running && w.now < pc.record.leaseExpiresAt)
    ensures Advance(w, h, pc, c) == Outcome(w, Done)
  {
    hide Advance, Candidate;
    ReadIsRead(w, h, pc, c);
  }

  // ---------- Provision ----------

  predicate CanProvision(w: World, p: Provision) {
    && p.invocationId !in w.reservations.rows
    && (p.sessionId in w.reservations.owners ==> w.reservations.owners[p.sessionId] == p.owner)
    && w.reservations.counter.Some?
    && w.reservations.counter.value.allowance == p.allowance
    && w.reservations.counter.value.reserved < p.allowance.limit
  }

  /** The row is the provision's own, still provisioning. */
  predicate ProvisioningFor(w: World, p: Provision) {
    && p.invocationId in w.reservations.rows
    && w.reservations.rows[p.invocationId] ==
         R.Reservation(p.invocationId, p.sessionId, p.owner, p.requestHash, R.WorkspaceProvision, Some(p.digest),
                       R.Provisioning, None, p.allowance)
  }

  /** A provision claims and starts its one restore in three steps. */
  lemma ProvisionRestores(w: World, h: nat, p: Provision, c: Choice)
    requires CanProvision(w, p) && c.ok
    ensures var o := Solo(w, h, ProvisionLookup(p), c, 3);
      && o.pc == Restoring(p) && ProvisioningFor(o.world, p)
      && o.world.log.restores == w.log.restores + multiset{p.invocationId}
  {
    hide Solo;
    NextProvision(w, h, ProvisionLookup(p), c, 3);
    NextProvision(w, h, ProvisionInsert(p), c, 2);
    var w1 := ProvisionStep(w, h, ProvisionInsert(p), c).world;
    NextProvision(w1, h, Restore(p), c, 1);
    Stop(ProvisionStep(w1, h, Restore(p), c).world, h, Restoring(p), c);
  }

  /** Two more steps settle it: ready exactly if the restore succeeded, else failed with the transfer's code. */
  lemma RestoreSettles(w: World, h: nat, p: Provision, c: Choice)
    requires ProvisioningFor(w, p)
    ensures var o := Solo(w, h, Restoring(p), c, 2);
      && o.pc == Done && p.invocationId in o.world.reservations.rows
      && var row := o.world.reservations.rows[p.invocationId];
      && row.phase == (if c.ok then R.Ready else R.Failed)
      && row.errorCode == (if c.ok then None else Some(Id("workspace_transfer_failed")))
  {
    hide Solo;
    NextProvision(w, h, Restoring(p), c, 2);
    var o := ProvisionStep(w, h, Restoring(p), c);
    NextProvision(o.world, h, o.pc, c, 1);
    Stop(ProvisionStep(o.world, h, o.pc, c).world, h, Done, c);
  }

  /** Without a sandbox binding the row fails at once and nothing is restored. */
  lemma NoSandboxFails(w: World, h: nat, p: Provision, c: Choice)
    requires ProvisioningFor(w, p) && !c.ok
    ensures var o := Solo(w, h, Restore(p), c, 2);
      && o.pc == Done && o.world.log.restores == w.log.restores
      && p.invocationId in o.world.reservations.rows
      && o.world.reservations.rows[p.invocationId].phase == R.Failed
      && o.world.reservations.rows[p.invocationId].errorCode == Some(Id("runtime_unavailable"))
  {
    hide Solo;
    NextProvision(w, h, Restore(p), c, 2);
    var o := ProvisionStep(w, h, Restore(p), c);
    NextProvision(o.world, h, o.pc, c, 1);
    Stop(ProvisionStep(o.world, h, o.pc, c).world, h, Done, c);
  }

  /** A provision that succeeds opens the way for the execution it was made for. */
  lemma ProvisionedExecuteMayCall(w: World, job: Job, p: Provision)
    requires p.invocationId in w.reservations.rows && p.invocationId == job.request.invocationId
    requires w.reservations.rows[p.invocationId] ==
      R.Reservation(p.invocationId, p.sessionId, p.owner, p.requestHash, R.WorkspaceProvision, Some(p.digest),
                    R.Ready, None, p.allowance)
    ensures ReservedFor(w, job) <==>
      && p.sessionId == job.request.sessionId && p.owner == job.owner && p.requestHash == RequestHash(job.request)
      && p.allowance == job.allowance && job.request.transport != Id("digitalocean-sandbox-exec")
  {
  }
}
