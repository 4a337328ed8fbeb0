/**
 The managed execution service as a transition system.

 Any number of stateless handlers (execute, status, cancel, provision) race over the reservation tables,
 the execution table and the artifact bucket.  Every awaited call is one atomic step; a handler may crash
 between any two of them, and the clock only moves forward.  A run is any sequence of actions.
 */
module Protocol {
  import opened Managed
  import opened Artifacts
  import E = Executions
  import R = Reservations

  const LEASE_MS: int := 10 * 60 * 1_000

  /** One authorised execute call: its request, owner, deployment allowance, fresh token and start time. */
  datatype Job = Job(request: Request, owner: Owner, allowance: Allowance, token: Id, now: int)

  datatype Provision = Provision(
    invocationId: Id, sessionId: Id, owner: Owner, requestHash: RequestHash, digest: Id, allowance: Allowance)

  /** What `runtime.execute` came back with; a thrown error is reported as an error turn. */
  datatype Turn = Turn(servedModel: Option<Id>, error: Option<Error>, output: string, evidence: seq<Event>)

  /** What a caller asked about, and from which evidence position on; an execute call also presents its claim. */
  datatype Asked = Asked(invocationId: Id, owner: Owner, claim: Option<E.ClaimInput>, after: nat, limit: nat)

  /** How a handler will answer if it has to re-read the record. */
  datatype Reply = Reply(attribution: Option<Attribution>, asked: Asked)

  /** The locals of `finishTerminal`. */
  datatype Finishing = Finishing(record: E.Record, artifact: Artifact, disposition: Disposition, reply: Reply)

  /** A terminal answer given to a caller. */
  datatype Response = Response(result: Result, page: Page, ref: Option<Ref>, cost: Option<Cost>, asked: Asked)

  /** Which handler gave which answer. */
  datatype Given = Given(handler: nat, response: Response)

  datatype Cancellation = Cancellation(invocationId: Id, reason: string)

  /** Where a handler is: the call it will make next, with its locals. */
  datatype Pc =
    | ReserveLookup(job: Job)
    | ReserveInsert(job: Job)
    | ReserveReload(job: Job)
    | ClaimLookup(job: Job)
    | ClaimInsert(job: Job)
    | ClaimReload(job: Job)
    | ClaimReloadByKey(job: Job)
    | Invoke(job: Job, record: E.Record)
    | Invoked(job: Job, record: E.Record)
    | StatusLookup(id: Id, owner: Owner, after: nat, limit: nat)
    | CancelLookup(id: Id, owner: Owner, reason: string)
    | CancelRuntime(record: E.Record, reply: Reply, reason: string)
    | Resolve(record: E.Record, reply: Reply)
    | Put(fin: Finishing)
    | PutReload(fin: Finishing)
    | Commit(fin: Finishing)
    | Emit(fin: Finishing, stored: Result)
    | Reload(record: E.Record, reply: Reply)
    | ReadArtifact(record: E.Record, reply: Reply)
    | Answer(response: Response)
    | ProvisionLookup(p: Provision)
    | ProvisionInsert(p: Provision)
    | Restore(p: Provision)
    | Restoring(p: Provision)
    | SetReady(p: Provision)
    | SetFailed(p: Provision, code: Id)
    | Done

  /** History kept for the statements only: who won each claim and commit, how often each effect happened,
      what the runtime returned and which cancellations were carried out. */
  datatype Log = Log(
    claimed: map<Id, nat>, calls: multiset<Id>, turns: map<Id, Turn>, cancels: set<Cancellation>,
    committed: map<Id, nat>, emitted: multiset<Id>,
    provisioned: map<Id, nat>, restores: multiset<Id>, restored: set<Id>,
    responses: set<Response>, given: set<Given>)

  datatype World = World(
    now: int, reservations: R.Tables, executions: E.Table, objects: map<Key, Artifact>, log: Log)

  /** `asks` is what each handler was started with. */
  datatype State = State(world: World, handlers: map<nat, Pc>, asks: map<nat, Pc>)

  /** What the environment decides about one step: whether the call throws, what it returns. */
  datatype Choice = Choice(ok: bool, turn: Turn, cost: Option<Cost>, bytes: nat, analytics: bool)

  datatype Action =
    | Tick(to: int)
    | Seed(allowance: Allowance)
    | Spawn(h: nat, pc: Pc)
    | Crash(h: nat)
    | Step(h: nat, choice: Choice)

  const EMPTY: World :=
    World(
      0, R.Tables(None, map[], map[]), E.Table(map[], map[]), map[],
      Log(map[], multiset{}, map[], {}, map[], multiset{}, map[], multiset{}, {}, {}, {}))

  const INIT: State := State(EMPTY, map[], map[])

  // ---------- Pure pieces of the service ----------

  function ReplyAttribution(record: E.Record, reply: Reply): Attribution {
    if reply.attribution.Some? then reply.attribution.value else record.attribution
  }

  function ClaimInputOf(job: Job): E.ClaimInput {
    var q := job.request;
    E.ClaimInput(
      q.invocationId, q.idempotencyKey, RequestHash(q), q.executionDigest, q.policyRevision, q.sessionId,
      job.owner, job.allowance, AttributionFromRequest(q, None), job.token, job.now, job.now + LEASE_MS)
  }

  function ExecuteReply(job: Job): Reply {
    Reply(
      Some(AttributionFromRequest(job.request, None)),
      Asked(job.request.invocationId, job.owner, Some(ClaimInputOf(job)), 0, MAX_PAGE))
  }

  function DirectReservation(job: Job): R.Reservation {
    var q := job.request;
    R.Reservation(
      q.invocationId, q.sessionId, job.owner, RequestHash(q), R.DirectExecution, None, R.Ready, None,
      job.allowance)
  }

  function ProvisionReservation(p: Provision): R.Reservation {
    R.Reservation(
      p.invocationId, p.sessionId, p.owner, p.requestHash, R.WorkspaceProvision, Some(p.digest),
      R.Provisioning, None, p.allowance)
  }

  predicate ExecutionReservationMatches(r: R.Reservation, job: Job) {
    && r.invocationId == job.request.invocationId
    && r.sessionId == job.request.sessionId
    && r.owner == job.owner
    && r.requestHash == RequestHash(job.request)
    && r.allowance == job.allowance
  }

  predicate DirectReservationMatches(r: R.Reservation, job: Job) {
    ExecutionReservationMatches(r, job) && r.source == R.DirectExecution && r.provisionDigest.None?
  }

  /** Conflict, a transport that cannot adopt the workspace, or a reservation not ready: each answers without claiming. */
  function AfterReservation(job: Job, r: R.Reservation, matches: bool): Pc {
    if !matches then Done
    else if job.request.transport == DIGITALOCEAN_TRANSPORT && r.source == R.WorkspaceProvision then Done
    else if r.phase != R.Ready then Done
    else ClaimLookup(job)
  }

  function AfterClaim(job: Job, r: E.Record): Pc {
    if E.Exact(r, ClaimInputOf(job)) then Resolve(r, ExecuteReply(job)) else Done
  }

  function Candidate(
    record: E.Record, terminal: Terminal, evidence: seq<Event>, attribution: Attribution,
    disposition: Disposition, c: Choice): Artifact
  {
    Artifact(
      record.invocationId, record.requestHash,
      Result(
        disposition, record.invocationId, record.requestHash, record.executionDigest, record.policyRevision,
        PositionalRef(record.sessionId, |evidence|), attribution, TerminalOutcome(terminal, |evidence|)),
      evidence, c.cost, c.bytes)
  }

  /** `None` is the thrown "artifact does not contain a terminal result". */
  function TerminalWithSessionRef(record: E.Record, a: Artifact): Option<Result> {
    var r := a.result;
    if r.invocationId != record.invocationId || r.requestHash != record.requestHash
      || r.sessionRef.sessionId != record.sessionId || !IsTerminal(r.terminal)
    then None
    else if r.terminal.Success? && a.evidence == []
    then Some(r.(terminal := Failure(Failed, MISSING_EVIDENCE), sessionRef := PositionalRef(record.sessionId, 0)))
    else Some(r.(sessionRef := PositionalRef(record.sessionId, |a.evidence|)))
  }

  function TurnTerminal(t: Turn): Terminal {
    if t.error.Some? then Failure(ErrorStatus(t.error.value.code), t.error.value) else Success(t.output)
  }

  function CancelledWith(reason: string): Terminal {
    Failure(Cancelled, Error(Id("cancelled"), reason))
  }

  const LEASE_EXPIRED: Terminal :=
    Failure(Interrupted, Error(Id("runtime_interrupted"), "Pillbox managed invocation owner lease expired"))

  // ---------- One handler step ----------

  datatype Outcome = Outcome(world: World, pc: Pc)

  function ReserveStep(w: World, pc: Pc): Outcome
    requires pc.ReserveLookup? || pc.ReserveInsert? || pc.ReserveReload?
  {
    var job := pc.job;
    var found := R.Owned(w.reservations, job.request.invocationId, job.owner);
    match pc
    case ReserveLookup(_) =>
      if found.Some?
      then Outcome(w, AfterReservation(job, found.value, ExecutionReservationMatches(found.value, job)))
      else Outcome(w, ReserveInsert(job))
    case ReserveInsert(_) =>
      (match R.Insert(w.reservations, DirectReservation(job))
       case Added(t) => Outcome(w.(reservations := t), AfterReservation(job, DirectReservation(job), true))
       case Skipped => Outcome(w, ReserveReload(job))
       case _ => Outcome(w, Done))
    case ReserveReload(_) =>
      if found.Some?
      then Outcome(w, AfterReservation(job, found.value, DirectReservationMatches(found.value, job)))
      else Outcome(w, Done)
  }

  function ClaimStep(w: World, h: nat, pc: Pc): Outcome
    requires pc.ClaimLookup? || pc.ClaimInsert? || pc.ClaimReload? || pc.ClaimReloadByKey?
  {
    var job := pc.job;
    var input := ClaimInputOf(job);
    match pc
    case ClaimLookup(_) =>
      (match E.Get(w.executions, input.invocationId, job.owner)
       case Some(r) => Outcome(w, AfterClaim(job, r))
       case None => Outcome(w, ClaimInsert(job)))
    case ClaimInsert(_) =>
      (match E.Insert(w.executions, w.reservations, input)
       case Added(t) =>
         Outcome(
           w.(executions := t, log := w.log.(claimed := w.log.claimed[input.invocationId := h])),
           Invoke(job, E.RecordFromClaim(input)))
       case Skipped => Outcome(w, ClaimReload(job))
       case Aborted => Outcome(w, Done))
    case ClaimReload(_) =>
      (match E.Get(w.executions, input.invocationId, job.owner)
       case Some(r) => Outcome(w, AfterClaim(job, r))
       case None => Outcome(w, ClaimReloadByKey(job)))
    case ClaimReloadByKey(_) =>
      (match E.GetByKey(w.executions, input.idempotencyKey, job.owner)
       case Some(r) => Outcome(w, AfterClaim(job, r))
       case None => Outcome(w, Done))
  }

  function InvokeStep(w: World, pc: Pc, c: Choice): Outcome
    requires pc.Invoke? || pc.Invoked?
  {
    var job, record := pc.job, pc.record;
    match pc
    case Invoke(_, _) =>
      Outcome(w.(log := w.log.(calls := w.log.calls + multiset{record.invocationId})), Invoked(job, record))
    case Invoked(_, _) =>
      var attribution := AttributionFromRequest(job.request, c.turn.servedModel);
      var a := Candidate(record, TurnTerminal(c.turn), c.turn.evidence, attribution, Created, c);
      Outcome(
        w.(log := w.log.(turns := w.log.turns[record.invocationId := c.turn])),
        Put(Finishing(record, a, Created, ExecuteReply(job))))
  }

  function ReadStep(w: World, pc: Pc, c: Choice): Outcome
    requires pc.StatusLookup? || pc.CancelLookup? || pc.CancelRuntime? || pc.Resolve? || pc.Reload? || pc.ReadArtifact?
  {
    match pc
    case StatusLookup(id, owner, after, limit) =>
      (match E.Get(w.executions, id, owner)
       case Some(r) => Outcome(w, Resolve(r, Reply(None, Asked(id, owner, None, after, limit))))
       case None => Outcome(w, Done))
    case CancelLookup(id, owner, reason) =>
      var reply := Reply(None, Asked(id, owner, None, 0, MAX_PAGE));
      (match E.Get(w.executions, id, owner)
       case Some(r) => Outcome(w, if r.status != Running then Resolve(r, reply) else CancelRuntime(r, reply, reason))
       case None => Outcome(w, Done))
    case CancelRuntime(r, reply, reason) =>
      var a := Candidate(r, CancelledWith(reason), [], r.attribution, Reused, c);
      var log := w.log.(cancels := w.log.cancels + {Cancellation(r.invocationId, reason)});
      if c.ok then Outcome(w.(log := log), Put(Finishing(r, a, Reused, reply))) else Outcome(w, Done)
    case Resolve(r, reply) =>
      if !c.ok then Outcome(w, Done)
      else if r.status != Running then Outcome(w, ReadArtifact(r, reply))
      else if r.leaseExpiresAt > w.now then Outcome(w, Done)
      else
        var a := Candidate(r, LEASE_EXPIRED, [], ReplyAttribution(r, reply), Reused, c);
        Outcome(w, Put(Finishing(r, a, Reused, reply)))
    case Reload(r, reply) =>
      (match E.Get(w.executions, r.invocationId, r.owner)
       case Some(r') => Outcome(w, Resolve(r', reply))
       case None => Outcome(w, Done))
    case ReadArtifact(r, reply) =>
      if r.artifactRef.None? then Outcome(w, Done)
      else
        match ReadObject(w.objects, r.artifactRef.value)
        case None => Outcome(w, Done)
        case Some(a) =>
          match TerminalWithSessionRef(r, a)
          case None => Outcome(w, Done)
          case Some(stored) =>
            Outcome(w, Answer(Response(
              stored.(disposition := Reused), EvidencePage(a.evidence, reply.asked.after, reply.asked.limit), r.artifactRef, a.cost,
              reply.asked)))
  }

  function FinishStep(w: World, h: nat, pc: Pc, c: Choice): Outcome
    requires pc.Put? || pc.PutReload? || pc.Commit? || pc.Emit?
  {
    var fin := pc.fin;
    var id := fin.record.invocationId;
    var key := KeyOf(fin.artifact);
    match pc
    case Put(_) =>
      if !Writable(fin.artifact) then Outcome(w, Done)
      else if key in w.objects then Outcome(w, PutReload(fin))
      else Outcome(w.(objects := w.objects[key := fin.artifact]), Commit(fin))
    case PutReload(_) =>
      if key in w.objects then Outcome(w, Commit(fin.(artifact := w.objects[key]))) else Outcome(w, Done)
    case Commit(_) =>
      (match TerminalWithSessionRef(fin.record, fin.artifact)
       case None => Outcome(w, Done)
       case Some(stored) =>
         if E.CanFinish(w.executions, fin.record) then
           var t := E.Finish(w.executions, fin.record, StatusOf(stored.terminal), RefOf(fin.artifact), w.now);
           Outcome(
             w.(executions := t, log := w.log.(committed := w.log.committed[id := h])),
             Emit(fin, stored))
         else Outcome(w, Reload(fin.record, fin.reply)))
    case Emit(_, stored) =>
      var cost := fin.artifact.cost;
      var emits := c.analytics && cost.Some? && cost.value.analyticsPlanned == 1;
      var log := if emits then w.log.(emitted := w.log.emitted + multiset{id}) else w.log;
      Outcome(w.(log := log), Answer(Response(
        stored.(disposition := fin.disposition), EvidencePage(fin.artifact.evidence, 0, MAX_PAGE),
        Some(RefOf(fin.artifact)), cost, fin.reply.asked)))
  }

  function ProvisionStep(w: World, h: nat, pc: Pc, c: Choice): Outcome
    requires pc.ProvisionLookup? || pc.ProvisionInsert? || pc.Restore? || pc.Restoring? || pc.SetReady? || pc.SetFailed?
  {
    var p := pc.p;
    var id := p.invocationId;
    match pc
    case ProvisionLookup(_) =>
      Outcome(w, if R.Owned(w.reservations, id, p.owner).Some? then Done else ProvisionInsert(p))
    case ProvisionInsert(_) =>
      (match R.Insert(w.reservations, ProvisionReservation(p))
       case Added(t) =>
         Outcome(
           w.(reservations := t, log := w.log.(provisioned := w.log.provisioned[id := h])), Restore(p))
       case _ => Outcome(w, Done))
    case Restore(_) =>
      if c.ok
      then Outcome(w.(log := w.log.(restores := w.log.restores + multiset{id})), Restoring(p))
      else Outcome(w, SetFailed(p, Id("runtime_unavailable")))
    case Restoring(_) =>
      if c.ok
      then Outcome(w.(log := w.log.(restored := w.log.restored + {id})), SetReady(p))
      else Outcome(w, SetFailed(p, Id("workspace_transfer_failed")))
    case SetReady(_) => Outcome(w.(reservations := R.MarkReady(w.reservations, id, p.owner)), Done)
    case SetFailed(_, code) => Outcome(w.(reservations := R.MarkFailed(w.reservations, id, p.owner, code)), Done)
  }

  function Advance(w: World, h: nat, pc: Pc, c: Choice): Outcome {
    match pc
    case ReserveLookup(_) | ReserveInsert(_) | ReserveReload(_) => ReserveStep(w, pc)
    case ClaimLookup(_) | ClaimInsert(_) | ClaimReload(_) | ClaimReloadByKey(_) => ClaimStep(w, h, pc)
    case Invoke(_, _) | Invoked(_, _) => InvokeStep(w, pc, c)
    case StatusLookup(_, _, _, _) | CancelLookup(_, _, _) | CancelRuntime(_, _, _) | Resolve(_, _) | Reload(_, _)
       | ReadArtifact(_, _) => ReadStep(w, pc, c)
    case Put(_) | PutReload(_) | Commit(_) | Emit(_, _) => FinishStep(w, h, pc, c)
    case ProvisionLookup(_) | ProvisionInsert(_) | Restore(_) | Restoring(_) | SetReady(_) | SetFailed(_, _) =>
      ProvisionStep(w, h, pc, c)
    case Answer(r) =>
      Outcome(w.(log := w.log.(responses := w.log.responses + {r}, given := w.log.given + {Given(h, r)})), Done)
    case Done => Outcome(w, Done)
  }

  // ---------- Runs ----------

  predicate Starting(w: World, pc: Pc) {
    match pc
    case ReserveLookup(job) => job.now == w.now
    case StatusLookup(_, _, _, _) => true
    case CancelLookup(_, _, _) => true
    case ProvisionLookup(_) => true
    case _ => false
  }

  /** An action that is not enabled leaves the state as it is, so every sequence of actions is a run. */
  function Apply(s: State, a: Action): State {
    match a
    case Tick(to) => if to >= s.world.now then s.(world := s.world.(now := to)) else s
    case Seed(allowance) =>
      s.(world := s.world.(reservations := R.Seed(s.world.reservations, allowance)))
    case Spawn(h, pc) =>
      if h !in s.handlers && Starting(s.world, pc)
      then s.(handlers := s.handlers[h := pc], asks := s.asks[h := pc]) else s
    case Crash(h) => if h in s.handlers then s.(handlers := s.handlers[h := Done]) else s
    case Step(h, c) =>
      if h in s.handlers then
        var o := Advance(s.world, h, s.handlers[h], c);
        s.(world := o.world, handlers := s.handlers[h := o.pc])
      else s
  }

  function Run(acts: seq<Action>): State {
    if acts == [] then INIT else Apply(Run(acts[..|acts| - 1]), acts[|acts| - 1])
  }
}
