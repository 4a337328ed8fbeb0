/** Who answers whom: every answer is tied to the call its handler was started with, to its cursor and to who won. */
module ProtocolAnswers {
  import opened Managed
  import opened Artifacts
  import opened Protocol
  import opened ProtocolSafety
  import opened ProtocolTheorems
  import E = Executions

  // ---------- What a handler was asked ----------

  /** What the call that started a handler asked; only execute, status and cancel calls get terminal answers. */
  function AskedBy(start: Pc): Asked {
    match start
    case ReserveLookup(job) => Asked(job.request.invocationId, job.owner, Some(ClaimInputOf(job)), 0, MAX_PAGE)
    case StatusLookup(id, owner, after, limit) => Asked(id, owner, None, after, limit)
    case CancelLookup(id, owner, _) => Asked(id, owner, None, 0, MAX_PAGE)
    case _ => Asked(Id(""), Owner(Id(""), Id("")), None, 0, 0)
  }

  predicate Won(winners: map<Id, nat>, id: Id, h: nat) {
    id in winners && winners[id] == h
  }

  ghost predicate NoWin(winners: map<Id, nat>, h: nat) {
    forall id | id in winners :: winners[id] != h
  }

  /** The page of an evidence that starts at `after` and holds at most `limit` events. */
  predicate ExactPage(page: Page, e: seq<Event>, after: nat, limit: nat) {
    && page.from == after
    && (after <= |e| && after + limit <= |e| ==> page.events == e[after..after + limit])
    && (after <= |e| && after + limit > |e| ==> page.events == e[after..])
    && (after > |e| ==> page.events == [])
    && (page.next.Some? <==> after + |page.events| < |e|)
    && (page.next.Some? ==> page.next.value == after + |page.events|)
    && page.truncated == page.next.Some?
  }

  /** The committer of an invocation answers from the start; everyone else answers from the cursor they were given.
      An answer says `created` exactly to the caller whose claim and commit both won. */
  ghost predicate AnswerFits(claimed: map<Id, nat>, committed: map<Id, nat>, start: Pc, h: nat, r: Response) {
    var id := r.result.invocationId;
    && r.asked == AskedBy(start)
    && r.ref.Some?
    && (Won(committed, id, h) ==> ExactPage(r.page, EvidenceOf(r), 0, MAX_PAGE))
    && (!Won(committed, id, h) ==> ExactPage(r.page, EvidenceOf(r), r.asked.after, r.asked.limit))
    && (r.result.disposition == Created <==> Won(claimed, id, h) && Won(committed, id, h))
  }

  // ---------- The invariant ----------

  /** Nothing claimed yet: every step before the claim's insert, and every read of a running row by others. */
  predicate Early(pc: Pc) {
    || pc.ReserveLookup? || pc.ReserveInsert? || pc.ReserveReload?
    || pc.ClaimLookup? || pc.ClaimInsert? || pc.ClaimReload? || pc.ClaimReloadByKey?
    || pc.StatusLookup? || pc.CancelLookup? || pc.CancelRuntime?
    || (pc.Resolve? && pc.record.status == Running)
  }

  predicate Uncommitted(pc: Pc) {
    !pc.Emit? && !pc.Answer? && !pc.Done?
  }

  /** A handler's locals come from the call that started it. */
  predicate FromStart(start: Pc, pc: Pc) {
    match pc
    case ReserveLookup(job) => start == ReserveLookup(job)
    case ReserveInsert(job) => start == ReserveLookup(job)
    case ReserveReload(job) => start == ReserveLookup(job)
    case ClaimLookup(job) => start == ReserveLookup(job)
    case ClaimInsert(job) => start == ReserveLookup(job)
    case ClaimReload(job) => start == ReserveLookup(job)
    case ClaimReloadByKey(job) => start == ReserveLookup(job)
    case Invoke(job, _) => start == ReserveLookup(job)
    case Invoked(job, _) => start == ReserveLookup(job)
    case StatusLookup(_, _, _, _) => pc == start
    case CancelLookup(_, _, _) => pc == start
    case CancelRuntime(r, reply, reason) => start == CancelLookup(r.invocationId, r.owner, reason) && reply.asked == AskedBy(start)
    case Resolve(_, reply) => reply.asked == AskedBy(start)
    case Reload(_, reply) => reply.asked == AskedBy(start)
    case ReadArtifact(_, reply) => reply.asked == AskedBy(start)
    case Put(fin) => fin.reply.asked == AskedBy(start)
    case PutReload(fin) => fin.reply.asked == AskedBy(start)
    case Commit(fin) => fin.reply.asked == AskedBy(start)
    case Emit(fin, _) => fin.reply.asked == AskedBy(start)
    case _ => true
  }

  /** A result under way says `created` exactly if it is the claimant's. */
  predicate DispositionOk(claimed: map<Id, nat>, h: nat, fin: Finishing) {
    fin.disposition == Created <==> Won(claimed, fin.record.invocationId, h)
  }

  ghost predicate Standing(claimed: map<Id, nat>, committed: map<Id, nat>, start: Pc, h: nat, pc: Pc) {
    && (Early(pc) ==> NoWin(claimed, h))
    && (Uncommitted(pc) ==> NoWin(committed, h))
    && FromStart(start, pc)
    && (pc.Put? || pc.PutReload? || pc.Commit? || pc.Emit? ==> DispositionOk(claimed, h, pc.fin))
    && (pc.Answer? ==> AnswerFits(claimed, committed, start, h, pc.response))
  }

  /** A cancellation on record was asked for, with its reason, by the owner of the row. */
  ghost predicate CancelAsked(rows: Rows, asks: map<nat, Pc>, c: Cancellation) {
    exists h, owner :: h in asks && asks[h] == CancelLookup(c.invocationId, owner, c.reason)
                       && c.invocationId in rows && rows[c.invocationId].owner == owner
  }

  ghost predicate StandingsOk(s: State) {
    && s.handlers.Keys == s.asks.Keys
    && forall h | h in s.handlers :: Standing(s.world.log.claimed, s.world.log.committed, s.asks[h], h, s.handlers[h])
  }

  ghost predicate WinnersKnown(s: State) {
    && (forall id | id in s.world.log.claimed :: s.world.log.claimed[id] in s.handlers)
    && (forall id | id in s.world.log.committed :: s.world.log.committed[id] in s.handlers)
  }

  /** Answers given are over and done with. */
  ghost predicate GivenOk(s: State) {
    forall g | g in s.world.log.given ::
      && g.handler in s.handlers && g.handler in s.asks && s.handlers[g.handler] == Done
      && g.response in s.world.log.responses
      && AnswerFits(s.world.log.claimed, s.world.log.committed, s.asks[g.handler], g.handler, g.response)
  }

  ghost predicate CancelsAsked(s: State) {
    forall c | c in s.world.log.cancels :: CancelAsked(s.world.executions.rows, s.asks, c)
  }

  ghost predicate AnswersInv(s: State) {
    StandingsOk(s) && WinnersKnown(s) && GivenOk(s) && CancelsAsked(s)
  }

  // ---------- One step ----------

  /** A step adds winners of its own handler only. */
  ghost predicate WinnersBy(winners: map<Id, nat>, winners': map<Id, nat>, h: nat) {
    && (forall id | id in winners :: id in winners' && winners'[id] == winners[id])
    && (forall id | id in winners' && id !in winners :: winners'[id] == h)
  }

  ghost predicate AddedBy(winners: map<Id, nat>, winners': map<Id, nat>, h: nat) {
    forall id | id in winners' :: winners'[id] == h || (id in winners && winners'[id] == winners[id])
  }

  /** Which parts of the history a step may write. */
  ghost predicate Writes(log: Log, log': Log, h: nat, pc: Pc) {
    && (log'.claimed == log.claimed || (pc.ClaimInsert? && AddedBy(log.claimed, log'.claimed, h)))
    && (log'.committed == log.committed || (pc.Commit? && AddedBy(log.committed, log'.committed, h)))
    && (log'.given == log.given || pc.Answer?)
    && (log'.cancels == log.cancels || pc.CancelRuntime?)
  }

  ghost predicate OutcomeWrites(w: World, o: Outcome, h: nat, pc: Pc) {
    Writes(w.log, o.world.log, h, pc)
  }

  lemma ReserveWrites(w: World, h: nat, pc: Pc)
    requires pc.ReserveLookup? || pc.ReserveInsert? || pc.ReserveReload?
    ensures OutcomeWrites(w, ReserveStep(w, pc), h, pc)
  {
    hide R.Insert, R.Owned, AfterReservation, DirectReservation;
  }

  lemma ClaimWrites(w: World, h: nat, pc: Pc)
    requires pc.ClaimLookup? || pc.ClaimInsert? || pc.ClaimReload? || pc.ClaimReloadByKey?
    ensures OutcomeWrites(w, ClaimStep(w, h, pc), h, pc)
  {
    hide E.Insert, E.Get, E.GetByKey, AfterClaim, ClaimInputOf, E.RecordFromClaim;
  }

  lemma InvokeWrites(w: World, h: nat, pc: Pc, c: Choice)
    requires pc.Invoke? || pc.Invoked?
    ensures OutcomeWrites(w, InvokeStep(w, pc, c), h, pc)
  {
    hide Candidate, ExecuteReply;
  }

  lemma ReadWrites(w: World, h: nat, pc: Pc, c: Choice)
    requires pc.StatusLookup? || pc.CancelLookup? || pc.CancelRuntime? || pc.Resolve? || pc.Reload? || pc.ReadArtifact?
    ensures OutcomeWrites(w, ReadStep(w, pc, c), h, pc)
  {
    hide Candidate, E.Get, ReadObject, TerminalWithSessionRef, EvidencePage;
  }

  lemma FinishWrites(w: World, h: nat, pc: Pc, c: Choice)
    requires pc.Put? || pc.PutReload? || pc.Commit? || pc.Emit?
    ensures OutcomeWrites(w, FinishStep(w, h, pc, c), h, pc)
  {
    hide E.Finish, E.CanFinish, TerminalWithSessionRef, EvidencePage, Writable, KeyOf, RefOf;
  }

  lemma ProvisionWrites(w: World, h: nat, pc: Pc, c: Choice)
    requires pc.ProvisionLookup? || pc.ProvisionInsert? || pc.Restore? || pc.Restoring? || pc.SetReady? || pc.SetFailed?
    ensures OutcomeWrites(w, ProvisionStep(w, h, pc, c), h, pc)
  {
    hide R.Insert, R.Owned, R.MarkReady, R.MarkFailed, ProvisionReservation;
  }

  lemma AdvanceWrites(w: World, h: nat, pc: Pc, c: Choice)
    ensures OutcomeWrites(w, Advance(w, h, pc, c), h, pc)
  {
    hide OutcomeWrites, ReserveStep, ClaimStep, InvokeStep, ReadStep, FinishStep, ProvisionStep;
    match pc
    case ReserveLookup(_) | ReserveInsert(_) | ReserveReload(_) => ReserveWrites(w, h, pc);
    case ClaimLookup(_) | ClaimInsert(_) | ClaimReload(_) | ClaimReloadByKey(_) => ClaimWrites(w, h, pc);
    case Invoke(_, _) | Invoked(_, _) => InvokeWrites(w, h, pc, c);
    case StatusLookup(_, _, _, _) | CancelLookup(_, _, _) | CancelRuntime(_, _, _) | Resolve(_, _) | Reload(_, _)
       | ReadArtifact(_, _) => ReadWrites(w, h, pc, c);
    case Put(_) | PutReload(_) | Commit(_) | Emit(_, _) => FinishWrites(w, h, pc, c);
    case ProvisionLookup(_) | ProvisionInsert(_) | Restore(_) | Restoring(_) | SetReady(_) | SetFailed(_, _) =>
      ProvisionWrites(w, h, pc, c);
    case Answer(_) | Done => EndWrites(w, h, pc, c);
  }

  lemma EndWrites(w: World, h: nat, pc: Pc, c: Choice)
    requires pc.Answer? || pc.Done?
    ensures OutcomeWrites(w, Advance(w, h, pc, c), h, pc)
  {
    hide ReserveStep, ClaimStep, InvokeStep, ReadStep, FinishStep, ProvisionStep;
  }

  lemma AdvanceWinners(w: World, h: nat, pc: Pc, c: Choice)
    requires WorldOk(w) && HandlerOk(w, h, pc)
    ensures var log := Advance(w, h, pc, c).world.log;
      && WinnersBy(w.log.claimed, log.claimed, h) && WinnersBy(w.log.committed, log.committed, h)
      && Writes(w.log, log, h, pc)
  {
    hide WorldOk, HandlerOk, StepOk, Advance;
    AdvanceOk(w, h, pc, c);
    StepGrows(w, h, Advance(w, h, pc, c));
    AdvanceWrites(w, h, pc, c);
  }

  lemma StepGrows(w: World, h: nat, o: Outcome)
    requires StepOk(w, h, o)
    ensures WinnersGrow(w.log.claimed, o.world.log.claimed) && WinnersGrow(w.log.committed, o.world.log.committed)
    ensures RowsGrow(w.executions.rows, o.world.executions.rows)
    ensures w.log.given <= o.world.log.given && w.log.responses <= o.world.log.responses
  {
  }

  lemma PageIsExact(e: seq<Event>, after: nat, limit: nat)
    ensures ExactPage(EvidencePage(e, after, limit), e, after, limit)
  {
  }

  ghost predicate OutcomeStands(o: Outcome, start: Pc, h: nat) {
    Standing(o.world.log.claimed, o.world.log.committed, start, h, o.pc)
  }

  lemma ReserveStanding(w: World, h: nat, start: Pc, pc: Pc)
    requires Standing(w.log.claimed, w.log.committed, start, h, pc)
    requires pc.ReserveLookup? || pc.ReserveInsert? || pc.ReserveReload?
    ensures OutcomeStands(ReserveStep(w, pc), start, h)
  {
    hide R.Insert, R.Owned, DirectReservation, ExecutionReservationMatches, DirectReservationMatches, AnswerFits;
  }

  /** The claim's insert: a winner had won nothing before. */
  lemma ClaimStanding(w: World, h: nat, start: Pc, pc: Pc)
    requires Standing(w.log.claimed, w.log.committed, start, h, pc)
    requires pc.ClaimLookup? || pc.ClaimInsert? || pc.ClaimReload? || pc.ClaimReloadByKey?
    ensures OutcomeStands(ClaimStep(w, h, pc), start, h)
  {
    hide ClaimInputOf, E.Insert, E.Get, E.GetByKey, E.Exact, E.RecordFromClaim, AnswerFits;
  }

  lemma InvokeStanding(w: World, h: nat, start: Pc, pc: Pc, c: Choice)
    requires HandlerOk(w, h, pc) && Standing(w.log.claimed, w.log.committed, start, h, pc)
    requires pc.Invoke? || pc.Invoked?
    ensures OutcomeStands(InvokeStep(w, pc, c), start, h)
  {
    hide ClaimInputOf, E.RecordFromClaim, Candidate, RecordOk, AnswerFits;
  }

  /** Where a lookup leads: to its record, with what was asked; a re-read finds a terminal one. */
  lemma LookupShape(w: World, h: nat, pc: Pc, c: Choice)
    requires WorldOk(w) && HandlerOk(w, h, pc)
    requires pc.StatusLookup? || pc.CancelLookup? || pc.Reload?
    ensures var o := ReadStep(w, pc, c);
      && o.world == w
      && (o.pc == Done || o.pc.Resolve? || (o.pc.CancelRuntime? && pc.CancelLookup?))
      && (o.pc.Resolve? || o.pc.CancelRuntime? ==>
           o.pc.reply.asked == if pc.Reload? then pc.reply.asked else AskedBy(pc))
      && (o.pc.CancelRuntime? ==> pc == CancelLookup(o.pc.record.invocationId, o.pc.record.owner, o.pc.reason))
      && (pc.Reload? ==> o.pc.Resolve? && o.pc.record.status != Running)
  {
    hide WorldOk, HandlerOk, StepOk, RecordOk, Presented;
    if pc.Reload? { LookupStepOk(w, h, pc, c); }
    if pc.CancelLookup? { LookupOk(w, pc.id, pc.owner); }
  }

  lemma LookupStanding(w: World, h: nat, start: Pc, pc: Pc, c: Choice)
    requires WorldOk(w) && HandlerOk(w, h, pc) && Standing(w.log.claimed, w.log.committed, start, h, pc)
    requires pc.StatusLookup? || pc.CancelLookup? || pc.Reload?
    ensures OutcomeStands(ReadStep(w, pc, c), start, h)
  {
    hide WorldOk, HandlerOk, AnswerFits, ReadStep, NoWin;
    LookupShape(w, h, pc, c);
  }

  /** Where a record leads: to its artifact, or to a result of its own that is not the claimant's. */
  lemma ResolveShape(w: World, pc: Pc, c: Choice)
    requires pc.CancelRuntime? || pc.Resolve?
    ensures var o := ReadStep(w, pc, c);
      && o.world.log.claimed == w.log.claimed && o.world.log.committed == w.log.committed
      && (o.pc == Done || o.pc.ReadArtifact? || o.pc.Put?)
      && (o.pc.ReadArtifact? ==> o.pc.reply == pc.reply)
      && (o.pc.Put? ==> o.pc.fin.reply == pc.reply && o.pc.fin.record == pc.record && o.pc.fin.disposition == Reused)
      && (o.pc.Put? && pc.Resolve? ==> pc.record.status == Running)
  {
    hide Candidate;
  }

  lemma ResolveStanding(w: World, h: nat, start: Pc, pc: Pc, c: Choice)
    requires Standing(w.log.claimed, w.log.committed, start, h, pc)
    requires pc.CancelRuntime? || pc.Resolve?
    ensures OutcomeStands(ReadStep(w, pc, c), start, h)
  {
    hide AnswerFits, ReadStep, AskedBy;
    ResolveShape(w, pc, c);
  }

  /** An answer read from a committed object. */
  lemma ReadAnswerFits(log: Log, start: Pc, h: nat, a: Artifact, asked: Asked)
    requires NoWin(log.committed, h) && asked == AskedBy(start)
    ensures AnswerFits(log.claimed, log.committed, start, h, Response(
      a.result.(disposition := Reused), EvidencePage(a.evidence, asked.after, asked.limit), Some(RefOf(a)), a.cost, asked))
  {
    hide EvidencePage, ExactPage;
    PageIsExact(a.evidence, asked.after, asked.limit);
  }

  lemma ReadArtifactStanding(w: World, h: nat, start: Pc, r: E.Record, reply: Reply, c: Choice)
    requires WorldOk(w) && HandlerOk(w, h, ReadArtifact(r, reply)) && Standing(w.log.claimed, w.log.committed, start, h, ReadArtifact(r, reply))
    ensures OutcomeStands(ReadStep(w, ReadArtifact(r, reply), c), start, h)
  {
    hide WorldOk, HandlerOk, AnswerFits, ReadStep, EvidencePage;
    ReadsRecord(w, h, r, reply);
    CommittedObject(w, r);
    var a := w.objects[KeyOfRow(r)];
    ReadArtifactStep(w, r, reply, a, c);
    ReadAnswerFits(w.log, start, h, a, reply.asked);
  }

  lemma ReadsRecord(w: World, h: nat, r: E.Record, reply: Reply)
    requires HandlerOk(w, h, ReadArtifact(r, reply))
    ensures RecordOk(w.executions.rows, r) && r.status != Running
  {
  }

  lemma ReadArtifactStep(w: World, r: E.Record, reply: Reply, a: Artifact, c: Choice)
    requires KeyOfRow(r) in w.objects && w.objects[KeyOfRow(r)] == a
    requires r.artifactRef == Some(RefOf(a)) && KeyOf(a) == KeyOfRow(r) && ArtifactFor(r, a)
    ensures ReadStep(w, ReadArtifact(r, reply), c) == Outcome(w, Answer(Response(
      a.result.(disposition := Reused), EvidencePage(a.evidence, reply.asked.after, reply.asked.limit), Some(RefOf(a)), a.cost,
      reply.asked)))
  {
    hide EvidencePage, TerminalWithSessionRef, E.Get, ArtifactFor;
    StoredResult(r, a);
  }

  /** The same result under way, perhaps with another artifact. */
  predicate SameCourse(fin: Finishing, fin': Finishing) {
    fin'.record == fin.record && fin'.disposition == fin.disposition && fin'.reply == fin.reply
  }

  lemma CourseStands(claimed: map<Id, nat>, committed: map<Id, nat>, start: Pc, h: nat, pc: Pc, fin': Finishing)
    requires Standing(claimed, committed, start, h, pc) && (pc.Put? || pc.PutReload?) && SameCourse(pc.fin, fin')
    ensures Standing(claimed, committed, start, h, PutReload(fin')) && Standing(claimed, committed, start, h, Commit(fin'))
    ensures Standing(claimed, committed, start, h, Done)
  {
    hide AnswerFits, AskedBy;
  }

  lemma PutShape(w: World, h: nat, pc: Pc, c: Choice)
    requires pc.Put? || pc.PutReload?
    ensures var o := FinishStep(w, h, pc, c);
      && o.world.log == w.log
      && (o.pc == Done || ((o.pc.PutReload? || o.pc.Commit?) && SameCourse(pc.fin, o.pc.fin)))
  {
    hide EvidencePage, E.Finish, E.CanFinish, Writable, TerminalWithSessionRef, KeyOf, RefOf;
  }

  lemma PutStanding(w: World, h: nat, start: Pc, pc: Pc, c: Choice)
    requires Standing(w.log.claimed, w.log.committed, start, h, pc)
    requires pc.Put? || pc.PutReload?
    ensures OutcomeStands(FinishStep(w, h, pc, c), start, h)
  {
    hide Standing, FinishStep, SameCourse;
    PutShape(w, h, pc, c);
    var o := FinishStep(w, h, pc, c);
    SameAsItself(pc.fin);
    CourseStands(w.log.claimed, w.log.committed, start, h, pc, if o.pc == Done then pc.fin else o.pc.fin);
  }

  lemma SameAsItself(fin: Finishing)
    ensures SameCourse(fin, fin)
  {
  }

  lemma CommitStanding(w: World, h: nat, start: Pc, fin: Finishing, c: Choice)
    requires Standing(w.log.claimed, w.log.committed, start, h, Commit(fin))
    ensures OutcomeStands(FinishStep(w, h, Commit(fin), c), start, h)
  {
    hide EvidencePage, E.Finish, E.CanFinish, Writable, TerminalWithSessionRef, KeyOf, RefOf, AnswerFits;
  }

  /** The committer's answer. */
  function EmittedAnswer(fin: Finishing, stored: Result): Response {
    Response(
      stored.(disposition := fin.disposition), EvidencePage(fin.artifact.evidence, 0, MAX_PAGE), Some(RefOf(fin.artifact)),
      fin.artifact.cost, fin.reply.asked)
  }

  lemma EmittedAnswerFits(claimed: map<Id, nat>, committed: map<Id, nat>, start: Pc, h: nat, fin: Finishing, stored: Result)
    requires fin.reply.asked == AskedBy(start) && DispositionOk(claimed, h, fin)
    requires stored.invocationId == fin.record.invocationId && Won(committed, fin.record.invocationId, h)
    ensures AnswerFits(claimed, committed, start, h, EmittedAnswer(fin, stored))
  {
    hide EvidencePage, ExactPage;
    PageIsExact(fin.artifact.evidence, 0, MAX_PAGE);
  }

  lemma EmitStep(w: World, h: nat, fin: Finishing, stored: Result, c: Choice)
    ensures var o := FinishStep(w, h, Emit(fin, stored), c);
      o.world.log.claimed == w.log.claimed && o.world.log.committed == w.log.committed && o.pc == Answer(EmittedAnswer(fin, stored))
  {
    hide EvidencePage, E.Finish, E.CanFinish, Writable, TerminalWithSessionRef;
  }

  lemma EmitStanding(w: World, h: nat, start: Pc, fin: Finishing, stored: Result, c: Choice)
    requires HandlerOk(w, h, Emit(fin, stored)) && Standing(w.log.claimed, w.log.committed, start, h, Emit(fin, stored))
    ensures OutcomeStands(FinishStep(w, h, Emit(fin, stored), c), start, h)
  {
    hide AnswerFits, FinishStep, EmittedAnswer, HandlerOk, Standing;
    EmitStep(w, h, fin, stored, c);
    EmitFacts(w, h, start, fin, stored);
    EmittedAnswerFits(w.log.claimed, w.log.committed, start, h, fin, stored);
    AnswerStands(w.log.claimed, w.log.committed, start, h, EmittedAnswer(fin, stored));
  }

  lemma EmitFacts(w: World, h: nat, start: Pc, fin: Finishing, stored: Result)
    requires HandlerOk(w, h, Emit(fin, stored)) && Standing(w.log.claimed, w.log.committed, start, h, Emit(fin, stored))
    ensures stored.invocationId == fin.record.invocationId && Won(w.log.committed, fin.record.invocationId, h)
    ensures fin.reply.asked == AskedBy(start) && DispositionOk(w.log.claimed, h, fin)
  {
  }

  lemma AnswerStands(claimed: map<Id, nat>, committed: map<Id, nat>, start: Pc, h: nat, r: Response)
    requires AnswerFits(claimed, committed, start, h, r)
    ensures Standing(claimed, committed, start, h, Answer(r))
  {
    hide AnswerFits;
  }

  lemma ProvisionStanding(w: World, h: nat, start: Pc, pc: Pc, c: Choice)
    requires Standing(w.log.claimed, w.log.committed, start, h, pc)
    requires pc.ProvisionLookup? || pc.ProvisionInsert? || pc.Restore? || pc.Restoring? || pc.SetReady? || pc.SetFailed?
    ensures OutcomeStands(ProvisionStep(w, h, pc, c), start, h)
  {
    hide AnswerFits, ProvisionStep, AskedBy;
    ProvisionShape(w, h, pc, c);
  }

  predicate Provisions(pc: Pc) {
    pc.ProvisionLookup? || pc.ProvisionInsert? || pc.Restore? || pc.Restoring? || pc.SetReady? || pc.SetFailed?
  }

  lemma ProvisionShape(w: World, h: nat, pc: Pc, c: Choice)
    requires Provisions(pc)
    ensures var o := ProvisionStep(w, h, pc, c);
      && o.world.log.claimed == w.log.claimed && o.world.log.committed == w.log.committed
      && (o.pc == Done || Provisions(o.pc))
  {
    hide R.Insert, R.MarkReady, R.MarkFailed, R.Owned, ProvisionReservation;
  }

  lemma EndStanding(w: World, h: nat, start: Pc, pc: Pc, c: Choice)
    requires Standing(w.log.claimed, w.log.committed, start, h, pc) && (pc.Answer? || pc.Done?)
    ensures OutcomeStands(Advance(w, h, pc, c), start, h)
  {
    hide ReserveStep, ClaimStep, InvokeStep, ReadStep, FinishStep, ProvisionStep, AnswerFits;
  }

  lemma OwnStanding(w: World, h: nat, start: Pc, pc: Pc, c: Choice)
    requires WorldOk(w) && HandlerOk(w, h, pc) && Standing(w.log.claimed, w.log.committed, start, h, pc)
    ensures OutcomeStands(Advance(w, h, pc, c), start, h)
  {
    hide WorldOk, HandlerOk, Standing, OutcomeStands, ReserveStep, ClaimStep, InvokeStep, ReadStep, FinishStep, ProvisionStep;
    match pc
    case ReserveLookup(_) | ReserveInsert(_) | ReserveReload(_) => ReserveStanding(w, h, start, pc);
    case ClaimLookup(_) | ClaimInsert(_) | ClaimReload(_) | ClaimReloadByKey(_) => ClaimStanding(w, h, start, pc);
    case Invoke(_, _) | Invoked(_, _) => InvokeStanding(w, h, start, pc, c);
    case StatusLookup(_, _, _, _) | CancelLookup(_, _, _) | Reload(_, _) => LookupStanding(w, h, start, pc, c);
    case CancelRuntime(_, _, _) | Resolve(_, _) => ResolveStanding(w, h, start, pc, c);
    case ReadArtifact(r, reply) => ReadArtifactStanding(w, h, start, r, reply, c);
    case Put(_) | PutReload(_) => PutStanding(w, h, start, pc, c);
    case Commit(fin) => CommitStanding(w, h, start, fin, c);
    case Emit(fin, stored) => EmitStanding(w, h, start, fin, stored, c);
    case ProvisionLookup(_) | ProvisionInsert(_) | Restore(_) | Restoring(_) | SetReady(_) | SetFailed(_, _) =>
      ProvisionStanding(w, h, start, pc, c);
    case Answer(_) | Done => EndStanding(w, h, start, pc, c);
  }

  /** A step of another handler changes nothing about what one has won. */
  lemma StandingStable(log: Log, log': Log, start: Pc, h: nat, other: nat, pc: Pc)
    requires WinnersBy(log.claimed, log'.claimed, h) && WinnersBy(log.committed, log'.committed, h) && other != h
    ensures Standing(log.claimed, log.committed, start, other, pc) ==> Standing(log'.claimed, log'.committed, start, other, pc)
    ensures forall r | AnswerFits(log.claimed, log.committed, start, other, r) :: AnswerFits(log'.claimed, log'.committed, start, other, r)
  {
    hide ExactPage;
  }

  // ---------- Every run ----------

  lemma StepKeepsStandings(s: State, h: nat, c: Choice)
    requires Inv(s) && AnswersInv(s) && h in s.handlers
    ensures var s' := Apply(s, Step(h, c)); StandingsOk(s') && WinnersKnown(s')
  {
    hide WorldOk, HandlerOk, Standing, Advance;
    var o := Advance(s.world, h, s.handlers[h], c);
    AdvanceWinners(s.world, h, s.handlers[h], c);
    OwnStanding(s.world, h, s.asks[h], s.handlers[h], c);
    forall other | other in s.handlers && other != h ensures Standing(o.world.log.claimed, o.world.log.committed, s.asks[other], other, s.handlers[other]) {
      StandingStable(s.world.log, o.world.log, s.asks[other], h, other, s.handlers[other]);
    }
  }

  lemma StepKeepsGiven(s: State, h: nat, c: Choice)
    requires Inv(s) && AnswersInv(s) && h in s.handlers
    ensures GivenOk(Apply(s, Step(h, c)))
  {
    hide WorldOk, HandlerOk, AnswerFits;
    var pc := s.handlers[h];
    var o := Advance(s.world, h, pc, c);
    AdvanceWinners(s.world, h, pc, c);
    GivenStep(s.world, h, pc, c);
    forall g | g in o.world.log.given
      ensures g.handler in s.handlers && g.handler in s.asks && s.handlers[h := o.pc][g.handler] == Done
      ensures g.response in o.world.log.responses && AnswerFits(o.world.log.claimed, o.world.log.committed, s.asks[g.handler], g.handler, g.response)
    {
      if g in s.world.log.given {
        if g.handler != h {
          StandingStable(s.world.log, o.world.log, s.asks[g.handler], h, g.handler, Done);
        }
      } else {
        NewAnswer(s.world, h, s.asks[h], pc, c, g);
      }
    }
  }

  /** Answers on record stay on record, and a handler that has stopped changes nothing. */
  lemma GivenStep(w: World, h: nat, pc: Pc, c: Choice)
    requires WorldOk(w) && HandlerOk(w, h, pc)
    ensures var o := Advance(w, h, pc, c);
      && w.log.responses <= o.world.log.responses && (pc == Done ==> o == Outcome(w, Done))
  {
    hide WorldOk, HandlerOk, StepOk;
    AdvanceOk(w, h, pc, c);
    StepGrows(w, h, Advance(w, h, pc, c));
  }

  lemma NewAnswer(w: World, h: nat, start: Pc, pc: Pc, c: Choice, g: Given)
    requires Standing(w.log.claimed, w.log.committed, start, h, pc) && g in Advance(w, h, pc, c).world.log.given && g !in w.log.given
    requires pc.Answer?
    ensures var o := Advance(w, h, pc, c);
      && g.handler == h && o.pc == Done && g.response in o.world.log.responses && AnswerFits(o.world.log.claimed, o.world.log.committed, start, h, g.response)
  {
  }

  lemma CancelsStable(s: State, s': State)
    requires CancelsAsked(s) && s'.world.log.cancels == s.world.log.cancels
    requires RowsGrow(s.world.executions.rows, s'.world.executions.rows)
    requires forall h | h in s.asks :: h in s'.asks && s'.asks[h] == s.asks[h]
    ensures CancelsAsked(s')
  {
    forall c | c in s'.world.log.cancels ensures CancelAsked(s'.world.executions.rows, s'.asks, c) {
      var h, owner :| h in s.asks && s.asks[h] == CancelLookup(c.invocationId, owner, c.reason)
        && c.invocationId in s.world.executions.rows && s.world.executions.rows[c.invocationId].owner == owner;
      assert s'.asks[h] == CancelLookup(c.invocationId, owner, c.reason);
    }
  }

  lemma StepKeepsCancels(s: State, h: nat, c: Choice)
    requires Inv(s) && AnswersInv(s) && h in s.handlers
    ensures CancelsAsked(Apply(s, Step(h, c)))
  {
    hide WorldOk, StepOk, Advance, CancelsAsked;
    var pc := s.handlers[h];
    AdvanceOk(s.world, h, pc, c);
    StepGrows(s.world, h, Advance(s.world, h, pc, c));
    AdvanceWinners(s.world, h, pc, c);
    var s' := Apply(s, Step(h, c));
    if s'.world.log.cancels == s.world.log.cancels { CancelsStable(s, s'); } else { NewCancel(s, h, c); }
  }

  lemma NewCancel(s: State, h: nat, c: Choice)
    requires Inv(s) && AnswersInv(s) && h in s.handlers && s.handlers[h].CancelRuntime?
    ensures CancelsAsked(Apply(s, Step(h, c)))
  {
    hide WorldOk, Candidate;
    var r, reason := s.handlers[h].record, s.handlers[h].reason;
    assert HandlerOk(s.world, h, s.handlers[h]) && Standing(s.world.log.claimed, s.world.log.committed, s.asks[h], h, s.handlers[h]);
    assert s.asks[h] == CancelLookup(r.invocationId, r.owner, reason);
    assert s.world.executions.rows[r.invocationId].owner == r.owner;
    assert CancelAsked(s.world.executions.rows, s.asks, Cancellation(r.invocationId, reason));
  }

  lemma SpawnStandings(s: State, h: nat, pc: Pc)
    requires StandingsOk(s) && WinnersKnown(s) && h !in s.handlers && Starting(s.world, pc)
    ensures StandingsOk(Apply(s, Spawn(h, pc))) && WinnersKnown(Apply(s, Spawn(h, pc)))
  {
    hide Standing;
    StartStands(s.world.log, h, pc);
  }

  lemma SpawnGiven(s: State, h: nat, pc: Pc)
    requires GivenOk(s) && h !in s.handlers
    ensures GivenOk(Apply(s, Spawn(h, pc)))
  {
    hide AnswerFits;
  }

  lemma SpawnKeeps(s: State, h: nat, pc: Pc)
    requires AnswersInv(s) && h !in s.handlers && Starting(s.world, pc)
    ensures AnswersInv(Apply(s, Spawn(h, pc)))
  {
    hide StandingsOk, WinnersKnown, GivenOk, CancelsAsked;
    HandlersAsk(s);
    CancelsStable(s, Apply(s, Spawn(h, pc)));
    SpawnStandings(s, h, pc);
    SpawnGiven(s, h, pc);
  }

  lemma HandlersAsk(s: State)
    requires StandingsOk(s)
    ensures s.handlers.Keys == s.asks.Keys
    ensures forall h | h in s.asks :: h in s.handlers
  {
  }

  lemma CrashStandings(s: State, h: nat)
    requires StandingsOk(s) && WinnersKnown(s)
    ensures StandingsOk(Apply(s, Crash(h))) && WinnersKnown(Apply(s, Crash(h)))
  {
    hide AnswerFits, FromStart, Early, DispositionOk;
    DoneStands();
  }

  lemma CrashGiven(s: State, h: nat)
    requires GivenOk(s)
    ensures GivenOk(Apply(s, Crash(h)))
  {
    hide AnswerFits;
  }

  lemma CrashKeeps(s: State, h: nat)
    requires AnswersInv(s)
    ensures AnswersInv(Apply(s, Crash(h)))
  {
    hide StandingsOk, WinnersKnown, GivenOk, CancelsAsked;
    CancelsStable(s, Apply(s, Crash(h)));
    CrashStandings(s, h);
    CrashGiven(s, h);
  }

  lemma DoneStands()
    ensures !Early(Done) && forall start :: FromStart(start, Done)
  {
  }

  lemma OperatorKeeps(s: State, a: Action)
    requires AnswersInv(s) && (a.Tick? || a.Seed?)
    ensures AnswersInv(Apply(s, a))
  {
    hide AnswerFits, CancelsAsked, Standing, R.Seed;
    CancelsStable(s, Apply(s, a));
  }

  lemma QuietKeeps(s: State, a: Action)
    requires AnswersInv(s) && !a.Step?
    ensures AnswersInv(Apply(s, a))
  {
    hide AnswersInv;
    match a
    case Spawn(h, pc) => if h !in s.handlers && Starting(s.world, pc) { SpawnKeeps(s, h, pc); }
    case Crash(h) => CrashKeeps(s, h);
    case _ => OperatorKeeps(s, a);
  }

  lemma StartStands(log: Log, h: nat, pc: Pc)
    requires NoWin(log.claimed, h) && NoWin(log.committed, h)
    requires pc.ReserveLookup? || pc.StatusLookup? || pc.CancelLookup? || pc.ProvisionLookup?
    ensures Standing(log.claimed, log.committed, pc, h, pc)
  {
  }

  lemma {:induction false} RunAnswers(acts: seq<Action>)
    ensures AnswersInv(Run(acts))
  {
    hide Inv, StandingsOk, WinnersKnown, GivenOk, CancelsAsked, Apply;
    if acts == [] {
      NothingAsked();
    } else {
      var s, a := Run(acts[..|acts| - 1]), acts[|acts| - 1];
      RunAnswers(acts[..|acts| - 1]);
      RunOk(acts[..|acts| - 1]);
      if a.Step? {
        StepKeeps(s, a.h, a.choice);
      } else {
        QuietKeeps(s, a);
      }
    }
  }

  lemma StepKeeps(s: State, h: nat, c: Choice)
    requires Inv(s) && AnswersInv(s)
    ensures AnswersInv(Apply(s, Step(h, c)))
  {
    hide Inv, StandingsOk, WinnersKnown, GivenOk, CancelsAsked;
    if h in s.handlers {
      hide Apply;
      StepKeepsStandings(s, h, c);
      StepKeepsGiven(s, h, c);
      StepKeepsCancels(s, h, c);
    }
  }

  lemma NothingAsked()
    ensures AnswersInv(INIT)
  {
  }

  // ---------- What every caller gets ----------

  /** The answer is for the invocation, and to the owner, that the call named. */
  ghost predicate For(w: World, r: Response, id: Id, owner: Owner) {
    r.result.invocationId == id && id in w.executions.rows && w.executions.rows[id].owner == owner
  }

  /** What an answer owes to the call that started its handler. */
  ghost predicate Answers(s: State, start: Pc, h: nat, r: Response)
    requires r.ref.Some?
  {
    var w, e := s.world, EvidenceOf(r);
    match start
    case StatusLookup(id, owner, after, limit) =>
      && For(w, r, id, owner)
      && (Won(w.log.committed, id, h) ==> ExactPage(r.page, e, 0, 100))
      && (!Won(w.log.committed, id, h) ==> ExactPage(r.page, e, after, limit))
    case ReserveLookup(job) =>
      && For(w, r, job.request.invocationId, job.owner)
      && w.executions.rows[job.request.invocationId].requestHash.of == job.request
      && ExactPage(r.page, e, 0, 100)
    case CancelLookup(id, owner, _) => For(w, r, id, owner) && ExactPage(r.page, e, 0, 100)
    case _ => true
  }

  /** Every answer belongs to the call that started its handler. A status call is answered from its own cursor with its own
      limit, unless its handler is the one that committed the row; that one, and every execute and cancel call, is
      answered from the start with the first hundred events. An answer says `created` exactly to the caller whose claim
      and commit both won. */
  lemma AnswersPageAsAsked(acts: seq<Action>, h: nat, r: Response)
    requires Given(h, r) in Run(acts).world.log.given
    ensures r.ref.Some? && h in Run(acts).asks && Answers(Run(acts), Run(acts).asks[h], h, r)
    ensures r.result.disposition == Created <==>
      Won(Run(acts).world.log.claimed, r.result.invocationId, h) && Won(Run(acts).world.log.committed, r.result.invocationId, h)
  {
    hide Run, WorldOk, HandlersOk, ExactPage, Authored, StandingsOk, WinnersKnown, CancelsAsked;
    RunOk(acts);
    RunAnswers(acts);
    var s := Run(acts);
    assert Given(h, r).response == r && Given(h, r).handler == h;
    AnswerSource(s.world, r);
    assert AnswerFits(s.world.log.claimed, s.world.log.committed, s.asks[h], h, r);
    assert Fits(s.world.executions.rows[r.result.invocationId], r.asked);
  }

  /** A cancelled answer carries the reason that the row's owner gave in a cancel call. */
  lemma CancellationsAreAsked(acts: seq<Action>, c: Cancellation)
    requires c in Run(acts).world.log.cancels
    ensures CancelAsked(Run(acts).world.executions.rows, Run(acts).asks, c)
  {
    hide Run, StandingsOk, WinnersKnown, GivenOk;
    RunAnswers(acts);
  }

  // ---------- Following the pages ----------

  function Joined(rs: seq<Response>): seq<Event> {
    if rs == [] then [] else Joined(rs[..|rs| - 1]) + rs[|rs| - 1].page.events
  }

  /** Status answers for one invocation, each asked for where the one before it left off, until nothing is left. */
  ghost predicate Followed(s: State, gs: seq<Given>, id: Id) {
    && gs != []
    && (forall i | 0 <= i < |gs| ::
         && gs[i] in s.world.log.given && gs[i].handler in s.asks && s.asks[gs[i].handler].StatusLookup?
         && !Won(s.world.log.committed, id, gs[i].handler)
         && gs[i].response.result.invocationId == id)
    && s.asks[gs[0].handler].after == 0
    && (forall i | 0 <= i < |gs| - 1 :: gs[i].response.page.next == Some(s.asks[gs[i + 1].handler].after))
    && gs[|gs| - 1].response.page.next.None?
  }

  function ResponsesOf(gs: seq<Given>): (rs: seq<Response>)
    ensures |rs| == |gs| && forall i | 0 <= i < |gs| :: rs[i] == gs[i].response
  {
    seq(|gs|, i requires 0 <= i < |gs| => gs[i].response)
  }

  ghost predicate SomePage(page: Page, e: seq<Event>) {
    exists limit :: ExactPage(page, e, page.from, limit)
  }

  /** Pages of one evidence, each starting where the one before it ended. */
  ghost predicate Consecutive(rs: seq<Response>, e: seq<Event>) {
    && (forall i | 0 <= i < |rs| :: SomePage(rs[i].page, e))
    && (rs != [] ==> rs[0].page.from == 0)
    && (forall i | 0 <= i < |rs| - 1 :: rs[i].page.next == Some(rs[i + 1].page.from))
  }

  lemma PageFacts(page: Page, e: seq<Event>)
    requires SomePage(page, e) && page.from <= |e|
    ensures page.from + |page.events| <= |e|
    ensures e[..page.from] + page.events == e[..page.from + |page.events|]
    ensures page.next.Some? ==> page.next.value == page.from + |page.events|
  {
    var limit :| ExactPage(page, e, page.from, limit);
  }

  lemma {:induction false} ConsecutivePages(rs: seq<Response>, e: seq<Event>)
    requires Consecutive(rs, e) && rs != []
    ensures var last := rs[|rs| - 1].page;
      && last.from <= |e| && last.from + |last.events| <= |e| && Joined(rs) == e[..last.from + |last.events|]
    decreases |rs|
  {
    hide SomePage;
    var n := |rs| - 1;
    var last := rs[n].page;
    if n == 0 {
      assert rs[..0] == [] && Joined([]) == [];
      assert e[..0] == [];
    } else {
      var before := rs[..n];
      assert forall i | 0 <= i < n :: before[i] == rs[i];
      ConsecutivePages(before, e);
      assert rs[n - 1].page.next == Some(rs[n].page.from);
      PageFacts(rs[n - 1].page, e);
    }
    PageFacts(last, e);
  }

  /** A client that follows `next` from 0 over successive status answers assembles exactly the committed evidence,
      whatever the limits it sends. */
  lemma FollowedAnswersRebuildEvidence(acts: seq<Action>, gs: seq<Given>, id: Id)
    requires Followed(Run(acts), gs, id)
    ensures gs[0].response.ref.Some? && Joined(ResponsesOf(gs)) == EvidenceOf(gs[0].response)
  {
    hide Run, ExactPage, Agree, For;
    var s, rs := Run(acts), ResponsesOf(gs);
    AnswersPageAsAsked(acts, gs[0].handler, gs[0].response);
    var e := EvidenceOf(gs[0].response);
    forall i | 0 <= i < |gs| ensures ExactPage(rs[i].page, e, s.asks[gs[i].handler].after, s.asks[gs[i].handler].limit) {
      assert gs[i] == Given(gs[i].handler, gs[i].response);
      AnswersPageAsAsked(acts, gs[i].handler, gs[i].response);
      OneEvidence(acts, gs[0], gs[i]);
      OwnId(acts, gs[i], id);
    }
    ChainIsConsecutive(s, gs, id, e);
    ConsecutivePages(rs, e);
    LastPage(rs[|rs| - 1].page, e, s.asks[gs[|gs| - 1].handler].after, s.asks[gs[|gs| - 1].handler].limit);
  }

  lemma OwnId(acts: seq<Action>, g: Given, id: Id)
    requires g in Run(acts).world.log.given && g.handler in Run(acts).asks && Run(acts).asks[g.handler].StatusLookup?
    requires g.response.result.invocationId == id
    ensures Run(acts).asks[g.handler].id == id
  {
    hide Run, ExactPage;
    assert g == Given(g.handler, g.response);
    AnswersPageAsAsked(acts, g.handler, g.response);
  }

  lemma OneEvidence(acts: seq<Action>, a: Given, b: Given)
    requires a in Run(acts).world.log.given && b in Run(acts).world.log.given
    requires a.response.result.invocationId == b.response.result.invocationId
    ensures a.response.ref.Some? && b.response.ref == a.response.ref
  {
    hide Run, StandingsOk, WinnersKnown, CancelsAsked, AnswerFits;
    RunAnswers(acts);
    Agreement(acts, a.response, b.response);
  }

  lemma ChainIsConsecutive(s: State, gs: seq<Given>, id: Id, e: seq<Event>)
    requires Followed(s, gs, id)
    requires forall i | 0 <= i < |gs| ::
      ExactPage(gs[i].response.page, e, s.asks[gs[i].handler].after, s.asks[gs[i].handler].limit)
    ensures Consecutive(ResponsesOf(gs), e)
  {
    var rs := ResponsesOf(gs);
    forall i | 0 <= i < |gs| ensures rs[i].page.from == s.asks[gs[i].handler].after && SomePage(rs[i].page, e) {
      assert ExactPage(gs[i].response.page, e, s.asks[gs[i].handler].after, s.asks[gs[i].handler].limit);
      assert ExactPage(rs[i].page, e, rs[i].page.from, s.asks[gs[i].handler].limit);
    }
    assert rs[0].page.from == 0;
    forall i | 0 <= i < |rs| - 1 ensures rs[i].page.next == Some(rs[i + 1].page.from) {
      assert gs[i].response.page.next == Some(s.asks[gs[i + 1].handler].after);
    }
  }

  lemma LastPage(page: Page, e: seq<Event>, after: nat, limit: nat)
    requires ExactPage(page, e, after, limit) && page.next.None? && page.from + |page.events| <= |e|
    ensures e[..page.from + |page.events|] == e
  {
  }
}
