/** The store operations, undisturbed, are what the protocol's steps make of them. */
module ProtocolStores {
  import opened Managed
  import opened Artifacts
  import opened Protocol
  import E = Executions

  predicate Claiming(pc: Pc) {
    pc.ClaimLookup? || pc.ClaimInsert? || pc.ClaimReload? || pc.ClaimReloadByKey?
  }

  predicate Writing(pc: Pc) {
    pc.Put? || pc.PutReload?
  }

  /** One handler's steps through a claim or a write, with nothing in between. */
  function Undisturbed(w: World, h: nat, pc: Pc, c: Choice, n: nat): Outcome
    decreases n
  {
    if n == 0 || !(Claiming(pc) || Writing(pc)) then Outcome(w, pc)
    else
      var o := Advance(w, h, pc, c);
      Undisturbed(o.world, h, o.pc, c, n - 1)
  }

  /** Where the protocol goes after a claim. */
  function AfterStoreClaim(job: Job, claim: E.Claim): Pc {
    match claim
    case Created(record) => Invoke(job, record)
    case Reuse(record) => Resolve(record, ExecuteReply(job))
    case _ => Done
  }

  /** The four claim steps are the store's claim: a creation goes on to the runtime, an exact reuse to the record's
      answer, a conflict or a missing reservation stops. */
  lemma ClaimStepsAreTheClaim(w: World, h: nat, job: Job, c: Choice)
    ensures var o := Undisturbed(w, h, ClaimLookup(job), c, 4);
      var claimed := E.SequentialClaim(w.executions, w.reservations, ClaimInputOf(job));
      && o.world.executions == claimed.table && o.world.reservations == w.reservations && o.world.objects == w.objects
      && o.pc == AfterStoreClaim(job, claimed.claim)
  {
    hide E.Insert, E.Exact, E.Get, E.GetByKey, ClaimInputOf, ExecuteReply, E.RecordFromClaim, Undisturbed;
    var input := ClaimInputOf(job);
    ClaimInputFacts(job);
    Again(w, h, ClaimLookup(job), c, 4);
    if E.Get(w.executions, input.invocationId, job.owner).None? {
      Again(w, h, ClaimInsert(job), c, 3);
      if E.Insert(w.executions, w.reservations, input).Skipped? { ReloadSteps(w, h, job, c); }
    }
  }

  /** The two reads after an ignored insert; the first finds nothing, as before the insert. */
  lemma ReloadSteps(w: World, h: nat, job: Job, c: Choice)
    requires E.Get(w.executions, ClaimInputOf(job).invocationId, job.owner).None?
    ensures Undisturbed(w, h, ClaimReload(job), c, 2) == ClaimStep(w, h, ClaimReloadByKey(job))
  {
    hide E.Insert, E.Exact, E.Get, E.GetByKey, ClaimInputOf, ExecuteReply, Undisturbed;
    Again(w, h, ClaimReload(job), c, 2);
    Again(w, h, ClaimReloadByKey(job), c, 1);
  }

  /** One more step, and where the steps stop. */
  lemma Again(w: World, h: nat, pc: Pc, c: Choice, n: nat)
    requires n > 0 && (Claiming(pc) || Writing(pc))
    ensures var o := Advance(w, h, pc, c);
      && Undisturbed(w, h, pc, c, n) == Undisturbed(o.world, h, o.pc, c, n - 1)
      && (n == 1 || !(Claiming(o.pc) || Writing(o.pc)) ==> Undisturbed(w, h, pc, c, n) == o)
  {
    hide Advance;
  }

  lemma ClaimInputFacts(job: Job)
    ensures ClaimInputOf(job).owner == job.owner
  {
  }

  /** The put, and the read if it lost, are the store's write: its own object or the winner's goes on to the commit. */
  lemma WriteStepsAreTheWrite(w: World, h: nat, fin: Finishing, c: Choice)
    ensures var o := Undisturbed(w, h, Put(fin), c, 2);
      var put := SequentialWrite(w.objects, fin.artifact);
      && o.world == w.(objects := put.objects)
      && o.pc == match put.written
                 case Rejected => Done
                 case Stored(_) => Commit(fin)
                 case Conflict(_, existing) => Commit(fin.(artifact := existing))
  {
    hide Writable, KeyOf, RefOf, Undisturbed, E.CanFinish, E.Finish, TerminalWithSessionRef, EvidencePage;
    Again(w, h, Put(fin), c, 2);
    if Writable(fin.artifact) && KeyOf(fin.artifact) in w.objects { Again(w, h, PutReload(fin), c, 1); }
  }
}
