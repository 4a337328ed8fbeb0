/** Wait-freedom: a status read after the lease, or a cancel, gives its own answer whatever the other handlers do. */
module ProtocolProgress {
  import opened Managed
  import opened Artifacts
  import opened Protocol
  import opened ProtocolSafety
  import opened ProtocolTheorems
  import E = Executions

  /** Handler `h` itself has given a terminal answer for the invocation. */
  ghost predicate AnsweredBy(w: World, h: nat, id: Id) {
    exists r :: Given(h, r) in w.log.given && r in w.log.responses && r.result.invocationId == id
  }

  /** The handler is past the point where anything but its own crash could stop it from answering for `id`. */
  predicate OnTrack(w: World, pc: Pc, id: Id) {
    match pc
    case StatusLookup(i, owner, _, _) =>
      && i == id && id in w.executions.rows && w.executions.rows[id].owner == owner
      && (w.executions.rows[id].status != Running || w.executions.rows[id].leaseExpiresAt <= w.now)
    case CancelLookup(i, owner, _) => i == id && id in w.executions.rows && w.executions.rows[id].owner == owner
    case CancelRuntime(r, _, _) => r.invocationId == id
    case Resolve(r, _) => r.invocationId == id && (r.status != Running || r.leaseExpiresAt <= w.now)
    case Put(fin) => fin.record.invocationId == id && Writable(fin.artifact)
    case PutReload(fin) => fin.record.invocationId == id
    case Commit(fin) => fin.record.invocationId == id
    case Emit(fin, _) => fin.record.invocationId == id
    case Reload(r, _) => r.invocationId == id
    case ReadArtifact(r, _) => r.invocationId == id
    case Answer(r) => r.result.invocationId == id
    case _ => false
  }

  /** The call does not throw, and the artifact a status or cancel handler builds fits in the bucket. */
  predicate Smooth(c: Choice) {
    c.ok && c.bytes <= MAX_ARTIFACT_BYTES
  }

  lemma TrackStable(w: World, w': World, pc: Pc, id: Id)
    requires Extends(w, w') && OnTrack(w, pc, id)
    ensures OnTrack(w', pc, id)
  {
  }

  lemma AnsweredStable(w: World, w': World, h: nat, id: Id)
    requires Extends(w, w') && AnsweredBy(w, h, id)
    ensures AnsweredBy(w', h, id)
  {
    var r :| Given(h, r) in w.log.given && r in w.log.responses && r.result.invocationId == id;
    assert Given(h, r) in w'.log.given && r in w'.log.responses;
  }

  lemma LookupTracks(w: World, h: nat, pc: Pc, c: Choice, id: Id)
    requires WorldOk(w) && HandlerOk(w, h, pc) && OnTrack(w, pc, id) && Smooth(c)
    requires pc.StatusLookup? || pc.CancelLookup? || pc.Reload?
    ensures OnTrack(ReadStep(w, pc, c).world, ReadStep(w, pc, c).pc, id)
  {
    hide WorldOk, HandlerOk, StepOk, RecordOk, Writable;
    LookupStepOk(w, h, pc, c);
    match pc
    case StatusLookup(i, owner, _, _) => LookupOk(w, i, owner);
    case CancelLookup(i, owner, _) => LookupOk(w, i, owner);
    case Reload(r, _) => LookupOk(w, r.invocationId, r.owner);
  }

  lemma ResolveTracks(w: World, pc: Pc, c: Choice, id: Id)
    requires OnTrack(w, pc, id) && Smooth(c)
    requires pc.CancelRuntime? || pc.Resolve?
    ensures OnTrack(ReadStep(w, pc, c).world, ReadStep(w, pc, c).pc, id)
  {
    hide E.Get, ReadObject, TerminalWithSessionRef, EvidencePage;
  }

  lemma ReadTracks(w: World, h: nat, r: E.Record, reply: Reply, c: Choice, id: Id)
    requires WorldOk(w) && HandlerOk(w, h, ReadArtifact(r, reply)) && r.invocationId == id
    ensures OnTrack(ReadStep(w, ReadArtifact(r, reply), c).world, ReadStep(w, ReadArtifact(r, reply), c).pc, id)
  {
    hide WorldOk, EvidencePage, TerminalWithSessionRef, E.Get;
    CommittedObject(w, r);
    StoredResult(r, w.objects[KeyOfRow(r)]);
  }

  lemma FinishTracks(w: World, h: nat, pc: Pc, c: Choice, id: Id)
    requires WorldOk(w) && HandlerOk(w, h, pc) && OnTrack(w, pc, id)
    requires pc.Put? || pc.PutReload? || pc.Commit? || pc.Emit?
    ensures OnTrack(FinishStep(w, h, pc, c).world, FinishStep(w, h, pc, c).pc, id)
  {
    hide WorldOk, EvidencePage, TerminalWithSessionRef, E.CanFinish, E.Finish;
    if pc.Commit? { StoredResult(pc.fin.record, pc.fin.artifact); }
  }

  lemma OwnStepTracks(w: World, h: nat, pc: Pc, c: Choice, id: Id)
    requires WorldOk(w) && HandlerOk(w, h, pc) && OnTrack(w, pc, id) && Smooth(c)
    ensures var o := Advance(w, h, pc, c); OnTrack(o.world, o.pc, id) || AnsweredBy(o.world, h, id)
  {
    hide WorldOk, HandlerOk;
    match pc
    case StatusLookup(_, _, _, _) | CancelLookup(_, _, _) | Reload(_, _) => LookupTracks(w, h, pc, c, id);
    case CancelRuntime(_, _, _) | Resolve(_, _) => ResolveTracks(w, pc, c, id);
    case ReadArtifact(r, reply) => ReadTracks(w, h, r, reply, c, id);
    case Put(_) | PutReload(_) | Commit(_) | Emit(_, _) => FinishTracks(w, h, pc, c, id);
    case Answer(r) =>
      assert Given(h, r) in Advance(w, h, pc, c).world.log.given && r in Advance(w, h, pc, c).world.log.responses;
    case _ =>
  }

  /** `h` neither crashes nor sees a failing call in these actions. */
  predicate Undisturbed(acts: seq<Action>, h: nat) {
    forall i | 0 <= i < |acts| ::
      && acts[i] != Crash(h)
      && (acts[i].Step? && acts[i].h == h ==> Smooth(acts[i].choice))
  }

  lemma ActionTracks(s: State, a: Action, h: nat, id: Id)
    requires Inv(s) && h in s.handlers && Undisturbed([a], h)
    requires AnsweredBy(s.world, h, id) || OnTrack(s.world, s.handlers[h], id)
    ensures h in Apply(s, a).handlers
    ensures AnsweredBy(Apply(s, a).world, h, id) || OnTrack(Apply(s, a).world, Apply(s, a).handlers[h], id)
  {
    hide WorldOk, HandlerOk, OnTrack, Advance;
    ApplyOk(s, a);
    assert [a][0] == a;
    if AnsweredBy(s.world, h, id) {
      AnsweredStable(s.world, Apply(s, a).world, h, id);
    } else if a.Step? && a.h == h {
      OwnStepTracks(s.world, h, s.handlers[h], a.choice, id);
    } else {
      TrackStable(s.world, Apply(s, a).world, s.handlers[h], id);
    }
  }

  lemma {:induction false} RunTracks(acts: seq<Action>, more: seq<Action>, h: nat, id: Id)
    requires h in Run(acts).handlers && OnTrack(Run(acts).world, Run(acts).handlers[h], id) && Undisturbed(more, h)
    ensures h in Run(acts + more).handlers
    ensures AnsweredBy(Run(acts + more).world, h, id) || OnTrack(Run(acts + more).world, Run(acts + more).handlers[h], id)
  {
    hide WorldOk, HandlerOk, OnTrack, Apply;
    if more == [] {
      assert acts + more == acts;
    } else {
      var shorter, last := more[..|more| - 1], more[|more| - 1];
      RunTracks(acts, shorter, h, id);
      assert (acts + more)[..|acts + more| - 1] == acts + shorter;
      RunOk(acts + shorter);
      ActionTracks(Run(acts + shorter), last, h, id);
    }
  }

  /** From any reachable state, after nine undisturbed steps of its own a tracked handler has itself given a terminal
      answer for the invocation, in every interleaving with every other handler. */
  lemma TrackedHandlersAnswer(acts: seq<Action>, more: seq<Action>, h: nat, id: Id)
    requires h in Run(acts).handlers && OnTrack(Run(acts).world, Run(acts).handlers[h], id)
    requires Undisturbed(more, h) && StepsOf(more, h) >= 9
    ensures AnsweredBy(Run(acts + more).world, h, id)
  {
    hide Run, Rank, StepsOf, OnTrack, AnsweredBy, Undisturbed;
    RunTracks(acts, more, h, id);
    RankBoundsSteps(acts, more, h);
    TrackRange(Run(acts).world, Run(acts).handlers[h], id);
    TrackRange(Run(acts + more).world, Run(acts + more).handlers[h], id);
  }

  lemma TrackRange(w: World, pc: Pc, id: Id)
    ensures OnTrack(w, pc, id) ==> pc != Done && 1 <= Rank(pc) <= 9
  {
  }
}
