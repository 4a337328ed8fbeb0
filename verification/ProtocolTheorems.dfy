/** What the protocol guarantees of every run: of every sequence of handler steps, crashes, restarts and clock ticks. */
module ProtocolTheorems {
  import opened Managed
  import opened Artifacts
  import opened Protocol
  import opened ProtocolSafety
  import E = Executions
  import R = Reservations

  // ---------- The invariant holds in every reachable state ----------

  ghost predicate HandlersOk(s: State) {
    forall h | h in s.handlers :: HandlerOk(s.world, h, s.handlers[h])
  }

  ghost predicate Inv(s: State) {
    WorldOk(s.world) && HandlersOk(s)
  }

  /** The part of `Grows` that is transitive over the steps of different handlers. */
  ghost predicate Extends(w: World, w': World) {
    && RowsGrow(w.executions.rows, w'.executions.rows)
    && ObjectsGrow(w.objects, w'.objects)
    && ReservedGrow(w.reservations.rows, w'.reservations.rows)
    && w.log.responses <= w'.log.responses && w.log.given <= w'.log.given
    && w.now <= w'.now
  }

  lemma InitOk()
    ensures Inv(INIT)
  {
  }

  lemma AdvanceKeepsClock(w: World, h: nat, pc: Pc, c: Choice)
    ensures Advance(w, h, pc, c).world.now == w.now
  {
  }

  lemma TickOk(w: World, to: int, h: int)
    requires WorldOk(w) && w.now <= to
    ensures WorldOk(w.(now := to)) && Grows(w, w.(now := to), h)
  {
    hide R.Valid, E.Valid, RowsOk, ObjectsOk, ObjectsAuthored, Once, CommittedOk, RestoredFirst, ResponsesOk;
    Unchanged(w, h);
    AuthorsStable(w, w.(now := to), h);
  }

  lemma SeedOk(w: World, a: Allowance, h: int)
    requires WorldOk(w)
    ensures var w' := w.(reservations := R.Seed(w.reservations, a)); WorldOk(w') && Grows(w, w', h)
  {
    R.SeedKeepsValid(w.reservations, a);
    ReservationsOk(w, R.Seed(w.reservations, a), h);
  }

  /** No handler is disturbed by a step of another, or by the operator or the clock. */
  lemma OthersOk(s: State, w': World, h: nat, pc: Pc)
    requires HandlersOk(s) && Grows(s.world, w', h) && HandlerOk(w', h, pc)
    ensures HandlersOk(s.(world := w', handlers := s.handlers[h := pc]))
  {
    forall other | other in s.handlers && other != h ensures HandlerOk(w', other, s.handlers[other]) {
      HandlerStable(s.world, w', h, other, s.handlers[other]);
    }
  }

  lemma SubsetSize<T>(a: set<T>, b: set<T>)
    requires a <= b
    ensures |a| <= |b|
  {
    assert b == a + (b - a);
  }

  lemma ApplyOk(s: State, a: Action)
    requires Inv(s)
    ensures Inv(Apply(s, a)) && Extends(s.world, Apply(s, a).world)
  {
    hide WorldOk, HandlerOk, Advance, R.Seed;
    match a
    case Step(h, c) =>
      if h in s.handlers {
        AdvanceOk(s.world, h, s.handlers[h], c);
        AdvanceKeepsClock(s.world, h, s.handlers[h], c);
        var o := Advance(s.world, h, s.handlers[h], c);
        OthersOk(s, o.world, h, o.pc);
      } else { Unchanged(s.world, 0); }
    case Crash(h) =>
      Unchanged(s.world, h);
      DoneHandler(s.world, h);
      OthersOk(s, s.world, h, Done);
    case Spawn(h, pc) =>
      Unchanged(s.world, h);
      if Starting(s.world, pc) {
        StartingHandler(s.world, h, pc);
        OthersOk(s, s.world, h, pc);
      }
    case Tick(to) =>
      Unchanged(s.world, -1);
      if to >= s.world.now {
        TickOk(s.world, to, -1);
        QuietOk(s, s.world.(now := to));
      }
    case Seed(al) =>
      SeedOk(s.world, al, -1);
      QuietOk(s, s.world.(reservations := R.Seed(s.world.reservations, al)));
  }

  lemma DoneHandler(w: World, h: nat)
    ensures HandlerOk(w, h, Done)
  {
  }

  lemma StartingHandler(w: World, h: nat, pc: Pc)
    requires Starting(w, pc)
    ensures HandlerOk(w, h, pc)
  {
  }

  lemma QuietOk(s: State, w': World)
    requires HandlersOk(s) && Grows(s.world, w', -1)
    ensures HandlersOk(s.(world := w'))
  {
    forall other | other in s.handlers ensures HandlerOk(w', other, s.handlers[other]) {
      HandlerStable(s.world, w', -1, other, s.handlers[other]);
    }
  }

  lemma {:induction false} RunOk(acts: seq<Action>)
    ensures Inv(Run(acts))
  {
    if acts == [] {
      InitOk();
    } else {
      RunOk(acts[..|acts| - 1]);
      ApplyOk(Run(acts[..|acts| - 1]), acts[|acts| - 1]);
    }
  }

  lemma ExtendsTransitive(a: World, b: World, c: World)
    requires Extends(a, b) && Extends(b, c)
    ensures Extends(a, c)
  {
    forall id | id in a.executions.rows
      ensures id in c.executions.rows && E.SameIdentity(a.executions.rows[id], c.executions.rows[id])
      ensures a.executions.rows[id].status != Running ==> c.executions.rows[id] == a.executions.rows[id]
    {
      assert id in b.executions.rows;
    }
  }

  lemma ExtendsItself(w: World)
    ensures Extends(w, w)
  {
  }

  /** Unfolding the last action of a longer run. */
  lemma RunLonger(acts: seq<Action>, more: seq<Action>)
    requires more != []
    ensures Run(acts + more) == Apply(Run(acts + more[..|more| - 1]), more[|more| - 1])
  {
    hide Apply;
    assert (acts + more)[..|acts + more| - 1] == acts + more[..|more| - 1];
  }

  lemma {:induction false} LaterExtends(acts: seq<Action>, more: seq<Action>)
    ensures Extends(Run(acts).world, Run(acts + more).world)
  {
    hide Extends, Run, Apply, Inv;
    if more == [] {
      assert acts + more == acts;
      ExtendsItself(Run(acts).world);
    } else {
      var shorter := more[..|more| - 1];
      LaterExtends(acts, shorter);
      RunLonger(acts, more);
      RunOk(acts + shorter);
      ApplyOk(Run(acts + shorter), more[|more| - 1]);
      ExtendsTransitive(Run(acts).world, Run(acts + shorter).world, Run(acts + more).world);
    }
  }

  // ---------- Agreement ----------

  /** The evidence of the committed object that an answer refers to. */
  function EvidenceOf(r: Response): seq<Event>
    requires r.ref.Some?
  {
    r.ref.value.sha256.of.evidence
  }

  /** Two terminal answers say the same thing: the same result and cost, the same committed object,
      and each a page of that object's evidence. */
  ghost predicate Agree(a: Response, b: Response) {
    && Neutral(a.result) == Neutral(b.result)
    && a.cost == b.cost
    && a.ref.Some? && a.ref == b.ref
    && PageOf(a.page, EvidenceOf(a)) && PageOf(b.page, EvidenceOf(a))
  }

  /** All terminal answers ever given for one invocation, by any handlers in any interleaving, agree. */
  lemma Agreement(acts: seq<Action>, a: Response, b: Response)
    requires a in Run(acts).world.log.responses && b in Run(acts).world.log.responses
    requires a.result.invocationId == b.result.invocationId
    ensures Agree(a, b)
  {
    hide Run, WorldOk, HandlersOk, PageOf;
    RunOk(acts);
    AnswerSource(Run(acts).world, a);
    AnswerSource(Run(acts).world, b);
  }

  /** A completed answer owns at least one position of the committed evidence it pages through,
      and its range covers exactly that evidence. */
  lemma CompletedAnswersOwnEvidence(acts: seq<Action>, r: Response)
    requires r in Run(acts).world.log.responses && r.result.terminal.Success?
    ensures r.ref.Some? && EvidenceOf(r) != [] && PageOf(r.page, EvidenceOf(r))
    ensures r.result.sessionRef.seqRange == Some((0, |EvidenceOf(r)| - 1))
  {
    hide Run, WorldOk, HandlersOk, Authored, TurnsCalled, PageOf, Writable;
    RunOk(acts);
    var w := Run(acts).world;
    AnswerSource(w, r);
    var a := w.objects[KeyOfRow(w.executions.rows[r.result.invocationId])];
    assert Neutral(r.result).sessionRef == Neutral(a.result).sessionRef;
    assert Neutral(r.result).terminal == Neutral(a.result).terminal;
  }

  /** A row holds what its request says, field by field. */
  predicate Claims(row: E.Record, q: Request) {
    && row.invocationId == q.invocationId && row.idempotencyKey == q.idempotencyKey && row.sessionId == q.sessionId
    && row.executionDigest == q.executionDigest && row.policyRevision == q.policyRevision
    && row.attribution.harness == q.harness && row.attribution.transport == q.transport
    && row.attribution.requestedModel == q.requestedModel && row.attribution.servedModel.None?
  }

  /** A terminal answer goes to its owner, for the invocation asked about, and to an execute call only if it presented
      the very request the row was created for. */
  lemma AnswersFitTheirRequest(acts: seq<Action>, r: Response)
    requires r in Run(acts).world.log.responses
    ensures var rows, id := Run(acts).world.executions.rows, r.result.invocationId;
      && id in rows && Fits(rows[id], r.asked)
      && r.result.requestHash == rows[id].requestHash
      && r.result.executionDigest == rows[id].executionDigest
      && r.result.policyRevision == rows[id].policyRevision
      && r.result.sessionRef.sessionId == rows[id].sessionId
      && Claims(rows[id], rows[id].requestHash.of)
  {
    hide Run, WorldOk, HandlersOk, Authored, TurnsCalled;
    RunOk(acts);
    AnswerSource(Run(acts).world, r);
  }

  // ---------- Where an answer comes from ----------

  /** What a turn comes to: its error with the status of its code, else its output, unless it has no evidence. */
  predicate Records(t: Turn, terminal: Terminal) {
    && (t.error.Some? ==>
         && terminal.Failure? && terminal.error == t.error.value
         && (terminal.status == Cancelled <==> t.error.value.code == Id("cancelled"))
         && (terminal.status == Interrupted <==> t.error.value.code == Id("runtime_interrupted"))
         && terminal.status in {Cancelled, Interrupted, Failed})
    && (t.error.None? && t.evidence != [] ==> terminal == Success(t.output))
    && (t.error.None? && t.evidence == [] ==>
         terminal == Failure(Failed, Error(
           Id("runtime_failed"), "Pillbox managed invocation completed without immutable positional evidence")))
  }

  lemma TurnIsRecorded(t: Turn)
    ensures Records(t, TerminalOutcome(TurnTerminal(t), |t.evidence|))
  {
  }

  /** The answer reports what the invocation's one runtime call returned. */
  ghost predicate ReportsTurn(w: World, r: Response) {
    var id := r.result.invocationId;
    && id in w.executions.rows && id in w.log.turns && w.log.calls[id] == 1
    && var t := w.log.turns[id];
    && Records(t, r.result.terminal)
    && r.result.attribution == w.executions.rows[id].attribution.(servedModel := t.servedModel)
    && PageOf(r.page, t.evidence)
  }

  /** The answer reports a cancellation that a cancel handler carried out. */
  ghost predicate ReportsCancel(w: World, r: Response) {
    && PageOf(r.page, [])
    && r.result.invocationId in w.executions.rows
    && r.result.attribution == w.executions.rows[r.result.invocationId].attribution
    && exists c :: c in w.log.cancels && c.invocationId == r.result.invocationId
                   && r.result.terminal == Failure(Cancelled, Error(Id("cancelled"), c.reason))
  }

  /** The answer reports an owner whose lease had run out. */
  ghost predicate ReportsExpiry(w: World, r: Response) {
    var id := r.result.invocationId;
    && PageOf(r.page, [])
    && r.result.terminal ==
         Failure(Interrupted, Error(Id("runtime_interrupted"), "Pillbox managed invocation owner lease expired"))
    && id in w.executions.rows && w.executions.rows[id].leaseExpiresAt <= w.now
    && r.result.attribution == w.executions.rows[id].attribution
  }

  /** Every terminal answer reports the one turn, a cancellation or an expired lease; nothing else is ever made up.
      In particular a `completed` answer carries the output, evidence and served model of the runtime call. */
  lemma AnswersAreAuthored(acts: seq<Action>, r: Response)
    requires r in Run(acts).world.log.responses
    ensures var w := Run(acts).world; ReportsTurn(w, r) || ReportsCancel(w, r) || ReportsExpiry(w, r)
    ensures r.result.terminal.Success? ==>
      var turns, id := Run(acts).world.log.turns, r.result.invocationId;
      ReportsTurn(Run(acts).world, r) && id in turns && turns[id].error.None? && r.result.terminal.output == turns[id].output
  {
    hide Run, WorldOk, ReportsTurn, ReportsCancel, ReportsExpiry, HandlersOk;
    RunOk(acts);
    var w := Run(acts).world;
    AnswerSource(w, r);
    AuthoredAnswer(w, r, w.executions.rows[r.result.invocationId], w.objects[KeyOfRow(w.executions.rows[r.result.invocationId])]);
  }

  /** The object behind an answer. */
  lemma AnswerSource(w: World, r: Response)
    requires WorldOk(w) && r in w.log.responses
    ensures ResponseOk(w.executions.rows, w.objects, r)
    ensures var row := w.executions.rows[r.result.invocationId];
      && row.invocationId == r.result.invocationId && Presented(row)
      && ObjectOk(w.executions.rows, KeyOfRow(row), w.objects[KeyOfRow(row)])
      && Authored(w.log.turns, w.log.cancels, w.now, row, w.objects[KeyOfRow(row)])
    ensures TurnsCalled(w.log.turns, w.log.calls)
  {
    hide Authored, Repeats, R.Valid, RowOk, ReadyFor, Once, CommittedOk, RestoredFirst;
    var row := w.executions.rows[r.result.invocationId];
    ObjectAt(w, KeyOfRow(row));
  }

  lemma AuthoredAnswer(w: World, r: Response, row: E.Record, a: Artifact)
    requires row.invocationId == r.result.invocationId && row.invocationId in w.executions.rows
    requires row == w.executions.rows[row.invocationId]
    requires Repeats(r, a) && Authored(w.log.turns, w.log.cancels, w.now, row, a) && TurnsCalled(w.log.turns, w.log.calls)
    ensures ReportsTurn(w, r) || ReportsCancel(w, r) || ReportsExpiry(w, r)
    ensures r.result.terminal.Success? ==>
      var turns, id := w.log.turns, r.result.invocationId;
      ReportsTurn(w, r) && id in turns && turns[id].error.None? && r.result.terminal.output == turns[id].output
  {
    hide PageOf;
    if row.invocationId in w.log.turns { TurnIsRecorded(w.log.turns[row.invocationId]); }
    assert Neutral(r.result).terminal == Neutral(a.result).terminal;
    assert Neutral(r.result).attribution == Neutral(a.result).attribution;
    if FromCancel(row, w.log.cancels, a) {
      var c :| c in w.log.cancels && c.invocationId == row.invocationId && a.result.terminal == CancelledWith(c.reason);
      assert r.result.terminal == CancelledWith(c.reason);
    }
  }

  // ---------- The first object written decides ----------

  /** Once an object exists for an invocation, whoever commits that invocation commits that object and its status. */
  lemma FirstPutDecides(acts: seq<Action>, more: seq<Action>, k: Key)
    requires k in Run(acts).world.objects
    requires Committed(Run(acts + more).world.executions.rows, k.invocationId)
    ensures var a := Run(acts).world.objects[k];
            var row := Run(acts + more).world.executions.rows[k.invocationId];
            && row.artifactRef == Some(RefOf(a))
            && row.status == StatusOf(a.result.terminal)
            && k in Run(acts + more).world.objects && Run(acts + more).world.objects[k] == a
  {
    LaterExtends(acts, more);
    RunOk(acts + more);
    var w := Run(acts + more).world;
    ObjectAt(w, k);
    CommittedObject(w, w.executions.rows[k.invocationId]);
    assert RowOk(w.executions.rows[k.invocationId], w.objects);
  }

  /** A terminal row never changes again, and always names an existing object with matching length and digest. */
  lemma TerminalRowsAreFinal(acts: seq<Action>, more: seq<Action>, id: Id)
    requires Committed(Run(acts).world.executions.rows, id)
    ensures id in Run(acts + more).world.executions.rows
    ensures var row := Run(acts).world.executions.rows[id];
            && Run(acts + more).world.executions.rows[id] == row
            && row.artifactRef.Some?
            && ReadObject(Run(acts + more).world.objects, row.artifactRef.value).Some?
  {
    hide Run, WorldOk, HandlersOk;
    LaterExtends(acts, more);
    RunOk(acts);
    CommittedRow(Run(acts).world, id);
  }

  lemma CommittedRow(w: World, id: Id)
    requires WorldOk(w) && Committed(w.executions.rows, id)
    ensures var row := w.executions.rows[id];
      && KeyOfRow(row) in w.objects && row.artifactRef == Some(RefOf(w.objects[KeyOfRow(row)]))
      && KeyOf(w.objects[KeyOfRow(row)]) == KeyOfRow(row)
  {
    var row := w.executions.rows[id];
    assert RowOk(row, w.objects);
    ObjectAt(w, KeyOfRow(row));
  }

  // ---------- Effects ----------

  /** A sandbox run and an analytics point each happen at most once per invocation, and only for a winner. */
  lemma EffectsAtMostOnce(acts: seq<Action>, id: Id)
    ensures var w := Run(acts).world;
      && w.log.calls[id] <= 1 && w.log.emitted[id] <= 1 && w.log.restores[id] <= 1
      && (w.log.calls[id] > 0 ==> id in w.executions.rows)
      && (w.log.emitted[id] > 0 ==> Committed(w.executions.rows, id))
      && (w.log.restores[id] > 0 ==> id in w.reservations.rows)
  {
    RunOk(acts);
    var w := Run(acts).world;
    assert Once(w.log.claimed, w.log.calls) && Once(w.log.committed, w.log.emitted);
    assert Once(w.log.provisioned, w.log.restores);
    assert CommittedOk(w.executions.rows, w.log.committed);
  }

  /** The runtime is only ever called under a ready reservation for the same session, owner, content and allowance;
      a provisioned one has been restored first, and DigitalOcean never adopts one. */
  lemma CallsAreReserved(acts: seq<Action>, id: Id)
    requires Run(acts).world.log.calls[id] > 0
    ensures var w := Run(acts).world;
      && id in w.executions.rows && id in w.reservations.rows
      && ReadyFor(w.executions.rows[id], w.reservations.rows[id])
      && (w.reservations.rows[id].source == R.WorkspaceProvision ==>
           id in w.log.restored && w.executions.rows[id].attribution.transport != DIGITALOCEAN_TRANSPORT)
  {
    RunOk(acts);
    EffectsAtMostOnce(acts, id);
    var w := Run(acts).world;
    assert RestoredFirst(w.reservations.rows, w.log.restored);
  }

  /** The number of invocations that ever reach the runtime under the seeded allowance is within its limit. */
  lemma AllowanceBoundsCalls(acts: seq<Action>, called: set<Id>)
    requires Run(acts).world.reservations.counter.Some?
    requires forall id | id in called ::
      && Run(acts).world.log.calls[id] > 0
      && id in Run(acts).world.reservations.rows
      && Run(acts).world.reservations.rows[id].allowance == Run(acts).world.reservations.counter.value.allowance
    ensures var c := Run(acts).world.reservations.counter.value;
            |called| <= c.reserved <= c.allowance.limit
  {
    RunOk(acts);
    var t := Run(acts).world.reservations;
    assert called <= R.Spending(t, t.counter.value.allowance);
    SubsetSize(called, R.Spending(t, t.counter.value.allowance));
  }

  // ---------- Every handler stops ----------

  /** How many more of its own steps a handler can take. */
  function Rank(pc: Pc): nat {
    match pc
    case Done => 0
    case Answer(_) => 1
    case ReadArtifact(_, _) => 2
    case Emit(_, _) => 2
    case Resolve(r, _) => if r.status != Running then 3 else 8
    case Reload(_, _) => 4
    case Commit(_) => 5
    case PutReload(_) => 6
    case Put(_) => 7
    case CancelRuntime(_, _, _) => 8
    case Invoked(_, _) => 8
    case Invoke(_, _) => 9
    case StatusLookup(_, _, _, _) => 9
    case CancelLookup(_, _, _) => 9
    case ClaimReloadByKey(_) => 9
    case ClaimReload(_) => 10
    case ClaimInsert(_) => 11
    case ClaimLookup(_) => 12
    case ReserveReload(_) => 13
    case ReserveInsert(_) => 14
    case ReserveLookup(_) => 15
    case SetReady(_) => 1
    case SetFailed(_, _) => 1
    case Restoring(_) => 2
    case Restore(_) => 3
    case ProvisionInsert(_) => 4
    case ProvisionLookup(_) => 5
  }

  /** Shape alone bounds every step but the re-read. */
  lemma ShapeDescends(w: World, h: nat, pc: Pc, c: Choice)
    requires pc != Done && !pc.Reload?
    ensures Rank(Advance(w, h, pc, c).pc) < Rank(pc)
  {
    hide R.Insert, R.Owned, R.MarkReady, R.MarkFailed, E.Insert, E.Get, E.GetByKey, E.Finish, E.CanFinish, E.Exact;
    hide EvidencePage, ReadObject, TerminalWithSessionRef, Candidate, Writable, KeyOf, RefOf;
  }

  /** The re-read after a lost commit finds a terminal row, so `resultForRecord` never recurses a second time. */
  lemma StepDescends(w: World, h: nat, pc: Pc, c: Choice)
    requires WorldOk(w) && HandlerOk(w, h, pc) && pc != Done
    ensures Rank(Advance(w, h, pc, c).pc) < Rank(pc)
  {
    hide WorldOk;
    if pc.Reload? { LookupStepOk(w, h, pc, c); } else { ShapeDescends(w, h, pc, c); }
  }

  function StepsOf(acts: seq<Action>, h: nat): nat {
    if acts == [] then 0
    else StepsOf(acts[..|acts| - 1], h) + (if acts[|acts| - 1].Step? && acts[|acts| - 1].h == h then 1 else 0)
  }

  /** An action either is not a step of `h`, or brings it closer to its end. */
  lemma ActionDescends(s: State, a: Action, h: nat)
    requires Inv(s) && h in s.handlers
    ensures h in Apply(s, a).handlers
    ensures var before, after := s.handlers[h], Apply(s, a).handlers[h];
      && (before == Done ==> after == Done)
      && (after == Done || Rank(after) + (if a.Step? && a.h == h then 1 else 0) <= Rank(before))
  {
    hide Rank, Advance, WorldOk, HandlerOk;
    if a.Step? && a.h == h {
      if s.handlers[h] == Done { DoneStays(s.world, h, a.choice); }
      else { StepDescends(s.world, h, s.handlers[h], a.choice); }
    }
  }

  lemma DoneStays(w: World, h: nat, c: Choice)
    ensures Advance(w, h, Done, c).pc == Done
  {
  }

  lemma {:induction false} RankBoundsSteps(acts: seq<Action>, more: seq<Action>, h: nat)
    requires h in Run(acts).handlers
    ensures h in Run(acts + more).handlers
    ensures Run(acts + more).handlers[h] == Done
      || Rank(Run(acts + more).handlers[h]) + StepsOf(more, h) <= Rank(Run(acts).handlers[h])
  {
    hide Run, Rank, Apply, Inv;
    if more == [] {
      assert acts + more == acts;
    } else {
      var shorter, last := more[..|more| - 1], more[|more| - 1];
      RankBoundsSteps(acts, shorter, h);
      RunLonger(acts, more);
      RunOk(acts + shorter);
      ActionDescends(Run(acts + shorter), last, h);
    }
  }

  /** Whatever the other handlers do, fifteen of its own steps finish any handler. */
  lemma HandlersTerminate(acts: seq<Action>, more: seq<Action>, h: nat)
    requires h in Run(acts).handlers && StepsOf(more, h) >= 15
    ensures h in Run(acts + more).handlers && Run(acts + more).handlers[h] == Done
  {
    hide Run, Rank, StepsOf;
    RankBoundsSteps(acts, more, h);
    RankRange(Run(acts).handlers[h]);
    RankRange(Run(acts + more).handlers[h]);
  }

  lemma RankRange(pc: Pc)
    ensures Rank(pc) <= 15 && (pc != Done ==> Rank(pc) >= 1)
  {
  }
}
