/** Workspace finalize: one durable claim per session, then a kill, a backup and one terminal update. */
module Finalize {
  import opened Managed

  // ---------- The table ----------

  /** SHA-256 over canonical JSON is taken to be injective, so the identity is what it digests. */
  datatype FinalizeId = FinalizeId(sessionId: Id, requestDigest: Id)

  datatype Phase = Running | Completed(snapshot: Id) | Failed(message: string)

  datatype Row = Row(id: FinalizeId, owner: Owner, phase: Phase)

  /** Rows by session, the unique column; the primary key determines the session. */
  type Rows = map<Id, Row>

  function Insert(rows: Rows, id: FinalizeId, owner: Owner): Rows {
    if id.sessionId in rows then rows else rows[id.sessionId := Row(id, owner, Running)]
  }

  function Get(rows: Rows, sessionId: Id, owner: Owner): Option<Row> {
    if sessionId in rows && rows[sessionId].owner == owner then Some(rows[sessionId]) else None
  }

  predicate CanSettle(rows: Rows, id: FinalizeId, owner: Owner) {
    && id.sessionId in rows
    && rows[id.sessionId] == Row(id, owner, Running)
  }

  /** `complete` and `fail`: a compare-and-set on a row still running. */
  function Settle(rows: Rows, id: FinalizeId, owner: Owner, phase: Phase): Rows {
    if CanSettle(rows, id, owner) then rows[id.sessionId := Row(id, owner, phase)] else rows
  }

  datatype Claim = Created | Reuse(row: Row) | Conflict(row: Row) | Unreadable

  /** What a claim comes to when nothing happens between its insert and its read. */
  function SequentialClaim(rows: Rows, id: FinalizeId, owner: Owner): Claim {
    if id.sessionId !in rows then Created
    else if rows[id.sessionId].owner != owner then Unreadable
    else if rows[id.sessionId].id != id then Conflict(rows[id.sessionId])
    else Reuse(rows[id.sessionId])
  }

  class D1WorkspaceFinalizeStore {
    var rows: Rows

    constructor ()
      ensures rows == map[]
    {
      rows := map[];
    }

    /** Only the first claim of a session creates its row; an exact retry gets the row back, any other request conflicts. */
    method ClaimFinalize(id: FinalizeId, owner: Owner) returns (claim: Claim)
      modifies this
      ensures rows == Insert(old(rows), id, owner) && claim == SequentialClaim(old(rows), id, owner)
      ensures claim.Created? <==> id.sessionId !in old(rows)
      ensures claim.Unreadable? <==> id.sessionId in old(rows) && old(rows)[id.sessionId].owner != owner
      ensures claim.Reuse? <==> id.sessionId in old(rows) && old(rows)[id.sessionId].owner == owner && old(rows)[id.sessionId].id == id
      ensures claim.Reuse? || claim.Conflict? ==> claim.row == rows[id.sessionId]
    {
      var inserted := id.sessionId !in rows;
      rows := Insert(rows, id, owner);
      var record := Get(rows, id.sessionId, owner);
      if record.None? { return Unreadable; }
      if record.value.id != id { return Conflict(record.value); }
      return if inserted then Created else Reuse(record.value);
    }

    method CompleteFinalize(id: FinalizeId, owner: Owner, snapshot: Id) returns (won: bool)
      modifies this
      ensures won == CanSettle(old(rows), id, owner)
      ensures rows == Settle(old(rows), id, owner, Completed(snapshot))
      ensures won ==> !CanSettle(rows, id, owner)
    {
      won := CanSettle(rows, id, owner);
      if won { rows := rows[id.sessionId := Row(id, owner, Completed(snapshot))]; }
    }

    method FailFinalize(id: FinalizeId, owner: Owner, message: string) returns (won: bool)
      modifies this
      ensures won == CanSettle(old(rows), id, owner)
      ensures rows == Settle(old(rows), id, owner, Failed(message))
      ensures won ==> !CanSettle(rows, id, owner)
    {
      won := CanSettle(rows, id, owner);
      if won { rows := rows[id.sessionId := Row(id, owner, Failed(message))]; }
    }
  }

  // ---------- Handlers ----------

  /** A response that says `completed`. */
  datatype Response = Response(id: FinalizeId, snapshot: Id)

  datatype Pc =
    | OwnerLookup(id: FinalizeId, statusOnly: bool)
    | StatusLookup(id: FinalizeId, owner: Owner)
    | ClaimInsert(id: FinalizeId, owner: Owner)
    | ClaimGet(id: FinalizeId, owner: Owner, inserted: bool)
    | Kill(id: FinalizeId, owner: Owner)
    | Backup(id: FinalizeId, owner: Owner)
    | Complete(id: FinalizeId, owner: Owner, snapshot: Id)
    | Fail(id: FinalizeId, owner: Owner, message: string)
    | Answer(response: Response)
    | Done

  /** History kept for the statements: who claimed a session, how often it was killed and backed up, what the backup made. */
  datatype Log = Log(claimed: map<Id, nat>, kills: multiset<Id>, backups: multiset<Id>, made: map<Id, Id>, responses: set<Response>)

  datatype World = World(owners: map<Id, Owner>, rows: Rows, log: Log)

  datatype State = State(world: World, handlers: map<nat, Pc>)

  /** `ok` is whether the call returned; `applied` is whether a statement that threw took effect all the same. */
  datatype Choice = Choice(ok: bool, applied: bool, snapshot: Option<Id>, message: string)

  datatype Action =
    | Bind(sessionId: Id, owner: Owner)
    | Spawn(h: nat, id: FinalizeId, statusOnly: bool)
    | Crash(h: nat)
    | Step(h: nat, choice: Choice)

  const INIT: State := State(World(map[], map[], Log(map[], multiset{}, multiset{}, map[], {})), map[])

  /** A replay repeats what the row records; a running or failed row answers something other than `completed`. */
  function Replay(row: Row): Pc {
    if row.phase.Completed? then Answer(Response(row.id, row.phase.snapshot)) else Done
  }

  datatype Outcome = Outcome(world: World, pc: Pc)

  function Advance(w: World, h: nat, pc: Pc, c: Choice): Outcome {
    match pc
    case OwnerLookup(id, statusOnly) =>
      if id.sessionId !in w.owners then Outcome(w, Done)
      else
        var owner := w.owners[id.sessionId];
        Outcome(w, if statusOnly then StatusLookup(id, owner) else ClaimInsert(id, owner))
    case StatusLookup(id, owner) =>
      var row := Get(w.rows, id.sessionId, owner);
      Outcome(w, if row.Some? && row.value.id == id then Replay(row.value) else Done)
    case ClaimInsert(id, owner) =>
      var inserted := id.sessionId !in w.rows;
      var log := if inserted then w.log.(claimed := w.log.claimed[id.sessionId := h]) else w.log;
      Outcome(w.(rows := Insert(w.rows, id, owner), log := log), ClaimGet(id, owner, inserted))
    case ClaimGet(id, owner, inserted) =>
      var row := Get(w.rows, id.sessionId, owner);
      Outcome(w, if row.None? || row.value.id != id then Done else if inserted then Kill(id, owner) else Replay(row.value))
    case Kill(id, owner) =>
      Outcome(
        w.(log := w.log.(kills := w.log.kills + multiset{id.sessionId})),
        if c.ok then Backup(id, owner) else Fail(id, owner, c.message))
    case Backup(id, owner) =>
      var log := w.log.(backups := w.log.backups + multiset{id.sessionId});
      if c.ok && c.snapshot.Some?
      then Outcome(w.(log := log.(made := log.made[id.sessionId := c.snapshot.value])), Complete(id, owner, c.snapshot.value))
      else Outcome(w.(log := log), Fail(id, owner, c.message))
    case Complete(id, owner, snapshot) =>
      var rows := if c.ok || c.applied then Settle(w.rows, id, owner, Completed(snapshot)) else w.rows;
      Outcome(
        w.(rows := rows),
        if c.ok && CanSettle(w.rows, id, owner) then Answer(Response(id, snapshot)) else Fail(id, owner, c.message))
    case Fail(id, owner, message) => Outcome(w.(rows := Settle(w.rows, id, owner, Failed(message))), Done)
    case Answer(r) => Outcome(w.(log := w.log.(responses := w.log.responses + {r})), Done)
    case Done => Outcome(w, Done)
  }

  /** A session's owner is bound once, by its first reservation, and never changes. */
  function Apply(s: State, a: Action): State {
    match a
    case Bind(sessionId, owner) =>
      if sessionId in s.world.owners then s
      else s.(world := s.world.(owners := s.world.owners[sessionId := owner]))
    case Spawn(h, id, statusOnly) =>
      if h in s.handlers then s else s.(handlers := s.handlers[h := OwnerLookup(id, statusOnly)])
    case Crash(h) => if h in s.handlers then s.(handlers := s.handlers[h := Done]) else s
    case Step(h, c) =>
      if h in s.handlers then
        var o := Advance(s.world, h, s.handlers[h], c);
        State(o.world, s.handlers[h := o.pc])
      else s
  }

  function RunFrom(s: State, acts: seq<Action>): State {
    if acts == [] then s else Apply(RunFrom(s, acts[..|acts| - 1]), acts[|acts| - 1])
  }

  function Run(acts: seq<Action>): State {
    RunFrom(INIT, acts)
  }

  /** The two steps of a claim, undisturbed, are the store's claim: a winner goes on to the kill, an exact retry replays
      its row, anything else stops. */
  lemma ClaimStepsAreTheClaim(w: World, h: nat, id: FinalizeId, owner: Owner, c: Choice, c': Choice)
    ensures var inserted := Advance(w, h, ClaimInsert(id, owner), c);
      var o := Advance(inserted.world, h, inserted.pc, c');
      && o.world.rows == Insert(w.rows, id, owner)
      && o.pc == match SequentialClaim(w.rows, id, owner)
                 case Created => Kill(id, owner)
                 case Reuse(row) => Replay(row)
                 case _ => Done
  {
  }

  // ---------- The invariant ----------

  /** Handler `h` holds the claim of a session whose row is as it left it. */
  ghost predicate Mine(w: World, h: nat, id: FinalizeId, owner: Owner) {
    && id.sessionId in w.log.claimed && w.log.claimed[id.sessionId] == h
    && id.sessionId in w.rows && w.rows[id.sessionId] == Row(id, owner, Running)
  }

  /** Handler `h` holds the claim of a session, whatever the row has come to. */
  ghost predicate Held(w: World, h: nat, id: FinalizeId, owner: Owner) {
    && id.sessionId in w.log.claimed && w.log.claimed[id.sessionId] == h
    && id.sessionId in w.rows && w.rows[id.sessionId].id == id && w.rows[id.sessionId].owner == owner
  }

  ghost predicate Recorded(rows: Rows, r: Response) {
    r.id.sessionId in rows && rows[r.id.sessionId].id == r.id && rows[r.id.sessionId].phase == Completed(r.snapshot)
  }

  ghost predicate HandlerOk(w: World, h: nat, pc: Pc) {
    match pc
    case ClaimGet(id, owner, inserted) =>
      inserted ==> Mine(w, h, id, owner) && w.log.kills[id.sessionId] == 0 && w.log.backups[id.sessionId] == 0
    case Kill(id, owner) => Mine(w, h, id, owner) && w.log.kills[id.sessionId] == 0 && w.log.backups[id.sessionId] == 0
    case Backup(id, owner) => Mine(w, h, id, owner) && w.log.backups[id.sessionId] == 0
    case Complete(id, owner, snapshot) =>
      Mine(w, h, id, owner) && id.sessionId in w.log.made && w.log.made[id.sessionId] == snapshot
    case Fail(id, owner, _) => Held(w, h, id, owner)
    case Answer(r) => Recorded(w.rows, r)
    case _ => true
  }

  ghost predicate RowsOk(rows: Rows, made: map<Id, Id>) {
    forall s | s in rows ::
      && rows[s].id.sessionId == s
      && (rows[s].phase.Completed? ==> s in made && made[s] == rows[s].phase.snapshot)
  }

  ghost predicate Once(claimed: map<Id, nat>, count: multiset<Id>) {
    forall s :: count[s] <= 1 && (count[s] > 0 ==> s in claimed)
  }

  ghost predicate ResponsesOk(rows: Rows, responses: set<Response>) {
    forall r | r in responses :: Recorded(rows, r)
  }

  ghost predicate WorldOk(w: World) {
    && w.log.claimed.Keys == w.rows.Keys
    && RowsOk(w.rows, w.log.made)
    && Once(w.log.claimed, w.log.kills) && Once(w.log.claimed, w.log.backups)
    && (forall s | s in w.log.made :: w.log.backups[s] == 1)
    && ResponsesOk(w.rows, w.log.responses)
  }

  ghost predicate Inv(s: State) {
    WorldOk(s.world) && forall h | h in s.handlers :: HandlerOk(s.world, h, s.handlers[h])
  }

  /** What a step of `h` leaves alone: settled rows for good, and everything of a session claimed by another. */
  ghost predicate Grows(w: World, w': World, h: int) {
    && (forall s | s in w.rows :: s in w'.rows && (w.rows[s].phase != Running ==> w'.rows[s] == w.rows[s]))
    && (forall s | s in w.log.claimed :: s in w'.log.claimed && w'.log.claimed[s] == w.log.claimed[s])
    && (forall s | s in w.log.claimed && w.log.claimed[s] != h ::
         && (s in w.rows ==> s in w'.rows && w'.rows[s] == w.rows[s])
         && w'.log.kills[s] == w.log.kills[s] && w'.log.backups[s] == w.log.backups[s]
         && (s in w.log.made ==> s in w'.log.made && w'.log.made[s] == w.log.made[s]))
  }

  /** The first insert of a session. */
  lemma InsertOk(w: World, h: nat, id: FinalizeId, owner: Owner)
    requires WorldOk(w) && id.sessionId !in w.rows
    ensures var w' := w.(rows := Insert(w.rows, id, owner), log := w.log.(claimed := w.log.claimed[id.sessionId := h]));
      && WorldOk(w') && Grows(w, w', h) && Mine(w', h, id, owner)
      && w'.log.kills[id.sessionId] == 0 && w'.log.backups[id.sessionId] == 0
  {
    hide RowsOk, ResponsesOk;
    ClaimedRows(w.rows, w.log.made, w.log.responses, id, owner);
  }

  lemma ClaimedRows(rows: Rows, made: map<Id, Id>, responses: set<Response>, id: FinalizeId, owner: Owner)
    requires RowsOk(rows, made) && ResponsesOk(rows, responses) && id.sessionId !in rows
    ensures RowsOk(Insert(rows, id, owner), made) && ResponsesOk(Insert(rows, id, owner), responses)
  {
    assert forall r | r in responses :: Recorded(rows, r);
  }

  lemma KillOk(w: World, h: nat, id: FinalizeId, owner: Owner)
    requires WorldOk(w) && HandlerOk(w, h, Kill(id, owner))
    ensures var w' := w.(log := w.log.(kills := w.log.kills + multiset{id.sessionId}));
      WorldOk(w') && Grows(w, w', h)
  {
  }

  lemma BackupOk(w: World, h: nat, id: FinalizeId, owner: Owner, snapshot: Id)
    requires WorldOk(w) && HandlerOk(w, h, Backup(id, owner))
    ensures var log := w.log.(backups := w.log.backups + multiset{id.sessionId});
      && WorldOk(w.(log := log)) && Grows(w, w.(log := log), h)
      && var w' := w.(log := log.(made := log.made[id.sessionId := snapshot])); WorldOk(w') && Grows(w, w', h)
  {
  }

  /** Settling the claimant's own running row. */
  lemma SettleOk(w: World, h: nat, id: FinalizeId, owner: Owner, phase: Phase)
    requires WorldOk(w) && id.sessionId in w.log.claimed && w.log.claimed[id.sessionId] == h
    requires phase.Completed? ==> id.sessionId in w.log.made && w.log.made[id.sessionId] == phase.snapshot
    ensures var w' := w.(rows := Settle(w.rows, id, owner, phase)); WorldOk(w') && Grows(w, w', h)
  {
    hide RowsOk, ResponsesOk, Once;
    SettledRows(w.rows, w.log.made, w.log.responses, id, owner, phase);
  }

  lemma SettledRows(rows: Rows, made: map<Id, Id>, responses: set<Response>, id: FinalizeId, owner: Owner, phase: Phase)
    requires RowsOk(rows, made) && ResponsesOk(rows, responses)
    requires phase.Completed? ==> id.sessionId in made && made[id.sessionId] == phase.snapshot
    ensures RowsOk(Settle(rows, id, owner, phase), made) && ResponsesOk(Settle(rows, id, owner, phase), responses)
  {
    assert forall r | r in responses :: Recorded(rows, r);
  }

  lemma Unchanged(w: World, h: int)
    ensures Grows(w, w, h)
  {
  }

  lemma AnswerOk(w: World, h: nat, r: Response)
    requires WorldOk(w) && Recorded(w.rows, r)
    ensures var w' := w.(log := w.log.(responses := w.log.responses + {r})); WorldOk(w') && Grows(w, w', h)
  {
  }

  lemma AdvanceOk(w: World, h: nat, pc: Pc, c: Choice)
    requires WorldOk(w) && HandlerOk(w, h, pc)
    ensures var o := Advance(w, h, pc, c); WorldOk(o.world) && HandlerOk(o.world, h, o.pc) && Grows(w, o.world, h)
  {
    hide WorldOk, Grows;
    Unchanged(w, h);
    match pc
    case ClaimInsert(id, owner) =>
      if id.sessionId !in w.rows { InsertOk(w, h, id, owner); }
    case Kill(id, owner) => KillOk(w, h, id, owner);
    case Backup(id, owner) => BackupOk(w, h, id, owner, if c.snapshot.Some? then c.snapshot.value else Id(""));
    case Complete(id, owner, snapshot) => SettleOk(w, h, id, owner, Completed(snapshot));
    case Fail(id, owner, message) => SettleOk(w, h, id, owner, Failed(message));
    case Answer(r) => AnswerOk(w, h, r);
    case _ =>
  }

  lemma HandlerStable(w: World, w': World, h: int, other: nat, pc: Pc)
    requires Grows(w, w', h) && other != h && HandlerOk(w, other, pc)
    ensures HandlerOk(w', other, pc)
  {
  }

  lemma ApplyOk(s: State, a: Action)
    requires Inv(s)
    ensures Inv(Apply(s, a))
    ensures Grows(s.world, Apply(s, a).world, if a.Step? then a.h else -1)
  {
    hide WorldOk, HandlerOk, Advance;
    match a
    case Step(h, c) =>
      if h in s.handlers {
        AdvanceOk(s.world, h, s.handlers[h], c);
        var w' := Advance(s.world, h, s.handlers[h], c).world;
        forall other | other in s.handlers && other != h ensures HandlerOk(w', other, s.handlers[other]) {
          HandlerStable(s.world, w', h, other, s.handlers[other]);
        }
      }
    case Bind(sessionId, owner) =>
      var w' := Apply(s, a).world;
      BindOk(s.world, w');
      forall h | h in s.handlers ensures HandlerOk(w', h, s.handlers[h]) {
        HandlerStable(s.world, w', -1, h, s.handlers[h]);
      }
    case Spawn(h, id, statusOnly) => IdleOk(s.world, h, OwnerLookup(id, statusOnly));
    case Crash(h) => IdleOk(s.world, h, Done);
  }

  lemma BindOk(w: World, w': World)
    requires WorldOk(w) && w'.rows == w.rows && w'.log == w.log
    ensures WorldOk(w') && Grows(w, w', -1)
  {
  }

  lemma IdleOk(w: World, h: nat, pc: Pc)
    requires pc.OwnerLookup? || pc.Done?
    ensures HandlerOk(w, h, pc)
  {
  }

  lemma {:induction false} RunOk(acts: seq<Action>)
    ensures Inv(Run(acts))
  {
    if acts != [] {
      RunOk(acts[..|acts| - 1]);
      ApplyOk(Run(acts[..|acts| - 1]), acts[|acts| - 1]);
    }
  }

  // ---------- What every run guarantees ----------

  /** A session's kill and its backup each run under at most one claim. */
  lemma KillAndBackupOnce(acts: seq<Action>, s: Id)
    ensures var w := Run(acts).world;
      w.log.kills[s] <= 1 && w.log.backups[s] <= 1 && (w.log.kills[s] > 0 || w.log.backups[s] > 0 ==> s in w.rows)
  {
    RunOk(acts);
  }

  /** Every response that says `completed`, first or replayed, carries the snapshot that the session's one backup made
      and that its row records; so any two for one session are equal. */
  lemma CompletedResponsesAgree(acts: seq<Action>, a: Response, b: Response)
    requires a in Run(acts).world.log.responses && b in Run(acts).world.log.responses
    requires a.id.sessionId == b.id.sessionId
    ensures a == b
    ensures var w := Run(acts).world; var s := a.id.sessionId;
      && w.log.backups[s] == 1 && s in w.log.made && w.log.made[s] == a.snapshot
      && s in w.rows && w.rows[s].phase == Completed(a.snapshot)
  {
    RunOk(acts);
    var w := Run(acts).world;
    assert Recorded(w.rows, a) && Recorded(w.rows, b);
  }

  lemma RunAppend(s: State, acts: seq<Action>, more: seq<Action>)
    requires more != []
    ensures RunFrom(s, acts + more) == Apply(RunFrom(s, acts + more[..|more| - 1]), more[|more| - 1])
  {
    hide Apply;
    assert (acts + more)[..|acts + more| - 1] == acts + more[..|more| - 1];
  }

  lemma OwnerStays(s: State, a: Action, id: Id)
    requires id in s.world.owners
    ensures id in Apply(s, a).world.owners && Apply(s, a).world.owners[id] == s.world.owners[id]
  {
    hide Insert, Get, Settle;
  }

  /** The owner of a session, once bound, never changes. */
  lemma {:induction false} OwnersAreFinal(acts: seq<Action>, more: seq<Action>, s: Id)
    requires s in Run(acts).world.owners
    ensures s in Run(acts + more).world.owners && Run(acts + more).world.owners[s] == Run(acts).world.owners[s]
    decreases |more|
  {
    hide Apply;
    if more == [] {
      assert acts + more == acts;
    } else {
      OwnersAreFinal(acts, more[..|more| - 1], s);
      RunAppend(INIT, acts, more);
      OwnerStays(Run(acts + more[..|more| - 1]), more[|more| - 1], s);
    }
  }

  /** A settled row never changes again. */
  lemma {:induction false} SettledRowsAreFinal(acts: seq<Action>, more: seq<Action>, s: Id)
    requires s in Run(acts).world.rows && Run(acts).world.rows[s].phase != Running
    ensures s in Run(acts + more).world.rows && Run(acts + more).world.rows[s] == Run(acts).world.rows[s]
    decreases |more|
  {
    if more == [] {
      assert acts + more == acts;
    } else {
      var shorter := more[..|more| - 1];
      SettledRowsAreFinal(acts, shorter, s);
      RunOk(acts + shorter);
      ApplyOk(Run(acts + shorter), more[|more| - 1]);
      RunAppend(INIT, acts, more);
    }
  }

  /** The claimant of a session has stopped. */
  ghost predicate Abandoned(st: State, s: Id, h: nat) {
    && s in st.world.rows && s in st.world.log.claimed && st.world.log.claimed[s] == h
    && h in st.handlers && st.handlers[h] == Done
  }

  lemma AbandonedStep(st: State, a: Action, s: Id, h: nat)
    requires Inv(st) && Abandoned(st, s, h)
    ensures Abandoned(Apply(st, a), s, h) && Apply(st, a).world.rows[s] == st.world.rows[s]
  {
    hide Inv;
    ApplyOk(st, a);
  }

  lemma {:induction false} AbandonedRun(acts: seq<Action>, more: seq<Action>, s: Id, h: nat)
    requires Abandoned(Run(acts), s, h)
    ensures Abandoned(Run(acts + more), s, h) && Run(acts + more).world.rows[s] == Run(acts).world.rows[s]
    decreases |more|
  {
    hide Inv, Apply;
    if more == [] {
      assert acts + more == acts;
    } else {
      var shorter := more[..|more| - 1];
      AbandonedRun(acts, shorter, s, h);
      RunOk(acts + shorter);
      AbandonedStep(Run(acts + shorter), more[|more| - 1], s, h);
      RunAppend(INIT, acts, more);
    }
  }

  /** Nobody takes over a claim: once its handler has stopped, for whatever reason, the session's row stays as it is,
      and a row left `running` answers no request with a snapshot. */
  lemma NoTakeover(acts: seq<Action>, more: seq<Action>, s: Id, h: nat, r: Response)
    requires Abandoned(Run(acts), s, h)
    ensures s in Run(acts + more).world.rows && Run(acts + more).world.rows[s] == Run(acts).world.rows[s]
    ensures Run(acts).world.rows[s].phase == Running && r.id.sessionId == s ==> r !in Run(acts + more).world.log.responses
  {
    RunOk(acts + more);
    AbandonedRun(acts, more, s, h);
    if r in Run(acts + more).world.log.responses { assert Recorded(Run(acts + more).world.rows, r); }
  }

  // ---------- Exactly which rows are stuck ----------

  /** The handler is between its insert and its terminal update of the row. */
  predicate Settling(pc: Pc, row: Row) {
    match pc
    case ClaimGet(id, owner, inserted) => inserted && id == row.id && owner == row.owner
    case Kill(id, owner) => id == row.id && owner == row.owner
    case Backup(id, owner) => id == row.id && owner == row.owner
    case Complete(id, owner, _) => id == row.id && owner == row.owner
    case Fail(id, owner, _) => id == row.id && owner == row.owner
    case _ => false
  }

  /** How many more of its own steps a settling handler needs. */
  function StepsLeft(pc: Pc): nat {
    match pc
    case ClaimGet(_, _, _) => 5
    case Kill(_, _) => 4
    case Backup(_, _) => 3
    case Complete(_, _, _) => 2
    case Fail(_, _, _) => 1
    case _ => 0
  }

  ghost predicate IsSettled(w: World, s: Id) {
    s in w.rows && w.rows[s].phase != Running
  }

  ghost predicate IsSettling(st: State, s: Id, h: nat) {
    && s in st.world.rows && s in st.world.log.claimed && st.world.log.claimed[s] == h
    && h in st.handlers && Settling(st.handlers[h], st.world.rows[s])
  }

  /** The claimant's own step settles the row or brings it closer; nobody else's step matters. */
  lemma OwnStepSettles(w: World, h: nat, pc: Pc, c: Choice, s: Id)
    requires WorldOk(w) && HandlerOk(w, h, pc) && s in w.rows && Settling(pc, w.rows[s])
    ensures var o := Advance(w, h, pc, c);
      || IsSettled(o.world, s)
      || (s in o.world.rows && o.world.rows[s].id == w.rows[s].id && o.world.rows[s].owner == w.rows[s].owner
          && Settling(o.pc, o.world.rows[s]) && StepsLeft(o.pc) < StepsLeft(pc))
  {
    hide Once, ResponsesOk;
    assert w.rows[s].id.sessionId == s;
  }

  lemma ActionSettles(st: State, a: Action, s: Id, h: nat)
    requires Inv(st) && IsSettling(st, s, h) && a != Crash(h)
    ensures var st' := Apply(st, a);
      || IsSettled(st'.world, s)
      || (IsSettling(st', s, h)
          && StepsLeft(st'.handlers[h]) + (if a.Step? && a.h == h then 1 else 0) <= StepsLeft(st.handlers[h]))
  {
    hide WorldOk, HandlerOk, Advance;
    ApplyOk(st, a);
    if a.Step? && a.h == h { OwnStepSettles(st.world, h, st.handlers[h], a.choice, s); }
  }

  function StepsOf(acts: seq<Action>, h: nat): nat {
    if acts == [] then 0
    else StepsOf(acts[..|acts| - 1], h) + (if acts[|acts| - 1].Step? && acts[|acts| - 1].h == h then 1 else 0)
  }

  lemma {:induction false} RunSettles(acts: seq<Action>, more: seq<Action>, s: Id, h: nat)
    requires IsSettling(Run(acts), s, h) && Crash(h) !in more
    ensures var st' := Run(acts + more);
      || IsSettled(st'.world, s)
      || (IsSettling(st', s, h) && StepsLeft(st'.handlers[h]) + StepsOf(more, h) <= StepsLeft(Run(acts).handlers[h]))
    decreases |more|
  {
    hide Inv, Apply, Settling, StepsLeft;
    if more == [] {
      assert acts + more == acts;
    } else {
      var shorter, last := more[..|more| - 1], more[|more| - 1];
      RunSettles(acts, shorter, s, h);
      RunOk(acts + shorter);
      RunAppend(INIT, acts, more);
      if IsSettled(Run(acts + shorter).world, s) {
        SettledStays(Run(acts + shorter), last, s);
      } else {
        ActionSettles(Run(acts + shorter), last, s, h);
      }
    }
  }

  lemma SettledStays(st: State, a: Action, s: Id)
    requires Inv(st) && IsSettled(st.world, s)
    ensures IsSettled(Apply(st, a).world, s)
  {
    hide Inv, Apply;
    ApplyOk(st, a);
  }

  /** From any reachable state, a claimant that does not crash settles its row within five steps of its own,
      in every interleaving and whatever its calls return. */
  lemma ClaimantSettles(acts: seq<Action>, more: seq<Action>, s: Id, h: nat)
    requires IsSettling(Run(acts), s, h) && Crash(h) !in more && StepsOf(more, h) >= 5
    ensures IsSettled(Run(acts + more).world, s)
  {
    hide Settling;
    RunSettles(acts, more, s, h);
    SettlingRange(Run(acts).handlers[h], Run(acts).world.rows[s]);
    if IsSettling(Run(acts + more), s, h) {
      SettlingRange(Run(acts + more).handlers[h], Run(acts + more).world.rows[s]);
    }
  }

  lemma SettlingRange(pc: Pc, row: Row)
    requires Settling(pc, row)
    ensures 1 <= StepsLeft(pc) <= 5
  {
  }

  /** The row is settled, or its claimant is at work on it or has stopped. */
  ghost predicate Claimant(st: State, s: Id) {
    IsSettled(st.world, s) || (exists h: nat :: IsSettling(st, s, h) || Abandoned(st, s, h))
  }

  lemma ClaimantStep(st: State, a: Action, s: Id)
    requires Inv(st) && (s in st.world.rows ==> Claimant(st, s))
    ensures s in Apply(st, a).world.rows ==> Claimant(Apply(st, a), s)
  {
    hide WorldOk, HandlerOk, Settling;
    var st' := Apply(st, a);
    ApplyOk(st, a);
    if s in st.world.rows {
      if IsSettled(st.world, s) {
        SettledStays(st, a, s);
      } else {
        var h: nat :| IsSettling(st, s, h) || Abandoned(st, s, h);
        if Abandoned(st, s, h) {
          AbandonedStep(st, a, s, h);
        } else if a == Crash(h) {
          assert Abandoned(st', s, h);
        } else {
          ActionSettles(st, a, s, h);
        }
      }
    } else if s in st'.world.rows {
      NewRow(st, a, s);
    }
  }

  /** A new row is its inserter's. */
  lemma NewRow(st: State, a: Action, s: Id)
    requires s !in st.world.rows && s in Apply(st, a).world.rows
    ensures a.Step? && IsSettling(Apply(st, a), s, a.h)
  {
  }

  lemma {:induction false} EveryRowHasAClaimant(acts: seq<Action>, s: Id)
    ensures s in Run(acts).world.rows ==> Claimant(Run(acts), s)
  {
    hide Claimant, Inv, Apply;
    if acts != [] {
      EveryRowHasAClaimant(acts[..|acts| - 1], s);
      RunOk(acts[..|acts| - 1]);
      ClaimantStep(Run(acts[..|acts| - 1]), acts[|acts| - 1], s);
    }
  }

  /** A running row of a reachable state is stuck for good if and only if its claimant has stopped; otherwise its
      claimant is still settling it, and five of its steps without a crash do so. */
  lemma StuckExactlyWhenAbandoned(acts: seq<Action>, s: Id)
    requires s in Run(acts).world.rows && Run(acts).world.rows[s].phase == Running
    ensures (exists h: nat :: Abandoned(Run(acts), s, h)) <==> Stuck(acts, s)
  {
    hide Abandoned, IsSettling, Run;
    if exists h: nat :: Abandoned(Run(acts), s, h) {
      var h: nat :| Abandoned(Run(acts), s, h);
      forall more: seq<Action> ensures !IsSettled(Run(acts + more).world, s) {
        AbandonedRun(acts, more, s, h);
      }
    } else {
      EveryRowHasAClaimant(acts, s);
      var h: nat :| IsSettling(Run(acts), s, h);
      var c := Choice(false, false, None, "");
      var more := [Step(h, c), Step(h, c), Step(h, c), Step(h, c), Step(h, c)];
      FiveSteps(h, c);
      ClaimantSettles(acts, more, s, h);
    }
  }

  /** Nothing that may still happen settles the row. */
  ghost predicate Stuck(acts: seq<Action>, s: Id) {
    forall more: seq<Action> :: !IsSettled(Run(acts + more).world, s)
  }

  lemma FiveSteps(h: nat, c: Choice)
    ensures StepsOf([Step(h, c), Step(h, c), Step(h, c), Step(h, c), Step(h, c)], h) == 5
  {
    var x := Step(h, c);
    assert [x, x, x, x, x][..4] == [x, x, x, x] && [x, x, x, x][..3] == [x, x, x];
    assert [x, x, x][..2] == [x, x] && [x, x][..1] == [x] && [x][..0] == [];
    assert StepsOf([x], h) == 1;
    assert StepsOf([x, x], h) == 2;
    assert StepsOf([x, x, x], h) == 3;
    assert StepsOf([x, x, x, x], h) == 4;
  }

  /** A handler that crashes right after its insert. */
  function CrashedClaim(id: FinalizeId, owner: Owner, c: Choice): seq<Action> {
    [Bind(id.sessionId, owner), Spawn(0, id, false), Step(0, c), Step(0, c), Crash(0)]
  }

  /** Such rows are reached: a crash between the claim and the terminal update leaves one. */
  lemma CrashAbandonsTheClaim(id: FinalizeId, owner: Owner, c: Choice)
    ensures var st := Run(CrashedClaim(id, owner, c));
      Abandoned(st, id.sessionId, 0) && st.world.rows[id.sessionId].phase == Running
  {
    var acts := CrashedClaim(id, owner, c);
    OneMore([], acts[0]);
    OneMore(acts[..1], acts[1]);
    OneMore(acts[..2], acts[2]);
    OneMore(acts[..3], acts[3]);
    OneMore(acts[..4], acts[4]);
    assert [] + [acts[0]] == acts[..1] && acts[..1] + [acts[1]] == acts[..2] && acts[..2] + [acts[2]] == acts[..3];
    assert acts[..3] + [acts[3]] == acts[..4] && acts[..4] + [acts[4]] == acts;
    assert Run([]) == INIT;
    assert Run(acts[..3]).handlers[0] == ClaimInsert(id, owner);
  }

  lemma OneMore(acts: seq<Action>, a: Action)
    ensures Run(acts + [a]) == Apply(Run(acts), a)
  {
    hide Apply;
    assert (acts + [a])[..|acts|] == acts;
  }

  // ---------- A claimant whose calls return ----------

  /** Every call of `h` returns, and its backup makes this snapshot. */
  predicate Smooth(acts: seq<Action>, h: nat, snapshot: Id) {
    forall i | 0 <= i < |acts| ::
      && acts[i] != Crash(h)
      && (acts[i].Step? && acts[i].h == h ==> acts[i].choice.ok && acts[i].choice.snapshot == Some(snapshot))
  }

  /** The claimant on its way to answer with the snapshot. */
  predicate Completing(w: World, pc: Pc, id: FinalizeId, owner: Owner, snapshot: Id) {
    match pc
    case ClaimGet(i, o, inserted) => inserted && i == id && o == owner
    case Kill(i, o) => i == id && o == owner
    case Backup(i, o) => i == id && o == owner
    case Complete(i, o, s) => i == id && o == owner && s == snapshot
    case Answer(r) => r == Response(id, snapshot)
    case _ => false
  }

  function StepsToAnswer(pc: Pc): nat {
    match pc
    case ClaimGet(_, _, _) => 5
    case Kill(_, _) => 4
    case Backup(_, _) => 3
    case Complete(_, _, _) => 2
    case Answer(_) => 1
    case _ => 0
  }

  ghost predicate AnsweredWith(w: World, id: FinalizeId, snapshot: Id) {
    Response(id, snapshot) in w.log.responses
  }

  ghost predicate OnCourse(s: State, h: nat, id: FinalizeId, owner: Owner, snapshot: Id, budget: int) {
    || AnsweredWith(s.world, id, snapshot)
    || (h in s.handlers && Completing(s.world, s.handlers[h], id, owner, snapshot) && StepsToAnswer(s.handlers[h]) <= budget)
  }

  lemma OwnStepCompletes(w: World, h: nat, pc: Pc, c: Choice, id: FinalizeId, owner: Owner, snapshot: Id)
    requires WorldOk(w) && HandlerOk(w, h, pc) && Completing(w, pc, id, owner, snapshot)
    requires c.ok && c.snapshot == Some(snapshot)
    ensures var o := Advance(w, h, pc, c);
      || AnsweredWith(o.world, id, snapshot)
      || (Completing(o.world, o.pc, id, owner, snapshot) && StepsToAnswer(o.pc) < StepsToAnswer(pc))
  {
    hide WorldOk;
  }

  lemma ResponsesStay(w: World, h: nat, pc: Pc, c: Choice)
    ensures w.log.responses <= Advance(w, h, pc, c).world.log.responses
  {
    hide Insert, Get, Settle;
  }

  lemma ActionCompletes(s: State, a: Action, h: nat, id: FinalizeId, owner: Owner, snapshot: Id, budget: int)
    requires Inv(s) && OnCourse(s, h, id, owner, snapshot, budget) && Smooth([a], h, snapshot)
    ensures OnCourse(Apply(s, a), h, id, owner, snapshot, budget - if a.Step? && a.h == h then 1 else 0)
  {
    hide WorldOk, HandlerOk, Advance, StepsToAnswer;
    assert [a][0] == a;
    if a.Step? && a.h in s.handlers { ResponsesStay(s.world, a.h, s.handlers[a.h], a.choice); }
    if !AnsweredWith(s.world, id, snapshot) && a.Step? && a.h == h {
      OwnStepCompletes(s.world, h, s.handlers[h], a.choice, id, owner, snapshot);
    }
  }

  lemma {:induction false} RunCompletes(
    acts: seq<Action>, more: seq<Action>, h: nat, id: FinalizeId, owner: Owner, snapshot: Id)
    requires OnCourse(Run(acts), h, id, owner, snapshot, 5) && Smooth(more, h, snapshot)
    ensures OnCourse(Run(acts + more), h, id, owner, snapshot, 5 - StepsOf(more, h))
    decreases |more|
  {
    hide Inv, Apply, OnCourse;
    if more == [] {
      assert acts + more == acts;
    } else {
      var shorter, last := more[..|more| - 1], more[|more| - 1];
      RunCompletes(acts, shorter, h, id, owner, snapshot);
      RunOk(acts + shorter);
      RunAppend(INIT, acts, more);
      ActionCompletes(Run(acts + shorter), last, h, id, owner, snapshot, 5 - StepsOf(shorter, h));
    }
  }

  /** A claimant whose calls all return settles its row as completed with its backup's snapshot, and answers it. */
  lemma SmoothClaimantCompletes(
    acts: seq<Action>, more: seq<Action>, h: nat, id: FinalizeId, owner: Owner, snapshot: Id)
    requires h in Run(acts).handlers && Run(acts).handlers[h] == ClaimGet(id, owner, true)
    requires Smooth(more, h, snapshot) && StepsOf(more, h) >= 5
    ensures var w := Run(acts + more).world;
      && Response(id, snapshot) in w.log.responses
      && id.sessionId in w.rows && w.rows[id.sessionId].id == id && w.rows[id.sessionId].phase == Completed(snapshot)
  {
    hide Run;
    assert OnCourse(Run(acts), h, id, owner, snapshot, 5);
    RunCompletes(acts, more, h, id, owner, snapshot);
    RunOk(acts + more);
    CourseEnds(Run(acts + more), h, id, owner, snapshot, 5 - StepsOf(more, h));
    assert Recorded(Run(acts + more).world.rows, Response(id, snapshot));
  }

  lemma CourseEnds(s: State, h: nat, id: FinalizeId, owner: Owner, snapshot: Id, budget: int)
    requires OnCourse(s, h, id, owner, snapshot, budget) && budget <= 0
    ensures AnsweredWith(s.world, id, snapshot)
  {
  }

  /** An exact retry, and a status call, of a completed session answer with the recorded snapshot. */
  lemma ReplaysTheSnapshot(w: World, h: nat, id: FinalizeId, statusOnly: bool, snapshot: Id, c: Choice)
    requires id.sessionId in w.owners
    requires id.sessionId in w.rows && w.rows[id.sessionId] == Row(id, w.owners[id.sessionId], Completed(snapshot))
    ensures var o1 := Advance(w, h, OwnerLookup(id, statusOnly), c);
      var o2 := Advance(o1.world, h, o1.pc, c);
      var o3 := if statusOnly then o2 else Advance(o2.world, h, o2.pc, c);
      var o4 := Advance(o3.world, h, o3.pc, c);
      && o4.world.rows == w.rows && o4.world.log.kills == w.log.kills && o4.world.log.backups == w.log.backups
      && Response(id, snapshot) in o4.world.log.responses
  {
  }

  /** A first request for a session with an owner claims it. */
  lemma FirstRequestClaims(w: World, h: nat, id: FinalizeId, c: Choice)
    requires id.sessionId in w.owners && id.sessionId !in w.rows
    ensures var o1 := Advance(w, h, OwnerLookup(id, false), c);
      var o2 := Advance(o1.world, h, o1.pc, c);
      && o2.pc == ClaimGet(id, w.owners[id.sessionId], true)
      && id.sessionId in o2.world.rows && o2.world.rows[id.sessionId] == Row(id, w.owners[id.sessionId], Running)
  {
  }
}
