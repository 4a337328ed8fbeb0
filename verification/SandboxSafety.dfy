/** No sandbox outlives a `deleted` row, in any run. */
module SandboxSafety {
  import opened Managed
  import opened Sandboxes
  import A = Allocations

  // ---------- The invariant ----------

  predicate Owns(owner: map<Id, nat>, id: Id, h: nat) {
    id in owner && owner[id] == h
  }

  /** A handler that has not yet launched the guest it alone may launch. */
  predicate Unlaunched(log: Log, id: Id, h: nat) {
    Owns(log.owner, id, h) && log.launches[id] == 0
  }

  predicate MeterOk(m: Meter) {
    m.gets <= MAX_READY_GETS && m.looks <= MAX_POLLS + 1 && m.polls <= MAX_POLLS
  }

  predicate HandlerOk(w: World, h: nat, pc: Pc) {
    && MeterOk(pc.meter)
    && match pc
       case Reserve(_, m) => m == UNUSED
       case Create(job, m) =>
         && m == UNUSED && Unlaunched(w.log, job.id, h) && w.log.creates[job.id] == 0
         && job.id in w.rows && w.rows[job.id].config == job.config
       case AwaitCreate(job, m) => m == UNUSED && Unlaunched(w.log, job.id, h)
       case AttachCreated(job, s, m) => m == UNUSED && Unlaunched(w.log, job.id, h) && Named(w.sessions, s, job.id)
       case WaitReady(job, _, m) => m.looks == 0 && m.polls == 0 && Unlaunched(w.log, job.id, h)
       case CheckReady(job, _, m) => m.looks == 0 && m.polls == 0 && Unlaunched(w.log, job.id, h)
       case Launch(job, _, m) => m.looks == 1 && m.polls == 0 && Unlaunched(w.log, job.id, h)
       case PollRead(job, _, m) => m.looks == m.polls + 1
       case PollExec(job, _, m) => m.looks == m.polls + 2 && m.polls < MAX_POLLS
       case AttachFound(id, s, _) => Named(w.sessions, s, id)
       case Remove(id, s, _) => Named(w.sessions, s, id)
       case SetDeleted(id, _) => id in w.log.gone
       case _ => true
  }

  type Sessions = map<Id, Session>
  type Pending = map<nat, Job>

  /** A row is either a tombstone, over which no create can ever be sent, or belongs to the one handler that reserved it. */
  predicate RowOk(row: A.Row, id: Id, sessions: Sessions, owner: map<Id, nat>, gone: map<Id, Id>) {
    && (id !in owner ==> row.phase == A.Deleted && row.session.None?)
    && (row.session.Some? ==> Named(sessions, row.session.value, id))
    && (row.phase == A.Deleted && id in owner ==> id in gone)
  }

  ghost predicate RowsOk(rows: A.Rows, sessions: Sessions, owner: map<Id, nat>, gone: map<Id, Id>) {
    && owner.Keys <= rows.Keys
    && forall id | id in rows :: RowOk(rows[id], id, sessions, owner, gone)
  }

  ghost predicate Once(owner: map<Id, nat>, count: multiset<Id>) {
    forall id :: count[id] <= 1 && (count[id] > 0 ==> id in owner)
  }

  /** An effect is only ever sent by the handler that reserved the invocation. */
  ghost predicate SentByOwner(owner: map<Id, nat>, count: multiset<Id>, sender: map<Id, nat>) {
    forall id :: count[id] > 0 ==> id in owner && id in sender && sender[id] == owner[id]
  }

  /** Requests and sessions carry the configuration of their row. */
  ghost predicate ConfigsOk(rows: A.Rows, pending: Pending, sessions: Sessions) {
    && (forall h | h in pending :: pending[h].id in rows && rows[pending[h].id].config == pending[h].config)
    && (forall s | s in sessions :: sessions[s].id in rows && rows[sessions[s].id].config == sessions[s].config)
  }

  /** Each outstanding request is its sender's only one. */
  ghost predicate PendingOk(pending: Pending, owner: map<Id, nat>, creates: multiset<Id>) {
    forall h | h in pending :: Owns(owner, pending[h].id, h) && creates[pending[h].id] == 1
  }

  /** One session per invocation at most, and none while its request is still outstanding. */
  ghost predicate SessionsOk(sessions: Sessions, pending: Pending, creates: multiset<Id>) {
    && (forall s | s in sessions :: creates[sessions[s].id] == 1)
    && (forall s, t | s in sessions && t in sessions && sessions[s].id == sessions[t].id :: s == t)
    && (forall s, h | s in sessions && h in pending :: sessions[s].id != pending[h].id)
  }

  ghost predicate GoneOk(sessions: Sessions, gone: map<Id, Id>) {
    forall id | id in gone :: Named(sessions, gone[id], id) && !sessions[gone[id]].live
  }

  ghost predicate WorldOk(w: World) {
    && RowsOk(w.rows, w.sessions, w.log.owner, w.log.gone)
    && Once(w.log.owner, w.log.creates)
    && Once(w.log.owner, w.log.launches)
    && PendingOk(w.pending, w.log.owner, w.log.creates)
    && SessionsOk(w.sessions, w.pending, w.log.creates)
    && GoneOk(w.sessions, w.log.gone)
    && SentByOwner(w.log.owner, w.log.creates, w.log.createdBy)
    && SentByOwner(w.log.owner, w.log.launches, w.log.launchedBy)
    && ConfigsOk(w.rows, w.pending, w.sessions)
  }

  // ---------- What a step by `h` leaves intact for everyone else (-1 is the provider) ----------

  /** Sessions keep their identity and are never brought back. */
  ghost predicate SessionsGrow(sessions: Sessions, sessions': Sessions) {
    forall s | s in sessions ::
      && s in sessions'
      && sessions'[s].id == sessions[s].id && sessions'[s].config == sessions[s].config
      && (sessions'[s].live ==> sessions[s].live)
  }

  ghost predicate OwnersGrow(owner: map<Id, nat>, owner': map<Id, nat>) {
    forall id | id in owner :: id in owner' && owner'[id] == owner[id]
  }

  ghost predicate CountedBy(owner: map<Id, nat>, count: multiset<Id>, count': multiset<Id>, h: int) {
    forall id :: count'[id] == count[id] || (id in owner && owner[id] == h)
  }

  ghost predicate SentBy(pending: Pending, pending': Pending, h: int) {
    forall other | other in pending' && other != h :: other in pending
  }

  ghost predicate Grows(w: World, w': World, h: int) {
    && A.Forward(w.rows, w'.rows)
    && SessionsGrow(w.sessions, w'.sessions)
    && OwnersGrow(w.log.owner, w'.log.owner)
    && w.log.gone.Keys <= w'.log.gone.Keys
    && CountedBy(w.log.owner, w.log.creates, w'.log.creates, h)
    && CountedBy(w.log.owner, w.log.launches, w'.log.launches, h)
    && SentBy(w.pending, w'.pending, h)
  }

  lemma Unchanged(w: World, h: int)
    ensures Grows(w, w, h)
  {
  }

  lemma HandlerStable(w: World, w': World, h: int, other: nat, pc: Pc)
    requires Grows(w, w', h) && other != h && HandlerOk(w, other, pc)
    ensures HandlerOk(w', other, pc)
  {
  }

  ghost predicate StepOk(w: World, h: nat, o: Outcome) {
    WorldOk(o.world) && HandlerOk(o.world, h, o.pc) && Grows(w, o.world, h)
  }

  // ---------- Each effect keeps it ----------

  ghost predicate Keeps(w: World, w': World, h: int) {
    WorldOk(w') && Grows(w, w', h)
  }

  lemma ReserveKeeps(w: World, job: Job, h: nat)
    requires WorldOk(w) && job.id !in w.rows
    ensures var w' := w.(rows := A.Reserve(w.rows, job.id, job.config), log := w.log.(owner := w.log.owner[job.id := h]));
            Keeps(w, w', h) && w.log.creates[job.id] == 0 && w.log.launches[job.id] == 0
  {
    hide SessionsOk, GoneOk, A.Forward, RowsOk, Once, PendingOk, SentByOwner, ConfigsOk;
    Unchanged(w, h);
    ReserveForward(w.rows, job);
    ConfigsForward(w.rows, A.Reserve(w.rows, job.id, job.config), w.pending, w.sessions);
    ReservedRows(w.rows, w.sessions, w.log.owner, w.log.gone, job, h);
    ReservedCounts(w, job.id, h);
  }

  lemma ReservedRows(rows: A.Rows, sessions: Sessions, owner: map<Id, nat>, gone: map<Id, Id>, job: Job, h: nat)
    requires RowsOk(rows, sessions, owner, gone) && job.id !in rows
    ensures job.id !in owner
    ensures RowsOk(A.Reserve(rows, job.id, job.config), sessions, owner[job.id := h], gone)
  {
  }

  /** A new owner changes nothing about the effects counted so far. */
  lemma ReservedCounts(w: World, id: Id, h: nat)
    requires WorldOk(w) && id !in w.log.owner
    ensures var owner' := w.log.owner[id := h];
      && Once(owner', w.log.creates) && Once(owner', w.log.launches) && PendingOk(w.pending, owner', w.log.creates)
      && OwnersGrow(w.log.owner, owner')
      && SentByOwner(owner', w.log.creates, w.log.createdBy) && SentByOwner(owner', w.log.launches, w.log.launchedBy)
    ensures w.log.creates[id] == 0 && w.log.launches[id] == 0
  {
    hide SessionsOk, GoneOk, RowsOk, ConfigsOk;
  }

  lemma ConfigsForward(rows: A.Rows, rows': A.Rows, pending: Pending, sessions: Sessions)
    requires ConfigsOk(rows, pending, sessions) && A.Forward(rows, rows')
    ensures ConfigsOk(rows', pending, sessions)
  {
  }

  lemma ReserveForward(rows: A.Rows, job: Job)
    ensures A.Forward(rows, A.Reserve(rows, job.id, job.config))
  {
  }

  /** The owner's one effect. */
  lemma CountOne(owner: map<Id, nat>, count: multiset<Id>, sender: map<Id, nat>, id: Id, h: nat)
    requires Once(owner, count) && SentByOwner(owner, count, sender) && Owns(owner, id, h) && count[id] == 0
    ensures Once(owner, count + multiset{id}) && SentByOwner(owner, count + multiset{id}, sender[id := h])
    ensures CountedBy(owner, count, count + multiset{id}, h)
  {
  }

  /** The request goes out: it is the only one, and no sandbox of it exists yet. */
  lemma SentRequest(w: World, job: Job, h: nat)
    requires WorldOk(w) && HandlerOk(w, h, Create(job, UNUSED))
    ensures var pending', creates' := w.pending[h := job], w.log.creates + multiset{job.id};
      && PendingOk(pending', w.log.owner, creates')
      && SessionsOk(w.sessions, pending', creates')
      && ConfigsOk(w.rows, pending', w.sessions)
  {
    hide RowsOk, GoneOk, Once, SentByOwner;
    var creates' := w.log.creates + multiset{job.id};
    assert forall id | id != job.id :: creates'[id] == w.log.creates[id];
    assert forall other | other in w.pending :: w.pending[other].id != job.id;
    assert forall s | s in w.sessions :: w.sessions[s].id != job.id;
  }

  lemma CreateKeeps(w: World, job: Job, h: nat)
    requires WorldOk(w) && HandlerOk(w, h, Create(job, UNUSED))
    ensures
      var w' := w.(
        pending := w.pending[h := job],
        log := w.log.(creates := w.log.creates + multiset{job.id}, createdBy := w.log.createdBy[job.id := h]));
      Keeps(w, w', h)
  {
    hide RowsOk, GoneOk, A.Forward, Once, SentByOwner, PendingOk, SessionsOk, ConfigsOk, CountedBy;
    Unchanged(w, h);
    CountOne(w.log.owner, w.log.creates, w.log.createdBy, job.id, h);
    SentRequest(w, job, h);
  }

  lemma LaunchKeeps(w: World, id: Id, h: nat)
    requires WorldOk(w) && Unlaunched(w.log, id, h)
    ensures
      var log := w.log.(launches := w.log.launches + multiset{id}, launchedBy := w.log.launchedBy[id := h]);
      Keeps(w, w.(log := log), h)
  {
    hide RowsOk, GoneOk, A.Forward, SessionsOk, PendingOk, ConfigsOk, Once, SentByOwner, CountedBy;
    Unchanged(w, h);
    CountOne(w.log.owner, w.log.launches, w.log.launchedBy, id, h);
  }

  /** Any change to the table alone. */
  lemma RowsKeep(w: World, rows: A.Rows, h: int)
    requires WorldOk(w) && A.Forward(w.rows, rows) && RowsOk(rows, w.sessions, w.log.owner, w.log.gone)
    ensures Keeps(w, w.(rows := rows), h)
  {
    hide RowsOk, GoneOk, A.Forward, SessionsOk, PendingOk, Once, SentByOwner, ConfigsOk;
    Unchanged(w, h);
    ConfigsForward(w.rows, rows, w.pending, w.sessions);
  }

  lemma AttachKeeps(w: World, id: Id, session: Id, h: nat)
    requires WorldOk(w) && Named(w.sessions, session, id)
    ensures Keeps(w, w.(rows := A.Attach(w.rows, id, session)), h)
  {
    hide GoneOk, SessionsOk, PendingOk, Once, Grows, SentByOwner, ConfigsOk;
    RowsKeep(w, A.Attach(w.rows, id, session), h);
  }

  lemma StopKeeps(w: World, id: Id, h: nat)
    requires WorldOk(w)
    ensures Keeps(w, w.(rows := A.Stop(w.rows, id)), h)
    ensures var row := A.Stop(w.rows, id)[id]; row.session.Some? ==> Named(w.sessions, row.session.value, id)
  {
    hide GoneOk, SessionsOk, PendingOk, Once, Grows, SentByOwner, ConfigsOk;
    RowsKeep(w, A.Stop(w.rows, id), h);
  }

  lemma DeletedKeeps(w: World, id: Id, h: nat)
    requires WorldOk(w) && id in w.log.gone
    ensures Keeps(w, w.(rows := A.MarkDeleted(w.rows, id)), h)
  {
    hide GoneOk, SessionsOk, PendingOk, Once, Grows, SentByOwner, ConfigsOk;
    RowsKeep(w, A.MarkDeleted(w.rows, id), h);
  }

  lemma RemoveKeeps(w: World, id: Id, session: Id, h: nat)
    requires WorldOk(w) && Named(w.sessions, session, id)
    ensures
      var w' := w.(sessions := w.sessions[session := w.sessions[session].(live := false)],
                   log := w.log.(gone := w.log.gone[id := session]));
      Keeps(w, w', h)
  {
    hide A.Forward, Once, RowsOk, SessionsOk, GoneOk, SessionsGrow, PendingOk, SentByOwner, ConfigsOk;
    Unchanged(w, h);
    RemovedSessions(w, id, session);
  }

  lemma RemovedSessions(w: World, id: Id, session: Id)
    requires WorldOk(w) && Named(w.sessions, session, id)
    ensures
      var sessions', gone' := w.sessions[session := w.sessions[session].(live := false)], w.log.gone[id := session];
      && SessionsGrow(w.sessions, sessions') && GoneOk(sessions', gone')
      && SessionsOk(sessions', w.pending, w.log.creates)
      && RowsOk(w.rows, sessions', w.log.owner, gone')
      && ConfigsOk(w.rows, w.pending, sessions')
  {
    hide Once, PendingOk, SentByOwner;
    var sessions' := w.sessions[session := w.sessions[session].(live := false)];
    assert forall s | s in w.sessions :: s in sessions' && sessions'[s].id == w.sessions[s].id;
    assert forall s | s in sessions' :: s in w.sessions;
    SameIdentities(w.sessions, sessions', w.pending, w.log.creates);
  }

  /** What is said of sessions by identity alone does not depend on which are live. */
  lemma SameIdentities(sessions: Sessions, sessions': Sessions, pending: Pending, creates: multiset<Id>)
    requires SessionsOk(sessions, pending, creates) && sessions'.Keys == sessions.Keys
    requires forall s | s in sessions :: sessions'[s].id == sessions[s].id
    ensures SessionsOk(sessions', pending, creates)
  {
  }

  /** The request takes effect: its sandbox is the only one of the invocation. */
  lemma NewSession(w: World, h: nat, session: Id)
    requires WorldOk(w) && h in w.pending && session !in w.sessions
    ensures
      var pending' := w.pending - {h};
      var sessions' := w.sessions[session := Session(w.pending[h].id, w.pending[h].config, true)];
      && SessionsOk(sessions', pending', w.log.creates) && PendingOk(pending', w.log.owner, w.log.creates)
      && ConfigsOk(w.rows, pending', sessions')
  {
    hide RowsOk, GoneOk, Once, SentByOwner;
    assert forall other | other in w.pending && w.pending[other].id == w.pending[h].id :: other == h;
  }

  lemma OldSessions(w: World, session: Id, added: Session)
    requires WorldOk(w) && session !in w.sessions
    ensures var sessions' := w.sessions[session := added];
      && RowsOk(w.rows, sessions', w.log.owner, w.log.gone) && GoneOk(sessions', w.log.gone)
      && SessionsGrow(w.sessions, sessions')
  {
    hide PendingOk, SessionsOk, Once, SentByOwner, ConfigsOk;
  }

  lemma MaterialiseKeeps(w: World, h: nat, session: Id)
    requires WorldOk(w) && h in w.pending && session !in w.sessions
    ensures
      var w' := w.(pending := w.pending - {h},
                   sessions := w.sessions[session := Session(w.pending[h].id, w.pending[h].config, true)]);
      Keeps(w, w', -1)
  {
    hide A.Forward, RowsOk, GoneOk, Once, SentByOwner, PendingOk, SessionsOk, ConfigsOk, SessionsGrow;
    Unchanged(w, -1);
    NewSession(w, h, session);
    OldSessions(w, session, Session(w.pending[h].id, w.pending[h].config, true));
  }

  // ---------- Each step keeps it ----------

  lemma CreateOk(w: World, h: nat, pc: Pc, c: Choice)
    requires WorldOk(w) && HandlerOk(w, h, pc)
    requires pc.Reserve? || pc.Create? || pc.AwaitCreate? || pc.AttachCreated?
    ensures StepOk(w, h, CreateStep(w, h, pc, c))
  {
    hide WorldOk, Grows;
    Unchanged(w, h);
    match pc
    case Reserve(job, _) => if job.id !in w.rows { ReserveKeeps(w, job, h); }
    case Create(job, _) => CreateKeeps(w, job, h);
    case AttachCreated(job, s, _) => AttachKeeps(w, job.id, s, h);
    case AwaitCreate(_, _) =>
  }

  lemma RunStepOk(w: World, h: nat, pc: Pc, c: Choice)
    requires WorldOk(w) && HandlerOk(w, h, pc)
    requires pc.WaitReady? || pc.CheckReady? || pc.Launch? || pc.PollRead? || pc.PollExec?
    ensures StepOk(w, h, RunStep(w, h, pc, c))
  {
    hide WorldOk, Grows;
    Unchanged(w, h);
    if pc.Launch? { LaunchKeeps(w, pc.job.id, h); }
  }

  lemma CleanupOk(w: World, h: nat, pc: Pc, c: Choice)
    requires WorldOk(w) && HandlerOk(w, h, pc)
    requires pc.StopRow? || pc.Find? || pc.AttachFound? || pc.Remove? || pc.SetDeleted?
    ensures StepOk(w, h, CleanupStep(w, pc, c))
  {
    hide WorldOk, Grows;
    Unchanged(w, h);
    match pc
    case StopRow(id, _) => StopKeeps(w, id, h);
    case AttachFound(id, s, _) => AttachKeeps(w, id, s, h);
    case Remove(id, s, _) => RemoveKeeps(w, id, s, h);
    case SetDeleted(id, _) => DeletedKeeps(w, id, h);
    case Find(_, _, _) =>
  }
}

/** What holds of every run of the DigitalOcean runtime. */
module SandboxTheorems {
  import opened Managed
  import opened Sandboxes
  import opened SandboxSafety
  import A = Allocations

  ghost predicate HandlersOk(s: State) {
    forall h | h in s.handlers :: HandlerOk(s.world, h, s.handlers[h])
  }

  ghost predicate Inv(s: State) {
    WorldOk(s.world) && HandlersOk(s)
  }

  /** The part of `Grows` that composes over steps of different handlers. */
  ghost predicate Extends(w: World, w': World) {
    && A.Forward(w.rows, w'.rows)
    && SessionsGrow(w.sessions, w'.sessions)
    && w.log.owner.Keys <= w'.log.owner.Keys
  }

  lemma AdvanceOk(w: World, h: nat, pc: Pc, c: Choice)
    requires WorldOk(w) && HandlerOk(w, h, pc)
    ensures StepOk(w, h, Advance(w, h, pc, c))
  {
    hide WorldOk;
    match pc
    case Reserve(_, _) | Create(_, _) | AwaitCreate(_, _) | AttachCreated(_, _, _) => CreateOk(w, h, pc, c);
    case WaitReady(_, _, _) | CheckReady(_, _, _) | Launch(_, _, _) | PollRead(_, _, _) | PollExec(_, _, _) =>
      RunStepOk(w, h, pc, c);
    case StopRow(_, _) | Find(_, _, _) | AttachFound(_, _, _) | Remove(_, _, _) | SetDeleted(_, _) =>
      CleanupOk(w, h, pc, c);
    case Done(_) => Unchanged(w, h);
  }

  lemma OthersOk(s: State, w': World, h: nat, pc: Pc)
    requires HandlersOk(s) && Grows(s.world, w', h) && HandlerOk(w', h, pc)
    ensures HandlersOk(State(w', s.handlers[h := pc]))
  {
    forall other | other in s.handlers && other != h ensures HandlerOk(w', other, s.handlers[other]) {
      HandlerStable(s.world, w', h, other, s.handlers[other]);
    }
  }

  lemma ApplyOk(s: State, a: Action)
    requires Inv(s)
    ensures Inv(Apply(s, a)) && Extends(s.world, Apply(s, a).world)
  {
    hide WorldOk, Advance;
    Unchanged(s.world, -1);
    match a
    case Step(h, c) =>
      if h in s.handlers {
        AdvanceOk(s.world, h, s.handlers[h], c);
        var o := Advance(s.world, h, s.handlers[h], c);
        OthersOk(s, o.world, h, o.pc);
      }
    case Materialise(h, session) =>
      if h in s.world.pending && session !in s.world.sessions {
        MaterialiseKeeps(s.world, h, session);
        forall other | other in s.handlers ensures HandlerOk(Apply(s, a).world, other, s.handlers[other]) {
          HandlerStable(s.world, Apply(s, a).world, -1, other, s.handlers[other]);
        }
      }
    case Crash(_) =>
    case Spawn(_, _) =>
  }

  lemma {:induction false} RunOk(acts: seq<Action>)
    ensures Inv(Run(acts))
  {
    if acts != [] {
      RunOk(acts[..|acts| - 1]);
      ApplyOk(Run(acts[..|acts| - 1]), acts[|acts| - 1]);
    }
  }

  lemma ForwardTransitive(a: A.Rows, b: A.Rows, c: A.Rows)
    requires A.Forward(a, b) && A.Forward(b, c)
    ensures A.Forward(a, c)
  {
  }

  lemma RunLonger(acts: seq<Action>, more: seq<Action>)
    requires more != []
    ensures Run(acts + more) == Apply(Run(acts + more[..|more| - 1]), more[|more| - 1])
  {
    hide Apply;
    assert (acts + more)[..|acts + more| - 1] == acts + more[..|more| - 1];
  }

  lemma ExtendsTransitive(a: World, b: World, c: World)
    requires Extends(a, b) && Extends(b, c)
    ensures Extends(a, c)
  {
    ForwardTransitive(a.rows, b.rows, c.rows);
  }

  lemma ExtendsItself(w: World)
    ensures Extends(w, w)
  {
  }

  lemma {:induction false} LaterExtends(acts: seq<Action>, more: seq<Action>)
    ensures Extends(Run(acts).world, Run(acts + more).world)
  {
    hide Extends, Run, Apply, Inv;
    if more == [] {
      assert acts + more == acts;
      ExtendsItself(Run(acts).world);
    } else {
      var shorter := more[..|more| - 1];
      LaterExtends(acts, shorter);
      RunLonger(acts, more);
      RunOk(acts + shorter);
      ApplyOk(Run(acts + shorter), more[|more| - 1]);
      ExtendsTransitive(Run(acts).world, Run(acts + shorter).world, Run(acts + more).world);
    }
  }

  /** No create for the invocation was sent, and none is waiting to take effect. */
  ghost predicate NeverCreated(w: World, id: Id) {
    && w.log.creates[id] == 0
    && (forall h | h in w.pending :: w.pending[h].id != id)
    && (forall s | s in w.sessions :: w.sessions[s].id != id)
  }

  /** Its one sandbox took effect and is gone, and no request of it is left that could take effect later. */
  ghost predicate CreatedAndRemoved(w: World, id: Id) {
    && w.log.creates[id] == 1
    && (forall h | h in w.pending :: w.pending[h].id != id)
    && (exists s :: s in w.sessions && w.sessions[s].id == id)
    && (forall s | s in w.sessions && w.sessions[s].id == id :: !w.sessions[s].live)
  }

  lemma DeletedNow(w: World, id: Id)
    requires WorldOk(w) && id in w.rows && w.rows[id].phase == A.Deleted
    ensures id !in w.log.owner ==> NeverCreated(w, id)
    ensures id in w.log.owner ==> CreatedAndRemoved(w, id)
  {
    assert RowOk(w.rows[id], id, w.sessions, w.log.owner, w.log.gone);
    if id in w.log.owner {
      var s := w.log.gone[id];
      assert Named(w.sessions, s, id) && !w.sessions[s].live;
      assert forall t | t in w.sessions && w.sessions[t].id == id :: t == s;
    }
  }

  /** `deleted` is truthful from the moment it is written and for good: either no sandbox was or ever will be created
      for the invocation, or its only one took effect and was removed. */
  lemma DeletedIsTruthful(acts: seq<Action>, more: seq<Action>, id: Id)
    requires id in Run(acts).world.rows && Run(acts).world.rows[id].phase == A.Deleted
    ensures NeverCreated(Run(acts + more).world, id) || CreatedAndRemoved(Run(acts + more).world, id)
    ensures id !in Run(acts).world.log.owner ==> NeverCreated(Run(acts + more).world, id)
  {
    LaterExtends(acts, more);
    RunOk(acts);
    RunOk(acts + more);
    var w, w' := Run(acts).world, Run(acts + more).world;
    DeletedNow(w', id);
    if id !in w.log.owner {
      TombstoneStays(acts, more, id);
    }
  }

  /** Only a reserve of an absent row sets an owner. */
  lemma OwnerAdvance(w: World, h: nat, pc: Pc, c: Choice, id: Id)
    requires id in w.rows && id !in w.log.owner
    ensures id !in Advance(w, h, pc, c).world.log.owner
  {
    hide A.Attach, A.Stop, A.MarkDeleted, A.Reserve, Named;
    if pc.Reserve? || pc.Create? || pc.AwaitCreate? || pc.AttachCreated? {
      hide RunStep, CleanupStep;
    } else if pc.WaitReady? || pc.CheckReady? || pc.Launch? || pc.PollRead? || pc.PollExec? {
      hide CreateStep, CleanupStep;
      RunKeepsOwners(w, h, pc, c);
    } else if !pc.Done? {
      hide CreateStep, RunStep;
      CleanupKeepsOwners(w, pc, c);
    }
  }

  lemma RunKeepsOwners(w: World, h: nat, pc: Pc, c: Choice)
    requires pc.WaitReady? || pc.CheckReady? || pc.Launch? || pc.PollRead? || pc.PollExec?
    ensures RunStep(w, h, pc, c).world.log.owner == w.log.owner
  {
  }

  lemma CleanupKeepsOwners(w: World, pc: Pc, c: Choice)
    requires pc.StopRow? || pc.Find? || pc.AttachFound? || pc.Remove? || pc.SetDeleted?
    ensures CleanupStep(w, pc, c).world.log.owner == w.log.owner
  {
    hide A.Attach, A.MarkDeleted, Named;
  }

  lemma OwnerStep(s: State, a: Action, id: Id)
    requires id in s.world.rows && id !in s.world.log.owner
    ensures id !in Apply(s, a).world.log.owner
  {
    hide Advance;
    if a.Step? && a.h in s.handlers { OwnerAdvance(s.world, a.h, s.handlers[a.h], a.choice, id); }
  }

  /** A stop that came first fences every later reserve. */
  lemma {:induction false} TombstoneStays(acts: seq<Action>, more: seq<Action>, id: Id)
    requires id in Run(acts).world.rows && id !in Run(acts).world.log.owner
    ensures id in Run(acts + more).world.rows && id !in Run(acts + more).world.log.owner
  {
    hide Run, Apply;
    LaterExtends(acts, more);
    if more == [] {
      assert acts + more == acts;
    } else {
      TombstoneStays(acts, more[..|more| - 1], id);
      RunLonger(acts, more);
      OwnerStep(Run(acts + more[..|more| - 1]), more[|more| - 1], id);
    }
  }

  /** One create and one guest launch at most per invocation, both only by the handler that reserved it. */
  lemma EffectsAtMostOnce(acts: seq<Action>, id: Id)
    ensures var log := Run(acts).world.log;
      && log.creates[id] <= 1 && log.launches[id] <= 1
      && (log.creates[id] > 0 ==> id in log.owner && id in log.createdBy && log.createdBy[id] == log.owner[id])
      && (log.launches[id] > 0 ==> id in log.owner && id in log.launchedBy && log.launchedBy[id] == log.owner[id])
  {
    RunOk(acts);
    assert Once(Run(acts).world.log.owner, Run(acts).world.log.creates);
    assert Once(Run(acts).world.log.owner, Run(acts).world.log.launches);
  }

  /** Allocation rows only move forward. */
  lemma PhasesMoveForward(acts: seq<Action>, more: seq<Action>, id: Id)
    requires id in Run(acts).world.rows
    ensures id in Run(acts + more).world.rows
    ensures A.Order(Run(acts).world.rows[id].phase) <= A.Order(Run(acts + more).world.rows[id].phase)
  {
    LaterExtends(acts, more);
  }

  /** One execute makes at most 30 readiness gets, 135 polls and 136 allocation reads. */
  lemma CallsAreBounded(acts: seq<Action>, h: nat)
    requires h in Run(acts).handlers
    ensures var m := Run(acts).handlers[h].meter; m.gets <= 30 && m.polls <= 135 && m.looks <= 136
  {
    RunOk(acts);
    assert HandlerOk(Run(acts).world, h, Run(acts).handlers[h]);
  }

  // ---------- A cleanup that is not disturbed does clean up ----------

  /** A cleanup of the invocation whose one sandbox is `session`, with what it has learnt so far. */
  predicate Cleaning(w: World, pc: Pc, id: Id, session: Id) {
    && Named(w.sessions, session, id)
    && match pc
       case StopRow(i, _) => i == id
       case Find(i, config, _) => i == id && config == w.sessions[session].config
       case AttachFound(i, s, _) => i == id && s == session
       case Remove(i, s, _) => i == id && s == session
       case SetDeleted(i, _) => i == id
       case _ => false
  }

  function StepsLeft(pc: Pc): nat {
    match pc
    case StopRow(_, _) => 5
    case Find(_, _, _) => 4
    case AttachFound(_, _, _) => 3
    case Remove(_, _, _) => 2
    case SetDeleted(_, _) => 1
    case _ => 0
  }

  /** The row is deleted and the sandbox is gone. */
  ghost predicate Cleaned(w: World, id: Id, session: Id) {
    && id in w.rows && w.rows[id].phase == A.Deleted
    && session in w.sessions && !w.sessions[session].live
  }

  /** A materialised sandbox belongs to a reserved row. */
  lemma SessionHasRow(w: World, id: Id, session: Id)
    requires WorldOk(w) && Named(w.sessions, session, id)
    ensures id in w.rows && id in w.log.owner && w.rows[id].config == w.sessions[session].config
    ensures w.rows[id].session.Some? ==> w.rows[id].session.value == session
    ensures w.rows[id].phase == A.Deleted ==> !w.sessions[session].live
    ensures forall t | Named(w.sessions, t, id) :: t == session
  {
    hide PendingOk, SentByOwner;
    assert w.log.creates[id] == 1;
    assert id in w.rows;
    assert RowOk(w.rows[id], id, w.sessions, w.log.owner, w.log.gone);
  }

  lemma OwnStepCleans(w: World, h: nat, pc: Pc, c: Choice, id: Id, session: Id)
    requires WorldOk(w) && HandlerOk(w, h, pc) && Cleaning(w, pc, id, session) && c.ok && c.found == Some(session)
    ensures var o := Advance(w, h, pc, c);
      Cleaned(o.world, id, session) || (Cleaning(o.world, o.pc, id, session) && StepsLeft(o.pc) < StepsLeft(pc))
  {
    hide WorldOk;
    SessionHasRow(w, id, session);
    AdvanceOk(w, h, pc, c);
    if pc.SetDeleted? { SessionHasRow(Advance(w, h, pc, c).world, id, session); }
  }

  lemma CleanedStays(w: World, w': World, id: Id, session: Id)
    requires Extends(w, w') && Cleaned(w, id, session)
    ensures Cleaned(w', id, session)
  {
  }

  lemma CleaningStays(w: World, w': World, pc: Pc, id: Id, session: Id)
    requires Extends(w, w') && Cleaning(w, pc, id, session)
    ensures Cleaning(w', pc, id, session)
  {
  }

  /** `h` does not crash, its calls do not throw, and the provider's listing shows the sandbox. */
  predicate Undisturbed(acts: seq<Action>, h: nat, session: Id) {
    forall i | 0 <= i < |acts| ::
      && acts[i] != Crash(h)
      && (acts[i].Step? && acts[i].h == h ==> acts[i].choice.ok && acts[i].choice.found == Some(session))
  }

  function StepsOf(acts: seq<Action>, h: nat): nat {
    if acts == [] then 0
    else StepsOf(acts[..|acts| - 1], h) + (if acts[|acts| - 1].Step? && acts[|acts| - 1].h == h then 1 else 0)
  }

  ghost predicate OnTrack(s: State, h: nat, id: Id, session: Id, budget: int) {
    || Cleaned(s.world, id, session)
    || (h in s.handlers && Cleaning(s.world, s.handlers[h], id, session) && StepsLeft(s.handlers[h]) <= budget)
  }

  lemma ActionCleans(s: State, a: Action, h: nat, id: Id, session: Id, budget: int)
    requires Inv(s) && OnTrack(s, h, id, session, budget) && Undisturbed([a], h, session)
    ensures OnTrack(Apply(s, a), h, id, session, budget - if a.Step? && a.h == h then 1 else 0)
  {
    hide WorldOk, HandlerOk, Advance, Cleaning, StepsLeft, Cleaned;
    assert [a][0] == a;
    ApplyOk(s, a);
    if Cleaned(s.world, id, session) {
      CleanedStays(s.world, Apply(s, a).world, id, session);
    } else if a.Step? && a.h == h {
      OwnStepCleans(s.world, h, s.handlers[h], a.choice, id, session);
    } else {
      CleaningStays(s.world, Apply(s, a).world, s.handlers[h], id, session);
    }
  }

  lemma {:induction false} RunCleans(acts: seq<Action>, more: seq<Action>, h: nat, id: Id, session: Id)
    requires h in Run(acts).handlers && Cleaning(Run(acts).world, Run(acts).handlers[h], id, session)
    requires Undisturbed(more, h, session)
    ensures OnTrack(Run(acts + more), h, id, session, 5 - StepsOf(more, h))
    decreases |more|
  {
    hide Run, Apply, Inv, Cleaning, Cleaned;
    if more == [] {
      assert acts + more == acts;
    } else {
      var shorter, last := more[..|more| - 1], more[|more| - 1];
      RunCleans(acts, shorter, h, id, session);
      RunLonger(acts, more);
      RunOk(acts + shorter);
      ActionCleans(Run(acts + shorter), last, h, id, session, 5 - StepsOf(shorter, h));
    }
  }

  /** Once the sandbox has materialised, a cleanup whose five steps are not disturbed ends with the row deleted and the
      sandbox gone, in every interleaving with every other handler. */
  lemma CleanupCleans(acts: seq<Action>, more: seq<Action>, h: nat, id: Id, session: Id)
    requires h in Run(acts).handlers && Cleaning(Run(acts).world, Run(acts).handlers[h], id, session)
    requires Undisturbed(more, h, session) && StepsOf(more, h) >= 5
    ensures Cleaned(Run(acts + more).world, id, session)
  {
    hide Run, Cleaned;
    RunCleans(acts, more, h, id, session);
  }

  // ---------- No launch and no poll after a stop ----------

  predicate StandsAtLaunch(pc: Pc, id: Id) {
    pc.Launch? && pc.job.id == id
  }

  /** The invocation has been stopped before its guest was launched, and nobody is about to launch it. */
  ghost predicate StoppedUnlaunched(s: State, id: Id) {
    && id in s.world.rows && s.world.rows[id].phase in {A.Stopping, A.Deleted}
    && s.world.log.launches[id] == 0
    && forall h | h in s.handlers :: !StandsAtLaunch(s.handlers[h], id)
  }

  lemma RunLaunches(w: World, h: nat, pc: Pc, c: Choice, id: Id)
    requires pc.WaitReady? || pc.CheckReady? || pc.Launch? || pc.PollRead? || pc.PollExec?
    requires id in w.rows && w.rows[id].phase in {A.Stopping, A.Deleted} && !StandsAtLaunch(pc, id)
    ensures var o := RunStep(w, h, pc, c);
      o.world.log.launches[id] == w.log.launches[id] && !StandsAtLaunch(o.pc, id)
  {
  }

  lemma OthersDoNotLaunch(w: World, h: nat, pc: Pc, c: Choice, id: Id)
    requires !pc.WaitReady? && !pc.CheckReady? && !pc.Launch? && !pc.PollRead? && !pc.PollExec?
    ensures var o := Advance(w, h, pc, c);
      o.world.log.launches == w.log.launches && !StandsAtLaunch(o.pc, id)
  {
    hide RunStep, A.Attach, A.Stop, A.MarkDeleted, A.Reserve, Named;
  }

  lemma StoppedStep(s: State, a: Action, id: Id)
    requires Inv(s) && StoppedUnlaunched(s, id)
    ensures StoppedUnlaunched(Apply(s, a), id)
  {
    hide WorldOk, HandlerOk, Advance;
    ApplyOk(s, a);
    if a.Step? && a.h in s.handlers {
      var pc := s.handlers[a.h];
      if pc.WaitReady? || pc.CheckReady? || pc.Launch? || pc.PollRead? || pc.PollExec? {
        AdvanceRuns(s.world, a.h, pc, a.choice);
        RunLaunches(s.world, a.h, pc, a.choice, id);
      } else {
        OthersDoNotLaunch(s.world, a.h, pc, a.choice, id);
      }
    }
  }

  lemma AdvanceRuns(w: World, h: nat, pc: Pc, c: Choice)
    requires pc.WaitReady? || pc.CheckReady? || pc.Launch? || pc.PollRead? || pc.PollExec?
    ensures Advance(w, h, pc, c) == RunStep(w, h, pc, c)
  {
  }

  /** A guest that was not launched before its invocation was stopped is never launched afterwards. */
  lemma {:induction false} NoLaunchAfterStop(acts: seq<Action>, more: seq<Action>, id: Id)
    requires StoppedUnlaunched(Run(acts), id)
    ensures StoppedUnlaunched(Run(acts + more), id)
    decreases |more|
  {
    hide Run, Apply, Inv, StoppedUnlaunched;
    if more == [] {
      assert acts + more == acts;
    } else {
      NoLaunchAfterStop(acts, more[..|more| - 1], id);
      RunLonger(acts, more);
      RunOk(acts + more[..|more| - 1]);
      StoppedStep(Run(acts + more[..|more| - 1]), more[|more| - 1], id);
    }
  }

  /** The check before the launch decides by the row, and a launch under a ready row is counted for its sender. */
  lemma LaunchesExactlyOnReady(w: World, h: nat, job: Job, session: Id, m: Meter, c: Choice)
    ensures var o := Advance(w, h, CheckReady(job, session, m), c);
      && o.world == w
      && (job.id in w.rows && w.rows[job.id].phase == A.Ready ==> StandsAtLaunch(o.pc, job.id))
      && (job.id !in w.rows || w.rows[job.id].phase != A.Ready ==> o.pc == StopRow(job.id, o.pc.meter))
    ensures var o := Advance(w, h, Launch(job, session, m), c);
      && o.world.log.launches[job.id] == w.log.launches[job.id] + 1
      && job.id in o.world.log.launchedBy && o.world.log.launchedBy[job.id] == h
      && o.pc == (if c.ok then PollRead(job, session, m) else StopRow(job.id, m))
  {
  }

  /** The handler sends no poll: it is about to see that its row is no longer ready, or cleaning up, or done. */
  predicate PollsNoMore(w: World, pc: Pc) {
    || (pc.PollRead? && pc.job.id in w.rows && w.rows[pc.job.id].phase in {A.Stopping, A.Deleted})
    || pc.StopRow? || pc.Find? || pc.AttachFound? || pc.Remove? || pc.SetDeleted? || pc.Done?
  }

  lemma NoPollStep(w: World, h: nat, pc: Pc, c: Choice)
    requires PollsNoMore(w, pc)
    ensures var o := Advance(w, h, pc, c); PollsNoMore(o.world, o.pc) && o.pc.meter.polls == pc.meter.polls
  {
    hide A.Attach, A.MarkDeleted, Named;
  }

  lemma NoPollAction(s: State, a: Action, h: nat)
    requires Inv(s) && h in s.handlers && PollsNoMore(s.world, s.handlers[h])
    ensures h in Apply(s, a).handlers && PollsNoMore(Apply(s, a).world, Apply(s, a).handlers[h])
    ensures Apply(s, a).handlers[h].meter.polls == s.handlers[h].meter.polls
  {
    hide WorldOk, HandlerOk, Advance;
    ApplyOk(s, a);
    if a.Step? && a.h == h { NoPollStep(s.world, h, s.handlers[h], a.choice); }
  }

  /** Once its row is stopped, a handler that stands before its next poll sends none any more. */
  lemma {:induction false} NoPollAfterStop(acts: seq<Action>, more: seq<Action>, h: nat)
    requires h in Run(acts).handlers && PollsNoMore(Run(acts).world, Run(acts).handlers[h])
    ensures h in Run(acts + more).handlers && PollsNoMore(Run(acts + more).world, Run(acts + more).handlers[h])
    ensures Run(acts + more).handlers[h].meter.polls == Run(acts).handlers[h].meter.polls
    decreases |more|
  {
    hide Run, Apply, Inv, PollsNoMore;
    if more == [] {
      assert acts + more == acts;
    } else {
      NoPollAfterStop(acts, more[..|more| - 1], h);
      RunLonger(acts, more);
      RunOk(acts + more[..|more| - 1]);
      NoPollAction(Run(acts + more[..|more| - 1]), more[|more| - 1], h);
    }
  }

  // ---------- An execute that is left alone ----------

  /** One step of the only handler. */
  function Solo(w: World, h: nat, pc: Pc, c: Choice, n: nat): Outcome
    decreases n
  {
    if n == 0 then Outcome(w, pc)
    else
      var o := Advance(w, h, pc, c);
      Solo(o.world, h, o.pc, c, n - 1)
  }

  lemma Next(w: World, h: nat, pc: Pc, c: Choice, n: nat)
    requires n > 0
    ensures var o := Advance(w, h, pc, c); Solo(w, h, pc, c, n) == Solo(o.world, h, o.pc, c, n - 1)
    ensures n == 1 ==> Solo(w, h, pc, c, n) == Advance(w, h, pc, c)
  {
    hide Advance;
  }

  /** On a free invocation an execute reserves the row and sends its create. */
  lemma ExecuteSendsCreate(w: World, h: nat, job: Job, c: Choice)
    requires job.id !in w.rows
    ensures var o := Solo(w, h, Reserve(job, UNUSED), c, 2);
      && o.pc == AwaitCreate(job, UNUSED)
      && h in o.world.pending && o.world.pending[h] == job
      && o.world.log.creates[job.id] == w.log.creates[job.id] + 1
      && job.id in o.world.rows && o.world.rows[job.id] == A.Row(job.config, None, A.Creating)
      && o.world.sessions == w.sessions && o.world.log.launches == w.log.launches
  {
    hide Solo;
    Next(w, h, Reserve(job, UNUSED), c, 2);
    var w1 := CreateStep(w, h, Reserve(job, UNUSED), c).world;
    Next(w1, h, Create(job, UNUSED), c, 1);
  }

  /** Once the create has taken effect and is answered, the sandbox is attached and the guest launched and polled. */
  lemma ExecuteLaunches(w: World, h: nat, job: Job, session: Id, c: Choice)
    requires job.id in w.rows && w.rows[job.id] == A.Row(job.config, None, A.Creating)
    requires Named(w.sessions, session, job.id) && w.sessions[session].config == job.config
    requires c.ok && c.ready && c.inTime && c.found == Some(session)
    ensures var o := Solo(w, h, AwaitCreate(job, UNUSED), c, 5);
      && o.pc == PollExec(job, session, Meter(0, 2, 0))
      && o.world.rows == w.rows[job.id := A.Row(job.config, Some(session), A.Ready)]
      && o.world.sessions == w.sessions
      && o.world.log.launches[job.id] == w.log.launches[job.id] + 1
  {
    hide Solo;
    Next(w, h, AwaitCreate(job, UNUSED), c, 5);
    Next(w, h, AttachCreated(job, session, UNUSED), c, 4);
    var w1 := w.(rows := A.Attach(w.rows, job.id, session));
    assert Advance(w, h, AttachCreated(job, session, UNUSED), c) == Outcome(w1, CheckReady(job, session, UNUSED));
    Next(w1, h, CheckReady(job, session, UNUSED), c, 3);
    var m := Meter(0, 1, 0);
    assert Advance(w1, h, CheckReady(job, session, UNUSED), c) == Outcome(w1, Launch(job, session, m));
    Next(w1, h, Launch(job, session, m), c, 2);
    var w2 := RunStep(w1, h, Launch(job, session, m), c).world;
    Next(w2, h, PollRead(job, session, m), c, 1);
  }

  /** A sandbox that is not ready yet is asked again, up to thirty times while there is time; once it is ready the execute
      goes on, and otherwise it gives up and cleans up. */
  lemma WaitsUntilReady(w: World, h: nat, job: Job, session: Id, m: Meter, c: Choice)
    ensures var o := Advance(w, h, WaitReady(job, session, m), c);
      var asked := m.(gets := m.gets + 1);
      && o.world == w
      && (m.gets >= 30 || !c.inTime ==> o.pc == StopRow(job.id, m))
      && (m.gets < 30 && c.inTime ==>
           o.pc == if !c.ok then StopRow(job.id, asked)
                   else if c.ready then CheckReady(job, session, asked)
                   else WaitReady(job, session, asked))
  {
  }

  /** After a poll that returns the result, the row is deleted and the sandbox removed. */
  lemma ExecuteCleansUp(w: World, h: nat, job: Job, session: Id, m: Meter, c: Choice)
    requires job.id in w.rows && w.rows[job.id] == A.Row(job.config, Some(session), A.Ready)
    requires session in w.sessions && c.ok && !c.pending
    ensures var o := Solo(w, h, PollExec(job, session, m), c, 4);
      && o.pc == Done(m.(polls := m.polls + 1))
      && Cleaned(o.world, job.id, session)
  {
    hide Solo, Advance;
    var m' := m.(polls := m.polls + 1);
    Next(w, h, PollExec(job, session, m), c, 4);
    Next(w, h, StopRow(job.id, m'), c, 3);
    var w1 := w.(rows := A.Stop(w.rows, job.id));
    var w2 := CleanupStep(w1, Remove(job.id, session, m'), c).world;
    CleanupSteps(w, h, job, session, m, c);
    Next(w1, h, Remove(job.id, session, m'), c, 2);
    Next(w2, h, SetDeleted(job.id, m'), c, 1);
  }

  /** The last poll, the stop, the removal and the final update, one by one. */
  lemma CleanupSteps(w: World, h: nat, job: Job, session: Id, m: Meter, c: Choice)
    requires job.id in w.rows && w.rows[job.id] == A.Row(job.config, Some(session), A.Ready)
    requires session in w.sessions && c.ok && !c.pending
    ensures
      var m' := m.(polls := m.polls + 1);
      var w1 := w.(rows := A.Stop(w.rows, job.id));
      var w2 := CleanupStep(w1, Remove(job.id, session, m'), c).world;
      && Advance(w, h, PollExec(job, session, m), c) == Outcome(w, StopRow(job.id, m'))
      && Advance(w, h, StopRow(job.id, m'), c) == Outcome(w1, Remove(job.id, session, m'))
      && Advance(w1, h, Remove(job.id, session, m'), c) == Outcome(w2, SetDeleted(job.id, m'))
      && Advance(w2, h, SetDeleted(job.id, m'), c).pc == Done(m')
      && Cleaned(Advance(w2, h, SetDeleted(job.id, m'), c).world, job.id, session)
  {
    hide CreateStep;
  }

  /** A poll that is still pending goes on to the next, up to the limit, and then the execute gives up and cleans up. */
  lemma PendingPollsGoOn(w: World, h: nat, job: Job, session: Id, m: Meter, c: Choice)
    requires c.ok && c.pending && c.inTime && job.id in w.rows && w.rows[job.id].phase == A.Ready
    ensures var o := Solo(w, h, PollExec(job, session, m), c, 2);
      && o.world == w
      && (m.polls + 1 < 135 ==> o.pc == PollExec(job, session, Meter(m.gets, m.looks + 1, m.polls + 1)))
      && (m.polls + 1 >= 135 ==> o.pc == StopRow(job.id, m.(polls := m.polls + 1)))
  {
    hide Solo;
    Next(w, h, PollExec(job, session, m), c, 2);
    Next(w, h, PollRead(job, session, m.(polls := m.polls + 1)), c, 1);
  }

  /** Between its reservation and its cleanup. */
  predicate Executing(pc: Pc) {
    || pc.Create? || pc.AwaitCreate? || pc.AttachCreated? || pc.WaitReady? || pc.CheckReady? || pc.Launch?
    || pc.PollRead? || pc.PollExec?
  }

  predicate Tidying(pc: Pc) {
    pc.StopRow? || pc.Find? || pc.AttachFound? || pc.Remove? || pc.SetDeleted?
  }

  /** Whatever its calls return, an execute that has reserved goes on executing or turns to the cleanup of its own
      invocation; it never just stops. */
  lemma ExecutesEndInCleanup(w: World, h: nat, pc: Pc, c: Choice)
    requires Executing(pc)
    ensures var o := Advance(w, h, pc, c);
      (Executing(o.pc) && o.pc.job == pc.job) || o.pc == StopRow(pc.job.id, o.pc.meter)
  {
    hide CleanupStep, A.Attach, Named;
  }

  /** What a poll is followed by: another while the result is pending, else the cleanup. */
  lemma PollDecides(w: World, h: nat, job: Job, session: Id, m: Meter, c: Choice)
    ensures var o := Advance(w, h, PollExec(job, session, m), c);
      var polled := m.(polls := m.polls + 1);
      o == Outcome(w, if c.ok && c.pending then PollRead(job, session, polled) else StopRow(job.id, polled))
  {
  }

  /** A stop fences the row at once: it is stopping, or deleted already or for good. */
  lemma StopFences(w: World, h: nat, id: Id, m: Meter, c: Choice)
    ensures var o := Advance(w, h, StopRow(id, m), c);
      && id in o.world.rows && o.world.rows[id].phase in {A.Stopping, A.Deleted}
      && (o.pc.Done? ==> o.world.rows[id].phase == A.Deleted)
  {
  }

  /** How many more of its own steps a handler can take. */
  function Rank(pc: Pc): int {
    match pc
    case Reserve(_, _) => 315
    case Create(_, _) => 314
    case AwaitCreate(_, _) => 313
    case AttachCreated(_, _, _) => 312
    case WaitReady(_, _, m) => 311 - m.gets
    case CheckReady(_, _, _) => 280
    case Launch(_, _, _) => 279
    case PollRead(_, _, m) => 278 - 2 * m.polls
    case PollExec(_, _, m) => 277 - 2 * m.polls
    case StopRow(_, _) => 5
    case Find(_, _, _) => 4
    case AttachFound(_, _, _) => 3
    case Remove(_, _, _) => 2
    case SetDeleted(_, _) => 1
    case Done(_) => 0
  }

  lemma StepDescends(w: World, h: nat, pc: Pc, c: Choice)
    requires HandlerOk(w, h, pc) && !pc.Done?
    ensures 0 < Rank(pc) <= 315 && Rank(Advance(w, h, pc, c).pc) < Rank(pc)
    ensures Rank(Advance(w, h, pc, c).pc) >= 0
  {
    hide A.Attach, Named;
  }

  lemma ActionDescends(s: State, a: Action, h: nat)
    requires Inv(s) && h in s.handlers && 0 <= Rank(s.handlers[h]) <= 315
    ensures h in Apply(s, a).handlers && 0 <= Rank(Apply(s, a).handlers[h]) <= 315
    ensures var before, after := s.handlers[h], Apply(s, a).handlers[h];
      && (before.Done? ==> after.Done?)
      && (after.Done? || Rank(after) + (if a.Step? && a.h == h then 1 else 0) <= Rank(before))
  {
    hide WorldOk, HandlerOk, Advance, Rank;
    DoneIsLast(s.world, h);
    if a.Step? && a.h == h {
      if s.handlers[h].Done? { DoneStays(s.world, h, s.handlers[h], a.choice); }
      else { StepDescends(s.world, h, s.handlers[h], a.choice); }
    }
  }

  lemma DoneIsLast(w: World, h: nat)
    ensures forall m :: Rank(Done(m)) == 0
  {
  }

  lemma DoneStays(w: World, h: nat, pc: Pc, c: Choice)
    requires pc.Done?
    ensures Advance(w, h, pc, c).pc == pc
  {
  }

  lemma {:induction false} RankBoundsSteps(acts: seq<Action>, more: seq<Action>, h: nat)
    requires h in Run(acts).handlers && 0 <= Rank(Run(acts).handlers[h]) <= 315
    ensures h in Run(acts + more).handlers && 0 <= Rank(Run(acts + more).handlers[h]) <= 315
    ensures Run(acts + more).handlers[h].Done?
      || Rank(Run(acts + more).handlers[h]) + StepsOf(more, h) <= Rank(Run(acts).handlers[h])
    decreases |more|
  {
    hide Run, Apply, Inv, Rank;
    if more == [] {
      assert acts + more == acts;
    } else {
      RankBoundsSteps(acts, more[..|more| - 1], h);
      RunLonger(acts, more);
      RunOk(acts + more[..|more| - 1]);
      ActionDescends(Run(acts + more[..|more| - 1]), more[|more| - 1], h);
    }
  }

  /** Whatever the others do, 315 of its own steps finish any execute or cleanup. */
  lemma HandlersTerminate(acts: seq<Action>, more: seq<Action>, h: nat)
    requires h in Run(acts).handlers && StepsOf(more, h) >= 315
    ensures h in Run(acts + more).handlers && Run(acts + more).handlers[h].Done?
  {
    hide Run, StepsOf, WorldOk;
    RunOk(acts);
    RunOk(acts + more);
    RankRange(Run(acts), h);
    RankBoundsSteps(acts, more, h);
    RankRange(Run(acts + more), h);
  }

  lemma RankRange(s: State, h: nat)
    requires Inv(s) && h in s.handlers
    ensures 0 <= Rank(s.handlers[h]) <= 315 && (!s.handlers[h].Done? ==> Rank(s.handlers[h]) > 0)
  {
    hide WorldOk;
    assert HandlerOk(s.world, h, s.handlers[h]);
  }
}
