/**
 The DigitalOcean runtime as a transition system: executes and cleanups race over the allocation table and a
 provider whose `create` may take effect long after the request, after its response was lost, or never.
 */
module Sandboxes {
  import opened Managed
  import A = Allocations

  const MAX_READY_GETS: nat := 30
  const MAX_POLLS: nat := 135

  datatype Job = Job(id: Id, config: Id)

  /** Calls one handler has made: readiness gets, allocation reads and result polls. */
  datatype Meter = Meter(gets: nat, looks: nat, polls: nat)

  const UNUSED: Meter := Meter(0, 0, 0)

  datatype Pc =
    | Reserve(job: Job, meter: Meter)
    | Create(job: Job, meter: Meter)
    | AwaitCreate(job: Job, meter: Meter)
    | AttachCreated(job: Job, session: Id, meter: Meter)
    | WaitReady(job: Job, session: Id, meter: Meter)
    | CheckReady(job: Job, session: Id, meter: Meter)
    | Launch(job: Job, session: Id, meter: Meter)
    | PollRead(job: Job, session: Id, meter: Meter)
    | PollExec(job: Job, session: Id, meter: Meter)
    | StopRow(id: Id, meter: Meter)
    | Find(id: Id, config: Id, meter: Meter)
    | AttachFound(id: Id, session: Id, meter: Meter)
    | Remove(id: Id, session: Id, meter: Meter)
    | SetDeleted(id: Id, meter: Meter)
    | Done(meter: Meter)

  /** A sandbox that exists, or existed, at the provider under the name of invocation `id`. */
  datatype Session = Session(id: Id, config: Id, live: bool)

  /** `owner` is who reserved each invocation, `createdBy` and `launchedBy` who last sent its create and its launch;
      `gone` names the session whose removal was observed. */
  datatype Log = Log(
    owner: map<Id, nat>, creates: multiset<Id>, createdBy: map<Id, nat>,
    launches: multiset<Id>, launchedBy: map<Id, nat>, gone: map<Id, Id>)

  /** `pending` holds the create requests that have not taken effect, by the handler that sent them. */
  datatype World = World(rows: A.Rows, pending: map<nat, Job>, sessions: map<Id, Session>, log: Log)

  datatype State = State(world: World, handlers: map<nat, Pc>)

  /** `ok`: the call did not throw.  `effect`: it took effect at the provider even if it threw. */
  datatype Choice = Choice(ok: bool, effect: bool, ready: bool, inTime: bool, pending: bool, found: Option<Id>)

  datatype Action =
    | Spawn(h: nat, pc: Pc)
    | Crash(h: nat)
    | Materialise(h: nat, session: Id)
    | Step(h: nat, choice: Choice)

  datatype Outcome = Outcome(world: World, pc: Pc)

  const EMPTY: World := World(map[], map[], map[], Log(map[], multiset{}, map[], multiset{}, map[], map[]))

  const INIT: State := State(EMPTY, map[])

  predicate Named(sessions: map<Id, Session>, session: Id, id: Id) {
    session in sessions && sessions[session].id == id
  }

  function CreateStep(w: World, h: nat, pc: Pc, c: Choice): Outcome
    requires pc.Reserve? || pc.Create? || pc.AwaitCreate? || pc.AttachCreated?
  {
    var job, m := pc.job, pc.meter;
    match pc
    case Reserve(_, _) =>
      if job.id in w.rows then Outcome(w, Done(m))
      else
        Outcome(
          w.(rows := A.Reserve(w.rows, job.id, job.config), log := w.log.(owner := w.log.owner[job.id := h])),
          Create(job, m))
    case Create(_, _) =>
      Outcome(
        w.(pending := w.pending[h := job],
           log := w.log.(creates := w.log.creates + multiset{job.id}, createdBy := w.log.createdBy[job.id := h])),
        AwaitCreate(job, m))
    case AwaitCreate(_, _) =>
      if c.ok && c.found.Some? && Named(w.sessions, c.found.value, job.id) && w.sessions[c.found.value].config == job.config
      then Outcome(w, AttachCreated(job, c.found.value, m))
      else Outcome(w, StopRow(job.id, m))
    case AttachCreated(_, session, _) =>
      var rows := A.Attach(w.rows, job.id, session);
      var attached := job.id in rows && rows[job.id].phase == A.Ready;
      Outcome(w.(rows := rows), if !attached then StopRow(job.id, m)
                                else if c.ready then CheckReady(job, session, m)
                                else WaitReady(job, session, m))
  }

  function RunStep(w: World, h: nat, pc: Pc, c: Choice): Outcome
    requires pc.WaitReady? || pc.CheckReady? || pc.Launch? || pc.PollRead? || pc.PollExec?
  {
    var job, session, m := pc.job, pc.session, pc.meter;
    var ready := job.id in w.rows && w.rows[job.id].phase == A.Ready;
    match pc
    case WaitReady(_, _, _) =>
      if m.gets < MAX_READY_GETS && c.inTime then
        var m' := m.(gets := m.gets + 1);
        Outcome(w, if !c.ok then StopRow(job.id, m')
                   else if c.ready then CheckReady(job, session, m')
                   else WaitReady(job, session, m'))
      else Outcome(w, StopRow(job.id, m))
    case CheckReady(_, _, _) =>
      var m' := m.(looks := m.looks + 1);
      Outcome(w, if ready then Launch(job, session, m') else StopRow(job.id, m'))
    case Launch(_, _, _) =>
      Outcome(
        w.(log := w.log.(launches := w.log.launches + multiset{job.id}, launchedBy := w.log.launchedBy[job.id := h])),
        if c.ok then PollRead(job, session, m) else StopRow(job.id, m))
    case PollRead(_, _, _) =>
      if m.polls < MAX_POLLS && c.inTime then
        var m' := m.(looks := m.looks + 1);
        Outcome(w, if ready then PollExec(job, session, m') else StopRow(job.id, m'))
      else Outcome(w, StopRow(job.id, m))
    case PollExec(_, _, _) =>
      var m' := m.(polls := m.polls + 1);
      Outcome(w, if c.ok && c.pending then PollRead(job, session, m') else StopRow(job.id, m'))
  }

  function CleanupStep(w: World, pc: Pc, c: Choice): Outcome
    requires pc.StopRow? || pc.Find? || pc.AttachFound? || pc.Remove? || pc.SetDeleted?
  {
    var id, m := pc.id, pc.meter;
    match pc
    case StopRow(_, _) =>
      var rows := A.Stop(w.rows, id);
      var row := rows[id];
      Outcome(w.(rows := rows), if row.phase == A.Deleted then Done(m)
                                else if row.session.Some? then Remove(id, row.session.value, m)
                                else Find(id, row.config, m))
    case Find(_, config, _) =>
      // The provider may also fail to list a sandbox that exists; absence proves nothing.
      if c.ok && c.found.Some? && Named(w.sessions, c.found.value, id) && w.sessions[c.found.value].config == config
      then Outcome(w, AttachFound(id, c.found.value, m))
      else Outcome(w, Done(m))
    case AttachFound(_, session, _) =>
      Outcome(w.(rows := A.Attach(w.rows, id, session)), Remove(id, session, m))
    case Remove(_, session, _) =>
      var removed := session in w.sessions && (c.ok || c.effect);
      var w' := if removed
        then w.(sessions := w.sessions[session := w.sessions[session].(live := false)],
                log := w.log.(gone := w.log.gone[id := session]))
        else w;
      Outcome(w', if c.ok then SetDeleted(id, m) else Done(m))
    case SetDeleted(_, _) => Outcome(w.(rows := A.MarkDeleted(w.rows, id)), Done(m))
  }

  function Advance(w: World, h: nat, pc: Pc, c: Choice): Outcome {
    match pc
    case Reserve(_, _) | Create(_, _) | AwaitCreate(_, _) | AttachCreated(_, _, _) => CreateStep(w, h, pc, c)
    case WaitReady(_, _, _) | CheckReady(_, _, _) | Launch(_, _, _) | PollRead(_, _, _) | PollExec(_, _, _) =>
      RunStep(w, h, pc, c)
    case StopRow(_, _) | Find(_, _, _) | AttachFound(_, _, _) | Remove(_, _, _) | SetDeleted(_, _) =>
      CleanupStep(w, pc, c)
    case Done(_) => Outcome(w, pc)
  }

  predicate Starting(pc: Pc) {
    (pc.Reserve? || pc.StopRow?) && pc.meter == UNUSED
  }

  function Apply(s: State, a: Action): State {
    match a
    case Spawn(h, pc) => if h !in s.handlers && Starting(pc) then s.(handlers := s.handlers[h := pc]) else s
    case Crash(h) => if h in s.handlers then s.(handlers := s.handlers[h := Done(s.handlers[h].meter)]) else s
    case Materialise(h, session) =>
      // A request takes effect at most once, at any later time, even after its sender has gone.
      if h in s.world.pending && session !in s.world.sessions then
        var job := s.world.pending[h];
        s.(world := s.world.(
          pending := s.world.pending - {h},
          sessions := s.world.sessions[session := Session(job.id, job.config, true)]))
      else s
    case Step(h, c) =>
      if h in s.handlers then
        var o := Advance(s.world, h, s.handlers[h], c);
        State(o.world, s.handlers[h := o.pc])
      else s
  }

  function Run(acts: seq<Action>): State {
    if acts == [] then INIT else Apply(Run(acts[..|acts| - 1]), acts[|acts| - 1])
  }
}
