/** The reservation table, with the two triggers that bind the session owner and spend the allowance. */
module Reservations {
  import opened Managed

  datatype Source = WorkspaceProvision | DirectExecution

  datatype Phase = Provisioning | Ready | Failed

  datatype Reservation = Reservation(
    invocationId: Id, sessionId: Id, owner: Owner, requestHash: RequestHash, source: Source,
    provisionDigest: Option<Id>, phase: Phase, errorCode: Option<Id>, allowance: Allowance)

  /** The operator-seeded singleton row of the allowance table. */
  datatype Counter = Counter(allowance: Allowance, reserved: nat)

  datatype Tables = Tables(counter: Option<Counter>, owners: map<Id, Owner>, rows: map<Id, Reservation>)

  datatype Insertion =
    | Added(tables: Tables)
    | Skipped
    | OwnerMismatch
    | AllowanceUnavailable

  function Owned(t: Tables, id: Id, owner: Owner): Option<Reservation> {
    if id in t.rows && t.rows[id].owner == owner then Some(t.rows[id]) else None
  }

  predicate CanSpend(t: Tables, a: Allowance) {
    t.counter.Some? && t.counter.value.allowance == a && t.counter.value.reserved < a.limit
  }

  /** `INSERT OR IGNORE` with both `AFTER INSERT` triggers: one atomic statement, rolled back as a whole. */
  function Insert(t: Tables, r: Reservation): Insertion {
    if r.invocationId in t.rows then Skipped
    else if r.sessionId in t.owners && t.owners[r.sessionId] != r.owner then OwnerMismatch
    else if !CanSpend(t, r.allowance) then AllowanceUnavailable
    else
      Added(Tables(
        Some(t.counter.value.(reserved := t.counter.value.reserved + 1)),
        t.owners[r.sessionId := r.owner],
        t.rows[r.invocationId := r]))
  }

  predicate CanTransition(t: Tables, id: Id, owner: Owner) {
    && id in t.rows
    && t.rows[id].owner == owner
    && t.rows[id].source == WorkspaceProvision
    && t.rows[id].phase == Provisioning
  }

  function MarkReady(t: Tables, id: Id, owner: Owner): Tables {
    if CanTransition(t, id, owner) then t.(rows := t.rows[id := t.rows[id].(phase := Ready)]) else t
  }

  function MarkFailed(t: Tables, id: Id, owner: Owner, code: Id): Tables {
    if CanTransition(t, id, owner)
    then t.(rows := t.rows[id := t.rows[id].(phase := Failed, errorCode := Some(code))])
    else t
  }

  /** The columns the `BEFORE UPDATE` trigger freezes. */
  predicate SameIdentity(a: Reservation, b: Reservation) {
    a == b.(phase := a.phase, errorCode := a.errorCode)
  }

  ghost function Spending(t: Tables, a: Allowance): set<Id> {
    set id | id in t.rows && t.rows[id].allowance == a
  }

  /** The allowance counter equals the number of reservations made under it, and stays within its limit. */
  ghost predicate Conserved(t: Tables) {
    t.counter.Some? ==>
      var c := t.counter.value;
      c.reserved <= c.allowance.limit && |Spending(t, c.allowance)| == c.reserved
  }

  ghost predicate KeyedByInvocation(t: Tables) {
    forall id | id in t.rows :: t.rows[id].invocationId == id
  }

  /** Every reserved session belongs to the owner of each of its reservations. */
  ghost predicate SessionsBound(t: Tables) {
    forall id | id in t.rows ::
      t.rows[id].sessionId in t.owners && t.owners[t.rows[id].sessionId] == t.rows[id].owner
  }

  ghost predicate Valid(t: Tables) {
    KeyedByInvocation(t) && SessionsBound(t) && Conserved(t)
  }

  lemma InsertKeepsValid(t: Tables, r: Reservation)
    requires Valid(t) && Insert(t, r).Added?
    ensures Valid(Insert(t, r).tables)
  {
    var t' := Insert(t, r).tables;
    assert Spending(t', r.allowance) == Spending(t, r.allowance) + {r.invocationId};
  }

  lemma TransitionKeepsValid(t: Tables, id: Id, owner: Owner, code: Id)
    requires Valid(t)
    ensures Valid(MarkReady(t, id, owner)) && Valid(MarkFailed(t, id, owner, code))
  {
    if CanTransition(t, id, owner) && t.counter.Some? {
      var a := t.counter.value.allowance;
      assert Spending(MarkReady(t, id, owner), a) == Spending(t, a);
      assert Spending(MarkFailed(t, id, owner, code), a) == Spending(t, a);
    }
  }

  /** Deploying a new epoch is the only reset path. */
  predicate CanSeed(t: Tables, a: Allowance) {
    forall id | id in t.rows :: t.rows[id].allowance.epoch != a.epoch
  }

  function Seed(t: Tables, a: Allowance): Tables {
    if CanSeed(t, a) then t.(counter := Some(Counter(a, 0))) else t
  }

  /** Seeding takes effect exactly for an epoch under which nothing was reserved, and starts it unspent. */
  lemma SeedOpensEpoch(t: Tables, a: Allowance)
    ensures (forall id | id in t.rows :: t.rows[id].allowance.epoch != a.epoch) ==>
      Seed(t, a).counter == Some(Counter(a, 0)) && Seed(t, a).rows == t.rows && Seed(t, a).owners == t.owners
    ensures (exists id :: id in t.rows && t.rows[id].allowance.epoch == a.epoch) ==> Seed(t, a) == t
  {
  }

  lemma SeedKeepsValid(t: Tables, a: Allowance)
    requires Valid(t)
    ensures Valid(Seed(t, a))
  {
    if CanSeed(t, a) {
      assert Spending(Seed(t, a), a) == {};
    }
  }
}
