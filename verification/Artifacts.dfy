/** Terminal results, the immutable artifact that carries one, and the write-once bucket that decides the winner. */
module Artifacts {
  import opened Managed

  const MAX_EVIDENCE_EVENTS: nat := 2_000
  const MAX_ARTIFACT_BYTES: nat := 8 * 1024 * 1024
  const MAX_EVENT_BYTES: nat := 256 * 1024
  const MAX_PAGE: nat := 100

  datatype Status = Running | Completed | Failed | Cancelled | Interrupted

  datatype Error = Error(code: Id, message: string)

  const MISSING_EVIDENCE: Error :=
    Error(Id("runtime_failed"), "Pillbox managed invocation completed without immutable positional evidence")

  datatype Terminal = Success(output: string) | Failure(status: Status, error: Error)

  datatype SessionRef = SessionRef(sessionId: Id, seqRange: Option<(int, int)>)

  datatype Disposition = Created | Reused

  datatype Result = Result(
    disposition: Disposition, invocationId: Id, requestHash: RequestHash, executionDigest: Id, policyRevision: Id,
    sessionRef: SessionRef, attribution: Attribution, terminal: Terminal)

  /** One evidence value with the length of its JSON encoding. */
  datatype Event = Event(json: string, bytes: nat)

  datatype Cost = Cost(analyticsPlanned: nat, detail: string)

  /** `bytes` is the length of the serialised body. */
  datatype Artifact = Artifact(
    invocationId: Id, requestHash: RequestHash, result: Result, evidence: seq<Event>, cost: Option<Cost>, bytes: nat)

  /** SHA-256 is taken to be injective, so a digest is represented by what it digests. */
  datatype Digest = Digest(of: Artifact)

  datatype Key = Key(invocationId: Id, requestHash: RequestHash)

  datatype Ref = Ref(key: Key, bytes: nat, sha256: Digest)

  function KeyOf(a: Artifact): Key {
    Key(a.invocationId, a.requestHash)
  }

  function RefOf(a: Artifact): Ref {
    Ref(KeyOf(a), a.bytes, Digest(a))
  }

  function StatusOf(t: Terminal): Status {
    match t
    case Success(_) => Completed
    case Failure(status, _) => status
  }

  /** A success without evidence is recorded as a typed failure. */
  function TerminalOutcome(t: Terminal, evidenceLength: nat): Terminal {
    if t.Success? && evidenceLength == 0 then Failure(Failed, MISSING_EVIDENCE) else t
  }

  function PositionalRef(sessionId: Id, evidenceLength: nat): SessionRef {
    SessionRef(sessionId, if evidenceLength == 0 then None else Some((0, evidenceLength - 1)))
  }

  predicate IsTerminal(t: Terminal) {
    t.Success? || t.status in {Failed, Cancelled, Interrupted}
  }

  function ErrorStatus(code: Id): (status: Status)
    ensures IsTerminal(Failure(status, Error(code, "")))
  {
    if code == Id("cancelled") then Cancelled
    else if code == Id("runtime_interrupted") then Interrupted
    else Failed
  }

  predicate Writable(a: Artifact) {
    && |a.evidence| <= MAX_EVIDENCE_EVENTS
    && (forall i | 0 <= i < |a.evidence| :: a.evidence[i].bytes <= MAX_EVENT_BYTES)
    && a.bytes <= MAX_ARTIFACT_BYTES
  }

  datatype Written =
    | Stored(ref: Ref)
    | Conflict(existingRef: Ref, existing: Artifact)
    | Rejected

  datatype Putting = Putting(objects: map<Key, Artifact>, written: Written)

  /** What a write comes to when nothing happens between its put and its read. */
  function SequentialWrite(objects: map<Key, Artifact>, a: Artifact): Putting {
    if !Writable(a) then Putting(objects, Rejected)
    else if KeyOf(a) !in objects then Putting(objects[KeyOf(a) := a], Stored(RefOf(a)))
    else if objects[KeyOf(a)] == a then Putting(objects, Stored(RefOf(a)))
    else Putting(objects, Conflict(RefOf(objects[KeyOf(a)]), objects[KeyOf(a)]))
  }

  /** The bucket, reached only through a conditional put and a get. */
  class Bucket {
    var objects: map<Key, Artifact>

    constructor ()
      ensures objects == map[]
    {
      objects := map[];
    }

    /** Whatever the outcome, the caller is left holding the one object that lives at the key. */
    method Write(a: Artifact) returns (r: Written)
      requires forall k | k in objects :: KeyOf(objects[k]) == k
      modifies this
      ensures Putting(objects, r) == SequentialWrite(old(objects), a)
      ensures r == Rejected <==> !Writable(a)
      ensures r == Rejected ==> objects == old(objects)
      ensures r != Rejected ==> objects == old(objects)[KeyOf(a) := if KeyOf(a) in old(objects) then old(objects)[KeyOf(a)] else a]
      ensures r.Stored? ==> objects[KeyOf(a)] == a && r.ref == RefOf(a)
      ensures r.Conflict? ==> r.existing != a && objects[KeyOf(a)] == r.existing && r.existingRef == RefOf(r.existing)
    {
      if |a.evidence| > MAX_EVIDENCE_EVENTS { return Rejected; }
      for i := 0 to |a.evidence|
        invariant forall j | 0 <= j < i :: a.evidence[j].bytes <= MAX_EVENT_BYTES
      {
        if a.evidence[i].bytes > MAX_EVENT_BYTES { return Rejected; }
      }
      if a.bytes > MAX_ARTIFACT_BYTES { return Rejected; }
      if KeyOf(a) !in objects {
        objects := objects[KeyOf(a) := a];
        return Stored(RefOf(a));
      }
      var existing := objects[KeyOf(a)];
      if existing != a {
        return Conflict(RefOf(existing), existing);
      }
      return Stored(RefOf(existing));
    }
  }

  /** The stored object at a ref, if the ref's length and digest still match it. */
  function ReadObject(objects: map<Key, Artifact>, ref: Ref): Option<Artifact> {
    if ref.key in objects && RefOf(objects[ref.key]) == ref then Some(objects[ref.key]) else None
  }

  datatype Page = Page(from: nat, next: Option<nat>, truncated: bool, events: seq<Event>)

  /** `Array.prototype.slice` with non-negative bounds, which clamps instead of failing. */
  function Slice(e: seq<Event>, from: nat, to: nat): seq<Event> {
    var hi := if to <= |e| then to else |e|;
    if from <= hi then e[from..hi] else []
  }

  function EvidencePage(e: seq<Event>, after: nat, limit: nat): Page {
    var events := Slice(e, after, after + limit);
    var next := if after + |events| < |e| then Some(after + |events|) else None;
    Page(after, next, next.Some?, events)
  }

  /** What a client assembles by asking for page after page; `limits(k)` is the limit it sends on page `k`. */
  function Follow(e: seq<Event>, after: nat, limits: nat -> nat, k: nat): seq<Event>
    requires forall i :: limits(i) >= 1
    decreases |e| - after
  {
    var page := EvidencePage(e, after, limits(k));
    if page.next.None? then page.events
    else page.events + Follow(e, page.next.value, limits, k + 1)
  }

  /** Paging from a cursor rebuilds exactly the evidence from that position on, whatever the page sizes. */
  lemma {:induction false} PagesRebuildEvidence(e: seq<Event>, after: nat, limits: nat -> nat, k: nat)
    requires forall i :: limits(i) >= 1
    ensures Follow(e, after, limits, k) == Slice(e, after, |e|)
    decreases |e| - after
  {
    var page := EvidencePage(e, after, limits(k));
    if page.next.Some? {
      PagesRebuildEvidence(e, page.next.value, limits, k + 1);
      assert e[after..] == e[after..page.next.value] + e[page.next.value..];
    }
  }

  lemma WholeEvidence(e: seq<Event>, limits: nat -> nat)
    requires forall i :: limits(i) >= 1
    ensures Follow(e, 0, limits, 0) == e
  {
    PagesRebuildEvidence(e, 0, limits, 0);
  }
}
