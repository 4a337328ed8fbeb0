/** The fold of a session log into token usage: one observation per message, totals per counter. */
module Usage {
  import opened Managed
  import opened Text

  const U64_MAX: nat := 0xFFFF_FFFF_FFFF_FFFF

  type U64 = n: nat | n <= U64_MAX

  datatype Source = Native | Wire | Unspecified

  datatype Counter = Input | Output | CacheRead | CacheCreation

  datatype Counters<+T> = Counters(input: T, output: T, cacheRead: T, cacheCreation: T) {
    function Of(c: Counter): T {
      match c
      case Input => input
      case Output => output
      case CacheRead => cacheRead
      case CacheCreation => cacheCreation
    }
  }

  datatype Observation = Observation(messageId: Str, source: Source, tokens: Counters<Option<U64>>)

  datatype Envelope = Envelope(status: string, model: Counters<U64>, infrastructure: Option<string>)

  /** A log event: `RunCost` carries the managed envelope if its payload decodes. */
  datatype Event =
    | Used(usage: Observation)
    | RunCost(envelope: Option<Envelope>)
    | RunFinished
    | RunFailed
    | Other

  function SourceRank(s: Source): nat {
    match s
    case Native => 2
    case Wire => 1
    case Unspecified => 0
  }

  // ---------- The ordered map ----------

  type Tree = seq<Entry<Observation>>

  function Get(t: Tree, k: Str): Option<Observation> {
    if t == [] then None else if t[0].key == k then Some(t[0].value) else Get(t[1..], k)
  }

  /** Inserts a key, or replaces its value. */
  function Put(t: Tree, k: Str, v: Observation): Tree {
    if t == [] then [Entry(k, v)]
    else if t[0].key == k then [Entry(k, v)] + t[1..]
    else if Less(t[0].key, k) then [t[0]] + Put(t[1..], k, v)
    else [Entry(k, v)] + t
  }

  lemma {:induction false} PutKeys(t: Tree, k: Str, v: Observation)
    ensures forall e | e in Put(t, k, v) :: e.key == k || e in t
  {
    if t != [] && t[0].key != k && Less(t[0].key, k) { PutKeys(t[1..], k, v); }
  }

  lemma {:induction false} PutSorted(t: Tree, k: Str, v: Observation)
    requires Sorted(t)
    ensures Sorted(Put(t, k, v))
  {
    if t != [] {
      LessTotal(t[0].key, k);
      if t[0].key != k && Less(t[0].key, k) {
        PutSorted(t[1..], k, v);
        PutKeys(t[1..], k, v);
        assert forall e | e in t[1..] :: Less(t[0].key, e.key);
      } else if t[0].key != k {
        forall e | e in t ensures Less(k, e.key) {
          if e != t[0] { LessTransitive(k, t[0].key, e.key); }
        }
      }
    }
  }

  lemma {:induction false} GetPut(t: Tree, k: Str, v: Observation, q: Str)
    requires Sorted(t)
    ensures Get(Put(t, k, v), q) == if q == k then Some(v) else Get(t, q)
  {
    if t != [] {
      LessIrreflexive(k);
      if t[0].key != k && Less(t[0].key, k) {
        GetPut(t[1..], k, v, q);
        assert Put(t, k, v)[1..] == Put(t[1..], k, v);
      } else if t[0].key == k {
        assert Put(t, k, v)[1..] == t[1..];
      } else {
        assert Put(t, k, v)[1..] == t;
      }
    }
  }

  lemma {:induction false} GetMember(t: Tree, k: Str, v: Observation)
    requires Sorted(t)
    ensures Get(t, k) == Some(v) <==> Entry(k, v) in t
  {
    if t != [] {
      GetMember(t[1..], k, v);
      assert t == [t[0]] + t[1..];
      if t[0].key == k { LessIrreflexive(k); }
    }
  }

  /** Ordered maps with the same lookups are the same. */
  lemma SameLookupsSameTree(a: Tree, b: Tree)
    requires Sorted(a) && Sorted(b) && forall k :: Get(a, k) == Get(b, k)
    ensures a == b
  {
    forall e: Entry<Observation> ensures e in a <==> e in b {
      GetMember(a, e.key, e.value);
      GetMember(b, e.key, e.value);
      assert Get(a, e.key) == Get(b, e.key);
    }
    forall k ensures k in Keys(a) <==> k in Keys(b) {
      if k in Keys(a) { var e :| e in a && e.key == k; assert e in b; }
      if k in Keys(b) { var e :| e in b && e.key == k; assert e in a; }
    }
    SortedKeysUnique(a, b);
    forall i | 0 <= i < |a| ensures a[i] == b[i] {
      assert a[i] in b;
      var j :| 0 <= j < |b| && b[j] == a[i];
      assert a[j].key == a[i].key;
      LessIrreflexive(a[i].key);
    }
  }

  // ---------- One observation per message ----------

  function Observe(t: Tree, ev: Event): Tree {
    if !ev.Used? then t
    else
      var current := Get(t, ev.usage.messageId);
      if current.None? || SourceRank(ev.usage.source) > SourceRank(current.value.source)
      then Put(t, ev.usage.messageId, ev.usage) else t
  }

  function ByMessage(evs: seq<Event>): Tree {
    if evs == [] then [] else Observe(ByMessage(evs[..|evs| - 1]), evs[|evs| - 1])
  }

  method UsageByMessage(evs: seq<Event>) returns (t: Tree)
    ensures t == ByMessage(evs)
  {
    t := [];
    for n := 0 to |evs|
      invariant t == ByMessage(evs[..n])
    {
      assert evs[..n + 1][..n] == evs[..n];
      if evs[n].Used? {
        var usage := evs[n].usage;
        var current := Get(t, usage.messageId);
        if current.None? || SourceRank(usage.source) > SourceRank(current.value.source) {
          t := Put(t, usage.messageId, usage);
        }
      }
    }
    assert evs[..|evs|] == evs;
  }

  predicate About(ev: Event, id: Str) {
    ev.Used? && ev.usage.messageId == id
  }

  /** The event at `k` is the first of the highest rank among those about its message. */
  ghost predicate FirstOfHighest(evs: seq<Event>, id: Str, k: int) {
    && 0 <= k < |evs| && About(evs[k], id)
    && forall j | 0 <= j < |evs| && About(evs[j], id) ::
         && SourceRank(evs[j].usage.source) <= SourceRank(evs[k].usage.source)
         && (j < k ==> SourceRank(evs[j].usage.source) < SourceRank(evs[k].usage.source))
  }

  lemma {:induction false} ByMessageSorted(evs: seq<Event>)
    ensures Sorted(ByMessage(evs))
  {
    if evs != [] {
      var ev := evs[|evs| - 1];
      ByMessageSorted(evs[..|evs| - 1]);
      if ev.Used? { PutSorted(ByMessage(evs[..|evs| - 1]), ev.usage.messageId, ev.usage); }
    }
  }

  /** What a lookup returns depends only on the last lookup and the new event. */
  lemma ObserveGet(t: Tree, ev: Event, id: Str)
    requires Sorted(t)
    ensures Get(Observe(t, ev), id) ==
      if About(ev, id) && (Get(t, id).None? || SourceRank(ev.usage.source) > SourceRank(Get(t, id).value.source))
      then Some(ev.usage) else Get(t, id)
  {
    if ev.Used? { GetPut(t, ev.usage.messageId, ev.usage, id); }
  }

  /** The observation kept for a message is the first one of highest source rank, if there is any. */
  lemma {:induction false} KeepsFirstOfHighestRank(evs: seq<Event>, id: Str)
    ensures Get(ByMessage(evs), id).None? <==> forall j | 0 <= j < |evs| :: !About(evs[j], id)
    ensures Get(ByMessage(evs), id).Some? ==>
      exists k :: FirstOfHighest(evs, id, k) && evs[k].usage == Get(ByMessage(evs), id).value
  {
    hide ByMessage, Observe;
    if evs == [] {
      NothingKept(id);
    } else {
      var before, ev := evs[..|evs| - 1], evs[|evs| - 1];
      KeepsFirstOfHighestRank(before, id);
      ByMessageSorted(before);
      ByMessageUnfolds(evs);
      ObserveGet(ByMessage(before), ev, id);
      assert forall j | 0 <= j < |before| :: evs[j] == before[j];
      assert About(evs[|before|], id) == About(ev, id);
      if Get(ByMessage(before), id).Some? {
        var k :| FirstOfHighest(before, id, k) && before[k].usage == Get(ByMessage(before), id).value;
        if About(ev, id) && SourceRank(ev.usage.source) > SourceRank(before[k].usage.source) {
          assert FirstOfHighest(evs, id, |before|);
        } else {
          assert FirstOfHighest(evs, id, k);
        }
      } else if About(ev, id) {
        assert FirstOfHighest(evs, id, |before|);
      }
    }
  }

  lemma NothingKept(id: Str)
    ensures Get(ByMessage([]), id).None?
  {
  }

  lemma ByMessageUnfolds(evs: seq<Event>)
    requires evs != []
    ensures ByMessage(evs) == Observe(ByMessage(evs[..|evs| - 1]), evs[|evs| - 1])
  {
  }

  predicate From(ev: Event, id: Str, source: Source) {
    About(ev, id) && ev.usage.source == source
  }

  ghost predicate Observed(evs: seq<Event>, id: Str, source: Source) {
    exists i :: 0 <= i < |evs| && From(evs[i], id, source)
  }

  /** The observation is the first one of its source for its message. */
  ghost predicate FirstFrom(evs: seq<Event>, id: Str, u: Observation) {
    exists k :: 0 <= k < |evs| && evs[k] == Used(u) && forall j | 0 <= j < k :: !From(evs[j], id, u.source)
  }

  /** Whatever the order of arrival, a native observation is kept over any wire one and a wire one over any unspecified
      one; among those of one source the first is kept. */
  lemma NativeThenWire(evs: seq<Event>, id: Str)
    requires Get(ByMessage(evs), id).Some?
    ensures var u := Get(ByMessage(evs), id).value;
      && (u.source == Native <==> Observed(evs, id, Native))
      && (u.source == Wire <==> Observed(evs, id, Wire) && !Observed(evs, id, Native))
      && (u.source == Unspecified <==> !Observed(evs, id, Wire) && !Observed(evs, id, Native))
      && u.messageId == id && FirstFrom(evs, id, u)
  {
    hide ByMessage;
    KeepsFirstOfHighestRank(evs, id);
    var u := Get(ByMessage(evs), id).value;
    var k :| FirstOfHighest(evs, id, k) && evs[k].usage == u;
    assert From(evs[k], id, u.source) && evs[k] == Used(u);
    assert Observed(evs, id, u.source);
    forall source | Observed(evs, id, source) ensures SourceRank(source) <= SourceRank(u.source) {
      var i :| 0 <= i < |evs| && From(evs[i], id, source);
    }
  }

  /** Redelivering events already in the log, all or some of them and in any order, changes nothing. */
  lemma {:induction false} RedeliveryChangesNothing(evs: seq<Event>, again: seq<Event>)
    requires forall i | 0 <= i < |again| :: again[i] in evs
    ensures ByMessage(evs + again) == ByMessage(evs)
    decreases |again|
  {
    if again == [] {
      assert evs + again == evs;
    } else {
      var before, ev := again[..|again| - 1], again[|again| - 1];
      RedeliveryChangesNothing(evs, before);
      assert (evs + again)[..|evs + again| - 1] == evs + before;
      if ev.Used? {
        var id := ev.usage.messageId;
        KeepsFirstOfHighestRank(evs, id);
        var j :| 0 <= j < |evs| && evs[j] == ev;
        assert About(evs[j], id);
        var k :| FirstOfHighest(evs, id, k) && evs[k].usage == Get(ByMessage(evs), id).value;
      }
    }
  }

  /** The events about one message, in order. */
  function Thread(evs: seq<Event>, id: Str): seq<Event> {
    if evs == [] then []
    else Thread(evs[..|evs| - 1], id) + if About(evs[|evs| - 1], id) then [evs[|evs| - 1]] else []
  }

  /** A lookup sees only the events about its message. */
  lemma {:induction false} LookupSeesItsThread(evs: seq<Event>, id: Str)
    ensures Get(ByMessage(evs), id) == Get(ByMessage(Thread(evs, id)), id)
  {
    if evs != [] {
      var before, ev := evs[..|evs| - 1], evs[|evs| - 1];
      var thread := Thread(before, id);
      LookupSeesItsThread(before, id);
      ByMessageSorted(before);
      ByMessageSorted(thread);
      ObserveGet(ByMessage(before), ev, id);
      if About(ev, id) {
        ObserveGet(ByMessage(thread), ev, id);
        assert (thread + [ev])[..|thread|] == thread;
      } else {
        assert thread + [] == thread;
      }
    }
  }

  /** Logs that interleave the same per-message histories differently fold to the same observations. */
  lemma InterleavingDoesNotMatter(a: seq<Event>, b: seq<Event>)
    requires forall id :: Thread(a, id) == Thread(b, id)
    ensures ByMessage(a) == ByMessage(b)
  {
    forall id ensures Get(ByMessage(a), id) == Get(ByMessage(b), id) {
      LookupSeesItsThread(a, id);
      LookupSeesItsThread(b, id);
      assert Thread(a, id) == Thread(b, id);
    }
    ByMessageSorted(a);
    ByMessageSorted(b);
    SameLookupsSameTree(a := ByMessage(a), b := ByMessage(b));
  }

  // ---------- Totals ----------

  function Count(e: Entry<Observation>, c: Counter): nat {
    var n := e.value.tokens.Of(c);
    if n.Some? then n.value else 0
  }

  /** The exact sum, with absent counts as zero. */
  function Sum(t: Tree, c: Counter): nat {
    if t == [] then 0 else Sum(t[..|t| - 1], c) + Count(t[|t| - 1], c)
  }

  ghost predicate AllKnown(t: Tree, c: Counter) {
    forall i | 0 <= i < |t| :: t[i].value.tokens.Of(c).Some?
  }

  function SaturatingAdd(a: U64, b: U64): U64 {
    if a + b <= U64_MAX then a + b else U64_MAX
  }

  function CheckedAdd(a: U64, b: U64): Option<U64> {
    if a + b <= U64_MAX then Some(a + b) else None
  }

  lemma {:induction false} SumGrows(t: Tree, n: nat, c: Counter)
    requires n <= |t|
    ensures Sum(t[..n], c) <= Sum(t, c)
    decreases |t|
  {
    if n == |t| {
      assert t[..n] == t;
    } else {
      SumGrows(t[..|t| - 1], n, c);
      assert t[..|t| - 1][..n] == t[..n];
    }
  }

  /** One counter of the observed snapshot: known exactly when every kept observation has it and the sum fits. */
  method CheckedTotal(t: Tree, c: Counter) returns (r: Option<U64>)
    ensures r.Some? <==> AllKnown(t, c) && Sum(t, c) <= U64_MAX
    ensures r.Some? ==> r.value == Sum(t, c)
  {
    var total: U64 := 0;
    for i := 0 to |t|
      invariant total == Sum(t[..i], c) && forall j | 0 <= j < i :: t[j].value.tokens.Of(c).Some?
    {
      assert t[..i + 1][..i] == t[..i];
      var n := t[i].value.tokens.Of(c);
      if n.None? { return None; }
      var next := CheckedAdd(total, n.value);
      if next.None? {
        SumGrows(t, i + 1, c);
        return None;
      }
      total := next.value;
    }
    assert t[..|t|] == t;
    return Some(total);
  }

  method ObservedFromEvents(evs: seq<Event>) returns (r: Option<Counters<Option<U64>>>)
    ensures r.None? <==> forall i | 0 <= i < |evs| :: !evs[i].Used?
    ensures r.Some? ==> forall c ::
      r.value.Of(c) == if AllKnown(ByMessage(evs), c) && Sum(ByMessage(evs), c) <= U64_MAX then Some(Sum(ByMessage(evs), c)) else None
  {
    hide Sum, AllKnown;
    var usages := UsageByMessage(evs);
    KeepsSomething(evs);
    if usages == [] { return None; }
    var input := CheckedTotal(usages, Input);
    var output := CheckedTotal(usages, Output);
    var cacheRead := CheckedTotal(usages, CacheRead);
    var cacheCreation := CheckedTotal(usages, CacheCreation);
    return Some(Counters(input, output, cacheRead, cacheCreation));
  }

  lemma KeepsSomething(evs: seq<Event>)
    ensures ByMessage(evs) == [] <==> forall i | 0 <= i < |evs| :: !evs[i].Used?
  {
    hide ByMessage;
    var t := ByMessage(evs);
    forall i | 0 <= i < |evs| && evs[i].Used? ensures t != [] {
      KeepsFirstOfHighestRank(evs, evs[i].usage.messageId);
      assert About(evs[i], evs[i].usage.messageId);
    }
    if t != [] {
      ByMessageSorted(evs);
      GetMember(t, t[0].key, t[0].value);
      KeepsFirstOfHighestRank(evs, t[0].key);
      var k :| FirstOfHighest(evs, t[0].key, k);
      assert evs[k].Used?;
    }
  }

  function Saturated(n: nat): U64 {
    if n <= U64_MAX then n else U64_MAX
  }

  /** The model counters of a local envelope: exact sums, saturated. */
  method SaturatingTotals(t: Tree) returns (r: Counters<U64>)
    ensures forall c :: r.Of(c) == Saturated(Sum(t, c))
  {
    r := Counters(0, 0, 0, 0);
    for i := 0 to |t|
      invariant forall c :: r.Of(c) == Saturated(Sum(t[..i], c))
    {
      assert t[..i + 1][..i] == t[..i];
      var before := r;
      var e := t[i];
      r := Counters(
        SaturatingAdd(r.input, Count(e, Input)), SaturatingAdd(r.output, Count(e, Output)),
        SaturatingAdd(r.cacheRead, Count(e, CacheRead)), SaturatingAdd(r.cacheCreation, Count(e, CacheCreation)));
      forall c ensures r.Of(c) == Saturated(Sum(t[..i + 1], c)) {
        assert before.Of(c) == Saturated(Sum(t[..i], c));
      }
    }
    assert t[..|t|] == t;
  }

  /** The last managed envelope in the log: a later one that does not decode hides an earlier one that does. */
  function ManagedEnvelope(evs: seq<Event>): Option<Envelope> {
    if evs == [] then None
    else if evs[|evs| - 1].RunCost? then evs[|evs| - 1].envelope
    else ManagedEnvelope(evs[..|evs| - 1])
  }

  function StatusOf(evs: seq<Event>): string {
    if evs == [] then "running"
    else match evs[|evs| - 1]
      case RunFinished => "completed"
      case RunFailed => "failed"
      case _ => StatusOf(evs[..|evs| - 1])
  }

  predicate Ends(ev: Event) {
    ev.RunFinished? || ev.RunFailed?
  }

  /** The status is that of the last event that ends the run. */
  lemma {:induction false} StatusIsLastEnd(evs: seq<Event>)
    ensures StatusOf(evs) == "running" <==> forall i | 0 <= i < |evs| :: !Ends(evs[i])
    ensures forall k | 0 <= k < |evs| && Ends(evs[k]) && (forall i | k < i < |evs| :: !Ends(evs[i])) ::
      StatusOf(evs) == (if evs[k].RunFinished? then "completed" else "failed")
  {
    if evs != [] {
      var before := evs[..|evs| - 1];
      StatusIsLastEnd(before);
      assert forall i | 0 <= i < |before| :: evs[i] == before[i];
      assert "completed" != "running" && "failed" != "running" by { assert |"completed"| == 9 && |"failed"| == 6; }
    }
  }

  /** The managed envelope is that of the last `run_cost` event, decoded or not. */
  lemma {:induction false} ManagedIsLast(evs: seq<Event>)
    ensures forall k | 0 <= k < |evs| && evs[k].RunCost? && (forall i | k < i < |evs| :: !evs[i].RunCost?) ::
      ManagedEnvelope(evs) == evs[k].envelope
    ensures (forall i | 0 <= i < |evs| :: !evs[i].RunCost?) ==> ManagedEnvelope(evs).None?
  {
    if evs != [] {
      var before := evs[..|evs| - 1];
      ManagedIsLast(before);
      assert forall i | 0 <= i < |before| :: evs[i] == before[i];
    }
  }

  /** Each counter is the one of its name. */
  lemma CountersByName<T>(c: Counters<T>)
    ensures c.Of(Input) == c.input && c.Of(Output) == c.output
    ensures c.Of(CacheRead) == c.cacheRead && c.Of(CacheCreation) == c.cacheCreation
  {
  }

  method RunCostFromEvents(evs: seq<Event>) returns (e: Envelope)
    ensures ManagedEnvelope(evs).Some? ==> e == ManagedEnvelope(evs).value
    ensures ManagedEnvelope(evs).None? ==>
      && e.status == StatusOf(evs) && e.infrastructure.None?
      && forall c :: e.model.Of(c) == Saturated(Sum(ByMessage(evs), c))
  {
    hide Sum, ByMessage;
    var usages := UsageByMessage(evs);
    var managed: Option<Envelope>, status := None, "running";
    for n := 0 to |evs|
      invariant managed == ManagedEnvelope(evs[..n]) && status == StatusOf(evs[..n])
    {
      assert evs[..n + 1][..n] == evs[..n];
      match evs[n]
      case RunFinished => status := "completed";
      case RunFailed => status := "failed";
      case RunCost(envelope) => managed := envelope;
      case _ =>
    }
    assert evs[..|evs|] == evs;
    if managed.Some? { return managed.value; }
    var model := SaturatingTotals(usages);
    return Envelope(status, model, None);
  }

  /** The two consumers agree: a counter the snapshot knows is the envelope's total,
      and a counter unknown only because it overflows is saturated in the envelope. */
  method SnapshotAndEnvelope(evs: seq<Event>) returns (observed: Counters<Option<U64>>, e: Envelope)
    requires ManagedEnvelope(evs).None? && exists i :: 0 <= i < |evs| && evs[i].Used?
    ensures forall c :: observed.Of(c).Some? ==> observed.Of(c).value == e.model.Of(c)
    ensures forall c :: observed.Of(c).None? && AllKnown(ByMessage(evs), c) ==> e.model.Of(c) == U64_MAX
    ensures forall c :: !AllKnown(ByMessage(evs), c) ==> observed.Of(c).None?
  {
    hide Sum, ByMessage, AllKnown;
    var snapshot := ObservedFromEvents(evs);
    observed := snapshot.value;
    e := RunCostFromEvents(evs);
  }
}
