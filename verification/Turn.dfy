/** One bounded OpenCode turn: attempts share an event budget, and a raw-JSON fallback may end it. */
module Turn {
  import opened Managed
  import opened Text
  import opened CanonicalJson
  import opened StructuredOutput
  import opened Mapper
  import Artifacts

  const MAX_TURN_EVENTS: nat := 2_000

  // ---------- What happens to a turn ----------

  /** An event off the stream, and whether the deadline has passed once it is handled. */
  datatype Arrival = Arrival(event: Event, late: bool)

  /** What OpenCode does in one attempt: it refuses the stream, the session or the prompt,
      or it streams events until the stream ends or is rejected. */
  datatype Script = Refused | Stream(arrivals: seq<Arrival>, rejected: bool)

  /** What the caller's sink receives; each entry becomes one evidence value. */
  datatype Append =
    | Agent(payload: Payload)
    | Failure
    | RetryMarker(retry: nat)
    | RawFallback

  datatype AttemptResult = AttemptResult(
    structuredOutput: Option<Str>, plainTextOutput: Option<Str>, mayRetry: bool, appended: nat)

  datatype Format = Format(env: Env, retryCount: nat)

  /** The clock is read before each attempt and before each retry marker. */
  datatype Input = Input(
    modelOk: bool, ready: bool, format: Option<Format>,
    scripts: nat -> Script, lateBefore: nat -> bool, lateAfter: nat -> bool)

  function Retries(input: Input): nat {
    if input.format.Some? then input.format.value.retryCount else 0
  }

  // ---------- One attempt ----------

  function Events(arrivals: seq<Arrival>): (evs: seq<Event>)
    ensures |evs| == |arrivals| && forall i | 0 <= i < |evs| :: evs[i] == arrivals[i].event
  {
    seq(|arrivals|, i requires 0 <= i < |arrivals| => arrivals[i].event)
  }

  predicate HasAttention(ps: seq<Payload>) {
    exists i :: 0 <= i < |ps| && ps[i].AttentionRequired?
  }

  /** The first event that raises attention or fills the budget ends the attempt. */
  predicate Ends(evs: seq<Event>, budget: nat) {
    HasAttention(Emitted(evs)) || |Emitted(evs)| >= budget
  }

  datatype Stop = Stop(consumed: nat, failed: bool)

  function StopFrom(arrivals: seq<Arrival>, rejected: bool, budget: nat, n: nat): (stop: Stop)
    requires n <= |arrivals|
    ensures n <= stop.consumed <= |arrivals|
    decreases |arrivals| - n
  {
    if n == |arrivals| then Stop(n, rejected)
    else if Ends(Events(arrivals)[..n + 1], budget) then Stop(n + 1, false)
    else if arrivals[n].late then Stop(n + 1, true)
    else StopFrom(arrivals, rejected, budget, n + 1)
  }

  function Take<T>(s: seq<T>, n: nat): seq<T> {
    if |s| <= n then s else s[..n]
  }

  function Agents(ps: seq<Payload>): (log: seq<Append>)
    ensures |log| == |ps| && forall i | 0 <= i < |ps| :: log[i] == Agent(ps[i])
  {
    seq(|ps|, i requires 0 <= i < |ps| => Agent(ps[i]))
  }

  datatype Attempted = Attempted(log: seq<Append>, result: AttemptResult)

  function FailedAttempt(ps: seq<Payload>): Attempted {
    Attempted(Agents(ps) + [Failure], AttemptResult(None, None, false, |ps|))
  }

  function StoppedAttempt(evs: seq<Event>, failed: bool, budget: nat): Attempted {
    var kept := Take(Emitted(evs), budget);
    var s := After(evs);
    if failed then FailedAttempt(kept)
    else Attempted(Agents(kept), AttemptResult(s.finalStructured, PlainText(s), MayRetry(s), |kept|))
  }

  /** The evidence of an attempt is what the mapper emits for the events consumed, cut to the budget. */
  function Attempt(script: Script, budget: nat): Attempted {
    match script
    case Refused => FailedAttempt([])
    case Stream(arrivals, rejected) =>
      var stop := StopFrom(arrivals, rejected, budget, 0);
      StoppedAttempt(Events(arrivals)[..stop.consumed], stop.failed, budget)
  }

  /** Hands one event's payloads to the sink while the budget lasts. */
  method AppendPayloads(payloads: seq<Payload>, sent: seq<Payload>, budget: nat) returns (kept: seq<Payload>, done: bool)
    requires |sent| < budget && !HasAttention(sent)
    ensures kept == Take(sent + payloads, budget)
    ensures done <==> HasAttention(sent + payloads) || |kept| >= budget
  {
    hide HasAttention;
    kept, done := sent, false;
    var i := 0;
    while i < |payloads|
      invariant 0 <= i <= |payloads| && kept == sent + payloads[..i] && |kept| <= budget
      invariant done <==> HasAttention(kept) || |kept| >= budget
    {
      if |kept| >= budget { done := true; break; }
      AttentionOne(kept, payloads[i]);
      assert payloads[..i + 1] == payloads[..i] + [payloads[i]];
      kept := kept + [payloads[i]];
      if payloads[i].AttentionRequired? { done := true; }
      if |kept| >= budget { done := true; }
      i := i + 1;
    }
    assert sent + payloads == kept + payloads[i..];
    assert i == |payloads| ==> kept == sent + payloads;
  }

  method DriveAttempt(script: Script, budget: nat) returns (log: seq<Append>, result: AttemptResult)
    requires budget > 0
    ensures Attempted(log, result) == Attempt(script, budget)
  {
    hide StopFrom, Next, After, Emitted, HasAttention, PlainText;
    match script
    case Refused =>
      return [Failure], AttemptResult(None, None, false, 0);
    case Stream(arrivals, rejected) =>
      var mapper := new OpencodeMapper();
      ghost var evs := Events(arrivals);
      NothingEmitted();
      var sent, n := [], 0;
      while n < |arrivals|
        invariant 0 <= n <= |arrivals| && mapper.Valid() && fresh(mapper)
        invariant mapper.Value() == After(evs[..n])
        invariant sent == Emitted(evs[..n]) && |sent| < budget && !HasAttention(sent)
        invariant StopFrom(arrivals, rejected, budget, n) == StopFrom(arrivals, rejected, budget, 0)
      {
        var payloads := mapper.OnEvent(arrivals[n].event);
        AfterOneMore(evs[..n], evs[n]);
        assert evs[..n] + [evs[n]] == evs[..n + 1];
        StopUnfolds(arrivals, rejected, budget, n);
        var done;
        sent, done := AppendPayloads(payloads, sent, budget);
        if done {
          var plain := mapper.PlainTextOutput();
          return Agents(sent), AttemptResult(mapper.finalStructuredOutput, plain, mapper.MayRetryStructuredOutput(), |sent|);
        }
        if arrivals[n].late {
          return Agents(sent) + [Failure], AttemptResult(None, None, false, |sent|);
        }
        n := n + 1;
      }
      StopAtEnd(arrivals, rejected, budget);
      if rejected {
        return Agents(sent) + [Failure], AttemptResult(None, None, false, |sent|);
      }
      var plain := mapper.PlainTextOutput();
      return Agents(sent), AttemptResult(mapper.finalStructuredOutput, plain, mapper.MayRetryStructuredOutput(), |sent|);
  }

  lemma AttentionOne(ps: seq<Payload>, p: Payload)
    ensures HasAttention(ps + [p]) <==> HasAttention(ps) || p.AttentionRequired?
  {
    assert (ps + [p])[|ps|] == p;
    if HasAttention(ps) {
      var i :| 0 <= i < |ps| && ps[i].AttentionRequired?;
      assert (ps + [p])[i].AttentionRequired?;
    }
  }

  lemma StopUnfolds(arrivals: seq<Arrival>, rejected: bool, budget: nat, n: nat)
    requires n < |arrivals|
    ensures StopFrom(arrivals, rejected, budget, n) ==
      if Ends(Events(arrivals)[..n + 1], budget) then Stop(n + 1, false)
      else if arrivals[n].late then Stop(n + 1, true)
      else StopFrom(arrivals, rejected, budget, n + 1)
  {
  }

  lemma StopAtEnd(arrivals: seq<Arrival>, rejected: bool, budget: nat)
    ensures StopFrom(arrivals, rejected, budget, |arrivals|) == Stop(|arrivals|, rejected)
  {
  }

  // ---------- The turn ----------

  /** `attempts` counts fresh OpenCode sessions. */
  datatype Turned = Turned(log: seq<Append>, output: Option<Str>, attempts: nat)

  function Fallback(input: Input, r: AttemptResult): Option<Str> {
    if input.format.Some? && r.mayRetry then
      var inspected := Inspect(input.format.value.env, r.plainTextOutput);
      if inspected.Accepted? then Some(inspected.output) else None
    else None
  }

  predicate GivesUp(input: Input, attempt: nat, r: AttemptResult, total: nat) {
    !r.mayRetry || attempt >= Retries(input) || input.lateAfter(attempt) || total >= MAX_TURN_EVENTS
  }

  function TurnFrom(input: Input, attempt: nat, total: nat): Turned
    decreases Retries(input) + 1 - attempt
  {
    if attempt > Retries(input) || input.lateBefore(attempt) || total >= MAX_TURN_EVENTS then Turned([], None, 0)
    else
      var a := Attempt(input.scripts(attempt), MAX_TURN_EVENTS - total);
      var total1 := total + a.result.appended;
      var fallback := Fallback(input, a.result);
      if a.result.structuredOutput.Some? then Turned(a.log, a.result.structuredOutput, 1)
      else if fallback.Some? then Turned(a.log + [RawFallback], fallback, 1)
      else if GivesUp(input, attempt, a.result, total1) then Turned(a.log, None, 1)
      else
        var rest := TurnFrom(input, attempt + 1, total1 + 1);
        Turned(a.log + [RetryMarker(attempt + 1)] + rest.log, rest.output, 1 + rest.attempts)
  }

  function TurnOf(input: Input): Turned {
    if !input.modelOk || !input.ready then Turned([Failure], None, 0) else TurnFrom(input, 0, 0)
  }

  lemma TurnUnfolds(input: Input, attempt: nat, total: nat, a: Attempted)
    requires attempt <= Retries(input) && !input.lateBefore(attempt) && total < MAX_TURN_EVENTS
    requires a == Attempt(input.scripts(attempt), MAX_TURN_EVENTS - total)
    ensures var total1, fallback := total + a.result.appended, Fallback(input, a.result);
      TurnFrom(input, attempt, total) ==
      if a.result.structuredOutput.Some? then Turned(a.log, a.result.structuredOutput, 1)
      else if fallback.Some? then Turned(a.log + [RawFallback], fallback, 1)
      else if GivesUp(input, attempt, a.result, total1) then Turned(a.log, None, 1)
      else
        var rest := TurnFrom(input, attempt + 1, total1 + 1);
        Turned(a.log + [RetryMarker(attempt + 1)] + rest.log, rest.output, 1 + rest.attempts)
  {
    hide Attempt, Fallback, GivesUp;
  }

  lemma TurnOver(input: Input, attempt: nat, total: nat)
    requires attempt > Retries(input) || input.lateBefore(attempt) || total >= MAX_TURN_EVENTS
    ensures TurnFrom(input, attempt, total) == Turned([], None, 0)
  {
  }

  method DriveTurn(input: Input) returns (log: seq<Append>, output: Option<Str>, attempts: nat)
    ensures Turned(log, output, attempts) == TurnOf(input)
  {
    hide Attempt, Fallback, TurnFrom;
    log, attempts := [], 0;
    if !input.modelOk { return [Failure], None, 0; }
    if !input.ready { return [Failure], None, 0; }
    var totalAppended: nat := 0;
    var attempt := 0;
    while attempt <= Retries(input)
      invariant 0 <= attempt <= Retries(input) + 1 && attempts == attempt
      invariant var rest := TurnFrom(input, attempt, totalAppended);
        TurnOf(input) == Turned(log + rest.log, rest.output, attempts + rest.attempts)
    {
      if input.lateBefore(attempt) || totalAppended >= MAX_TURN_EVENTS {
        TurnOver(input, attempt, totalAppended);
        return log, None, attempts;
      }
      var events, result := DriveAttempt(input.scripts(attempt), MAX_TURN_EVENTS - totalAppended);
      TurnUnfolds(input, attempt, totalAppended, Attempted(events, result));
      ghost var before := log;
      log := log + events;
      attempts := attempts + 1;
      totalAppended := totalAppended + result.appended;
      if result.structuredOutput.Some? { return log, result.structuredOutput, attempts; }
      var fallback := Fallback(input, result);
      if fallback.Some? {
        assert before + (events + [RawFallback]) == log + [RawFallback];
        return log + [RawFallback], fallback, attempts;
      }
      if !result.mayRetry || attempt >= Retries(input) || input.lateAfter(attempt) || totalAppended >= MAX_TURN_EVENTS {
        return log, None, attempts;
      }
      log := log + [RetryMarker(attempt + 1)];
      totalAppended := totalAppended + 1;
      attempt := attempt + 1;
      ghost var rest := TurnFrom(input, attempt, totalAppended).log;
      assert before + (events + [RetryMarker(attempt)] + rest) == log + rest;
    }
    TurnOver(input, attempt, totalAppended);
    return log, None, attempts;
  }

  // ---------- The budget ----------

  predicate EndsInFallback(log: seq<Append>) {
    log != [] && log[|log| - 1] == RawFallback
  }

  /** Everything but the fallback marker. */
  function Counted(log: seq<Append>): nat {
    if EndsInFallback(log) then |log| - 1 else |log|
  }

  /** An attempt never appends more than its budget, its own error included, and a failed attempt ends the turn. */
  lemma AttemptBudget(script: Script, budget: nat)
    requires budget > 0
    ensures var a := Attempt(script, budget);
      && a.result.appended <= |a.log| <= budget
      && (a.log != [] ==> !a.log[|a.log| - 1].RawFallback?)
      && (forall i | 0 <= i < |a.log| :: a.log[i].Agent? || a.log[i].Failure?)
      && (a.result.appended < |a.log| ==> |a.log| == a.result.appended + 1 && !a.result.mayRetry && a.result.structuredOutput.None?)
  {
    hide Next, Emitted, After, PlainText;
    match script
    case Refused =>
    case Stream(arrivals, rejected) =>
      var stop := StopFrom(arrivals, rejected, budget, 0);
      NothingEmitted();
      FailsWithinBudget(arrivals, rejected, budget, 0);
  }

  lemma NothingEmitted()
    ensures Emitted([]) == [] && After([]) == INITIAL && !HasAttention([])
  {
  }

  lemma {:induction false} FailsWithinBudget(arrivals: seq<Arrival>, rejected: bool, budget: nat, n: nat)
    requires n <= |arrivals| && |Emitted(Events(arrivals)[..n])| < budget
    ensures var stop := StopFrom(arrivals, rejected, budget, n);
      stop.failed ==> |Emitted(Events(arrivals)[..stop.consumed])| < budget
    decreases |arrivals| - n
  {
    hide Emitted, HasAttention;
    if n < |arrivals| && !Ends(Events(arrivals)[..n + 1], budget) {
      FailsWithinBudget(arrivals, rejected, budget, n + 1);
    }
  }

  /** Where an attempt stops: at the first event that raises attention or fills the budget, or after which the deadline has
      passed, or at the end of the stream. It fails exactly on the deadline or on a rejected stream. */
  ghost predicate StopsAt(arrivals: seq<Arrival>, rejected: bool, budget: nat, from: nat, stop: Stop) {
    var evs := Events(arrivals);
    && from <= stop.consumed <= |arrivals|
    && (forall m | from < m < stop.consumed :: !Ends(evs[..m], budget))
    && (forall i | from <= i < stop.consumed - 1 :: !arrivals[i].late)
    && (stop.consumed < |arrivals| ==>
         stop.consumed > from && (Ends(evs[..stop.consumed], budget) || arrivals[stop.consumed - 1].late))
    && (stop.failed <==>
         !(stop.consumed > from && Ends(evs[..stop.consumed], budget))
         && ((stop.consumed > from && arrivals[stop.consumed - 1].late) || (stop.consumed == |arrivals| && rejected)))
  }

  lemma {:induction false} StopMeans(arrivals: seq<Arrival>, rejected: bool, budget: nat, n: nat)
    requires n <= |arrivals|
    ensures StopsAt(arrivals, rejected, budget, n, StopFrom(arrivals, rejected, budget, n))
    decreases |arrivals| - n
  {
    hide Ends, StopFrom;
    var evs, stop := Events(arrivals), StopFrom(arrivals, rejected, budget, n);
    if n == |arrivals| {
      StopAtEnd(arrivals, rejected, budget);
    } else {
      StopUnfolds(arrivals, rejected, budget, n);
      if !Ends(evs[..n + 1], budget) && !arrivals[n].late {
        StopMeans(arrivals, rejected, budget, n + 1);
        forall m | n < m < stop.consumed ensures !Ends(evs[..m], budget) {
          if m > n + 1 { assert n + 1 < m < stop.consumed; }
        }
        assert stop == StopFrom(arrivals, rejected, budget, n + 1);
        assert stop.consumed == n + 1 ==> n + 1 == |arrivals| && !Ends(evs[..stop.consumed], budget) && !arrivals[stop.consumed - 1].late;
      }
    }
  }

  /** What an attempt hands to the sink and returns: the mapper's payloads for the events consumed, as many as the budget
      allows, then its error if it failed; and unless it failed, what the mapper knows after those events. */
  lemma AttemptMeans(arrivals: seq<Arrival>, rejected: bool, budget: nat)
    ensures var a, stop := Attempt(Stream(arrivals, rejected), budget), StopFrom(arrivals, rejected, budget, 0);
      var evs := Events(arrivals)[..stop.consumed];
      var n := a.result.appended;
      && n == (if |Emitted(evs)| <= budget then |Emitted(evs)| else budget)
      && |a.log| == n + (if stop.failed then 1 else 0)
      && (forall i | 0 <= i < n :: a.log[i] == Agent(Emitted(evs)[i]))
      && (stop.failed ==> a.log[n] == Failure && a.result == AttemptResult(None, None, false, n))
      && (!stop.failed ==>
           && a.result.structuredOutput == LastValue(evs)
           && a.result.plainTextOutput == PlainText(After(evs))
           && (a.result.mayRetry <==> LastStopIsIdle(evs) && forall k | 0 <= k < |evs| :: !Structured(evs[k])))
  {
    hide Emitted, After, PlainText, StopFrom, LastValue, LastStopIsIdle, Structured;
    var stop := StopFrom(arrivals, rejected, budget, 0);
    var evs := Events(arrivals)[..stop.consumed];
    StructuredResult(evs);
    RetryOnlyAfterCleanIdle(evs);
  }

  function Markers(log: seq<Append>): nat {
    if log == [] then 0 else Markers(log[1..]) + if log[0].RetryMarker? then 1 else 0
  }

  lemma {:induction false} MarkersAppend(a: seq<Append>, b: seq<Append>)
    ensures Markers(a + b) == Markers(a) + Markers(b)
  {
    if a == [] {
      assert a + b == b;
    } else {
      assert (a + b)[1..] == a[1..] + b;
      MarkersAppend(a[1..], b);
    }
  }

  lemma {:induction false} NoMarkers(a: seq<Append>)
    requires forall i | 0 <= i < |a| :: !a[i].RetryMarker?
    ensures Markers(a) == 0
  {
    if a != [] { NoMarkers(a[1..]); }
  }

  lemma LastAttemptBudget(a: Attempted, budget: nat)
    requires |a.log| <= budget && (a.log != [] ==> !a.log[|a.log| - 1].RawFallback?)
    requires forall i | 0 <= i < |a.log| :: a.log[i].Agent? || a.log[i].Failure?
    ensures Counted(a.log) <= budget && Counted(a.log + [RawFallback]) <= budget
    ensures Markers(a.log) == 0 && Markers(a.log + [RawFallback]) == 0
  {
    NoMarkers(a.log);
    NoMarkers(a.log + [RawFallback]);
  }

  lemma RetriedBudget(log: seq<Append>, marker: Append, rest: seq<Append>)
    requires marker.RetryMarker?
    ensures Counted(log + [marker] + rest) == |log| + 1 + Counted(rest)
    ensures Markers(log + [marker] + rest) == Markers(log) + 1 + Markers(rest)
  {
    MarkersAppend(log, [marker]);
    MarkersAppend(log + [marker], rest);
    assert [marker][1..] == [];
  }

  /** Everything appended and counted stays within the shared budget; attempts stay within the retries allowed. */
  lemma {:induction false} BudgetFrom(input: Input, attempt: nat, total: nat)
    requires total <= MAX_TURN_EVENTS && attempt <= Retries(input) + 1
    ensures var t := TurnFrom(input, attempt, total);
      && total + Counted(t.log) <= MAX_TURN_EVENTS
      && t.attempts <= Retries(input) + 1 - attempt
      && Markers(t.log) <= t.attempts
      && (t.attempts > 0 ==> Markers(t.log) <= Retries(input) - attempt)
    decreases Retries(input) + 1 - attempt
  {
    hide Attempt, Fallback, TurnFrom, Counted, Markers;
    if attempt > Retries(input) || input.lateBefore(attempt) || total >= MAX_TURN_EVENTS {
      TurnOver(input, attempt, total);
      NothingCounted();
    } else {
      var a := Attempt(input.scripts(attempt), MAX_TURN_EVENTS - total);
      var total1 := total + a.result.appended;
      AttemptBudget(input.scripts(attempt), MAX_TURN_EVENTS - total);
      TurnUnfolds(input, attempt, total, a);
      LastAttemptBudget(a, MAX_TURN_EVENTS - total);
      if a.result.structuredOutput.None? && Fallback(input, a.result).None? && !GivesUp(input, attempt, a.result, total1) {
        var rest := TurnFrom(input, attempt + 1, total1 + 1);
        BudgetFrom(input, attempt + 1, total1 + 1);
        RetriedBudget(a.log, RetryMarker(attempt + 1), rest.log);
      }
    }
  }

  lemma NothingCounted()
    ensures Counted([]) == 0 && Markers([]) == 0
  {
  }

  /** Mapped payloads, errors and retry markers never exceed 2000 over all attempts, attempts never exceed
      `retry_count + 1`, and the one append beyond the budget is an accepted fallback. */
  lemma TurnBudget(input: Input)
    ensures var t := TurnOf(input);
      && Counted(t.log) <= MAX_TURN_EVENTS
      && t.attempts <= Retries(input) + 1
      && Markers(t.log) <= Retries(input)
      && |t.log| <= MAX_TURN_EVENTS + 1
      && (|t.log| == MAX_TURN_EVENTS + 1 <==> EndsInFallback(t.log) && Counted(t.log) == MAX_TURN_EVENTS)
  {
    hide TurnFrom;
    if input.modelOk && input.ready {
      BudgetFrom(input, 0, 0);
      NoAttemptNoLog(input);
    } else {
      NoMarkers([Failure]);
    }
  }

  lemma NoAttemptNoLog(input: Input)
    ensures TurnFrom(input, 0, 0).attempts == 0 ==> TurnFrom(input, 0, 0).log == [] && Markers([]) == 0
  {
  }

  /** A turn that ends in the fallback marker returns the serialisation of a value that the caller's schema passes. */
  lemma {:induction false} FallbackIsValid(input: Input, attempt: nat, total: nat)
    requires EndsInFallback(TurnFrom(input, attempt, total).log)
    ensures var t := TurnFrom(input, attempt, total);
      input.format.Some? && t.output.Some? && exists j: Json :: Passes(input.format.value.env, j) && t.output.value == Stringify(j)
    decreases Retries(input) + 1 - attempt
  {
    hide Attempt, Inspect, Stringify, Passes;
    var budget := MAX_TURN_EVENTS - total;
    var a := Attempt(input.scripts(attempt), budget);
    AttemptBudget(input.scripts(attempt), budget);
    if a.result.structuredOutput.None? {
      if Fallback(input, a.result).Some? {
        AcceptedIsValid(input.format.value.env, a.result.plainTextOutput);
      } else if !GivesUp(input, attempt, a.result, total + a.result.appended) {
        var rest := TurnFrom(input, attempt + 1, total + a.result.appended + 1);
        assert rest.log != [];
        FallbackIsValid(input, attempt + 1, total + a.result.appended + 1);
      }
    }
  }

  // ---------- Which attempt decides ----------

  /** Events counted before an attempt, if every earlier one was retried. */
  function Before(input: Input, k: nat): nat
    decreases k, 0
  {
    if k == 0 then 0 else Before(input, k - 1) + ResultOf(input, k - 1).appended + 1
  }

  function ResultOf(input: Input, k: nat): AttemptResult
    decreases k, 1
  {
    var spent := Before(input, k);
    Attempt(input.scripts(k), if spent <= MAX_TURN_EVENTS then MAX_TURN_EVENTS - spent else 0).result
  }

  /** The loop reaches attempt `k`. */
  predicate Begins(input: Input, k: nat) {
    k <= Retries(input) && !input.lateBefore(k) && Before(input, k) < MAX_TURN_EVENTS
  }

  /** Attempt `k` yields neither a structured value nor an acceptable text, and another attempt is allowed. */
  predicate Retried(input: Input, k: nat) {
    var r := ResultOf(input, k);
    && Begins(input, k) && r.structuredOutput.None? && Fallback(input, r).None?
    && !GivesUp(input, k, r, Before(input, k) + r.appended)
  }

  /** A retried attempt appends exactly the events it counts. */
  lemma RetriedLog(input: Input, k: nat)
    requires Retried(input, k) && Before(input, k) < MAX_TURN_EVENTS
    ensures var a := Attempt(input.scripts(k), MAX_TURN_EVENTS - Before(input, k));
      |a.log| == a.result.appended && a.result == ResultOf(input, k) && Markers(a.log) == 0
  {
    hide Attempt, Fallback;
    AttemptBudget(input.scripts(k), MAX_TURN_EVENTS - Before(input, k));
    LastAttemptBudget(Attempt(input.scripts(k), MAX_TURN_EVENTS - Before(input, k)), MAX_TURN_EVENTS - Before(input, k));
  }

  lemma {:induction false} AfterRetries(input: Input, k: nat)
    requires forall j | 0 <= j < k :: Retried(input, j)
    ensures var t, rest := TurnFrom(input, 0, 0), TurnFrom(input, k, Before(input, k));
      && t.output == rest.output && t.attempts == k + rest.attempts
      && |t.log| == Before(input, k) + |rest.log|
      && Markers(t.log) == k + Markers(rest.log)
  {
    hide Attempt, Fallback, TurnFrom, Markers;
    if k > 0 {
      AfterRetries(input, k - 1);
      assert Retried(input, k - 1);
      RetriedLog(input, k - 1);
      var a := Attempt(input.scripts(k - 1), MAX_TURN_EVENTS - Before(input, k - 1));
      TurnUnfolds(input, k - 1, Before(input, k - 1), a);
      RetriedBudget(a.log, RetryMarker(k), TurnFrom(input, k, Before(input, k)).log);
    }
  }

  /** The first attempt that is not retried decides the turn: by its structured value, else by its accepted text,
      else by giving up. */
  lemma FirstUsableAttemptDecides(input: Input, k: nat)
    requires input.modelOk && input.ready
    requires (forall j | 0 <= j < k :: Retried(input, j)) && !Retried(input, k)
    ensures var t, r := TurnOf(input), ResultOf(input, k);
      && t.attempts == (if Begins(input, k) then k + 1 else k)
      && Markers(t.log) == k
      && t.output == (if !Begins(input, k) then None
                      else if r.structuredOutput.Some? then r.structuredOutput
                      else if input.format.None? || !r.mayRetry then None
                      else
                        match Inspect(input.format.value.env, r.plainTextOutput)
                        case Accepted(output) => Some(output)
                        case Rejected(_) => None)
  {
    hide Attempt, Inspect, TurnFrom, Markers;
    AfterRetries(input, k);
    if Begins(input, k) {
      var a := Attempt(input.scripts(k), MAX_TURN_EVENTS - Before(input, k));
      TurnUnfolds(input, k, Before(input, k), a);
      AttemptBudget(input.scripts(k), MAX_TURN_EVENTS - Before(input, k));
      LastAttemptBudget(a, MAX_TURN_EVENTS - Before(input, k));
    } else {
      TurnOver(input, k, Before(input, k));
      NothingCounted();
    }
  }

  /** When another attempt follows: the attempt was reached, the model went idle without a value, its text was refused,
      and retries, time and events are left. */
  lemma RetriedExactly(input: Input, k: nat)
    ensures Retried(input, k) <==>
      && k < Retries(input) && !input.lateBefore(k) && !input.lateAfter(k)
      && Before(input, k) + ResultOf(input, k).appended < MAX_TURN_EVENTS
      && ResultOf(input, k).mayRetry && ResultOf(input, k).structuredOutput.None?
      && (input.format.Some? ==> Inspect(input.format.value.env, ResultOf(input, k).plainTextOutput).Rejected?)
  {
    hide Attempt, Inspect;
  }

  /** No retry marker follows an attempt after which the deadline has passed, the budget is full, no retry is allowed,
      or the model did not go idle cleanly. */
  lemma NoMarkerAfter(input: Input, k: nat)
    requires input.modelOk && input.ready
    requires input.lateAfter(k) || k >= Retries(input) || !ResultOf(input, k).mayRetry
      || Before(input, k) + ResultOf(input, k).appended >= MAX_TURN_EVENTS
    ensures Markers(TurnOf(input).log) <= k && TurnOf(input).attempts <= k + 1
  {
    hide TurnOf, Retried, Inspect, Attempt, Markers;
    var d := DecidingAttempt(input, 0);
    RetriedExactly(input, k);
    assert d <= k;
    FirstUsableAttemptDecides(input, d);
  }

  // ---------- The append beyond the budget does happen ----------

  /** Attempt `k` is reached, yields no structured value, and fills the budget with a text that the fallback accepts. */
  predicate FallsBackOnFullBudget(input: Input, k: nat) {
    var r := ResultOf(input, k);
    && Begins(input, k)
    && r.structuredOutput.None?
    && Fallback(input, r).Some?
    && Before(input, k) + r.appended == MAX_TURN_EVENTS
  }

  /** The guard of the branch that appends beyond the budget. */
  ghost predicate Overflows(input: Input) {
    input.modelOk && input.ready
    && exists k: nat :: (forall j | 0 <= j < k :: Retried(input, j)) && FallsBackOnFullBudget(input, k)
  }

  lemma {:induction false} DecidingAttempt(input: Input, from: nat) returns (k: nat)
    requires from <= Retries(input) + 1 && forall j | 0 <= j < from :: Retried(input, j)
    ensures (forall j | 0 <= j < k :: Retried(input, j)) && !Retried(input, k)
    decreases Retries(input) + 1 - from
  {
    if Retried(input, from) { k := DecidingAttempt(input, from + 1); } else { k := from; }
  }

  /** How much the deciding attempt leaves in the log. */
  lemma DecidingLog(input: Input, k: nat)
    requires input.modelOk && input.ready
    requires (forall j | 0 <= j < k :: Retried(input, j)) && !Retried(input, k)
    ensures |TurnOf(input).log| > MAX_TURN_EVENTS <==> FallsBackOnFullBudget(input, k)
  {
    hide Attempt, TurnFrom, Retried;
    AfterRetries(input, k);
    SpentWithin(input, k);
    if Begins(input, k) {
      var a := Attempt(input.scripts(k), MAX_TURN_EVENTS - Before(input, k));
      AttemptBudget(input.scripts(k), MAX_TURN_EVENTS - Before(input, k));
      TurnUnfolds(input, k, Before(input, k), a);
      RetriedUnfolds(input, k);
    } else {
      TurnOver(input, k, Before(input, k));
    }
  }

  lemma RetriedUnfolds(input: Input, k: nat)
    requires !Retried(input, k) && Begins(input, k)
    ensures var r := ResultOf(input, k);
      r.structuredOutput.Some? || Fallback(input, r).Some? || GivesUp(input, k, r, Before(input, k) + r.appended)
  {
  }

  lemma SpentWithin(input: Input, k: nat)
    requires forall j | 0 <= j < k :: Retried(input, j)
    ensures Before(input, k) <= MAX_TURN_EVENTS
  {
    hide Attempt, Fallback;
    if k > 0 { assert Retried(input, k - 1); }
  }

  /** The evidence of a turn exceeds the artifact's event limit, so that its artifact cannot be written, if and only if
      some attempt is reached by retries alone, yields no structured value, and fills the budget with a text that the
      fallback accepts. */
  lemma EvidenceOverflowsExactly(input: Input, artifact: Artifacts.Artifact)
    requires |artifact.evidence| == |TurnOf(input).log|
    ensures |artifact.evidence| > Artifacts.MAX_EVIDENCE_EVENTS <==> Overflows(input)
    ensures Overflows(input) ==> !Artifacts.Writable(artifact)
  {
    hide TurnOf, FallsBackOnFullBudget, Retried;
    if input.modelOk && input.ready {
      var k := DecidingAttempt(input, 0);
      DecidingLog(input, k);
      if Overflows(input) {
        var m: nat :| (forall j | 0 <= j < m :: Retried(input, j)) && FallsBackOnFullBudget(input, m);
        FullFallbackIsNotRetried(input, m);
        assert m == k;
      }
    } else {
      NeverStarted(input);
    }
  }

  lemma FullFallbackIsNotRetried(input: Input, k: nat)
    requires FallsBackOnFullBudget(input, k)
    ensures !Retried(input, k)
  {
  }

  lemma NeverStarted(input: Input)
    requires !input.modelOk || !input.ready
    ensures |TurnOf(input).log| == 1
  {
  }

  /** An answer, then as many thoughts as fill the budget but one, then a clean idle. */
  function LongThought(n: nat): (arrivals: seq<Arrival>)
    ensures |arrivals| == n + 2
  {
    [Arrival(TextPart(Some([0x70]), Some([0x31])), false)]
    + seq(n, i => Arrival(PartDelta([0x78], true, None, None), false))
    + [Arrival(SessionIdle, false)]
  }

  const ANSWERED: State := INITIAL.(textPartOrder := [[0x70]], textByPart := map[[0x70] := [0x31]])

  lemma {:induction false} ThoughtsEmitted(n: nat, m: nat)
    requires m <= n
    ensures var evs := Events(LongThought(n))[..m + 1];
      After(evs) == ANSWERED && Emitted(evs) == seq(m, i => Thinking([0x78]))
  {
    var all := Events(LongThought(n));
    if m == 0 {
      assert all[..1] == [] + [TextPart(Some([0x70]), Some([0x31]))];
      AfterOneMore([], TextPart(Some([0x70]), Some([0x31])));
    } else {
      ThoughtsEmitted(n, m - 1);
      assert all[m] == PartDelta([0x78], true, None, None);
      assert all[..m + 1] == all[..m] + [all[m]];
      AfterOneMore(all[..m], all[m]);
    }
  }

  lemma NeverLate(n: nat, m: nat)
    requires m <= n
    ensures !LongThought(n)[m].late
  {
  }

  lemma {:induction false} ThoughtsDoNotStop(n: nat, m: nat, budget: nat)
    requires m <= n + 1 && n < budget
    ensures var a := LongThought(n);
      StopFrom(a, false, budget, m) == StopFrom(a, false, budget, n + 1)
    decreases n + 1 - m
  {
    hide StopFrom, Emitted, After, LongThought;
    if m <= n {
      ThoughtsEmitted(n, m);
      assert !Ends(Events(LongThought(n))[..m + 1], budget);
      StopUnfolds(LongThought(n), false, budget, m);
      NeverLate(n, m);
      ThoughtsDoNotStop(n, m + 1, budget);
    }
  }

  /** After the idle: one attention more, and the answer is the plain text. */
  lemma ThoughtsThenIdle(n: nat)
    ensures var evs := Events(LongThought(n))[..n + 2];
      && |Emitted(evs)| == n + 1 && After(evs) == ANSWERED.(retryableIdle := true)
  {
    var evs := Events(LongThought(n));
    ThoughtsEmitted(n, n);
    assert evs[n + 1] == SessionIdle;
    assert evs[..n + 2] == evs[..n + 1] + [evs[n + 1]];
    AfterOneMore(evs[..n + 1], evs[n + 1]);
  }

  lemma AnsweredText()
    ensures PlainText(ANSWERED.(retryableIdle := true)) == Some([0x31])
  {
    assert Last([[0x70]]) == [0x70];
  }

  lemma LongThoughtAttempt(n: nat)
    ensures var a := Attempt(Stream(LongThought(n), false), n + 1);
      && |a.log| == a.result.appended == n + 1
      && a.result == AttemptResult(None, Some([0x31]), true, n + 1)
  {
    hide StopFrom, Emitted, After, PlainText, LongThought, HasAttention;
    ThoughtsDoNotStop(n, 0, n + 1);
    ThoughtsThenIdle(n);
    AnsweredText();
    StopUnfolds(LongThought(n), false, n + 1, n + 1);
    assert StopFrom(LongThought(n), false, n + 1, 0) == Stop(n + 2, false);
  }

  /** A parser that knows the text `1`, and the schema `{"type": "number"}`. */
  const NUMBERS: Env :=
    Env(t => if t == [0x31] then Some(Number([0x31])) else None, Some((j: Json) => Answered(j.Number?)))

  lemma NumberAccepted()
    ensures Inspect(NUMBERS, Some([0x31])).Accepted?
  {
    hide Stringify, Trim, Utf8Length, ParsedValid;
    TrimKeeps([0x31]);
  }

  /** A structured request, with the retry count that request validation demands, whose first attempt fills the budget. */
  const FULL_BUDGET: Input :=
    Input(true, true, Some(Format(NUMBERS, 2)),
          i => Stream(LongThought(MAX_TURN_EVENTS - 1), false), i => false, i => false)

  /** The full budget and the fallback marker make 2001 appends, and no artifact that holds them is writable. */
  lemma FullBudgetFallbackHappens(artifact: Artifacts.Artifact)
    requires |artifact.evidence| == |TurnOf(FULL_BUDGET).log|
    ensures |TurnOf(FULL_BUDGET).log| == MAX_TURN_EVENTS + 1 && !Artifacts.Writable(artifact)
  {
    hide Attempt, Inspect, TurnFrom, LongThought;
    var script := Stream(LongThought(MAX_TURN_EVENTS - 1), false);
    LongThoughtAttempt(MAX_TURN_EVENTS - 1);
    NumberAccepted();
    TurnUnfolds(FULL_BUDGET, 0, 0, Attempt(script, MAX_TURN_EVENTS));
    assert |TurnOf(FULL_BUDGET).log| == MAX_TURN_EVENTS + 1;
  }
}
