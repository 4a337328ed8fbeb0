/** The stateful mapper from OpenCode events to evidence payloads. One instance per session stream. */
module Mapper {
  import opened Managed
  import opened Text
  import opened CanonicalJson
  import opened StructuredOutput

  // ---------- Events and payloads ----------

  /** An OpenCode tool state: `completed`, `error`, or anything mid-flight (absent included). */
  datatype WireStatus = WireCompleted | WireError | WireOther

  datatype ToolStatus = Running | Completed | Errored

  datatype Tokens = Tokens(input: Option<nat>, output: Option<nat>, cacheRead: Option<nat>, cacheWrite: Option<nat>)

  /** A wire event reduced to the fields the mapper looks at; an absent identifier is `None` or empty, as on the wire. */
  datatype Event =
    | MessageUpdated(assistant: bool, id: Str, structured: Option<Json>)
    | PartDelta(delta: Str, reasoning: bool, messageId: Option<Str>, partId: Option<Str>)
    | TextPart(textId: Option<Str>, text: Option<Str>)
    | ToolPart(callId: Str, name: Str, status: WireStatus, arguments: Option<Json>, output: Str)
    | StepFinish(stepId: Option<Str>, stepMessage: Option<Str>, tokens: Option<Tokens>, cost: Option<nat>)
    | SessionIdle
    | PermissionAsked
    | QuestionAsked
    | SessionError(message: Str)
    | OtherEvent

  datatype Attention = NeedsInput | Permission | ErrorStalled

  datatype Payload =
    | MessageStart(messageId: Str)
    | MessageEnd(messageId: Str)
    | MessageDelta(messageId: Str, text: Str)
    | Thinking(text: Str)
    | ToolCall(callId: Str, name: Str, status: ToolStatus, arguments: Option<Json>, output: Option<Str>)
    | Usage(messageId: Str, tokens: Tokens, cost: Option<nat>)
    | AttentionRequired(reason: Attention, message: Str)

  function MapToolStatus(s: WireStatus): ToolStatus {
    match s
    case WireCompleted => Completed
    case WireError => Errored
    case WireOther => Running
  }

  /** A step reports usage only if it has a `tokens` object and at least one counter or a cost. */
  function UsageFromStep(ev: Event): Option<Payload>
    requires ev.StepFinish?
  {
    if ev.tokens.None? then None
    else
      var t := ev.tokens.value;
      if t == Tokens(None, None, None, None) && ev.cost.None? then None
      else Some(Usage(if ev.stepMessage.Some? then ev.stepMessage.value else [], t, ev.cost))
  }

  /** `message:`, the prefix of the part that collects deltas without a part of their own. */
  const MESSAGE_PREFIX: Str := [0x6D, 0x65, 0x73, 0x73, 0x61, 0x67, 0x65, 0x3A]

  /** The message a text delta belongs to: its own, or the open one. */
  function DeltaMessage(open: Option<Str>, ev: Event): Option<Str>
    requires ev.PartDelta?
  {
    if ev.messageId.Some? then ev.messageId else open
  }

  function PartOf(messageId: Str, partId: Option<Str>): Str {
    if partId.Some? && partId.value != [] then partId.value else MESSAGE_PREFIX + messageId
  }

  // ---------- One event ----------

  /** The mapper's fields. */
  datatype State = State(
    openMsg: Option<Str>,
    structuredMsg: Option<Str>,
    finalStructured: Option<Str>,
    retryableIdle: bool,
    textPartOrder: seq<Str>,
    textByPart: map<Str, Str>,
    toolStatus: map<Str, ToolStatus>,
    stepsSeen: set<Str>)

  const INITIAL: State := State(None, None, None, false, [], map[], map[], {})

  datatype Mapped = Mapped(state: State, payloads: seq<Payload>)

  function SetText(s: State, id: Str, text: Str): State {
    s.(textPartOrder := if id in s.textByPart then s.textPartOrder else s.textPartOrder + [id],
       textByPart := s.textByPart[id := text])
  }

  function OldText(s: State, id: Str): Str {
    if id in s.textByPart then s.textByPart[id] else []
  }

  function OnMessageUpdated(s: State, ev: Event): Mapped
    requires ev.MessageUpdated?
  {
    if !ev.assistant || ev.id == [] then Mapped(s, [])
    else
      var opening := s.openMsg != Some(ev.id);
      var s1 := s.(openMsg := Some(ev.id));
      var start := if opening then [MessageStart(ev.id)] else [];
      if ev.structured.Some? && s.structuredMsg != Some(ev.id) then
        var text := Stringify(ev.structured.value);
        Mapped(s1.(structuredMsg := Some(ev.id), finalStructured := Some(text)), start + [MessageDelta(ev.id, text)])
      else Mapped(s1, start)
  }

  function OnPartDelta(s: State, ev: Event): Mapped
    requires ev.PartDelta?
  {
    if ev.delta == [] then Mapped(s, [])
    else if ev.reasoning then Mapped(s, [Thinking(ev.delta)])
    else
      var m := DeltaMessage(s.openMsg, ev);
      if m.None? then Mapped(s, [])
      else
        var part := PartOf(m.value, ev.partId);
        Mapped(SetText(s, part, OldText(s, part) + ev.delta), [MessageDelta(m.value, ev.delta)])
  }

  function OnToolPart(s: State, ev: Event): Mapped
    requires ev.ToolPart?
  {
    var status := MapToolStatus(ev.status);
    if ev.callId in s.toolStatus && s.toolStatus[ev.callId] == status then Mapped(s, [])
    else
      Mapped(s.(toolStatus := s.toolStatus[ev.callId := status]),
             [ToolCall(ev.callId, ev.name, status, ev.arguments, if ev.output == [] then None else Some(ev.output))])
  }

  function OnStepFinish(s: State, ev: Event): Mapped
    requires ev.StepFinish?
  {
    var usage := UsageFromStep(ev);
    if usage.None? then Mapped(s, [])
    else if ev.stepId.None? then Mapped(s, [usage.value])
    else if ev.stepId.value in s.stepsSeen then Mapped(s, [])
    else Mapped(s.(stepsSeen := s.stepsSeen + {ev.stepId.value}), [usage.value])
  }

  function OnIdle(s: State): Mapped {
    Mapped(s.(retryableIdle := true, openMsg := None, structuredMsg := None),
           (if s.openMsg.Some? then [MessageEnd(s.openMsg.value)] else []) + [AttentionRequired(NeedsInput, [])])
  }

  function Next(s: State, ev: Event): Mapped {
    match ev
    case MessageUpdated(_, _, _) => OnMessageUpdated(s, ev)
    case PartDelta(_, _, _, _) => OnPartDelta(s, ev)
    case TextPart(id, text) =>
      Mapped(if id.Some? && text.Some? then SetText(s, id.value, text.value) else s, [])
    case ToolPart(_, _, _, _, _) => OnToolPart(s, ev)
    case StepFinish(_, _, _, _) => OnStepFinish(s, ev)
    case SessionIdle => OnIdle(s)
    case PermissionAsked => Mapped(s.(retryableIdle := false), [AttentionRequired(Permission, [])])
    case QuestionAsked => Mapped(s.(retryableIdle := false), [AttentionRequired(NeedsInput, [])])
    case SessionError(message) => Mapped(s.(retryableIdle := false), [AttentionRequired(ErrorStalled, message)])
    case OtherEvent => Mapped(s, [])
  }

  // ---------- Whole streams ----------

  function Init<T>(s: seq<T>): seq<T>
    requires s != []
  {
    s[..|s| - 1]
  }

  function Last<T>(s: seq<T>): T
    requires s != []
  {
    s[|s| - 1]
  }

  function After(evs: seq<Event>): State {
    if evs == [] then INITIAL else Next(After(Init(evs)), Last(evs)).state
  }

  function Emitted(evs: seq<Event>): seq<Payload> {
    if evs == [] then [] else Emitted(Init(evs)) + Next(After(Init(evs)), Last(evs)).payloads
  }

  lemma AfterOneMore(evs: seq<Event>, ev: Event)
    ensures After(evs + [ev]) == Next(After(evs), ev).state
    ensures Emitted(evs + [ev]) == Emitted(evs) + Next(After(evs), ev).payloads
  {
    assert Init(evs + [ev]) == evs;
  }

  // ---------- The mapper ----------

  class OpencodeMapper {
    var openMsg: Option<Str>
    var structuredMsg: Option<Str>
    var finalStructuredOutput: Option<Str>
    var retryableStructuredOutputIdle: bool
    var textPartOrder: seq<Str>
    var textByPart: map<Str, Str>
    var toolStatus: map<Str, ToolStatus>
    var stepsSeen: set<Str>

    ghost function Value(): State
      reads this
    {
      State(openMsg, structuredMsg, finalStructuredOutput, retryableStructuredOutputIdle,
            textPartOrder, textByPart, toolStatus, stepsSeen)
    }

    ghost predicate Valid()
      reads this
    {
      forall i | 0 <= i < |textPartOrder| :: textPartOrder[i] in textByPart
    }

    constructor ()
      ensures Valid() && Value() == INITIAL
    {
      openMsg, structuredMsg, finalStructuredOutput, retryableStructuredOutputIdle := None, None, None, false;
      textPartOrder, textByPart, toolStatus, stepsSeen := [], map[], map[], {};
    }

    method OnEvent(ev: Event) returns (out: seq<Payload>)
      requires Valid()
      modifies this
      ensures Valid() && Mapped(Value(), out) == Next(old(Value()), ev)
    {
      out := [];
      match ev
      case MessageUpdated(assistant, id, structured) =>
        if !assistant || id == [] { return; }
        if openMsg != Some(id) {
          openMsg := Some(id);
          out := out + [MessageStart(id)];
        }
        if structured.Some? && structuredMsg != Some(id) {
          structuredMsg := Some(id);
          finalStructuredOutput := Some(Stringify(structured.value));
          out := out + [MessageDelta(id, Stringify(structured.value))];
        }
      case PartDelta(delta, reasoning, messageId, partId) =>
        if delta == [] { return; }
        if reasoning { out := [Thinking(delta)]; return; }
        var m := if messageId.Some? then messageId else openMsg;
        if m.None? { return; }
        AppendTextPart(PartOf(m.value, partId), delta);
        out := [MessageDelta(m.value, delta)];
      case TextPart(id, text) =>
        if id.Some? && text.Some? { ReplaceTextPart(id.value, text.value); }
      case ToolPart(callId, name, status, arguments, output) =>
        var mapped := MapToolStatus(status);
        if callId in toolStatus && toolStatus[callId] == mapped { return; }
        toolStatus := toolStatus[callId := mapped];
        out := [ToolCall(callId, name, mapped, arguments, if output == [] then None else Some(output))];
      case StepFinish(id, _, _, _) =>
        var usage := UsageFromStep(ev);
        if usage.None? { return; }
        if id.Some? {
          if id.value in stepsSeen { return; }
          stepsSeen := stepsSeen + {id.value};
        }
        out := [usage.value];
      case SessionIdle =>
        retryableStructuredOutputIdle := true;
        if openMsg.Some? {
          out := [MessageEnd(openMsg.value)];
          openMsg := None;
        }
        structuredMsg := None;
        out := out + [AttentionRequired(NeedsInput, [])];
      case PermissionAsked =>
        retryableStructuredOutputIdle := false;
        out := [AttentionRequired(Permission, [])];
      case QuestionAsked =>
        retryableStructuredOutputIdle := false;
        out := [AttentionRequired(NeedsInput, [])];
      case SessionError(message) =>
        retryableStructuredOutputIdle := false;
        out := [AttentionRequired(ErrorStalled, message)];
      case OtherEvent =>
    }

    method AppendTextPart(partId: Str, delta: Str)
      requires Valid()
      modifies this`textPartOrder, this`textByPart
      ensures Valid() && Value() == SetText(old(Value()), partId, OldText(old(Value()), partId) + delta)
    {
      if partId !in textByPart { textPartOrder := textPartOrder + [partId]; }
      textByPart := textByPart[partId := (if partId in textByPart then textByPart[partId] else []) + delta];
    }

    method ReplaceTextPart(partId: Str, text: Str)
      requires Valid()
      modifies this`textPartOrder, this`textByPart
      ensures Valid() && Value() == SetText(old(Value()), partId, text)
    {
      if partId !in textByPart { textPartOrder := textPartOrder + [partId]; }
      textByPart := textByPart[partId := text];
    }

    function MayRetryStructuredOutput(): bool
      reads this
    {
      retryableStructuredOutputIdle && finalStructuredOutput.None?
    }

    /** The text of the last part that has any. */
    method PlainTextOutput() returns (r: Option<Str>)
      requires Valid()
      ensures r == PlainText(Value())
    {
      var index := |textPartOrder| - 1;
      assert textPartOrder[..index + 1] == textPartOrder;
      while index >= 0
        invariant -1 <= index < |textPartOrder|
        invariant LastText(textPartOrder[..index + 1], textByPart) == PlainText(Value())
      {
        assert Init(textPartOrder[..index + 1]) == textPartOrder[..index];
        var text := textByPart[textPartOrder[index]];
        if text != [] { return Some(text); }
        index := index - 1;
      }
      return None;
    }
  }

  function LastText(order: seq<Str>, texts: map<Str, Str>): Option<Str> {
    if order == [] then None
    else if Last(order) in texts && texts[Last(order)] != [] then Some(texts[Last(order)])
    else LastText(Init(order), texts)
  }

  function PlainText(s: State): Option<Str> {
    LastText(s.textPartOrder, s.textByPart)
  }

  // ---------- Messages: an end names the latest start ----------

  /** The message that the payloads leave open. */
  function OpenAfter(ps: seq<Payload>): Option<Str> {
    if ps == [] then None
    else match Last(ps)
      case MessageStart(id) => Some(id)
      case MessageEnd(_) => None
      case _ => OpenAfter(Init(ps))
  }

  /** Starts and ends pair up: an end closes the open message, and a start opens a message that is not open. */
  ghost predicate MessagesPair(ps: seq<Payload>) {
    forall k | 0 <= k < |ps| ::
      && (ps[k].MessageEnd? ==> OpenAfter(ps[..k]) == Some(ps[k].messageId))
      && (ps[k].MessageStart? ==> OpenAfter(ps[..k]) != Some(ps[k].messageId))
  }

  lemma OpenAfterOne(ps: seq<Payload>, p: Payload)
    ensures OpenAfter(ps + [p]) ==
      if p.MessageStart? then Some(p.messageId) else if p.MessageEnd? then None else OpenAfter(ps)
  {
    assert Init(ps + [p]) == ps;
  }

  lemma PairOne(ps: seq<Payload>, p: Payload)
    requires MessagesPair(ps)
    requires p.MessageEnd? ==> OpenAfter(ps) == Some(p.messageId)
    requires p.MessageStart? ==> OpenAfter(ps) != Some(p.messageId)
    ensures MessagesPair(ps + [p])
  {
    forall k | 0 <= k < |ps + [p]|
      ensures (ps + [p])[k].MessageEnd? ==> OpenAfter((ps + [p])[..k]) == Some((ps + [p])[k].messageId)
      ensures (ps + [p])[k].MessageStart? ==> OpenAfter((ps + [p])[..k]) != Some((ps + [p])[k].messageId)
    {
      assert (ps + [p])[..k] == ps[..k];
      assert ps[..|ps|] == ps;
    }
  }

  lemma MessagesStep(s: State, ev: Event, ps: seq<Payload>)
    requires s.openMsg == OpenAfter(ps) && MessagesPair(ps)
    ensures Next(s, ev).state.openMsg == OpenAfter(ps + Next(s, ev).payloads)
    ensures MessagesPair(ps + Next(s, ev).payloads)
  {
    hide MessagesPair, OpenAfter;
    var out := Next(s, ev).payloads;
    if out == [] {
      assert ps + out == ps;
    } else {
      OpenAfterOne(ps, out[0]);
      PairOne(ps, out[0]);
      if |out| == 2 {
        OpenAfterOne(ps + [out[0]], out[1]);
        PairOne(ps + [out[0]], out[1]);
        assert ps + out == ps + [out[0]] + [out[1]];
      } else {
        assert ps + out == ps + [out[0]];
      }
    }
  }

  lemma {:induction false} MessagesTracked(evs: seq<Event>)
    ensures After(evs).openMsg == OpenAfter(Emitted(evs)) && MessagesPair(Emitted(evs))
  {
    if evs != [] {
      MessagesTracked(Init(evs));
      MessagesStep(After(Init(evs)), Last(evs), Emitted(Init(evs)));
    }
  }

  predicate Brackets(p: Payload) {
    p.MessageStart? || p.MessageEnd?
  }

  lemma {:induction false} OpenedBy(ps: seq<Payload>, id: Str)
    requires OpenAfter(ps) == Some(id)
    ensures exists j :: 0 <= j < |ps| && ps[j] == MessageStart(id) && forall i | j < i < |ps| :: !Brackets(ps[i])
  {
    if Brackets(Last(ps)) {
      assert ps[|ps| - 1] == MessageStart(id);
    } else {
      OpenedBy(Init(ps), id);
      var j :| 0 <= j < |Init(ps)| && Init(ps)[j] == MessageStart(id) && forall i | j < i < |Init(ps)| :: !Brackets(Init(ps)[i]);
      assert ps[j] == MessageStart(id);
      assert forall i | j < i < |Init(ps)| :: Init(ps)[i] == ps[i];
    }
  }

  /** Every `message_end` names the latest `message_start`, and no other start or end stands between the two. */
  lemma EndNamesLatestStart(evs: seq<Event>, k: nat)
    requires k < |Emitted(evs)| && Emitted(evs)[k].MessageEnd?
    ensures exists j :: 0 <= j < k && Emitted(evs)[j] == MessageStart(Emitted(evs)[k].messageId)
                        && forall i | j < i < k :: !Brackets(Emitted(evs)[i])
  {
    hide OpenAfter;
    var ps := Emitted(evs);
    MessagesTracked(evs);
    OpenedBy(ps[..k], ps[k].messageId);
    var j :| 0 <= j < k && ps[..k][j] == MessageStart(ps[k].messageId) && forall i | j < i < k :: !Brackets(ps[..k][i]);
    assert ps[j] == MessageStart(ps[k].messageId);
    assert forall i | j < i < k :: ps[..k][i] == ps[i];
  }

  // ---------- Tools: one call per status change ----------

  /** The statuses reported for one tool call, as they arrived. */
  function Reported(id: Str, evs: seq<Event>): seq<ToolStatus> {
    if evs == [] then []
    else
      var ev := Last(evs);
      Reported(id, Init(evs)) + (if ev.ToolPart? && ev.callId == id then [MapToolStatus(ev.status)] else [])
  }

  /** The statuses emitted for one tool call. */
  function Called(id: Str, ps: seq<Payload>): seq<ToolStatus> {
    if ps == [] then []
    else
      var p := Last(ps);
      Called(id, Init(ps)) + (if p.ToolCall? && p.callId == id then [p.status] else [])
  }

  /** Runs of equal statuses cut down to one. */
  function Collapse(ss: seq<ToolStatus>): seq<ToolStatus> {
    if |ss| <= 1 then ss
    else if Last(ss) == Last(Init(ss)) then Collapse(Init(ss))
    else Collapse(Init(ss)) + [Last(ss)]
  }

  ghost predicate NoStutter(ss: seq<ToolStatus>) {
    forall i | 0 <= i < |ss| - 1 :: ss[i] != ss[i + 1]
  }

  lemma {:induction false} CollapseFacts(ss: seq<ToolStatus>)
    ensures NoStutter(Collapse(ss))
    ensures ss != [] ==> Collapse(ss) != [] && Last(Collapse(ss)) == Last(ss)
  {
    if |ss| > 1 { CollapseFacts(Init(ss)); }
  }

  lemma CollapseOne(ss: seq<ToolStatus>, x: ToolStatus)
    ensures Collapse(ss + [x]) == if ss != [] && Last(ss) == x then Collapse(ss) else Collapse(ss) + [x]
  {
    assert Init(ss + [x]) == ss;
  }

  lemma CalledOne(id: Str, ps: seq<Payload>, p: Payload)
    ensures Called(id, ps + [p]) == Called(id, ps) + if p.ToolCall? && p.callId == id then [p.status] else []
  {
    assert Init(ps + [p]) == ps;
  }

  /** Whatever an event emits, it emits at most one tool call, its only payload. */
  lemma CalledStep(id: Str, s: State, ev: Event, ps: seq<Payload>)
    ensures Called(id, ps + Next(s, ev).payloads) ==
      if ev.ToolPart? && ev.callId == id && (id !in s.toolStatus || s.toolStatus[id] != MapToolStatus(ev.status))
      then Called(id, ps) + [MapToolStatus(ev.status)] else Called(id, ps)
  {
    hide Called;
    var out := Next(s, ev).payloads;
    if out == [] {
      assert ps + out == ps;
    } else {
      CalledOne(id, ps, out[0]);
      if |out| == 2 {
        CalledOne(id, ps + [out[0]], out[1]);
        assert ps + out == ps + [out[0]] + [out[1]];
      } else {
        assert ps + out == ps + [out[0]];
      }
    }
  }

  lemma ToolStep(s: State, ev: Event)
    ensures Next(s, ev).state.toolStatus ==
      if ev.ToolPart? then s.toolStatus[ev.callId := MapToolStatus(ev.status)] else s.toolStatus
  {
    if ev.ToolPart? && ev.callId in s.toolStatus && s.toolStatus[ev.callId] == MapToolStatus(ev.status) {
      assert s.toolStatus == s.toolStatus[ev.callId := MapToolStatus(ev.status)];
    }
  }

  lemma {:induction false} ToolsTracked(id: Str, evs: seq<Event>)
    ensures (id in After(evs).toolStatus) == (Reported(id, evs) != [])
    ensures id in After(evs).toolStatus ==> After(evs).toolStatus[id] == Last(Reported(id, evs))
    ensures Called(id, Emitted(evs)) == Collapse(Reported(id, evs))
  {
    hide Called, Collapse, Next, MapToolStatus;
    if evs == [] {
      NothingCalled(id);
    } else {
      var before, ev := Init(evs), Last(evs);
      ToolsTracked(id, before);
      ToolStep(After(before), ev);
      assert Reported(id, before) + [] == Reported(id, before);
      CalledStep(id, After(before), ev, Emitted(before));
      CollapseOne(Reported(id, before), if ev.ToolPart? then MapToolStatus(ev.status) else Running);
    }
  }

  lemma NothingCalled(id: Str)
    ensures Called(id, []) == [] && Collapse([]) == []
  {
  }

  /** A tool call is emitted exactly when its status changes: the emitted statuses are the reported ones
      without repeats, so neighbours differ and the last one is current. */
  lemma ToolStatusesChange(id: Str, evs: seq<Event>)
    ensures Called(id, Emitted(evs)) == Collapse(Reported(id, evs))
    ensures NoStutter(Called(id, Emitted(evs)))
    ensures Reported(id, evs) != [] ==>
      Called(id, Emitted(evs)) != [] && Last(Called(id, Emitted(evs))) == Last(Reported(id, evs))
  {
    ToolsTracked(id, evs);
    CollapseFacts(Reported(id, evs));
  }

  // ---------- Usage: once per step ----------

  predicate StepWithUsage(ev: Event, id: Str) {
    ev.StepFinish? && ev.stepId == Some(id) && UsageFromStep(ev).Some?
  }

  lemma StepSeen(id: Str, s: State, ev: Event)
    ensures id in Next(s, ev).state.stepsSeen <==> id in s.stepsSeen || StepWithUsage(ev, id)
  {
  }

  lemma {:induction false} StepsTracked(id: Str, evs: seq<Event>)
    ensures id in After(evs).stepsSeen <==> exists k :: 0 <= k < |evs| && StepWithUsage(evs[k], id)
  {
    hide Next, StepWithUsage;
    if evs != [] {
      var before, ev := Init(evs), Last(evs);
      StepsTracked(id, before);
      assert forall k | 0 <= k < |before| :: evs[k] == before[k];
      assert ev == evs[|before|];
      StepSeen(id, After(before), ev);
    }
  }

  /** An identified step's usage is emitted by its first report that has any, and by no later one. */
  lemma UsageOncePerStep(id: Str, evs: seq<Event>, k: nat)
    requires k < |evs| && StepWithUsage(evs[k], id)
    ensures Next(After(evs[..k]), evs[k]).payloads ==
      if exists i :: 0 <= i < k && StepWithUsage(evs[i], id) then [] else [UsageFromStep(evs[k]).value]
  {
    StepsTracked(id, evs[..k]);
    assert forall i | 0 <= i < k :: evs[..k][i] == evs[i];
  }

  // ---------- Text parts ----------

  /** What an event does to the text of a part. */
  datatype Edit = Append(id: Str, text: Str) | Replace(id: Str, text: Str)

  function EditOf(open: Option<Str>, ev: Event): Option<Edit> {
    match ev
    case TextPart(id, text) => if id.Some? && text.Some? then Some(Replace(id.value, text.value)) else None
    case PartDelta(delta, reasoning, _, partId) =>
      var m := DeltaMessage(open, ev);
      if delta == [] || reasoning || m.None? then None else Some(Append(PartOf(m.value, partId), delta))
    case _ => None
  }

  function Edits(evs: seq<Event>): seq<Edit> {
    if evs == [] then []
    else
      var e := EditOf(OpenAfter(Emitted(Init(evs))), Last(evs));
      Edits(Init(evs)) + if e.Some? then [e.value] else []
  }

  /** A part's text: what its last replacement set, and every delta since. */
  function TextOf(id: Str, edits: seq<Edit>): Option<Str> {
    if edits == [] then None
    else
      var before, e := TextOf(id, Init(edits)), Last(edits);
      if e.id != id then before
      else if e.Replace? then Some(e.text)
      else Some((if before.Some? then before.value else []) + e.text)
  }

  /** The parts in the order of their first edit. */
  function FirstEdits(edits: seq<Edit>): seq<Str> {
    if edits == [] then []
    else
      var before := FirstEdits(Init(edits));
      if Last(edits).id in before then before else before + [Last(edits).id]
  }

  ghost predicate NoRepeats(order: seq<Str>) {
    forall i, j | 0 <= i < j < |order| :: order[i] != order[j]
  }

  ghost predicate TextsTrack(s: State, edits: seq<Edit>) {
    && s.textPartOrder == FirstEdits(edits)
    && NoRepeats(s.textPartOrder)
    && (forall id :: id in s.textByPart <==> id in s.textPartOrder)
    && (forall id :: id in s.textByPart <==> TextOf(id, edits).Some?)
    && (forall id | id in s.textByPart :: Some(s.textByPart[id]) == TextOf(id, edits))
  }

  lemma EditTexts(edits: seq<Edit>, e: Edit, id: Str)
    ensures TextOf(id, edits + [e]) ==
      if e.id != id then TextOf(id, edits)
      else Some((if e.Append? && TextOf(id, edits).Some? then TextOf(id, edits).value else []) + e.text)
  {
    assert Init(edits + [e]) == edits;
    assert [] + e.text == e.text;
  }

  lemma EditOrder(edits: seq<Edit>, e: Edit)
    ensures FirstEdits(edits + [e]) == if e.id in FirstEdits(edits) then FirstEdits(edits) else FirstEdits(edits) + [e.id]
  {
    assert Init(edits + [e]) == edits;
  }

  lemma TextsStep(s: State, edits: seq<Edit>, e: Edit)
    requires TextsTrack(s, edits)
    ensures TextsTrack(SetText(s, e.id, (if e.Append? then OldText(s, e.id) else []) + e.text), edits + [e])
  {
    hide TextOf, FirstEdits;
    var edits' := edits + [e];
    var text := (if e.Append? then OldText(s, e.id) else []) + e.text;
    var s' := SetText(s, e.id, text);
    EditOrder(edits, e);
    EditTexts(edits, e, e.id);
    forall id ensures id in s'.textByPart <==> TextOf(id, edits').Some?
              ensures id in s'.textByPart ==> Some(s'.textByPart[id]) == TextOf(id, edits')
    {
      EditTexts(edits, e, id);
    }
    forall id ensures id in s'.textByPart <==> id in s'.textPartOrder {
    }
  }

  lemma {:induction false} TextsTracked(evs: seq<Event>)
    ensures TextsTrack(After(evs), Edits(evs))
  {
    if evs != [] {
      var before, ev := Init(evs), Last(evs);
      TextsTracked(before);
      MessagesTracked(before);
      TextEvent(After(before), ev, Edits(before));
    }
  }

  lemma TextEvent(s: State, ev: Event, edits: seq<Edit>)
    requires TextsTrack(s, edits)
    ensures var e := EditOf(s.openMsg, ev);
      TextsTrack(Next(s, ev).state, edits + if e.Some? then [e.value] else [])
  {
    hide TextOf, FirstEdits;
    var e := EditOf(s.openMsg, ev);
    if e.Some? {
      hide TextsTrack;
      TextsStep(s, edits, e.value);
      assert [] + e.value.text == e.value.text;
    } else {
      assert edits + [] == edits;
      assert Next(s, ev).state.textPartOrder == s.textPartOrder && Next(s, ev).state.textByPart == s.textByPart;
    }
  }

  /** Part `i` has text and no later part has any. */
  ghost predicate LastWithText(order: seq<Str>, texts: map<Str, Str>, i: int)
    requires forall k | 0 <= k < |order| :: order[k] in texts
  {
    0 <= i < |order| && texts[order[i]] != [] && forall j | i < j < |order| :: texts[order[j]] == []
  }

  lemma {:induction false} LastTextFacts(order: seq<Str>, texts: map<Str, Str>)
    requires forall i | 0 <= i < |order| :: order[i] in texts
    ensures LastText(order, texts).None? <==> forall i | 0 <= i < |order| :: texts[order[i]] == []
    ensures LastText(order, texts).Some? ==>
      exists i :: LastWithText(order, texts, i) && LastText(order, texts) == Some(texts[order[i]])
  {
    if order != [] {
      var n := |order| - 1;
      assert forall i | 0 <= i < n :: order[i] == Init(order)[i];
      if texts[order[n]] != [] {
        assert LastWithText(order, texts, n);
      } else {
        LastTextFacts(Init(order), texts);
        if LastText(order, texts).Some? {
          var i :| LastWithText(Init(order), texts, i) && LastText(order, texts) == Some(texts[Init(order)[i]]);
          assert LastWithText(order, texts, i);
        }
      }
    }
  }

  /** The plain text is that of the last part, in order of first edit, whose accumulated text is not empty;
      the order lists exactly the parts that hold text, each once. */
  lemma PlainTextIsLastAnswer(evs: seq<Event>)
    ensures var s, edits, r := After(evs), Edits(evs), PlainText(After(evs));
      && NoRepeats(s.textPartOrder) && s.textPartOrder == FirstEdits(edits)
      && (forall id :: id in s.textPartOrder <==> id in s.textByPart)
      && (r.None? <==> forall i | 0 <= i < |s.textPartOrder| :: TextOf(s.textPartOrder[i], edits) == Some([]))
      && (r.Some? ==> exists i :: 0 <= i < |s.textPartOrder| && TextOf(s.textPartOrder[i], edits) == r && r.value != []
                                  && forall j | i < j < |s.textPartOrder| :: TextOf(s.textPartOrder[j], edits) == Some([]))
  {
    hide TextOf, FirstEdits, LastText;
    var s := After(evs);
    TextsTracked(evs);
    assert forall i | 0 <= i < |s.textPartOrder| :: s.textPartOrder[i] in s.textPartOrder;
    LastTextFacts(s.textPartOrder, s.textByPart);
  }

  // ---------- Retry ----------

  predicate Stops(ev: Event) {
    ev.SessionIdle? || ev.PermissionAsked? || ev.QuestionAsked? || ev.SessionError?
  }

  predicate Structured(ev: Event) {
    ev.MessageUpdated? && ev.assistant && ev.id != [] && ev.structured.Some?
  }

  predicate MayRetry(s: State) {
    s.retryableIdle && s.finalStructured.None?
  }

  ghost predicate LastStopIsIdle(evs: seq<Event>) {
    exists k :: 0 <= k < |evs| && evs[k] == SessionIdle && forall i | k < i < |evs| :: !Stops(evs[i])
  }

  lemma RetryStep(s: State, ev: Event)
    requires s.structuredMsg.Some? ==> s.finalStructured.Some?
    ensures var s' := Next(s, ev).state;
      && s'.retryableIdle == (if Stops(ev) then ev.SessionIdle? else s.retryableIdle)
      && (s'.finalStructured.Some? <==> s.finalStructured.Some? || Structured(ev))
      && (s'.structuredMsg.Some? ==> s'.finalStructured.Some?)
  {
    hide Stringify;
  }

  lemma {:induction false} RetryTracked(evs: seq<Event>)
    ensures After(evs).retryableIdle <==> LastStopIsIdle(evs)
    ensures After(evs).finalStructured.Some? <==> exists k :: 0 <= k < |evs| && Structured(evs[k])
    ensures After(evs).structuredMsg.Some? ==> After(evs).finalStructured.Some?
  {
    hide Next, Structured, Stops;
    if evs != [] {
      var before, ev := Init(evs), Last(evs);
      RetryTracked(before);
      RetryStep(After(before), ev);
      LastStopStep(evs);
      assert forall k | 0 <= k < |before| :: evs[k] == before[k];
      assert ev == evs[|before|];
    }
  }

  lemma LastStopStep(evs: seq<Event>)
    requires evs != []
    ensures LastStopIsIdle(evs) <==> if Stops(Last(evs)) then Last(evs).SessionIdle? else LastStopIsIdle(Init(evs))
  {
    hide LastStopIsIdle, Stops;
    var before, ev := Init(evs), Last(evs);
    assert evs == before + [ev];
    IdleStops();
    if ev.SessionIdle? {
      IdleNow(before);
    } else {
      LastStopBackward(before, ev);
      if !Stops(ev) { LastStopForward(before, ev); }
    }
  }

  lemma IdleStops()
    ensures Stops(SessionIdle)
  {
  }

  lemma IdleNow(before: seq<Event>)
    ensures LastStopIsIdle(before + [SessionIdle])
  {
    assert (before + [SessionIdle])[|before|] == SessionIdle;
  }

  lemma LastStopForward(before: seq<Event>, ev: Event)
    requires !Stops(ev)
    ensures LastStopIsIdle(before) ==> LastStopIsIdle(before + [ev])
  {
    hide Stops;
    if LastStopIsIdle(before) {
      var k :| 0 <= k < |before| && before[k] == SessionIdle && forall i | k < i < |before| :: !Stops(before[i]);
      assert (before + [ev])[k] == SessionIdle;
    }
  }

  lemma LastStopBackward(before: seq<Event>, ev: Event)
    requires !ev.SessionIdle?
    ensures LastStopIsIdle(before + [ev]) ==> LastStopIsIdle(before) && !Stops(ev)
  {
    hide Stops;
    var evs := before + [ev];
    if LastStopIsIdle(evs) {
      var k :| 0 <= k < |evs| && evs[k] == SessionIdle && forall i | k < i < |evs| :: !Stops(evs[i]);
      assert evs[|before|] == ev;
      assert before[k] == SessionIdle;
      assert forall i | k < i < |before| :: evs[i] == before[i];
    }
  }

  /** A retry is allowed exactly when the last stop signal was a clean idle and no structured value was seen. */
  lemma RetryOnlyAfterCleanIdle(evs: seq<Event>)
    ensures MayRetry(After(evs)) <==> LastStopIsIdle(evs) && forall k | 0 <= k < |evs| :: !Structured(evs[k])
  {
    RetryTracked(evs);
  }

  // ---------- What each payload carries ----------

  /** A payload says what its event said, given the message open before it. */
  ghost predicate Carries(open: Option<Str>, ev: Event, p: Payload) {
    match p
    case MessageStart(id) => ev.MessageUpdated? && ev.assistant && id == ev.id && id != [] && open != Some(id)
    case MessageEnd(id) => ev == SessionIdle && open == Some(id)
    case MessageDelta(id, text) =>
      || (ev.PartDelta? && !ev.reasoning && text == ev.delta && text != []
          && (ev.messageId == Some(id) || (ev.messageId.None? && open == Some(id))))
      || (Structured(ev) && id == ev.id && text == Stringify(ev.structured.value))
    case Thinking(text) => ev.PartDelta? && ev.reasoning && text == ev.delta && text != []
    case ToolCall(callId, name, status, arguments, output) =>
      && ev.ToolPart? && callId == ev.callId && name == ev.name && arguments == ev.arguments
      && (status == Completed <==> ev.status == WireCompleted)
      && (status == Errored <==> ev.status == WireError)
      && (output.None? <==> ev.output == []) && (output.Some? ==> output.value == ev.output)
    case Usage(id, tokens, cost) =>
      && ev.StepFinish? && ev.tokens == Some(tokens) && cost == ev.cost
      && (ev.stepMessage.Some? ==> id == ev.stepMessage.value) && (ev.stepMessage.None? ==> id == [])
      && (tokens.input.Some? || tokens.output.Some? || tokens.cacheRead.Some? || tokens.cacheWrite.Some? || cost.Some?)
    case AttentionRequired(reason, message) =>
      || ((ev == SessionIdle || ev == QuestionAsked) && reason == NeedsInput && message == [])
      || (ev == PermissionAsked && reason == Permission && message == [])
      || (ev == SessionError(message) && reason == ErrorStalled)
  }

  lemma PayloadsCarry(s: State, ev: Event, k: nat)
    requires k < |Next(s, ev).payloads|
    ensures Carries(s.openMsg, ev, Next(s, ev).payloads[k])
  {
    hide Stringify;
  }

  ghost predicate CarriedBy(evs: seq<Event>, i: int, p: Payload) {
    0 <= i < |evs| && Carries(OpenAfter(Emitted(evs[..i])), evs[i], p)
  }

  /** Every payload in the evidence comes from an event that says the same. */
  lemma {:induction false} EvidenceIsCarried(evs: seq<Event>, k: nat)
    requires k < |Emitted(evs)|
    ensures exists i :: CarriedBy(evs, i, Emitted(evs)[k])
    decreases |evs|
  {
    hide Next, Carries, OpenAfter;
    var before, ev := Init(evs), Last(evs);
    var n := |Emitted(before)|;
    if k < n {
      EvidenceIsCarried(before, k);
      var i :| CarriedBy(before, i, Emitted(before)[k]);
      assert evs[..i] == before[..i];
      assert CarriedBy(evs, i, Emitted(evs)[k]);
    } else {
      MessagesTracked(before);
      PayloadsCarry(After(before), ev, k - n);
      assert evs[..|before|] == before;
      assert CarriedBy(evs, |before|, Emitted(evs)[k]);
    }
  }

  /** A step reports usage exactly if it has token fields and one of them, or a cost, is present. */
  lemma UsageExactly(ev: Event)
    requires ev.StepFinish?
    ensures UsageFromStep(ev).Some? <==>
      ev.tokens.Some? && (ev.cost.Some? || ev.tokens.value.input.Some? || ev.tokens.value.output.Some?
                          || ev.tokens.value.cacheRead.Some? || ev.tokens.value.cacheWrite.Some?)
  {
  }

  /** A step without an identifier is reported every time. */
  lemma UnnamedStepsAlwaysReport(s: State, ev: Event)
    requires ev.StepFinish? && ev.stepId.None? && UsageFromStep(ev).Some?
    ensures Next(s, ev) == Mapped(s, [UsageFromStep(ev).value])
  {
  }

  /** What must be said is said: a thought, every stop, the end of the open message, the start of a new one. */
  lemma EventsSpeak(s: State, ev: Event)
    ensures var out := Next(s, ev).payloads;
      && (ev.PartDelta? && ev.reasoning && ev.delta != [] ==> out == [Thinking(ev.delta)])
      && (Stops(ev) ==> out != [] && Last(out).AttentionRequired?)
      && (ev == SessionIdle && s.openMsg.Some? ==> |out| == 2 && out[0] == MessageEnd(s.openMsg.value))
      && (ev.MessageUpdated? && ev.assistant && ev.id != [] && s.openMsg != Some(ev.id) ==>
           out != [] && out[0] == MessageStart(ev.id))
      && (ev.OtherEvent? || ev.TextPart? || (ev.MessageUpdated? && !ev.assistant) ==> out == [])
  {
    hide Stringify;
  }

  predicate TextDelta(ev: Event) {
    ev.PartDelta? && ev.delta != [] && !ev.reasoning
  }

  predicate NamesPart(ev: Event) {
    ev.PartDelta? && ev.partId.Some? && ev.partId.value != []
  }

  /** Which part an event edits: a text part replaces itself; a text delta is added to its own part if it names one, else
      to the part `message:` of its message, which is the one it names or the open one. */
  lemma EditExactly(open: Option<Str>, ev: Event)
    ensures ev.TextPart? && ev.textId.Some? && ev.text.Some? ==> EditOf(open, ev) == Some(Replace(ev.textId.value, ev.text.value))
    ensures ev.TextPart? && (ev.textId.None? || ev.text.None?) ==> EditOf(open, ev).None?
    ensures TextDelta(ev) ==>
      var m := if ev.messageId.Some? then ev.messageId else open;
      && (m.None? ==> EditOf(open, ev).None?)
      && (m.Some? && NamesPart(ev) ==> EditOf(open, ev) == Some(Append(ev.partId.value, ev.delta)))
      && (m.Some? && !NamesPart(ev) ==> EditOf(open, ev) == Some(Append(Units("message:") + m.value, ev.delta)))
    ensures !ev.TextPart? && !TextDelta(ev) ==> EditOf(open, ev).None?
  {
    assert MESSAGE_PREFIX == Units("message:");
  }

  // ---------- The text of a message ----------

  /** The text emitted for a message. */
  function DeltasOf(m: Str, ps: seq<Payload>): Str {
    if ps == [] then []
    else
      var p := Last(ps);
      DeltasOf(m, Init(ps)) + if p.MessageDelta? && p.messageId == m then p.text else []
  }

  /** The message whose structured value was taken last, until the session goes idle. */
  function LastStructured(evs: seq<Event>): Option<Str> {
    if evs == [] then None
    else if Last(evs).SessionIdle? then None
    else if Structured(Last(evs)) then Some(Last(evs).id)
    else LastStructured(Init(evs))
  }

  /** A structured value that is not a repeat for its message. */
  predicate NewStructured(evs: seq<Event>)
    requires evs != []
  {
    Structured(Last(evs)) && LastStructured(Init(evs)) != Some(Last(evs).id)
  }

  /** The text that arrived for a message: its deltas, those without a message while it is open, and its structured value. */
  function Arrived(m: Str, evs: seq<Event>): Str {
    if evs == [] then []
    else
      var ev, open := Last(evs), OpenAfter(Emitted(Init(evs)));
      Arrived(m, Init(evs))
      + (if ev.PartDelta? && !ev.reasoning && (ev.messageId == Some(m) || (ev.messageId.None? && open == Some(m))) then ev.delta
         else if NewStructured(evs) && ev.id == m then Stringify(ev.structured.value)
         else [])
  }

  lemma {:induction false} StructuredTracked(evs: seq<Event>)
    ensures After(evs).structuredMsg == LastStructured(evs)
  {
    hide Stringify;
    if evs != [] {
      StructuredTracked(Init(evs));
      StructuredStep(After(Init(evs)), Last(evs));
    }
  }

  lemma StructuredStep(s: State, ev: Event)
    ensures Next(s, ev).state.structuredMsg ==
      if ev.SessionIdle? then None else if Structured(ev) then Some(ev.id) else s.structuredMsg
  {
    hide Stringify;
  }

  lemma DeltasOne(m: Str, ps: seq<Payload>, p: Payload)
    ensures DeltasOf(m, ps + [p]) == DeltasOf(m, ps) + if p.MessageDelta? && p.messageId == m then p.text else []
  {
    assert Init(ps + [p]) == ps;
  }

  /** What one event adds to the text of a message. */
  lemma DeltasStep(m: Str, s: State, ev: Event, ps: seq<Payload>)
    ensures DeltasOf(m, ps + Next(s, ev).payloads) == DeltasOf(m, ps)
      + (if ev.PartDelta? && !ev.reasoning && (ev.messageId == Some(m) || (ev.messageId.None? && s.openMsg == Some(m))) then ev.delta
         else if Structured(ev) && s.structuredMsg != Some(ev.id) && ev.id == m then Stringify(ev.structured.value)
         else [])
  {
    hide DeltasOf, Stringify;
    var out := Next(s, ev).payloads;
    if out == [] {
      assert ps + out == ps;
      assert DeltasOf(m, ps) + [] == DeltasOf(m, ps);
    } else {
      DeltasOne(m, ps, out[0]);
      if |out| == 2 {
        DeltasOne(m, ps + [out[0]], out[1]);
        assert ps + out == ps + [out[0]] + [out[1]];
      } else {
        assert ps + out == ps + [out[0]];
      }
    }
  }

  /** The deltas emitted for a message are, in order and whole, the text that arrived for it. */
  lemma {:induction false} DeltasCarryTheText(m: Str, evs: seq<Event>)
    ensures DeltasOf(m, Emitted(evs)) == Arrived(m, evs)
  {
    hide Next, DeltasOf, Stringify;
    if evs == [] {
      NoDeltas(m);
    } else {
      var before := Init(evs);
      DeltasCarryTheText(m, before);
      MessagesTracked(before);
      StructuredTracked(before);
      DeltasStep(m, After(before), Last(evs), Emitted(before));
    }
  }

  lemma NoDeltas(m: Str)
    ensures DeltasOf(m, []) == []
  {
  }

  /** The structured result: the last value that was not a repeat. */
  function LastValue(evs: seq<Event>): Option<Str> {
    if evs == [] then None
    else if NewStructured(evs) then Some(Stringify(Last(evs).structured.value))
    else LastValue(Init(evs))
  }

  lemma {:induction false} StructuredResult(evs: seq<Event>)
    ensures After(evs).finalStructured == LastValue(evs)
  {
    hide Stringify, Next;
    if evs != [] {
      StructuredResult(Init(evs));
      StructuredTracked(Init(evs));
      FinalStep(After(Init(evs)), Last(evs));
    }
  }

  lemma FinalStep(s: State, ev: Event)
    ensures Next(s, ev).state.finalStructured ==
      if Structured(ev) && s.structuredMsg != Some(ev.id) then Some(Stringify(ev.structured.value)) else s.finalStructured
  {
    hide Stringify;
  }
}
