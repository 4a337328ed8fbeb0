/** The scanner that finds top-level JSON containers in assistant prose. */
module Containers {
  import opened Managed
  import opened Text

  // ---------- What a balanced container is ----------

  /** A container: its kind and what stands between its brackets. */
  datatype Box = Box(brace: bool, pieces: seq<Piece>)

  datatype Piece =
    | Plain(u: Unit)
    | Quoted(body: Str)
    | Nested(box: Box)

  function Opener(brace: bool): Unit {
    if brace then OPEN_BRACE else OPEN_BRACKET
  }

  function Closer(brace: bool): Unit {
    if brace then CLOSE_BRACE else CLOSE_BRACKET
  }

  predicate IsOpener(u: Unit) {
    u == OPEN_BRACE || u == OPEN_BRACKET
  }

  predicate IsCloser(u: Unit) {
    u == CLOSE_BRACE || u == CLOSE_BRACKET
  }

  /** A string body whose every quote is escaped and whose last escape is complete. */
  predicate IsBody(body: Str) {
    if body == [] then true
    else if body[0] == QUOTE then false
    else if body[0] == BACKSLASH then |body| >= 2 && IsBody(body[2..])
    else IsBody(body[1..])
  }

  predicate PieceOk(p: Piece) {
    match p
    case Plain(u) => !IsOpener(u) && !IsCloser(u) && u != QUOTE
    case Quoted(body) => IsBody(body)
    case Nested(box) => BoxOk(box)
  }

  predicate BoxOk(b: Box) {
    forall i | 0 <= i < |b.pieces| :: PieceOk(b.pieces[i])
  }

  function Render(b: Box): Str
    decreases b, 1
  {
    [Opener(b.brace)] + RenderPieces(b.pieces) + [Closer(b.brace)]
  }

  function RenderPiece(p: Piece): Str
    decreases p, 2
  {
    match p
    case Plain(u) => [u]
    case Quoted(body) => [QUOTE] + body + [QUOTE]
    case Nested(box) => Render(box)
  }

  function RenderPieces(ps: seq<Piece>): Str
    decreases ps, 0
  {
    if ps == [] then [] else RenderPiece(ps[0]) + RenderPieces(ps[1..])
  }

  // ---------- The scanner, one unit at a time ----------

  /** `current` is the text from the unit that opened the container under construction. */
  datatype Scanner =
    | Idle(out: seq<Str>)
    | Open(out: seq<Str>, current: Str, stack: Str, inString: bool, escaped: bool)

  predicate Matches(open: Unit, close: Unit) {
    (close == CLOSE_BRACE && open == OPEN_BRACE) || (close == CLOSE_BRACKET && open == OPEN_BRACKET)
  }

  function Step(s: Scanner, u: Unit): Scanner {
    match s
    case Idle(out) => if IsOpener(u) then Open(out, [u], [u], false, false) else s
    case Open(out, current, stack, inString, escaped) =>
      var next := current + [u];
      if inString then
        Open(out, next, stack, escaped || u != QUOTE, !escaped && u == BACKSLASH)
      else if u == QUOTE then Open(out, next, stack, true, escaped)
      else if IsOpener(u) then Open(out, next, stack + [u], false, escaped)
      else if !IsCloser(u) then Open(out, next, stack, false, escaped)
      else if stack == [] || !Matches(stack[|stack| - 1], u) then Idle(out)
      else if |stack| == 1 then Idle(out + [next])
      else Open(out, next, stack[..|stack| - 1], false, escaped)
  }

  function Scan(s: Scanner, t: Str): Scanner
    decreases |t|
  {
    if t == [] then s else Scan(Step(s, t[0]), t[1..])
  }

  function Found(t: Str): seq<Str> {
    Scan(Idle([]), t).out
  }

  lemma {:induction false} ScanAppend(s: Scanner, a: Str, b: Str)
    ensures Scan(s, a + b) == Scan(Scan(s, a), b)
    decreases |a|
  {
    if a == [] {
      assert a + b == b;
    } else {
      assert (a + b)[1..] == a[1..] + b;
      ScanAppend(Step(s, a[0]), a[1..], b);
    }
  }

  lemma NothingScans(s: Scanner)
    ensures Scan(s, []) == s
  {
  }

  lemma ScanOne(s: Scanner, u: Unit)
    ensures Scan(s, [u]) == Step(s, u)
  {
    assert [u][1..] == [];
  }

  /** The loop of the source, with its indices and flags. */
  method JsonContainers(text: Str) returns (containers: seq<Str>)
    ensures containers == Found(text)
  {
    containers := [];
    var start, stack: Str, inString, escaped := -1, [], false, false;
    for index := 0 to |text|
      invariant -1 <= start < index
      invariant start < 0 ==> !inString && !escaped && Scan(Idle([]), text[..index]) == Idle(containers)
      invariant start >= 0 ==>
        && stack != []
        && Scan(Idle([]), text[..index]) == Open(containers, text[start..index], stack, inString, escaped)
        && (escaped ==> inString)
    {
      var unit := text[index];
      assert text[..index + 1] == text[..index] + [unit];
      ScanAppend(Idle([]), text[..index], [unit]);
      ScanOne(Scan(Idle([]), text[..index]), unit);
      if start < 0 {
        if IsOpener(unit) {
          start := index;
          stack := [unit];
          assert text[start..index + 1] == [unit];
        }
        continue;
      }
      assert text[start..index + 1] == text[start..index] + [unit];
      if inString {
        if escaped { escaped := false; }
        else if unit == BACKSLASH { escaped := true; }
        else if unit == QUOTE { inString := false; }
        continue;
      }
      if unit == QUOTE { inString := true; continue; }
      if IsOpener(unit) { stack := stack + [unit]; continue; }
      if !IsCloser(unit) { continue; }
      var open := stack[|stack| - 1];
      if (unit == CLOSE_BRACE && open != OPEN_BRACE) || (unit == CLOSE_BRACKET && open != OPEN_BRACKET) {
        start := -1;
        stack := [];
        continue;
      }
      stack := stack[..|stack| - 1];
      if |stack| == 0 {
        containers := containers + [text[start..index + 1]];
        start := -1;
      }
    }
    assert text[..|text|] == text;
  }

  // ---------- Completeness: balanced containers amid prose are all found ----------

  /** Inside a string, a complete body leaves the scanner inside the string. */
  lemma {:induction false} BodyScans(out: seq<Str>, current: Str, stack: Str, body: Str)
    requires IsBody(body)
    ensures Scan(Open(out, current, stack, true, false), body) == Open(out, current + body, stack, true, false)
    decreases |body|
  {
    if body == [] {
      assert current + body == current;
    } else if body[0] == BACKSLASH {
      BodyScans(out, current + [body[0]] + [body[1]], stack, body[2..]);
      assert body[1..][1..] == body[2..];
      assert current + [body[0]] + [body[1]] + body[2..] == current + body;
    } else {
      BodyScans(out, current + [body[0]], stack, body[1..]);
      assert current + [body[0]] + body[1..] == current + body;
    }
  }

  lemma QuotedScans(out: seq<Str>, current: Str, stack: Str, body: Str)
    requires IsBody(body)
    ensures var t := [QUOTE] + body + [QUOTE];
      Scan(Open(out, current, stack, false, false), t) == Open(out, current + t, stack, false, false)
  {
    var s0 := Open(out, current, stack, false, false);
    ScanOne(s0, QUOTE);
    ScanAppend(s0, [QUOTE], body);
    BodyScans(out, current + [QUOTE], stack, body);
    ScanAppend(s0, [QUOTE] + body, [QUOTE]);
    ScanOne(Open(out, current + [QUOTE] + body, stack, true, false), QUOTE);
    assert current + [QUOTE] + body + [QUOTE] == current + ([QUOTE] + body + [QUOTE]);
  }

  /** Balanced text inside a container leaves the stack as it found it. */
  lemma {:induction false} PieceScans(out: seq<Str>, current: Str, stack: Str, p: Piece)
    requires PieceOk(p) && stack != []
    ensures Scan(Open(out, current, stack, false, false), RenderPiece(p))
         == Open(out, current + RenderPiece(p), stack, false, false)
    decreases p, 2
  {
    match p
    case Plain(u) => ScanOne(Open(out, current, stack, false, false), u);
    case Quoted(body) => QuotedScans(out, current, stack, body);
    case Nested(b) =>
      var open := [Opener(b.brace)];
      PiecesScan(out, current + open, stack + open, b.pieces);
      NestedScans(out, current, stack, b);
  }

  lemma OpenerScans(out: seq<Str>, current: Str, stack: Str, brace: bool)
    ensures var open := [Opener(brace)];
      Scan(Open(out, current, stack, false, false), open) == Open(out, current + open, stack + open, false, false)
  {
    ScanOne(Open(out, current, stack, false, false), Opener(brace));
  }

  lemma CloserScans(out: seq<Str>, current: Str, stack: Str, brace: bool)
    requires stack != []
    ensures Scan(Open(out, current, stack + [Opener(brace)], false, false), [Closer(brace)])
         == Open(out, current + [Closer(brace)], stack, false, false)
  {
    ScanOne(Open(out, current, stack + [Opener(brace)], false, false), Closer(brace));
    assert (stack + [Opener(brace)])[..|stack|] == stack;
  }

  lemma NestedScans(out: seq<Str>, current: Str, stack: Str, b: Box)
    requires stack != []
    requires var open, inner := [Opener(b.brace)], RenderPieces(b.pieces);
      Scan(Open(out, current + open, stack + open, false, false), inner)
        == Open(out, current + open + inner, stack + open, false, false)
    ensures Scan(Open(out, current, stack, false, false), Render(b)) == Open(out, current + Render(b), stack, false, false)
  {
    hide Scan, Step, RenderPieces;
    var s0 := Open(out, current, stack, false, false);
    var open, inner, close := [Opener(b.brace)], RenderPieces(b.pieces), [Closer(b.brace)];
    OpenerScans(out, current, stack, b.brace);
    ScanAppend(s0, open, inner);
    ScanAppend(s0, open + inner, close);
    CloserScans(out, current + open + inner, stack, b.brace);
    assert current + open + inner + close == current + Render(b);
  }

  lemma {:induction false} PiecesScan(out: seq<Str>, current: Str, stack: Str, ps: seq<Piece>)
    requires stack != [] && forall i | 0 <= i < |ps| :: PieceOk(ps[i])
    ensures Scan(Open(out, current, stack, false, false), RenderPieces(ps))
         == Open(out, current + RenderPieces(ps), stack, false, false)
    decreases ps, 0
  {
    hide Scan, Step, RenderPiece;
    if ps == [] {
      NothingScans(Open(out, current, stack, false, false));
      assert current + RenderPieces(ps) == current;
    } else {
      PieceScans(out, current, stack, ps[0]);
      PiecesScan(out, current + RenderPiece(ps[0]), stack, ps[1..]);
      ScanAppend(Open(out, current, stack, false, false), RenderPiece(ps[0]), RenderPieces(ps[1..]));
      assert current + RenderPiece(ps[0]) + RenderPieces(ps[1..]) == current + RenderPieces(ps);
    }
  }

  /** A top-level container is found whole. */
  lemma BoxScans(out: seq<Str>, b: Box)
    requires BoxOk(b)
    ensures Scan(Idle(out), Render(b)) == Idle(out + [Render(b)])
  {
    var open, inner := [Opener(b.brace)], RenderPieces(b.pieces);
    ScanOne(Idle(out), Opener(b.brace));
    ScanAppend(Idle(out), open, inner);
    PiecesScan(out, open, open, b.pieces);
    ScanAppend(Idle(out), open + inner, [Closer(b.brace)]);
    ScanOne(Open(out, open + inner, open, false, false), Closer(b.brace));
  }

  predicate IsProse(t: Str) {
    forall i | 0 <= i < |t| :: !IsOpener(t[i])
  }

  lemma {:induction false} ProseScans(out: seq<Str>, t: Str)
    requires IsProse(t)
    ensures Scan(Idle(out), t) == Idle(out)
    decreases |t|
  {
    if t != [] { ProseScans(out, t[1..]); }
  }

  /** Prose, a container, prose, a container, ... , and closing prose. */
  function Weave(prose: seq<Str>, boxes: seq<Box>, last: Str): Str
    requires |prose| == |boxes|
  {
    if boxes == [] then last else prose[0] + Render(boxes[0]) + Weave(prose[1..], boxes[1..], last)
  }

  function Renders(boxes: seq<Box>): seq<Str> {
    seq(|boxes|, i requires 0 <= i < |boxes| => Render(boxes[i]))
  }

  lemma {:induction false} WeaveScans(out: seq<Str>, prose: seq<Str>, boxes: seq<Box>, last: Str)
    requires |prose| == |boxes| && IsProse(last)
    requires forall i | 0 <= i < |boxes| :: IsProse(prose[i]) && BoxOk(boxes[i])
    ensures Scan(Idle(out), Weave(prose, boxes, last)) == Idle(out + Renders(boxes))
    decreases |boxes|
  {
    if boxes == [] {
      ProseScans(out, last);
      assert out + Renders(boxes) == out;
    } else {
      var head, tail := Render(boxes[0]), Weave(prose[1..], boxes[1..], last);
      ProseScans(out, prose[0]);
      ScanAppend(Idle(out), prose[0], head);
      BoxScans(out, boxes[0]);
      ScanAppend(Idle(out), prose[0] + head, tail);
      WeaveScans(out + [head], prose[1..], boxes[1..], last);
      assert Renders(boxes) == [head] + Renders(boxes[1..]);
      assert out + [head] + Renders(boxes[1..]) == out + Renders(boxes);
    }
  }

  /** Containers amid prose free of openers are found, all of them and nothing else. */
  lemma FindsExactly(prose: seq<Str>, boxes: seq<Box>, last: Str)
    requires |prose| == |boxes| && IsProse(last)
    requires forall i | 0 <= i < |boxes| :: IsProse(prose[i]) && BoxOk(boxes[i])
    ensures Found(Weave(prose, boxes, last)) == Renders(boxes)
  {
    WeaveScans([], prose, boxes, last);
    assert [] + Renders(boxes) == Renders(boxes);
  }

  // ---------- Soundness: whatever is found is balanced, in order and disjoint ----------

  /** The text under construction: one open container per stack entry, then perhaps an open string. */
  datatype Shape = Shape(frames: seq<Box>, body: Option<Str>)

  function RenderFrames(frames: seq<Box>): Str {
    if frames == [] then []
    else
      var last := frames[|frames| - 1];
      RenderFrames(frames[..|frames| - 1]) + [Opener(last.brace)] + RenderPieces(last.pieces)
  }

  function RenderShape(sh: Shape): Str {
    RenderFrames(sh.frames) + (if sh.body.Some? then [QUOTE] + sh.body.value else [])
  }

  /** A body still being read, perhaps just after a backslash. */
  predicate IsPartialBody(body: Str, escaped: bool) {
    if escaped then body != [] && body[|body| - 1] == BACKSLASH && IsBody(body[..|body| - 1]) else IsBody(body)
  }

  ghost predicate Shapes(sh: Shape, s: Scanner) {
    && s.Open?
    && s.current == RenderShape(sh)
    && |sh.frames| == |s.stack| > 0
    && (forall i | 0 <= i < |s.stack| :: s.stack[i] == Opener(sh.frames[i].brace) && BoxOk(sh.frames[i]))
    && s.inString == sh.body.Some?
    && (sh.body.Some? ==> IsPartialBody(sh.body.value, s.escaped))
    && (sh.body.None? ==> !s.escaped)
  }

  ghost predicate Balanced(t: Str) {
    exists b: Box :: BoxOk(b) && t == Render(b)
  }

  /** The pieces of text occur in `t` one after another, without overlap. */
  ghost predicate InOrder(t: Str, found: seq<Str>)
    decreases |found|
  {
    found == [] ||
    exists i: nat, j: nat :: i <= j <= |t| && t[i..j] == found[|found| - 1] && InOrder(t[..i], found[..|found| - 1])
  }

  ghost predicate ScannerOk(t: Str, s: Scanner) {
    && (forall i | 0 <= i < |s.out| :: Balanced(s.out[i]))
    && (s.Idle? ==> InOrder(t, s.out))
    && (s.Open? ==> exists sh: Shape :: Shapes(sh, s))
    && (s.Open? ==> exists i: nat :: i <= |t| && t[i..] == s.current && InOrder(t[..i], s.out))
  }

  lemma InOrderLonger(t: Str, more: Str, found: seq<Str>)
    requires InOrder(t, found)
    ensures InOrder(t + more, found)
  {
    if found != [] {
      var i: nat, j: nat :| i <= j <= |t| && t[i..j] == found[|found| - 1] && InOrder(t[..i], found[..|found| - 1]);
      assert (t + more)[i..j] == t[i..j] && (t + more)[..i] == t[..i];
    }
  }

  lemma {:induction false} BodyAppend(a: Str, b: Str)
    requires IsBody(a) && IsBody(b)
    ensures IsBody(a + b)
    decreases |a|
  {
    if a == [] {
      assert a + b == b;
    } else if a[0] == BACKSLASH {
      BodyAppend(a[2..], b);
      assert (a + b)[2..] == a[2..] + b;
    } else {
      BodyAppend(a[1..], b);
      assert (a + b)[1..] == a[1..] + b;
    }
  }

  lemma {:induction false} PiecesAppend(a: seq<Piece>, b: seq<Piece>)
    ensures RenderPieces(a + b) == RenderPieces(a) + RenderPieces(b)
    decreases |a|
  {
    if a == [] {
      assert a + b == b;
    } else {
      assert (a + b)[1..] == a[1..] + b;
      PiecesAppend(a[1..], b);
    }
  }

  function AddPiece(frames: seq<Box>, p: Piece): seq<Box>
    requires frames != []
  {
    var last := frames[|frames| - 1];
    frames[..|frames| - 1] + [Box(last.brace, last.pieces + [p])]
  }

  lemma PieceAdds(frames: seq<Box>, p: Piece)
    requires frames != []
    ensures RenderFrames(AddPiece(frames, p)) == RenderFrames(frames) + RenderPiece(p)
  {
    var last, fs := frames[|frames| - 1], AddPiece(frames, p);
    assert fs[..|fs| - 1] == frames[..|frames| - 1];
    PiecesAppend(last.pieces, [p]);
    assert RenderPieces([p]) == RenderPiece(p) + RenderPieces([]);
  }

  lemma AddedPieceOk(frames: seq<Box>, p: Piece)
    requires frames != [] && PieceOk(p) && forall i | 0 <= i < |frames| :: BoxOk(frames[i])
    ensures var fs := AddPiece(frames, p);
      |fs| == |frames| && forall i | 0 <= i < |fs| :: BoxOk(fs[i]) && fs[i].brace == frames[i].brace
  {
    hide PieceOk;
  }

  /** One more unit inside a string. */
  lemma StringUnit(sh: Shape, s: Scanner, u: Unit)
    requires Shapes(sh, s) && s.inString
    ensures exists sh' :: Shapes(sh', Step(s, u))
  {
    var body := sh.body.value;
    if !s.escaped && u == QUOTE {
      PieceAdds(sh.frames, Quoted(body));
      AddedPieceOk(sh.frames, Quoted(body));
      var sh' := Shape(AddPiece(sh.frames, Quoted(body)), None);
      assert RenderShape(sh') == s.current + [u];
      assert Shapes(sh', Step(s, u));
    } else {
      var sh' := sh.(body := Some(body + [u]));
      assert RenderShape(sh') == s.current + [u];
      if s.escaped {
        var before := body[..|body| - 1];
        assert body + [u] == before + [BACKSLASH, u];
        assert [BACKSLASH, u][2..] == [];
        BodyAppend(before, [BACKSLASH, u]);
      } else if u == BACKSLASH {
        assert (body + [u])[..|body|] == body;
      } else {
        assert [u][1..] == [];
        BodyAppend(body, [u]);
      }
      assert Shapes(sh', Step(s, u));
    }
  }

  /** A plain unit, or a quote. */
  lemma PlainUnit(sh: Shape, s: Scanner, u: Unit)
    requires Shapes(sh, s) && !s.inString && !IsOpener(u) && !IsCloser(u)
    ensures exists sh' :: Shapes(sh', Step(s, u))
  {
    hide RenderFrames, RenderPieces, BoxOk;
    if u == QUOTE {
      var sh' := sh.(body := Some([]));
      assert RenderShape(sh') == s.current + [u];
      assert Shapes(sh', Step(s, u));
    } else {
      PieceAdds(sh.frames, Plain(u));
      AddedPieceOk(sh.frames, Plain(u));
      var sh' := Shape(AddPiece(sh.frames, Plain(u)), None);
      assert RenderShape(sh') == s.current + [u];
      assert Shapes(sh', Step(s, u));
    }
  }

  lemma NestingUnit(sh: Shape, s: Scanner, u: Unit)
    requires Shapes(sh, s) && !s.inString && IsOpener(u)
    ensures exists sh' :: Shapes(sh', Step(s, u))
  {
    var inner := Box(u == OPEN_BRACE, []);
    var sh' := Shape(sh.frames + [inner], None);
    assert sh'.frames[..|sh.frames|] == sh.frames;
    assert RenderShape(sh') == s.current + [u];
    assert Shapes(sh', Step(s, u));
  }

  lemma UnnestingUnit(sh: Shape, s: Scanner, u: Unit)
    requires Shapes(sh, s) && !s.inString && IsCloser(u) && Step(s, u).Open?
    ensures exists sh' :: Shapes(sh', Step(s, u))
  {
    hide RenderFrames, RenderPieces, Render;
    var last, outer := sh.frames[|sh.frames| - 1], sh.frames[..|sh.frames| - 1];
    assert outer + [last] == sh.frames;
    assert s.stack[|s.stack| - 1] == Opener(last.brace);
    assert u == Closer(last.brace);
    PieceAdds(outer, Nested(last));
    AddedPieceOk(outer, Nested(last));
    var sh' := Shape(AddPiece(outer, Nested(last)), None);
    NestedText(outer, last);
    assert RenderShape(sh') == s.current + [u];
    assert Shapes(sh', Step(s, u));
  }

  lemma NestedText(outer: seq<Box>, last: Box)
    ensures RenderFrames(outer + [last]) + [Closer(last.brace)] == RenderFrames(outer) + Render(last)
  {
    assert (outer + [last])[..|outer|] == outer;
  }

  lemma OneFrame(frames: seq<Box>)
    requires |frames| == 1
    ensures RenderFrames(frames) + [Closer(frames[0].brace)] == Render(frames[0])
  {
    hide RenderPieces;
    NestedText([], frames[0]);
    assert [] + [frames[0]] == frames;
    assert RenderFrames([]) == [];
  }

  /** The unit that closes the outermost container. */
  lemma ClosingUnit(sh: Shape, s: Scanner, u: Unit)
    requires Shapes(sh, s) && !s.inString && IsCloser(u) && |s.stack| == 1 && Matches(s.stack[0], u)
    ensures Balanced(s.current + [u])
  {
    hide RenderFrames, Render, BoxOk;
    var b := sh.frames[0];
    OneFrame(sh.frames);
    assert s.stack[0] == Opener(b.brace) && BoxOk(b);
    assert s.current + [u] == Render(b);
  }

  lemma IdleStepOk(t: Str, out: seq<Str>, u: Unit)
    requires ScannerOk(t, Idle(out))
    ensures ScannerOk(t + [u], Step(Idle(out), u))
  {
    InOrderLonger(t, [u], out);
    if IsOpener(u) {
      var sh := Shape([Box(u == OPEN_BRACE, [])], None);
      NestedText([], Box(u == OPEN_BRACE, []));
      assert sh.frames[..0] == [] && RenderFrames([]) == [] && RenderPieces([]) == [];
      assert RenderFrames(sh.frames) == RenderFrames(sh.frames[..0]) + [u] + RenderPieces([]);
      assert RenderShape(sh) == [u];
      assert Shapes(sh, Step(Idle(out), u));
      assert (t + [u])[|t|..] == [u] && (t + [u])[..|t|] == t;
    }
  }

  lemma ShapeStep(sh: Shape, s: Scanner, u: Unit)
    requires Shapes(sh, s) && Step(s, u).Open?
    ensures exists sh' :: Shapes(sh', Step(s, u))
  {
    hide Shapes;
    InsideString(sh, s);
    if s.inString { StringUnit(sh, s, u); }
    else if IsOpener(u) { NestingUnit(sh, s, u); }
    else if IsCloser(u) { UnnestingUnit(sh, s, u); }
    else { PlainUnit(sh, s, u); }
  }

  lemma InsideString(sh: Shape, s: Scanner)
    requires Shapes(sh, s)
    ensures s.Open?
  {
  }

  lemma ReportedInOrder(t: Str, i: nat, found: seq<Str>, last: Str)
    requires i <= |t| && t[i..] == last && InOrder(t[..i], found)
    ensures InOrder(t, found + [last])
  {
    assert (found + [last])[..|found|] == found && t[i..|t|] == last;
  }

  /** What the closer of a container, or a mismatched one, makes of the scanner. */
  lemma LeavingStep(s: Scanner, u: Unit)
    requires s.Open? && Step(s, u).Idle?
    ensures Step(s, u).out == s.out
      || (Step(s, u).out == s.out + [s.current + [u]]
          && !s.inString && IsCloser(u) && |s.stack| == 1 && Matches(s.stack[0], u))
  {
  }

  /** A mismatched closer gives up the text; the closer of the outermost bracket reports it. */
  lemma LeavingUnit(t: Str, i: nat, sh: Shape, s: Scanner, u: Unit)
    requires s.Open? && Shapes(sh, s) && Step(s, u).Idle?
    requires i <= |t| && t[i..] == s.current && InOrder(t[..i], s.out)
    requires forall k | 0 <= k < |s.out| :: Balanced(s.out[k])
    ensures ScannerOk(t + [u], Step(s, u))
  {
    hide Shapes, Balanced, InOrder, Step, Matches;
    var t' := t + [u];
    assert t'[..i] == t[..i] && t'[i..] == s.current + [u];
    LeavingStep(s, u);
    if Step(s, u).out == s.out {
      InOrderLonger(t[..i], t[i..] + [u], s.out);
      assert t[..i] + (t[i..] + [u]) == t';
    } else {
      ClosingUnit(sh, s, u);
      ReportedInOrder(t', i, s.out, s.current + [u]);
    }
  }

  lemma OpenParts(t: Str, s: Scanner) returns (sh: Shape, i: nat)
    requires ScannerOk(t, s) && s.Open?
    ensures Shapes(sh, s) && i <= |t| && t[i..] == s.current && InOrder(t[..i], s.out)
    ensures forall k | 0 <= k < |s.out| :: Balanced(s.out[k])
  {
    hide Shapes, Balanced, InOrder;
    sh :| Shapes(sh, s);
    i :| i <= |t| && t[i..] == s.current && InOrder(t[..i], s.out);
  }

  /** The scanner stays inside a container. */
  lemma StayingUnit(t: Str, i: nat, s: Scanner, u: Unit)
    requires s.Open? && Step(s, u).Open? && exists sh' :: Shapes(sh', Step(s, u))
    requires i <= |t| && t[i..] == s.current && InOrder(t[..i], s.out)
    requires forall k | 0 <= k < |s.out| :: Balanced(s.out[k])
    ensures ScannerOk(t + [u], Step(s, u))
  {
    hide Shapes, Balanced, InOrder, Step;
    StaysOpen(s, u);
    var t' := t + [u];
    assert t'[..i] == t[..i] && t'[i..] == s.current + [u];
  }

  lemma StepOk(t: Str, s: Scanner, u: Unit)
    requires ScannerOk(t, s)
    ensures ScannerOk(t + [u], Step(s, u))
  {
    hide ScannerOk, Shapes, Balanced, InOrder, Step;
    if s.Idle? {
      IdleStepOk(t, s.out, u);
    } else {
      var sh, i := OpenParts(t, s);
      if Step(s, u).Open? {
        ShapeStep(sh, s, u);
        StayingUnit(t, i, s, u);
      } else {
        LeavingUnit(t, i, sh, s, u);
      }
    }
  }

  lemma StaysOpen(s: Scanner, u: Unit)
    requires s.Open? && Step(s, u).Open?
    ensures Step(s, u).current == s.current + [u] && Step(s, u).out == s.out
  {
  }

  lemma {:induction false} ScanOk(t: Str)
    ensures ScannerOk(t, Scan(Idle([]), t))
    decreases |t|
  {
    if t != [] {
      var init, u := t[..|t| - 1], t[|t| - 1];
      ScanOk(init);
      ScanAppend(Idle([]), init, [u]);
      ScanOne(Scan(Idle([]), init), u);
      assert t == init + [u];
      StepOk(init, Scan(Idle([]), init), u);
    }
  }

  lemma FoundInOrder(t: Str, s: Scanner)
    requires ScannerOk(t, s)
    ensures InOrder(t, s.out) && forall i | 0 <= i < |s.out| :: Balanced(s.out[i])
  {
    hide InOrder, Balanced, Shapes;
    if s.Open? {
      var _, i := OpenParts(t, s);
      InOrderLonger(t[..i], t[i..], s.out);
      assert t[..i] + t[i..] == t;
    }
  }

  /** Everything found is a balanced container, and the finds stand in the text in order without overlap. */
  lemma FindsOnlyBalanced(t: Str)
    ensures forall i | 0 <= i < |Found(t)| :: Balanced(Found(t)[i])
    ensures InOrder(t, Found(t))
  {
    hide ScannerOk, InOrder, Balanced, Scan;
    ScanOk(t);
    FoundInOrder(t, Scan(Idle([]), t));
  }
}
