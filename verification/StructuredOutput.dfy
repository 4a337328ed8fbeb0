/** The raw-JSON fallback: which assistant texts stand for one schema-valid value. */
module StructuredOutput {
  import opened Managed
  import opened Text
  import opened CanonicalJson
  import opened Containers

  // ---------- Serialised values ----------

  /** Whitespace as a serialiser lays it out: before an item at a nesting depth, and after a colon. */
  datatype Style = Style(line: nat -> Str, gap: Str)

  const COMPACT: Style := Style(depth => [], [])

  predicate IsSpacing(t: Str) {
    forall i | 0 <= i < |t| :: t[i] in {TAB, LINE_FEED, CARRIAGE_RETURN, SPACE}
  }

  ghost predicate StyleOk(style: Style) {
    IsSpacing(style.gap) && forall depth :: IsSpacing(style.line(depth))
  }

  /** JSON text of a value; `COMPACT` is `JSON.stringify(value)`. */
  function Pretty(j: Json, style: Style, depth: nat): Str
    decreases j, 1
  {
    match j
    case Null => NULL
    case Bool(b) => if b then TRUE else FALSE
    case Number(t) => t
    case String(s) => Quote(s)
    case Array(items) => [OPEN_BRACKET] + PrettyItems(items, style, depth) + [CLOSE_BRACKET]
    case Object(fields) => [OPEN_BRACE] + PrettyFields(fields, style, depth) + [CLOSE_BRACE]
  }

  function PrettyItems(items: seq<Json>, style: Style, depth: nat): Str
    decreases items, 0
  {
    if items == [] then []
    else
      style.line(depth + 1) + Pretty(items[0], style, depth + 1)
      + (if |items| == 1 then style.line(depth) else [COMMA] + PrettyItems(items[1..], style, depth))
  }

  function PrettyFields(fields: seq<Entry<Json>>, style: Style, depth: nat): Str
    decreases fields, 0
  {
    if fields == [] then []
    else
      style.line(depth + 1) + Quote(fields[0].key) + [COLON] + style.gap + Pretty(fields[0].value, style, depth + 1)
      + (if |fields| == 1 then style.line(depth) else [COMMA] + PrettyFields(fields[1..], style, depth))
  }

  function Stringify(j: Json): Str {
    Pretty(j, COMPACT, 0)
  }

  // ---------- A serialised container is balanced ----------

  function Plains(t: Str): (ps: seq<Piece>)
    ensures |ps| == |t| && forall i | 0 <= i < |t| :: ps[i] == Plain(t[i])
  {
    seq(|t|, i requires 0 <= i < |t| => Plain(t[i]))
  }

  predicate AllOk(ps: seq<Piece>) {
    forall i | 0 <= i < |ps| :: PieceOk(ps[i])
  }

  lemma {:induction false} PlainsRender(t: Str)
    ensures RenderPieces(Plains(t)) == t
    decreases |t|
  {
    if t != [] {
      PlainsRender(t[1..]);
      assert Plains(t)[1..] == Plains(t[1..]);
    }
  }

  lemma NumberTokenPieces(t: Str)
    requires IsNumberToken(t)
    ensures AllOk(Plains(t))
  {
    forall i | 0 <= i < |t| ensures PieceOk(Plains(t)[i]) {
      assert IsNumberUnit(t[i]);
    }
  }

  lemma {:induction false} EscapeIsBody(s: Str)
    ensures IsBody(Escape(s))
    decreases |s|
  {
    if s == [] {
    } else if |s| >= 2 && IsLead(s[0]) && IsTrail(s[1]) {
      EscapeIsBody(s[2..]);
      assert [s[0], s[1]][1..] == [s[1]] && [s[1]][1..] == [];
      BodyAppend([s[0], s[1]], Escape(s[2..]));
    } else {
      EscapeIsBody(s[1..]);
      EscapedUnitIsBody(s[0]);
      BodyAppend(EscapeUnit(s[0]), Escape(s[1..]));
    }
  }

  lemma {:induction false} PlainTextIsBody(t: Str)
    requires forall i | 0 <= i < |t| :: t[i] != QUOTE && t[i] != BACKSLASH
    ensures IsBody(t)
    decreases |t|
  {
    if t != [] { PlainTextIsBody(t[1..]); }
  }

  lemma EscapedUnitIsBody(u: Unit)
    ensures IsBody(EscapeUnit(u))
  {
    var e := EscapeUnit(u);
    if |e| == 1 {
      assert e[1..] == [];
    } else {
      assert |e| == 2 || |e| == 6;
      PlainTextIsBody(e[2..]);
    }
  }

  function PiecesOf(j: Json, style: Style, depth: nat): seq<Piece>
    decreases j, 2
  {
    match j
    case String(s) => [Quoted(Escape(s))]
    case Array(items) => [Nested(BoxOf(j, style, depth))]
    case Object(fields) => [Nested(BoxOf(j, style, depth))]
    case _ => Plains(Pretty(j, style, depth))
  }

  /** The container a serialised array or object is. */
  function BoxOf(j: Json, style: Style, depth: nat): Box
    requires j.Array? || j.Object?
    decreases j, 1
  {
    if j.Array? then Box(false, ItemPieces(j.items, style, depth)) else Box(true, FieldPieces(j.fields, style, depth))
  }

  function ItemPieces(items: seq<Json>, style: Style, depth: nat): seq<Piece>
    decreases items, 0
  {
    if items == [] then []
    else
      Plains(style.line(depth + 1)) + PiecesOf(items[0], style, depth + 1)
      + (if |items| == 1 then Plains(style.line(depth)) else [Plain(COMMA)] + ItemPieces(items[1..], style, depth))
  }

  function FieldPieces(fields: seq<Entry<Json>>, style: Style, depth: nat): seq<Piece>
    decreases fields, 0
  {
    if fields == [] then []
    else
      Plains(style.line(depth + 1)) + [Quoted(Escape(fields[0].key))] + [Plain(COLON)] + Plains(style.gap)
      + PiecesOf(fields[0].value, style, depth + 1)
      + (if |fields| == 1 then Plains(style.line(depth)) else [Plain(COMMA)] + FieldPieces(fields[1..], style, depth))
  }

  lemma NoPieces()
    ensures AllOk([]) && RenderPieces([]) == []
  {
  }

  lemma OnePiece(p: Piece)
    ensures RenderPieces([p]) == RenderPiece(p)
  {
    assert RenderPieces([p]) == RenderPiece(p) + RenderPieces([]);
  }

  lemma SpacingPieces(t: Str)
    requires IsSpacing(t)
    ensures AllOk(Plains(t)) && RenderPieces(Plains(t)) == t
  {
    PlainsRender(t);
  }

  lemma {:induction false} ValuePieces(j: Json, style: Style, depth: nat)
    requires WellFormed(j) && StyleOk(style)
    ensures AllOk(PiecesOf(j, style, depth)) && RenderPieces(PiecesOf(j, style, depth)) == Pretty(j, style, depth)
    ensures j.Array? || j.Object? ==> BoxOk(BoxOf(j, style, depth)) && Render(BoxOf(j, style, depth)) == Pretty(j, style, depth)
    decreases j, 2
  {
    hide RenderPieces, Escape;
    match j
    case String(s) =>
      EscapeIsBody(s);
      OnePiece(Quoted(Escape(s)));
    case Array(items) =>
      ItemsPieces(items, style, depth);
      OnePiece(Nested(BoxOf(j, style, depth)));
      assert PieceOk(Nested(BoxOf(j, style, depth)));
    case Object(fields) =>
      FieldsPieces(fields, style, depth);
      OnePiece(Nested(BoxOf(j, style, depth)));
      assert PieceOk(Nested(BoxOf(j, style, depth)));
    case Number(t) =>
      NumberTokenPieces(t);
      PlainsRender(t);
    case _ =>
      PlainsRender(Pretty(j, style, depth));
  }

  lemma {:induction false} ItemsPieces(items: seq<Json>, style: Style, depth: nat)
    requires StyleOk(style) && forall i | 0 <= i < |items| :: WellFormed(items[i])
    ensures AllOk(ItemPieces(items, style, depth))
    ensures RenderPieces(ItemPieces(items, style, depth)) == PrettyItems(items, style, depth)
    decreases items, 0
  {
    hide Pretty, PiecesOf, PieceOk, WellFormed, Plains;
    if items == [] {
      assert RenderPieces([]) == [];
    } else {
      var a, b := Plains(style.line(depth + 1)), PiecesOf(items[0], style, depth + 1);
      var c := if |items| == 1 then Plains(style.line(depth)) else [Plain(COMMA)] + ItemPieces(items[1..], style, depth);
      SpacingPieces(style.line(depth + 1));
      ValuePieces(items[0], style, depth + 1);
      if |items| == 1 {
        SpacingPieces(style.line(depth));
      } else {
        ItemsPieces(items[1..], style, depth);
        CommaPieces(ItemPieces(items[1..], style, depth));
      }
      PiecesAppend(a, b);
      PiecesAppend(a + b, c);
    }
  }

  lemma CommaPieces(ps: seq<Piece>)
    requires AllOk(ps)
    ensures AllOk([Plain(COMMA)] + ps) && RenderPieces([Plain(COMMA)] + ps) == [COMMA] + RenderPieces(ps)
  {
    PiecesAppend([Plain(COMMA)], ps);
    OnePiece(Plain(COMMA));
  }

  lemma KeyPieces(key: Str, gap: Str)
    requires IsSpacing(gap)
    ensures var ps := [Quoted(Escape(key))] + [Plain(COLON)] + Plains(gap);
      AllOk(ps) && RenderPieces(ps) == Quote(key) + [COLON] + gap
  {
    EscapeIsBody(key);
    SpacingPieces(gap);
    OnePiece(Quoted(Escape(key)));
    OnePiece(Plain(COLON));
    PiecesAppend([Quoted(Escape(key))], [Plain(COLON)]);
    PiecesAppend([Quoted(Escape(key))] + [Plain(COLON)], Plains(gap));
  }

  lemma JoinPieces(a: seq<Piece>, k: seq<Piece>, b: seq<Piece>, c: seq<Piece>)
    requires AllOk(a) && AllOk(k) && AllOk(b) && AllOk(c)
    ensures AllOk(a + k + b + c)
    ensures RenderPieces(a + k + b + c) == RenderPieces(a) + RenderPieces(k) + RenderPieces(b) + RenderPieces(c)
  {
    PiecesAppend(a, k);
    PiecesAppend(a + k, b);
    PiecesAppend(a + k + b, c);
  }

  lemma NoFields(style: Style, depth: nat)
    ensures PrettyFields([], style, depth) == []
  {
  }

  /** The first field's line, key and value, and what follows them. */
  lemma FieldsLayout(fields: seq<Entry<Json>>, style: Style, depth: nat)
    requires fields != []
    ensures PrettyFields(fields, style, depth)
      == style.line(depth + 1) + (Quote(fields[0].key) + [COLON] + style.gap) + Pretty(fields[0].value, style, depth + 1)
         + (if |fields| == 1 then style.line(depth) else [COMMA] + PrettyFields(fields[1..], style, depth))
  {
    hide Pretty, Quote;
  }

  lemma {:induction false} FieldsPieces(fields: seq<Entry<Json>>, style: Style, depth: nat)
    requires StyleOk(style) && forall i | 0 <= i < |fields| :: WellFormed(fields[i].value)
    ensures AllOk(FieldPieces(fields, style, depth))
    ensures RenderPieces(FieldPieces(fields, style, depth)) == PrettyFields(fields, style, depth)
    decreases fields, 0
  {
    hide Pretty, PiecesOf, PieceOk, WellFormed, Quote, Plains, AllOk, RenderPieces, PrettyFields;
    if fields == [] {
      NoPieces();
      NoFields(style, depth);
    } else {
      var key := fields[0].key;
      var a, k := Plains(style.line(depth + 1)), [Quoted(Escape(key))] + [Plain(COLON)] + Plains(style.gap);
      var b := PiecesOf(fields[0].value, style, depth + 1);
      var c := if |fields| == 1 then Plains(style.line(depth)) else [Plain(COMMA)] + FieldPieces(fields[1..], style, depth);
      SpacingPieces(style.line(depth + 1));
      KeyPieces(key, style.gap);
      ValuePieces(fields[0].value, style, depth + 1);
      if |fields| == 1 {
        SpacingPieces(style.line(depth));
      } else {
        FieldsPieces(fields[1..], style, depth);
        CommaPieces(FieldPieces(fields[1..], style, depth));
      }
      JoinPieces(a, k, b, c);
      FieldsLayout(fields, style, depth);
      assert FieldPieces(fields, style, depth) == a + k + b + c;
    }
  }

  // ---------- Serialised containers amid prose ----------

  ghost predicate Serialisable(values: seq<Json>) {
    forall i | 0 <= i < |values| :: WellFormed(values[i]) && (values[i].Array? || values[i].Object?)
  }

  function Printed(values: seq<Json>, style: Style): seq<Str> {
    seq(|values|, i requires 0 <= i < |values| => Pretty(values[i], style, 0))
  }

  /** Prose, a text, prose, a text, ... , and closing prose. */
  function Mixed(prose: seq<Str>, texts: seq<Str>, last: Str): Str
    requires |prose| == |texts|
  {
    if texts == [] then last else prose[0] + texts[0] + Mixed(prose[1..], texts[1..], last)
  }

  ghost function Boxes(values: seq<Json>, style: Style): (boxes: seq<Box>)
    requires Serialisable(values)
    ensures |boxes| == |values| && forall i | 0 <= i < |values| :: boxes[i] == BoxOf(values[i], style, 0)
  {
    seq(|values|, i requires 0 <= i < |values| => BoxOf(values[i], style, 0))
  }

  lemma {:induction false} MixedIsWoven(prose: seq<Str>, values: seq<Json>, style: Style, last: Str)
    requires |prose| == |values| && Serialisable(values) && StyleOk(style)
    ensures Mixed(prose, Printed(values, style), last) == Weave(prose, Boxes(values, style), last)
    decreases |values|
  {
    hide Pretty, Render, BoxOf;
    if values != [] {
      ValuePieces(values[0], style, 0);
      MixedIsWoven(prose[1..], values[1..], style, last);
      assert Printed(values, style)[1..] == Printed(values[1..], style);
      assert Boxes(values, style)[1..] == Boxes(values[1..], style);
    }
  }

  /** Whatever the serialiser's spacing, the containers found are the serialised values, in order. */
  lemma FindsSerialisedValues(prose: seq<Str>, values: seq<Json>, style: Style, last: Str)
    requires |prose| == |values| && Serialisable(values) && StyleOk(style) && IsProse(last)
    requires forall i | 0 <= i < |prose| :: IsProse(prose[i])
    ensures Found(Mixed(prose, Printed(values, style), last)) == Printed(values, style)
  {
    hide Pretty, Render, BoxOf, BoxOk, Found, IsProse;
    var boxes := Boxes(values, style);
    forall i | 0 <= i < |values| ensures BoxOk(boxes[i]) && Render(boxes[i]) == Pretty(values[i], style, 0) {
      ValuePieces(values[i], style, 0);
    }
    MixedIsWoven(prose, values, style, last);
    FindsExactly(prose, boxes, last);
    assert Renders(boxes) == Printed(values, style);
  }

  // ---------- Trimming and the code fence ----------

  const BACKTICK: Unit := 0x60

  /** What `String.prototype.trim` and `\s` take for white space. */
  predicate IsWhite(u: Unit) {
    || 0x09 <= u <= 0x0D || u == 0x20 || u == 0xA0 || u == 0x1680 || 0x2000 <= u <= 0x200A
    || u == 0x2028 || u == 0x2029 || u == 0x202F || u == 0x205F || u == 0x3000 || u == 0xFEFF
  }

  /** The white space of ECMAScript: its format and line terminators, the space separators and the byte order mark. */
  lemma WhiteTable(u: Unit)
    ensures IsWhite(u) <==> u in {
      0x09, 0x0A, 0x0B, 0x0C, 0x0D, 0x20, 0xA0, 0x1680, 0x2000, 0x2001, 0x2002, 0x2003, 0x2004, 0x2005, 0x2006, 0x2007,
      0x2008, 0x2009, 0x200A, 0x2028, 0x2029, 0x202F, 0x205F, 0x3000, 0xFEFF}
  {
  }

  function TrimStart(t: Str): (r: Str)
    ensures |r| <= |t| && r == t[|t| - |r|..]
    ensures r == [] || !IsWhite(r[0])
    ensures forall i | 0 <= i < |t| - |r| :: IsWhite(t[i])
  {
    if t == [] || !IsWhite(t[0]) then t else TrimStart(t[1..])
  }

  function TrimEnd(t: Str): (r: Str)
    ensures |r| <= |t| && r == t[..|r|]
    ensures r == [] || !IsWhite(r[|r| - 1])
    ensures forall i | |r| <= i < |t| :: IsWhite(t[i])
  {
    if t == [] || !IsWhite(t[|t| - 1]) then t else TrimEnd(t[..|t| - 1])
  }

  function Trim(t: Str): Str {
    TrimEnd(TrimStart(t))
  }

  lemma TrimKeeps(t: Str)
    requires t != [] && !IsWhite(t[0]) && !IsWhite(t[|t| - 1])
    ensures Trim(t) == t
  {
    hide TrimStart, TrimEnd, IsWhite;
    assert |TrimStart(t)| == |t|;
    assert t[0..] == t;
    assert |TrimEnd(t)| == |t|;
  }

  const FENCE: Str := [BACKTICK, BACKTICK, BACKTICK]

  /** `json` in any case. */
  predicate SaysJson(t: Str) {
    && |t| >= 4
    && t[0] in {0x6A, 0x4A} && t[1] in {0x73, 0x53} && t[2] in {0x6F, 0x4F} && t[3] in {0x6E, 0x4E}
  }

  /** The text inside one exact JSON fence, or the text itself. */
  function Unfence(t: Str): Str {
    if |t| >= 6 && t[..3] == FENCE && t[|t| - 3..] == FENCE then
      var inner := t[3..|t| - 3];
      Trim(if SaysJson(inner) then inner[4..] else inner)
    else t
  }

  lemma {:induction false} WhiteKeepsFinds(s: Scanner, t: Str)
    requires forall i | 0 <= i < |t| :: IsWhite(t[i])
    ensures Scan(s, t).out == s.out && (s.Idle? ==> Scan(s, t) == s)
    decreases |t|
  {
    if t != [] {
      assert IsWhite(t[0]);
      WhiteKeepsFinds(Step(s, t[0]), t[1..]);
    }
  }

  lemma LeadingWhite(before: Str, t: Str)
    requires forall i | 0 <= i < |before| :: IsWhite(before[i])
    ensures Found(before + t) == Found(t)
  {
    hide Scan, Step, IsWhite;
    ScanAppend(Idle([]), before, t);
    WhiteKeepsFinds(Idle([]), before);
  }

  lemma TrailingWhite(t: Str, after: Str)
    requires forall i | 0 <= i < |after| :: IsWhite(after[i])
    ensures Found(t + after) == Found(t)
  {
    hide Scan, Step, IsWhite;
    ScanAppend(Idle([]), t, after);
    WhiteKeepsFinds(Scan(Idle([]), t), after);
  }

  /** Trimming the assistant's text does not change what the scanner finds in it. */
  lemma TrimKeepsFinds(t: Str)
    ensures Found(Trim(t)) == Found(t)
  {
    hide Found, IsWhite, TrimStart, TrimEnd;
    var mid := TrimStart(t);
    var core := TrimEnd(mid);
    LeadingWhite(t[..|t| - |mid|], mid);
    assert t == t[..|t| - |mid|] + mid;
    TrailingWhite(core, mid[|core|..]);
    assert mid == core + mid[|core|..];
  }

  /** Bytes of the UTF-8 encoding; a lone surrogate encodes as U+FFFD. */
  function Utf8Length(s: Str): (n: nat)
    ensures |s| <= n <= 3 * |s|
  {
    if s == [] then 0
    else if |s| >= 2 && IsLead(s[0]) && IsTrail(s[1]) then 4 + Utf8Length(s[2..])
    else (if s[0] < 0x80 then 1 else if s[0] < 0x800 then 2 else 3) + Utf8Length(s[1..])
  }

  /** One to three bytes for a unit on its own, four for a surrogate pair. */
  lemma Utf8Units(u: Unit, v: Unit)
    ensures Utf8Length([u]) == (if u <= 0x7F then 1 else if u <= 0x7FF then 2 else 3)
    ensures 0xD800 <= u <= 0xDBFF && 0xDC00 <= v <= 0xDFFF ==> Utf8Length([u, v]) == 4
  {
    assert [u][1..] == [] && [u, v][2..] == [];
  }

  lemma Utf8Head(s: Str)
    requires s != []
    ensures var pair := |s| >= 2 && IsLead(s[0]) && IsTrail(s[1]);
      Utf8Length(s) == if pair then 4 + Utf8Length(s[2..]) else Utf8Length([s[0]]) + Utf8Length(s[1..])
  {
    assert [s[0]][1..] == [];
  }

  /** Lengths add up wherever a text is not cut inside a surrogate pair. */
  lemma {:induction false} Utf8Adds(a: Str, b: Str)
    requires a == [] || b == [] || !(IsLead(a[|a| - 1]) && IsTrail(b[0]))
    ensures Utf8Length(a + b) == Utf8Length(a) + Utf8Length(b)
    decreases |a|
  {
    hide Utf8Length, IsLead, IsTrail;
    var all := a + b;
    if a == [] {
      assert all == b;
      NoBytes();
    } else {
      Utf8Head(a);
      Utf8Head(all);
      assert |all| >= 2 ==> all[1] == if |a| >= 2 then a[1] else b[0];
      if |a| >= 2 && IsLead(a[0]) && IsTrail(a[1]) {
        Utf8Adds(a[2..], b);
        assert all[2..] == a[2..] + b;
      } else {
        Utf8Adds(a[1..], b);
        assert all[1..] == a[1..] + b;
      }
    }
  }

  lemma NoBytes()
    ensures Utf8Length([]) == 0
  {
  }

  // ---------- The inspection ----------

  datatype Reason = Missing | TooLarge | InvalidJson | InvalidSchema | SchemaViolation

  datatype Inspection = Accepted(output: Str) | Rejected(reason: Reason)

  datatype Verdict = Threw | Answered(valid: bool)

  /** The JSON parser, and a validator for the caller's schema when it compiles. */
  datatype Env = Env(parse: Str -> Option<Json>, validator: Option<Json -> Verdict>)

  const MAX_RAW_OUTPUT_BYTES: nat := 1_000_000

  predicate Passes(env: Env, j: Json) {
    env.validator.Some? && env.validator.value(j) == Answered(true)
  }

  function ParsedValid(env: Env, texts: seq<Str>): seq<Json> {
    if texts == [] then []
    else
      var j := env.parse(texts[0]);
      (if j.Some? && Passes(env, j.value) then [j.value] else []) + ParsedValid(env, texts[1..])
  }

  function Inspect(env: Env, text: Option<Str>): Inspection {
    if text.None? then Rejected(Missing)
    else
      var candidate := Trim(text.value);
      if candidate == [] then Rejected(Missing)
      else if |candidate| > MAX_RAW_OUTPUT_BYTES || Utf8Length(candidate) > MAX_RAW_OUTPUT_BYTES then Rejected(TooLarge)
      else if env.validator.None? then Rejected(InvalidSchema)
      else
        var exact := env.parse(Unfence(candidate));
        if exact.None? then
          var valid := ParsedValid(env, Found(candidate));
          if |valid| == 1 then Accepted(Stringify(valid[0])) else Rejected(InvalidJson)
        else
          match env.validator.value(exact.value)
          case Threw => Rejected(InvalidSchema)
          case Answered(valid) => if valid then Accepted(Stringify(exact.value)) else Rejected(SchemaViolation)
  }

  lemma {:induction false} ParsedValidSound(env: Env, texts: seq<Str>)
    ensures forall j | j in ParsedValid(env, texts) :: Passes(env, j) && exists i :: 0 <= i < |texts| && env.parse(texts[i]) == Some(j)
  {
    if texts != [] {
      ParsedValidSound(env, texts[1..]);
      forall j | j in ParsedValid(env, texts)
        ensures Passes(env, j) && exists i :: 0 <= i < |texts| && env.parse(texts[i]) == Some(j)
      {
        if j in ParsedValid(env, texts[1..]) {
          var i :| 0 <= i < |texts[1..]| && env.parse(texts[1..][i]) == Some(j);
          assert env.parse(texts[i + 1]) == Some(j);
        } else {
          assert env.parse(texts[0]) == Some(j);
        }
      }
    }
  }

  lemma BlankTrims(t: Str)
    ensures Trim(t) == [] <==> forall i | 0 <= i < |t| :: IsWhite(t[i])
  {
    hide TrimStart, TrimEnd, IsWhite;
    var mid := TrimStart(t);
    if mid != [] {
      assert mid[0] == t[|t| - |mid|];
      assert TrimEnd(mid) != [];
    }
  }

  /** Text counts as missing exactly when there is none but white space. */
  lemma MissingIsBlank(env: Env, text: Option<Str>)
    ensures Inspect(env, text) == Rejected(Missing) <==>
      text.None? || forall i | 0 <= i < |text.value| :: IsWhite(text.value[i])
  {
    hide Stringify, Unfence, Found, ParsedValid, Utf8Length, IsWhite, Trim;
    if text.Some? { BlankTrims(text.value); }
  }

  /** An accepted output serialises a value that the validator passed, and that was parsed out of the text:
      from the whole of it, or from a balanced container in it. */
  lemma AcceptedIsValid(env: Env, text: Option<Str>)
    requires Inspect(env, text).Accepted?
    ensures text.Some? && exists j: Json ::
      && Passes(env, j)
      && Inspect(env, text).output == Stringify(j)
      && (env.parse(Unfence(Trim(text.value))) == Some(j)
          || exists t: Str :: t in Found(text.value) && Balanced(t) && env.parse(t) == Some(j))
  {
    hide Stringify, Unfence, Trim, Found, Balanced;
    var candidate := Trim(text.value);
    if env.parse(Unfence(candidate)).None? {
      var texts := Found(candidate);
      var j := ParsedValid(env, texts)[0];
      ParsedValidSound(env, texts);
      var i :| 0 <= i < |texts| && env.parse(texts[i]) == Some(j);
      TrimKeepsFinds(text.value);
      FindsOnlyBalanced(candidate);
      assert texts[i] in Found(text.value) && Balanced(texts[i]);
      assert Passes(env, j);
    } else {
      assert Passes(env, env.parse(Unfence(candidate)).value);
    }
  }

  function Valid(env: Env, values: seq<Json>): seq<Json> {
    if values == [] then [] else (if Passes(env, values[0]) then [values[0]] else []) + Valid(env, values[1..])
  }

  lemma {:induction false} ParsedBack(env: Env, values: seq<Json>, style: Style)
    requires forall i | 0 <= i < |values| :: env.parse(Pretty(values[i], style, 0)) == Some(values[i])
    ensures ParsedValid(env, Printed(values, style)) == Valid(env, values)
    decreases |values|
  {
    hide Pretty, Passes;
    if values != [] {
      ParsedBack(env, values[1..], style);
      assert Printed(values, style)[0] == Pretty(values[0], style, 0);
      assert Printed(values, style)[1..] == Printed(values[1..], style);
    }
  }

  /** Of any number of serialised containers amid prose, the fallback accepts exactly when one value is valid,
      and then its output is that value. */
  lemma SoleValidValueIsAccepted(env: Env, prose: seq<Str>, values: seq<Json>, style: Style, last: Str)
    requires |prose| == |values| && Serialisable(values) && StyleOk(style) && IsProse(last)
    requires forall i | 0 <= i < |prose| :: IsProse(prose[i])
    requires forall i | 0 <= i < |values| :: env.parse(Pretty(values[i], style, 0)) == Some(values[i])
    requires var candidate := Trim(Mixed(prose, Printed(values, style), last));
      && env.validator.Some? && env.parse(Unfence(candidate)).None?
      && candidate != [] && Utf8Length(candidate) <= MAX_RAW_OUTPUT_BYTES
    ensures var valid := Valid(env, values);
      Inspect(env, Some(Mixed(prose, Printed(values, style), last)))
        == if |valid| == 1 then Accepted(Stringify(valid[0])) else Rejected(InvalidJson)
  {
    hide Pretty, Stringify, Unfence, Trim, Found, Passes, IsProse, Mixed;
    FindsSerialisedValues(prose, values, style, last);
    TrimKeepsFinds(Mixed(prose, Printed(values, style), last));
    ParsedBack(env, values, style);
  }

  // ---------- The fence is transparent ----------

  /** What may stand right after the opening fence: nothing, or `json` in any case. */
  predicate IsTag(tag: Str) {
    tag == [] || (|tag| == 4 && SaysJson(tag))
  }

  /** A text in one code fence. */
  function Fenced(tag: Str, t: Str): Str {
    FENCE + tag + [LINE_FEED] + t + [LINE_FEED] + FENCE
  }

  lemma FencedShape(tag: Str, t: Str)
    ensures var f := Fenced(tag, t);
      && |f| == |tag| + |t| + 8 && f[..3] == FENCE && f[|f| - 3..] == FENCE
      && f[3..|f| - 3] == tag + ([LINE_FEED] + t + [LINE_FEED])
      && f[0] == BACKTICK && f[|f| - 1] == BACKTICK
  {
  }

  /** Trimming forgets white space added around a text. */
  lemma TrimLines(t: Str)
    ensures Trim([LINE_FEED] + t + [LINE_FEED]) == Trim(t)
  {
    hide Trim, TrimStart, TrimEnd, IsWhite;
    LeadingLine(t + [LINE_FEED]);
    assert [LINE_FEED] + (t + [LINE_FEED]) == [LINE_FEED] + t + [LINE_FEED];
    TrailingLine(t);
  }

  lemma StartIs(t: Str, k: nat)
    requires k <= |t| && (forall i | 0 <= i < k :: IsWhite(t[i])) && (k == |t| || !IsWhite(t[k]))
    ensures TrimStart(t) == t[k..]
  {
    hide TrimStart, IsWhite;
    var r := TrimStart(t);
    assert r != [] ==> r[0] == t[|t| - |r|];
  }

  lemma EndIs(t: Str, k: nat)
    requires k <= |t| && (forall i | k <= i < |t| :: IsWhite(t[i])) && (k == 0 || !IsWhite(t[k - 1]))
    ensures TrimEnd(t) == t[..k]
  {
    hide TrimEnd, IsWhite;
    var r := TrimEnd(t);
    assert r != [] ==> r[|r| - 1] == t[|r| - 1];
  }

  lemma LeadingLine(t: Str)
    ensures Trim([LINE_FEED] + t) == Trim(t)
  {
    hide TrimStart, TrimEnd;
    var padded, r := [LINE_FEED] + t, TrimStart(t);
    var k := |t| - |r|;
    assert forall i | 0 <= i < k + 1 :: IsWhite(padded[i]) by {
      assert forall i | 0 < i < k + 1 :: padded[i] == t[i - 1];
    }
    assert r != [] ==> padded[k + 1] == r[0];
    StartIs(padded, k + 1);
    assert padded[k + 1..] == t[k..];
  }

  /** Trimming the front of a text with a line feed after it. */
  lemma StartOfLonger(t: Str)
    ensures TrimStart(t + [LINE_FEED]) == if TrimStart(t) == [] then [] else TrimStart(t) + [LINE_FEED]
  {
    hide TrimStart;
    var padded, r := t + [LINE_FEED], TrimStart(t);
    var k := |t| - |r|;
    assert forall i | 0 <= i < |t| :: padded[i] == t[i];
    if r == [] {
      StartIs(padded, |padded|);
    } else {
      assert padded[k] == r[0];
      StartIs(padded, k);
      assert padded[k..] == t[k..] + [LINE_FEED];
    }
  }

  lemma EndOfLonger(t: Str)
    ensures TrimEnd(t + [LINE_FEED]) == TrimEnd(t)
  {
    hide TrimEnd;
    var padded, r := t + [LINE_FEED], TrimEnd(t);
    assert forall i | 0 <= i < |t| :: padded[i] == t[i];
    assert r != [] ==> padded[|r| - 1] == r[|r| - 1];
    EndIs(padded, |r|);
    assert padded[..|r|] == t[..|r|];
  }

  lemma TrailingLine(t: Str)
    ensures Trim(t + [LINE_FEED]) == Trim(t)
  {
    hide TrimStart, TrimEnd;
    StartOfLonger(t);
    EndOfLonger(TrimStart(t));
    EndIs([], 0);
  }

  lemma UnfenceFenced(tag: Str, t: Str)
    requires IsTag(tag)
    ensures Unfence(Fenced(tag, t)) == Trim(t)
  {
    hide Trim, Fenced;
    FencedShape(tag, t);
    TrimLines(t);
    var padded := [LINE_FEED] + t + [LINE_FEED];
    var inner := tag + padded;
    if tag == [] {
      assert inner == padded && inner[0] == LINE_FEED;
    } else {
      assert inner[4..] == padded;
    }
  }

  predicate IsQuiet(u: Unit) {
    !IsOpener(u) && !IsCloser(u)
  }

  lemma {:induction false} QuietKeepsFinds(s: Scanner, t: Str)
    requires forall i | 0 <= i < |t| :: IsQuiet(t[i])
    ensures Scan(s, t).out == s.out && (s.Idle? ==> Scan(s, t) == s)
    decreases |t|
  {
    if t != [] {
      assert IsQuiet(t[0]);
      QuietKeepsFinds(Step(s, t[0]), t[1..]);
    }
  }

  lemma QuietAround(before: Str, t: Str, after: Str)
    requires (forall i | 0 <= i < |before| :: IsQuiet(before[i])) && (forall i | 0 <= i < |after| :: IsQuiet(after[i]))
    ensures Found(before + t + after) == Found(t)
  {
    hide Scan, Step, IsQuiet;
    QuietKeepsFinds(Idle([]), before);
    ScanAppend(Idle([]), before, t);
    ScanAppend(Idle([]), before + t, after);
    QuietKeepsFinds(Scan(Idle([]), t), after);
  }

  lemma FenceKeepsFinds(tag: Str, t: Str)
    requires IsTag(tag)
    ensures Found(Fenced(tag, t)) == Found(t)
  {
    hide Found;
    var before, after := FENCE + tag + [LINE_FEED], [LINE_FEED] + FENCE;
    assert Fenced(tag, t) == before + t + after;
    QuietAround(before, t, after);
  }

  /** A part of a text encodes to no more bytes than the whole. */
  lemma {:induction false} PrefixBytes(s: Str, n: nat)
    requires n <= |s|
    ensures Utf8Length(s[..n]) <= Utf8Length(s)
    decreases |s|
  {
    if n == 0 {
    } else if |s| >= 2 && IsLead(s[0]) && IsTrail(s[1]) {
      if n >= 2 {
        PrefixBytes(s[2..], n - 2);
        assert s[..n][2..] == s[2..][..n - 2];
      } else {
        assert s[..1][1..] == [];
      }
    } else {
      PrefixBytes(s[1..], n - 1);
      assert s[..n][1..] == s[1..][..n - 1];
    }
  }

  lemma {:induction false} SuffixBytes(s: Str, n: nat)
    requires n <= |s|
    ensures Utf8Length(s[n..]) <= Utf8Length(s)
    decreases n
  {
    if n == 0 {
      assert s[0..] == s;
    } else {
      SuffixBytes(s[1..], n - 1);
      assert s[1..][n - 1..] == s[n..];
      if |s| >= 2 && IsLead(s[0]) && IsTrail(s[1]) { assert s[1..][1..] == s[2..]; }
    }
  }

  lemma TrimmedBytes(tag: Str, t: Str)
    ensures Utf8Length(Trim(t)) <= Utf8Length(Fenced(tag, t))
  {
    hide TrimStart, TrimEnd, Utf8Length;
    var f, mid, n := Fenced(tag, t), TrimStart(t), |tag| + 4;
    SuffixBytes(f, n);
    assert f[n..][..|t|] == t;
    PrefixBytes(f[n..], |t|);
    SuffixBytes(t, |t| - |mid|);
    PrefixBytes(mid, |TrimEnd(mid)|);
  }

  /** Putting a text into a code fence, labelled `json` or not, does not change the verdict, unless the text is blank or
      already fenced, as long as the fence keeps it within the size limit. */
  lemma FenceIsTransparent(env: Env, tag: Str, t: Str)
    requires IsTag(tag) && Trim(t) != [] && Unfence(Trim(t)) == Trim(t)
    requires Utf8Length(Fenced(tag, t)) <= MAX_RAW_OUTPUT_BYTES
    ensures Inspect(env, Some(Fenced(tag, t))) == Inspect(env, Some(t))
  {
    hide Trim, Fenced, Unfence, Found, Stringify, ParsedValid, Utf8Length, IsTag;
    FencedShape(tag, t);
    TrimKeeps(Fenced(tag, t));
    UnfenceFenced(tag, t);
    TrimmedBytes(tag, t);
    FenceKeepsFinds(tag, t);
    TrimKeepsFinds(t);
  }

  // ---------- A text that is one value ----------

  /** Serialised text starts and ends with something that is neither white space nor a fence. */
  lemma SerialisedEnds(j: Json, style: Style, depth: nat)
    requires WellFormed(j)
    ensures var t := Pretty(j, style, depth);
      t != [] && !IsWhite(t[0]) && !IsWhite(t[|t| - 1]) && t[0] != BACKTICK
  {
    hide PrettyItems, PrettyFields, Escape;
    var t := Pretty(j, style, depth);
    match j
    case Number(token) => assert IsNumberUnit(token[0]) && IsNumberUnit(token[|token| - 1]);
    case Array(items) => assert t[0] == OPEN_BRACKET && t[|t| - 1] == CLOSE_BRACKET;
    case Object(fields) => assert t[0] == OPEN_BRACE && t[|t| - 1] == CLOSE_BRACE;
    case String(str) => assert t[0] == QUOTE && t[|t| - 1] == QUOTE;
    case _ =>
  }

  predicate AllWhite(t: Str) {
    forall i | 0 <= i < |t| :: IsWhite(t[i])
  }

  lemma TrimAround(before: Str, t: Str, after: Str)
    requires AllWhite(before) && AllWhite(after) && t != [] && !IsWhite(t[0]) && !IsWhite(t[|t| - 1])
    ensures Trim(before + t + after) == t
  {
    hide TrimStart, TrimEnd, IsWhite;
    var all := before + t + after;
    assert forall i | 0 <= i < |before| :: all[i] == before[i];
    assert all[|before|] == t[0];
    StartIs(all, |before|);
    var mid := t + after;
    assert all[|before|..] == mid;
    assert forall i | |t| <= i < |mid| :: mid[i] == after[i - |t|];
    assert mid[|t| - 1] == t[|t| - 1];
    EndIs(mid, |t|);
    assert mid[..|t|] == t;
  }

  /** The verdict on one value is the validator's: accepted as its serialisation if and only if it passes, a schema
      violation if and only if it does not, an invalid schema if and only if the schema does not compile or throws. */
  ghost predicate Judged(env: Env, j: Json, r: Inspection) {
    && (r == Accepted(Stringify(j)) <==> env.validator.Some? && env.validator.value(j) == Answered(true))
    && (r == Rejected(SchemaViolation) <==> env.validator.Some? && env.validator.value(j) == Answered(false))
    && (r == Rejected(InvalidSchema) <==> env.validator.None? || env.validator.value(j) == Threw)
  }

  lemma WholeTextVerdict(env: Env, text: Str, j: Json)
    requires Trim(text) != [] && Utf8Length(Trim(text)) <= MAX_RAW_OUTPUT_BYTES
    requires env.parse(Unfence(Trim(text))) == Some(j)
    ensures Judged(env, j, Inspect(env, Some(text)))
  {
    hide Trim, Unfence, Utf8Length, Stringify, Found, ParsedValid;
  }

  /** A serialised value, whatever its layout and the white space around it, is judged by the validator alone. */
  lemma SerialisedValueVerdict(env: Env, j: Json, style: Style, before: Str, after: Str)
    requires WellFormed(j) && AllWhite(before) && AllWhite(after)
    requires env.parse(Pretty(j, style, 0)) == Some(j) && Utf8Length(Pretty(j, style, 0)) <= MAX_RAW_OUTPUT_BYTES
    ensures Judged(env, j, Inspect(env, Some(before + Pretty(j, style, 0) + after)))
  {
    hide Pretty, Trim, Utf8Length, Judged, AllWhite, IsWhite;
    var t := Pretty(j, style, 0);
    SerialisedEnds(j, style, 0);
    TrimAround(before, t, after);
    assert Unfence(t) == t;
    WholeTextVerdict(env, before + t + after, j);
  }

  /** So is a serialised value in a code fence, with white space inside and around the fence. */
  lemma FencedValueVerdict(env: Env, j: Json, style: Style, tag: Str, inner: (Str, Str), outer: (Str, Str))
    requires WellFormed(j) && IsTag(tag)
    requires AllWhite(inner.0) && AllWhite(inner.1) && AllWhite(outer.0) && AllWhite(outer.1)
    requires env.parse(Pretty(j, style, 0)) == Some(j)
    requires Utf8Length(Fenced(tag, inner.0 + Pretty(j, style, 0) + inner.1)) <= MAX_RAW_OUTPUT_BYTES
    ensures var fenced := Fenced(tag, inner.0 + Pretty(j, style, 0) + inner.1);
      Judged(env, j, Inspect(env, Some(outer.0 + fenced + outer.1)))
  {
    hide Pretty, Trim, Utf8Length, Judged, AllWhite, Unfence, Fenced;
    var t := Pretty(j, style, 0);
    var body := inner.0 + t + inner.1;
    var fenced := Fenced(tag, body);
    SerialisedEnds(j, style, 0);
    TrimAround(inner.0, t, inner.1);
    FencedShape(tag, body);
    TrimAround(outer.0, fenced, outer.1);
    UnfenceFenced(tag, body);
    WholeTextVerdict(env, outer.0 + fenced + outer.1, j);
  }

  /** Each reason for a rejection, exactly. */
  lemma RejectionReasons(env: Env, text: Str)
    ensures var t, r := Trim(text), Inspect(env, Some(text));
      var whole := env.parse(Unfence(t));
      var readable := !AllWhite(text) && Utf8Length(t) <= 1_000_000;
      && (r == Rejected(Missing) <==> AllWhite(text))
      && (r == Rejected(TooLarge) <==> !AllWhite(text) && Utf8Length(t) > 1_000_000)
      && (r == Rejected(InvalidSchema) <==>
           readable && (env.validator.None? || (whole.Some? && env.validator.value(whole.value) == Threw)))
      && (r == Rejected(SchemaViolation) <==>
           readable && env.validator.Some? && whole.Some? && env.validator.value(whole.value) == Answered(false))
      && (r == Rejected(InvalidJson) <==>
           readable && env.validator.Some? && whole.None? && |ParsedValid(env, Found(text))| != 1)
  {
    hide Trim, Unfence, Utf8Length, Stringify, Found, ParsedValid, IsWhite;
    BlankTrims(text);
    TrimKeepsFinds(text);
  }

  // ---------- The serialisation means the value ----------

  function AfterItem(items: seq<Json>, rest: Str): Str
    requires items != []
  {
    if |items| == 1 then [CLOSE_BRACKET] + rest else [COMMA] + (PrettyItems(items[1..], COMPACT, 0) + [CLOSE_BRACKET] + rest)
  }

  function AfterField(fields: seq<Entry<Json>>, rest: Str): Str
    requires fields != []
  {
    if |fields| == 1 then [CLOSE_BRACE] + rest
    else [COMMA] + (PrettyFields(fields[1..], COMPACT, 0) + [CLOSE_BRACE] + rest)
  }

  /** Without white space the depth does not matter. */
  lemma {:induction false} CompactDepth(j: Json, depth: nat)
    ensures Pretty(j, COMPACT, depth) == Pretty(j, COMPACT, 0)
    decreases j, 1
  {
    match j
    case Array(items) => CompactItemsDepth(items, depth);
    case Object(fields) => CompactFieldsDepth(fields, depth);
    case _ =>
  }

  lemma {:induction false} CompactItemsDepth(items: seq<Json>, depth: nat)
    ensures PrettyItems(items, COMPACT, depth) == PrettyItems(items, COMPACT, 0)
    decreases items, 0
  {
    if items != [] {
      CompactDepth(items[0], depth + 1);
      CompactDepth(items[0], 1);
      CompactItemsDepth(items[1..], depth);
    }
  }

  lemma {:induction false} CompactFieldsDepth(fields: seq<Entry<Json>>, depth: nat)
    ensures PrettyFields(fields, COMPACT, depth) == PrettyFields(fields, COMPACT, 0)
    decreases fields, 0
  {
    if fields != [] {
      CompactDepth(fields[0].value, depth + 1);
      CompactDepth(fields[0].value, 1);
      CompactFieldsDepth(fields[1..], depth);
    }
  }

  lemma CompactItemsHead(items: seq<Json>)
    requires items != []
    ensures PrettyItems(items, COMPACT, 0)
         == Stringify(items[0]) + (if |items| == 1 then [] else [COMMA] + PrettyItems(items[1..], COMPACT, 0))
  {
    hide Pretty;
    CompactDepth(items[0], 1);
    assert [] + Stringify(items[0]) == Stringify(items[0]);
  }

  lemma CompactFieldsHead(fields: seq<Entry<Json>>)
    requires fields != []
    ensures PrettyFields(fields, COMPACT, 0)
         == Quote(fields[0].key) + [COLON] + Stringify(fields[0].value)
            + (if |fields| == 1 then [] else [COMMA] + PrettyFields(fields[1..], COMPACT, 0))
  {
    hide Pretty, Quote;
    CompactDepth(fields[0].value, 1);
    assert [] + Quote(fields[0].key) + [COLON] + [] == Quote(fields[0].key) + [COLON];
  }

  lemma CompactItemsText(items: seq<Json>, rest: Str)
    requires items != []
    ensures PrettyItems(items, COMPACT, 0) + [CLOSE_BRACKET] + rest == Stringify(items[0]) + AfterItem(items, rest)
  {
    hide PrettyItems, Stringify;
    CompactItemsHead(items);
    Regroup(Stringify(items[0]), [COMMA], PrettyItems(items[1..], COMPACT, 0), [CLOSE_BRACKET], rest);
  }

  lemma CompactFieldsText(fields: seq<Entry<Json>>, rest: Str)
    requires fields != []
    ensures PrettyFields(fields, COMPACT, 0) + [CLOSE_BRACE] + rest
         == Quote(fields[0].key) + [COLON] + Stringify(fields[0].value) + AfterField(fields, rest)
  {
    hide PrettyFields, Stringify, Quote;
    CompactFieldsHead(fields);
    Regroup(
      Quote(fields[0].key) + [COLON] + Stringify(fields[0].value), [COMMA], PrettyFields(fields[1..], COMPACT, 0),
      [CLOSE_BRACE], rest);
  }

  lemma StringifyStarts(j: Json)
    requires WellFormed(j)
    ensures Stringify(j) != [] && StartsValue(Stringify(j)[0])
  {
    hide PrettyItems, PrettyFields, Escape;
  }

  lemma FieldsStart(fields: seq<Entry<Json>>)
    requires fields != []
    ensures PrettyFields(fields, COMPACT, 0) != [] && PrettyFields(fields, COMPACT, 0)[0] == QUOTE
  {
    hide Pretty, Escape;
  }

  lemma ItemsStart(items: seq<Json>)
    requires items != [] && WellFormed(items[0])
    ensures PrettyItems(items, COMPACT, 0) != [] && StartsValue(PrettyItems(items, COMPACT, 0)[0])
  {
    hide Pretty;
    CompactDepth(items[0], 1);
    StringifyStarts(items[0]);
  }

  /** What `JSON.stringify` prints, followed by anything that cannot extend it, reads back as the value's meaning. */
  lemma {:induction false} StringifyReads(j: Json, rest: Str)
    requires WellFormed(j) && Ends(rest)
    ensures ReadValue(Stringify(j) + rest) == Got(Meaning(j), rest)
    decreases j, 1
  {
    hide ReadValue, ReadItems, ReadFields, Quote, PrettyItems, PrettyFields;
    match j
    case Null => LiteralReads(rest);
    case Bool(_) => LiteralReads(rest);
    case Number(t) => NumberReads(t, rest);
    case String(s) => QuotedReads(s, rest);
    case Array(items) =>
      if items == [] {
        EmptyReads(rest);
        NothingPrinted();
        assert Stringify(j) == [OPEN_BRACKET, CLOSE_BRACKET];
      } else {
        StringifiedItemsRead(items, rest);
        ItemsStart(items);
        ArrayReads(PrettyItems(items, COMPACT, 0), rest, MeaningOfItems(items));
        assert Stringify(j) + rest == [OPEN_BRACKET] + PrettyItems(items, COMPACT, 0) + [CLOSE_BRACKET] + rest;
      }
    case Object(fields) =>
      if fields == [] {
        EmptyReads(rest);
        NothingPrinted();
        assert Stringify(j) == [OPEN_BRACE, CLOSE_BRACE];
      } else {
        StringifiedFieldsRead(fields, rest);
        FieldsStart(fields);
        ObjectReads(PrettyFields(fields, COMPACT, 0), rest, MeaningOfFields(fields));
        assert Stringify(j) + rest == [OPEN_BRACE] + PrettyFields(fields, COMPACT, 0) + [CLOSE_BRACE] + rest;
      }
  }

  lemma NothingPrinted()
    ensures PrettyItems([], COMPACT, 0) == [] && PrettyFields([], COMPACT, 0) == []
  {
  }

  lemma {:induction false} StringifiedItemsRead(items: seq<Json>, rest: Str)
    requires items != [] && forall i | 0 <= i < |items| :: WellFormed(items[i])
    ensures ReadItems(PrettyItems(items, COMPACT, 0) + [CLOSE_BRACKET] + rest) == Got(MeaningOfItems(items), rest)
    decreases items, 0
  {
    hide ReadValue, ReadItems, Pretty, PrettyItems, Stringify, Meaning, WellFormed;
    CompactItemsText(items, rest);
    var after := AfterItem(items, rest);
    StringifyReads(items[0], after);
    ItemReads(Stringify(items[0]), after, Meaning(items[0]));
    if |items| == 1 {
      assert after[1..] == rest;
      assert items[1..] == [] && MeaningOfItems(items[1..]) == [];
      assert [Meaning(items[0])] + [] == [Meaning(items[0])];
    } else {
      StringifiedItemsRead(items[1..], rest);
      assert after[1..] == PrettyItems(items[1..], COMPACT, 0) + [CLOSE_BRACKET] + rest;
    }
  }

  lemma {:induction false} StringifiedFieldsRead(fields: seq<Entry<Json>>, rest: Str)
    requires fields != [] && Distinct(fields) && forall i | 0 <= i < |fields| :: WellFormed(fields[i].value)
    ensures ReadFields(PrettyFields(fields, COMPACT, 0) + [CLOSE_BRACE] + rest) == Got(MeaningOfFields(fields), rest)
    decreases fields, 0
  {
    hide ReadValue, ReadFields, Pretty, PrettyFields, Stringify, Quote, Meaning, MeaningOfFields, WellFormed;
    var first, after := fields[0], AfterField(fields, rest);
    CompactFieldsText(fields, rest);
    FieldsMeaningTail(fields);
    StringifyReads(first.value, after);
    FieldReads(first.key, Stringify(first.value), after, Meaning(first.value));
    if |fields| == 1 {
      assert after[1..] == rest;
      NoFieldsMeanNothing();
      assert fields[1..] == [];
      assert map[first.key := Meaning(first.value)] + map[] == map[first.key := Meaning(first.value)];
    } else {
      StringifiedFieldsRead(fields[1..], rest);
      assert after[1..] == PrettyFields(fields[1..], COMPACT, 0) + [CLOSE_BRACE] + rest;
    }
  }
}
