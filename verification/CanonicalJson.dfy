/** The canonical JSON printer behind request identity, and a reader that recovers the value it printed. */
module CanonicalJson {
  import opened Managed
  import opened Text

  /** A JSON value as JavaScript holds it: an object is a list of own properties in insertion order.
      A finite number stands by the text `JSON.stringify` prints for it. */
  datatype Json =
    | Null
    | Bool(b: bool)
    | Number(token: Str)
    | String(s: Str)
    | Array(items: seq<Json>)
    | Object(fields: seq<Entry<Json>>)

  /** What a JSON value means: objects are maps. */
  datatype Value =
    | VNull
    | VBool(b: bool)
    | VNumber(token: Str)
    | VString(s: Str)
    | VArray(items: seq<Value>)
    | VObject(fields: map<Str, Value>)

  const NULL: Str := [0x6E, 0x75, 0x6C, 0x6C]
  const TRUE: Str := [0x74, 0x72, 0x75, 0x65]
  const FALSE: Str := [0x66, 0x61, 0x6C, 0x73, 0x65]

  /** Digits, `+`, `-`, `.`, `e` and `E`. */
  predicate IsNumberUnit(u: Unit) {
    0x30 <= u <= 0x39 || u == 0x2B || u == 0x2D || u == 0x2E || u == 0x65 || u == 0x45
  }

  predicate IsNumberToken(t: Str) {
    t != [] && forall i | 0 <= i < |t| :: IsNumberUnit(t[i])
  }

  /** Numbers print as number tokens, and an object has each key once. */
  ghost predicate WellFormed(j: Json) {
    match j
    case Number(t) => IsNumberToken(t)
    case Array(items) => forall i | 0 <= i < |items| :: WellFormed(items[i])
    case Object(fields) => Distinct(fields) && forall i | 0 <= i < |fields| :: WellFormed(fields[i].value)
    case _ => true
  }

  function Meaning(j: Json): Value
    decreases j, 1
  {
    match j
    case Null => VNull
    case Bool(b) => VBool(b)
    case Number(t) => VNumber(t)
    case String(s) => VString(s)
    case Array(items) => VArray(MeaningOfItems(items))
    case Object(fields) => VObject(MeaningOfFields(fields))
  }

  function MeaningOfItems(items: seq<Json>): seq<Value>
    decreases items, 0
  {
    if items == [] then [] else [Meaning(items[0])] + MeaningOfItems(items[1..])
  }

  function MeaningOfFields(fields: seq<Entry<Json>>): map<Str, Value>
    decreases fields, 0
  {
    if fields == [] then map[]
    else MeaningOfFields(fields[1..])[fields[0].key := Meaning(fields[0].value)]
  }

  // ---------- Strings ----------

  function HexDigit(n: int): Unit
    requires 0 <= n < 16
  {
    if n < 10 then 0x30 + n else 0x61 + n - 10
  }

  function HexEscape(u: Unit): Str {
    [BACKSLASH, 0x75, HexDigit(u / 4096), HexDigit(u / 256 % 16), HexDigit(u / 16 % 16), HexDigit(u % 16)]
  }

  predicate IsLead(u: Unit) {
    0xD800 <= u <= 0xDBFF
  }

  predicate IsTrail(u: Unit) {
    0xDC00 <= u <= 0xDFFF
  }

  /** The letter after the backslash in a two-unit escape. */
  function ShortEscape(u: Unit): Option<Unit> {
    if u == QUOTE then Some(QUOTE)
    else if u == BACKSLASH then Some(BACKSLASH)
    else if u == 0x08 then Some(0x62)
    else if u == 0x0C then Some(0x66)
    else if u == LINE_FEED then Some(0x6E)
    else if u == CARRIAGE_RETURN then Some(0x72)
    else if u == TAB then Some(0x74)
    else None
  }

  function EscapeUnit(u: Unit): Str {
    var short := ShortEscape(u);
    if short.Some? then [BACKSLASH, short.value]
    else if u < SPACE || IsLead(u) || IsTrail(u) then HexEscape(u)
    else [u]
  }

  /** A surrogate pair is printed raw; a lone surrogate is escaped. */
  function Escape(s: Str): Str {
    if s == [] then []
    else if |s| >= 2 && IsLead(s[0]) && IsTrail(s[1]) then [s[0], s[1]] + Escape(s[2..])
    else EscapeUnit(s[0]) + Escape(s[1..])
  }

  function Quote(s: Str): Str {
    [QUOTE] + Escape(s) + [QUOTE]
  }

  // ---------- The printer ----------

  function Canonical(j: Json): Str
    decreases j, 1
  {
    match j
    case Null => NULL
    case Bool(b) => if b then TRUE else FALSE
    case Number(t) => t
    case String(s) => Quote(s)
    case Array(items) => [OPEN_BRACKET] + JoinItems(items) + [CLOSE_BRACKET]
    case Object(fields) => [OPEN_BRACE] + JoinEntries(Sort(PrintFields(fields))) + [CLOSE_BRACE]
  }

  function JoinItems(items: seq<Json>): Str
    decreases items, 0
  {
    if items == [] then []
    else if |items| == 1 then Canonical(items[0])
    else Canonical(items[0]) + [COMMA] + JoinItems(items[1..])
  }

  function PrintFields(fields: seq<Entry<Json>>): seq<Entry<Str>>
    decreases fields, 0
  {
    if fields == [] then []
    else [Entry(fields[0].key, Canonical(fields[0].value))] + PrintFields(fields[1..])
  }

  function JoinEntries(es: seq<Entry<Str>>): Str {
    if es == [] then []
    else
      var head := Quote(es[0].key) + [COLON] + es[0].value;
      if |es| == 1 then head else head + [COMMA] + JoinEntries(es[1..])
  }

  // ---------- The reader: RFC 8259 without whitespace ----------

  function HexValue(u: Unit): Option<int> {
    if 0x30 <= u <= 0x39 then Some(u - 0x30)
    else if 0x61 <= u <= 0x66 then Some(u - 0x61 + 10)
    else if 0x41 <= u <= 0x46 then Some(u - 0x41 + 10)
    else None
  }

  function UnescapeLetter(u: Unit): Option<Unit> {
    if u == QUOTE || u == BACKSLASH || u == 0x2F then Some(u)
    else if u == 0x62 then Some(0x08)
    else if u == 0x66 then Some(0x0C)
    else if u == 0x6E then Some(LINE_FEED)
    else if u == 0x72 then Some(CARRIAGE_RETURN)
    else if u == 0x74 then Some(TAB)
    else None
  }

  datatype Read<+T> = Fail | Got(value: T, rest: Str)

  /** One code unit of a string body. */
  function ReadUnit(t: Str): (r: Read<Unit>)
    ensures r.Got? ==> |r.rest| < |t|
  {
    if t == [] || t[0] < SPACE || t[0] == QUOTE then Fail
    else if t[0] != BACKSLASH then Got(t[0], t[1..])
    else if |t| >= 2 && UnescapeLetter(t[1]).Some? then Got(UnescapeLetter(t[1]).value, t[2..])
    else if |t| >= 6 && t[1] == 0x75 then
      var a, b, c, d := HexValue(t[2]), HexValue(t[3]), HexValue(t[4]), HexValue(t[5]);
      if a.Some? && b.Some? && c.Some? && d.Some?
        && 0 <= a.value < 16 && 0 <= b.value < 16 && 0 <= c.value < 16 && 0 <= d.value < 16
      then Got(a.value * 4096 + b.value * 256 + c.value * 16 + d.value, t[6..])
      else Fail
    else Fail
  }

  /** A string body up to and including its closing quote. */
  function ReadString(t: Str): (r: Read<Str>)
    ensures r.Got? ==> |r.rest| < |t|
    decreases |t|
  {
    if t != [] && t[0] == QUOTE then Got([], t[1..])
    else
      var u := ReadUnit(t);
      if u.Fail? then Fail
      else
        var more := ReadString(u.rest);
        if more.Fail? then Fail else Got([u.value] + more.value, more.rest)
  }

  function NumberLength(t: Str): (n: nat)
    ensures n <= |t|
    ensures forall i | 0 <= i < n :: IsNumberUnit(t[i])
    ensures n == |t| || !IsNumberUnit(t[n])
  {
    if t == [] || !IsNumberUnit(t[0]) then 0 else 1 + NumberLength(t[1..])
  }

  function ReadLiteral(t: Str, literal: Str, v: Value): (r: Read<Value>)
    requires literal != []
    ensures r.Got? ==> |r.rest| < |t|
  {
    if literal <= t then Got(v, t[|literal|..]) else Fail
  }

  function ReadValue(t: Str): (r: Read<Value>)
    ensures r.Got? ==> |r.rest| < |t|
    decreases |t|, 1
  {
    if t == [] then Fail
    else if t[0] == NULL[0] then ReadLiteral(t, NULL, VNull)
    else if t[0] == TRUE[0] then ReadLiteral(t, TRUE, VBool(true))
    else if t[0] == FALSE[0] then ReadLiteral(t, FALSE, VBool(false))
    else if t[0] == QUOTE then
      var s := ReadString(t[1..]);
      if s.Fail? then Fail else Got(VString(s.value), s.rest)
    else if t[0] == OPEN_BRACKET then
      if |t| >= 2 && t[1] == CLOSE_BRACKET then Got(VArray([]), t[2..])
      else
        var items := ReadItems(t[1..]);
        if items.Fail? then Fail else Got(VArray(items.value), items.rest)
    else if t[0] == OPEN_BRACE then
      if |t| >= 2 && t[1] == CLOSE_BRACE then Got(VObject(map[]), t[2..])
      else
        var fields := ReadFields(t[1..]);
        if fields.Fail? then Fail else Got(VObject(fields.value), fields.rest)
    else
      var n := NumberLength(t);
      if n == 0 then Fail else Got(VNumber(t[..n]), t[n..])
  }

  function ReadItems(t: Str): (r: Read<seq<Value>>)
    ensures r.Got? ==> |r.rest| < |t|
    decreases |t|, 2
  {
    var v := ReadValue(t);
    if v.Fail? || v.rest == [] then Fail
    else if v.rest[0] == CLOSE_BRACKET then Got([v.value], v.rest[1..])
    else if v.rest[0] == COMMA then
      var more := ReadItems(v.rest[1..]);
      if more.Fail? then Fail else Got([v.value] + more.value, more.rest)
    else Fail
  }

  function ReadFields(t: Str): (r: Read<map<Str, Value>>)
    ensures r.Got? ==> |r.rest| < |t|
    decreases |t|, 2
  {
    if t == [] || t[0] != QUOTE then Fail
    else
      var key := ReadString(t[1..]);
      if key.Fail? || key.rest == [] || key.rest[0] != COLON then Fail
      else
        var v := ReadValue(key.rest[1..]);
        if v.Fail? || v.rest == [] then Fail
        else if v.rest[0] == CLOSE_BRACE then Got(map[key.value := v.value], v.rest[1..])
        else if v.rest[0] == COMMA then
          var more := ReadFields(v.rest[1..]);
          if more.Fail? then Fail else Got(map[key.value := v.value] + more.value, more.rest)
        else Fail
  }

  // ---------- Strings survive ----------

  lemma HexDigitReads(n: int)
    requires 0 <= n < 16
    ensures HexValue(HexDigit(n)) == Some(n)
  {
  }

  lemma HexSplits(u: Unit)
    ensures u / 4096 * 4096 + u / 256 % 16 * 256 + u / 16 % 16 * 16 + u % 16 == u
    ensures u / 4096 < 16
  {
    assert u / 16 / 16 == u / 256 && u / 256 / 16 == u / 4096;
  }

  lemma HexReads(u: Unit, rest: Str)
    ensures ReadUnit(HexEscape(u) + rest) == Got(u, rest)
  {
    HexSplits(u);
    FourDigitsRead(u / 4096, u / 256 % 16, u / 16 % 16, u % 16, rest);
  }

  lemma FourDigitsRead(a: int, b: int, c: int, d: int, rest: Str)
    requires 0 <= a < 16 && 0 <= b < 16 && 0 <= c < 16 && 0 <= d < 16
    ensures ReadUnit([BACKSLASH, 0x75, HexDigit(a), HexDigit(b), HexDigit(c), HexDigit(d)] + rest)
         == Got(a * 4096 + b * 256 + c * 16 + d, rest)
  {
    hide HexDigit, HexValue;
    HexDigitReads(a);
    HexDigitReads(b);
    HexDigitReads(c);
    HexDigitReads(d);
    var t := [BACKSLASH, 0x75, HexDigit(a), HexDigit(b), HexDigit(c), HexDigit(d)] + rest;
    assert t[6..] == rest;
  }

  lemma ShortReads(u: Unit, rest: Str)
    requires ShortEscape(u).Some?
    ensures ReadUnit([BACKSLASH, ShortEscape(u).value] + rest) == Got(u, rest)
  {
    assert ([BACKSLASH, ShortEscape(u).value] + rest)[2..] == rest;
  }

  lemma UnitReads(u: Unit, rest: Str)
    ensures ReadUnit(EscapeUnit(u) + rest) == Got(u, rest)
  {
    hide ReadUnit, HexEscape;
    if ShortEscape(u).Some? { ShortReads(u, rest); }
    else if u < SPACE || IsLead(u) || IsTrail(u) { HexReads(u, rest); }
    else { RawReads(u, rest); }
  }

  /** If one unit reads off the front and the rest reads as a string, the whole does. */
  lemma ConsReads(t: Str, u: Unit, tail: Str, s: Str, rest: Str)
    requires ReadUnit(t) == Got(u, tail) && ReadString(tail) == Got(s, rest)
    ensures ReadString(t) == Got([u] + s, rest)
  {
    hide ReadUnit;
    NotClosing(t);
  }

  lemma NotClosing(t: Str)
    requires ReadUnit(t).Got?
    ensures t != [] && t[0] != QUOTE
  {
  }

  lemma RawReads(u: Unit, tail: Str)
    requires u >= SPACE && u != QUOTE && u != BACKSLASH
    ensures ReadUnit([u] + tail) == Got(u, tail)
  {
    assert ([u] + tail)[1..] == tail;
  }

  /** Reading back an escaped string, up to its closing quote, gives the string and what followed. */
  lemma {:induction false} StringReads(s: Str, rest: Str)
    ensures ReadString(Escape(s) + [QUOTE] + rest) == Got(s, rest)
  {
    hide ReadUnit, EscapeUnit;
    var t := Escape(s) + [QUOTE] + rest;
    if s == [] {
      assert t[1..] == rest;
    } else if |s| >= 2 && IsLead(s[0]) && IsTrail(s[1]) {
      StringReads(s[2..], rest);
      var tail := Escape(s[2..]) + [QUOTE] + rest;
      RawReads(s[1], tail);
      ConsReads([s[1]] + tail, s[1], tail, s[2..], rest);
      RawReads(s[0], [s[1]] + tail);
      ConsReads([s[0]] + ([s[1]] + tail), s[0], [s[1]] + tail, [s[1]] + s[2..], rest);
      assert t == [s[0]] + ([s[1]] + tail);
      assert s == [s[0]] + ([s[1]] + s[2..]);
    } else {
      StringReads(s[1..], rest);
      var tail := Escape(s[1..]) + [QUOTE] + rest;
      assert t == EscapeUnit(s[0]) + tail;
      UnitReads(s[0], tail);
      ConsReads(t, s[0], tail, s[1..], rest);
      assert s == [s[0]] + s[1..];
    }
  }

  // ---------- Printing and sorting commute ----------

  lemma {:induction false} PrintInsert(e: Entry<Json>, es: seq<Entry<Json>>)
    ensures Insert(Entry(e.key, Canonical(e.value)), PrintFields(es)) == PrintFields(Insert(e, es))
  {
    if es != [] && Less(es[0].key, e.key) {
      PrintInsert(e, es[1..]);
      assert PrintFields(es)[1..] == PrintFields(es[1..]);
      assert Insert(e, es)[1..] == Insert(e, es[1..]);
    } else {
      assert ([e] + es)[1..] == es;
    }
  }

  lemma {:induction false} PrintSort(fields: seq<Entry<Json>>)
    ensures Sort(PrintFields(fields)) == PrintFields(Sort(fields))
  {
    if fields != [] {
      PrintSort(fields[1..]);
      assert PrintFields(fields)[1..] == PrintFields(fields[1..]);
      PrintInsert(fields[0], Sort(fields[1..]));
    }
  }

  // ---------- Fields as maps ----------

  lemma {:induction false} FieldsMeaning(fields: seq<Entry<Json>>)
    requires Distinct(fields)
    ensures MeaningOfFields(fields).Keys == Keys(fields)
    ensures forall e | e in fields :: MeaningOfFields(fields)[e.key] == Meaning(e.value)
  {
    if fields != [] {
      FieldsMeaning(fields[1..]);
      assert fields == [fields[0]] + fields[1..];
      assert Keys(fields) == Keys(fields[1..]) + {fields[0].key};
    }
  }

  lemma {:induction false} SortDistinct(fields: seq<Entry<Json>>)
    requires Distinct(fields)
    ensures Distinct(Sort(fields))
  {
    SortSorted(fields);
    forall i, j | 0 <= i < j < |Sort(fields)| ensures Sort(fields)[i].key != Sort(fields)[j].key {
      LessIrreflexive(Sort(fields)[i].key);
    }
  }

  lemma SortKeys(fields: seq<Entry<Json>>)
    ensures Keys(Sort(fields)) == Keys(fields)
  {
    forall k | k in Keys(fields) ensures k in Keys(Sort(fields)) {
      var e :| e in fields && e.key == k;
      SortMember(fields, e);
    }
    forall k | k in Keys(Sort(fields)) ensures k in Keys(fields) {
      var e :| e in Sort(fields) && e.key == k;
      SortMember(fields, e);
    }
  }

  lemma SortMeaning(fields: seq<Entry<Json>>)
    requires Distinct(fields)
    ensures MeaningOfFields(Sort(fields)) == MeaningOfFields(fields)
  {
    SortDistinct(fields);
    SortKeys(fields);
    FieldsMeaning(fields);
    FieldsMeaning(Sort(fields));
    forall k | k in Keys(fields) ensures MeaningOfFields(Sort(fields))[k] == MeaningOfFields(fields)[k] {
      var e :| e in fields && e.key == k;
      SortMember(fields, e);
    }
  }

  // ---------- Every printed value reads back ----------

  /** What may follow a value without being taken for more of it. */
  predicate Ends(rest: Str) {
    rest == [] || !IsNumberUnit(rest[0])
  }

  predicate StartsValue(u: Unit) {
    u in {NULL[0], TRUE[0], FALSE[0], QUOTE, OPEN_BRACKET, OPEN_BRACE} || IsNumberUnit(u)
  }

  lemma FirstUnit(j: Json)
    requires WellFormed(j)
    ensures Canonical(j) != [] && StartsValue(Canonical(j)[0])
  {
  }

  lemma {:induction false} NumberReads(t: Str, rest: Str)
    requires IsNumberToken(t) && Ends(rest)
    ensures ReadValue(t + rest) == Got(VNumber(t), rest)
  {
    var n := NumberLength(t + rest);
    assert forall i | 0 <= i < |t| :: (t + rest)[i] == t[i];
    assert rest != [] ==> (t + rest)[|t|] == rest[0];
    assert n == |t|;
    assert (t + rest)[..n] == t && (t + rest)[n..] == rest;
  }

  lemma ArrayReads(body: Str, rest: Str, vs: seq<Value>)
    requires body != [] && body[0] != CLOSE_BRACKET
    requires ReadItems(body + [CLOSE_BRACKET] + rest) == Got(vs, rest)
    ensures ReadValue([OPEN_BRACKET] + body + [CLOSE_BRACKET] + rest) == Got(VArray(vs), rest)
  {
    var t := [OPEN_BRACKET] + body + [CLOSE_BRACKET] + rest;
    assert t[1..] == body + [CLOSE_BRACKET] + rest;
  }

  lemma ObjectReads(body: Str, rest: Str, m: map<Str, Value>)
    requires body != [] && body[0] != CLOSE_BRACE
    requires ReadFields(body + [CLOSE_BRACE] + rest) == Got(m, rest)
    ensures ReadValue([OPEN_BRACE] + body + [CLOSE_BRACE] + rest) == Got(VObject(m), rest)
  {
    var t := [OPEN_BRACE] + body + [CLOSE_BRACE] + rest;
    assert t[1..] == body + [CLOSE_BRACE] + rest;
  }

  lemma QuotedReads(s: Str, rest: Str)
    ensures ReadValue(Quote(s) + rest) == Got(VString(s), rest)
  {
    hide Escape, ReadString, ReadItems, ReadFields;
    StringReads(s, rest);
    assert (Quote(s) + rest)[1..] == Escape(s) + [QUOTE] + rest;
  }

  lemma LiteralReads(rest: Str)
    ensures ReadValue(NULL + rest) == Got(VNull, rest)
    ensures ReadValue(TRUE + rest) == Got(VBool(true), rest)
    ensures ReadValue(FALSE + rest) == Got(VBool(false), rest)
  {
    assert (NULL + rest)[4..] == rest && (TRUE + rest)[4..] == rest && (FALSE + rest)[5..] == rest;
  }

  /** One item off the front of an array body. */
  lemma ItemReads(text: Str, rest: Str, v: Value)
    requires ReadValue(text + rest) == Got(v, rest) && rest != []
    ensures rest[0] == CLOSE_BRACKET ==> ReadItems(text + rest) == Got([v], rest[1..])
    ensures rest[0] == COMMA && ReadItems(rest[1..]).Got? ==>
      ReadItems(text + rest) == Got([v] + ReadItems(rest[1..]).value, ReadItems(rest[1..]).rest)
  {
    hide ReadValue;
  }

  /** One field off the front of an object body. */
  lemma FieldReads(key: Str, text: Str, rest: Str, v: Value)
    requires ReadValue(text + rest) == Got(v, rest) && rest != []
    ensures var t := Quote(key) + [COLON] + text + rest;
      && (rest[0] == CLOSE_BRACE ==> ReadFields(t) == Got(map[key := v], rest[1..]))
      && (rest[0] == COMMA && ReadFields(rest[1..]).Got? ==>
          ReadFields(t) == Got(map[key := v] + ReadFields(rest[1..]).value, ReadFields(rest[1..]).rest))
  {
    hide ReadValue, ReadString, Escape;
    var t := Quote(key) + [COLON] + text + rest;
    StringReads(key, [COLON] + text + rest);
    assert t[1..] == Escape(key) + [QUOTE] + ([COLON] + text + rest);
    assert ([COLON] + text + rest)[1..] == text + rest;
  }

  /** The printed form of a value, followed by anything that cannot extend it, reads back as the value's meaning. */
  lemma {:induction false} ValueReads(j: Json, rest: Str)
    requires WellFormed(j) && Ends(rest)
    ensures ReadValue(Canonical(j) + rest) == Got(Meaning(j), rest)
    decreases j, 1
  {
    hide ReadValue, ReadItems, ReadFields, Quote;
    match j
    case Null => LiteralReads(rest);
    case Bool(_) => LiteralReads(rest);
    case Number(t) => NumberReads(t, rest);
    case String(s) => QuotedReads(s, rest);
    case Array(items) =>
      if items == [] {
        EmptyReads(rest);
        assert Canonical(j) == [OPEN_BRACKET, CLOSE_BRACKET];
      } else {
        ItemsRead(items, rest);
        FirstUnit(items[0]);
        ArrayReads(JoinItems(items), rest, MeaningOfItems(items));
        assert Canonical(j) + rest == [OPEN_BRACKET] + JoinItems(items) + [CLOSE_BRACKET] + rest;
      }
    case Object(fields) =>
      PrintSort(fields);
      if fields == [] {
        EmptyReads(rest);
        assert Canonical(j) == [OPEN_BRACE, CLOSE_BRACE];
      } else {
        var fs := Sort(fields);
        forall e | e in fs ensures e in fields { SortMember(fields, e); }
        SortContents(fields);
        assert |fs| == |multiset(fs)| == |multiset(fields)| == |fields|;
        SortDistinct(fields);
        FieldsRead(j, fs, rest);
        SortMeaning(fields);
        FirstQuote(fs);
        ObjectReads(JoinEntries(PrintFields(fs)), rest, MeaningOfFields(fs));
        assert Canonical(j) + rest == [OPEN_BRACE] + JoinEntries(PrintFields(fs)) + [CLOSE_BRACE] + rest;
      }
  }

  lemma EmptyReads(rest: Str)
    ensures ReadValue([OPEN_BRACKET, CLOSE_BRACKET] + rest) == Got(VArray([]), rest)
    ensures ReadValue([OPEN_BRACE, CLOSE_BRACE] + rest) == Got(VObject(map[]), rest)
  {
    assert ([OPEN_BRACKET, CLOSE_BRACKET] + rest)[2..] == rest;
    assert ([OPEN_BRACE, CLOSE_BRACE] + rest)[2..] == rest;
  }

  lemma FirstQuote(fs: seq<Entry<Json>>)
    requires fs != []
    ensures JoinEntries(PrintFields(fs)) != [] && JoinEntries(PrintFields(fs))[0] == QUOTE
  {
  }

  /** An array body is its first item, then the closer or a comma and the body of the others. */
  lemma ItemsText(items: seq<Json>, rest: Str)
    requires items != []
    ensures JoinItems(items) + [CLOSE_BRACKET] + rest == Canonical(items[0]) + AfterItem(items, rest)
    ensures MeaningOfItems(items) == [Meaning(items[0])] + MeaningOfItems(items[1..])
  {
    hide Canonical, Meaning;
  }

  function AfterItem(items: seq<Json>, rest: Str): Str
    requires items != []
  {
    if |items| == 1 then [CLOSE_BRACKET] + rest else [COMMA] + (JoinItems(items[1..]) + [CLOSE_BRACKET] + rest)
  }

  lemma {:induction false} ItemsRead(items: seq<Json>, rest: Str)
    requires items != [] && forall i | 0 <= i < |items| :: WellFormed(items[i])
    ensures ReadItems(JoinItems(items) + [CLOSE_BRACKET] + rest) == Got(MeaningOfItems(items), rest)
    decreases items, 0
  {
    hide ReadValue, ReadItems, Canonical, JoinItems, Meaning, WellFormed;
    ItemsText(items, rest);
    var after := AfterItem(items, rest);
    ValueReads(items[0], after);
    ItemReads(Canonical(items[0]), after, Meaning(items[0]));
    if |items| == 1 {
      assert after[1..] == rest;
      assert items[1..] == [] && MeaningOfItems(items[1..]) == [];
      assert [Meaning(items[0])] + [] == [Meaning(items[0])];
    } else {
      ItemsRead(items[1..], rest);
      assert after[1..] == JoinItems(items[1..]) + [CLOSE_BRACKET] + rest;
    }
  }

  function AfterField(fs: seq<Entry<Json>>, rest: Str): Str
    requires fs != []
  {
    if |fs| == 1 then [CLOSE_BRACE] + rest
    else [COMMA] + (JoinEntries(PrintFields(fs[1..])) + [CLOSE_BRACE] + rest)
  }

  lemma EntriesText(es: seq<Entry<Str>>)
    requires es != []
    ensures JoinEntries(es) == Quote(es[0].key) + [COLON] + es[0].value
      + (if |es| == 1 then [] else [COMMA] + JoinEntries(es[1..]))
  {
    hide Quote;
  }

  lemma PrintedTail(fs: seq<Entry<Json>>)
    requires fs != []
    ensures PrintFields(fs) != [] && PrintFields(fs)[1..] == PrintFields(fs[1..])
  {
    hide Canonical;
  }

  lemma Regroup(head: Str, comma: Str, tail: Str, close: Str, rest: Str)
    ensures head + (comma + tail) + close + rest == head + (comma + (tail + close + rest))
    ensures head + [] + close + rest == head + (close + rest)
  {
  }

  lemma FieldsText(fs: seq<Entry<Json>>, rest: Str)
    requires fs != []
    ensures JoinEntries(PrintFields(fs)) + [CLOSE_BRACE] + rest
         == Quote(fs[0].key) + [COLON] + Canonical(fs[0].value) + AfterField(fs, rest)
  {
    hide Canonical, Quote, JoinEntries, PrintFields;
    var es := PrintFields(fs);
    PrintedFields(fs);
    PrintedTail(fs);
    EntriesText(es);
    Regroup(Quote(fs[0].key) + [COLON] + Canonical(fs[0].value), [COMMA], JoinEntries(es[1..]), [CLOSE_BRACE], rest);
  }

  lemma FieldsMeaningTail(fs: seq<Entry<Json>>)
    requires fs != [] && Distinct(fs)
    ensures MeaningOfFields(fs) == map[fs[0].key := Meaning(fs[0].value)] + MeaningOfFields(fs[1..])
  {
    FirstKeyIsNew(fs);
    PutFirst(MeaningOfFields(fs[1..]), fs[0].key, Meaning(fs[0].value));
  }

  lemma FirstKeyIsNew(fs: seq<Entry<Json>>)
    requires fs != [] && Distinct(fs)
    ensures fs[0].key !in MeaningOfFields(fs[1..])
  {
    hide MeaningOfFields;
    FieldsMeaning(fs[1..]);
  }

  lemma PutFirst(m: map<Str, Value>, k: Str, v: Value)
    requires k !in m
    ensures m[k := v] == map[k := v] + m
  {
  }

  lemma {:induction false} FieldsRead(parent: Json, fs: seq<Entry<Json>>, rest: Str)
    requires parent.Object? && WellFormed(parent)
    requires fs != [] && Distinct(fs) && forall e | e in fs :: e in parent.fields
    ensures ReadFields(JoinEntries(PrintFields(fs)) + [CLOSE_BRACE] + rest) == Got(MeaningOfFields(fs), rest)
    decreases parent, 0, |fs|
  {
    hide ReadValue, ReadFields, Canonical, Quote, Meaning, MeaningOfFields, PrintFields, JoinEntries;
    var first := fs[0];
    var after := AfterField(fs, rest);
    assert first in parent.fields;
    FieldsText(fs, rest);
    FieldsMeaningTail(fs);
    ValueReads(first.value, after);
    FieldReads(first.key, Canonical(first.value), after, Meaning(first.value));
    if |fs| == 1 {
      assert after[1..] == rest;
      NoFieldsMeanNothing();
      assert fs[1..] == [];
      assert map[first.key := Meaning(first.value)] + map[] == map[first.key := Meaning(first.value)];
    } else {
      FieldsRead(parent, fs[1..], rest);
      assert after[1..] == JoinEntries(PrintFields(fs[1..])) + [CLOSE_BRACE] + rest;
    }
  }

  lemma NoFieldsMeanNothing()
    ensures MeaningOfFields([]) == map[]
  {
  }

  // ---------- Equal meanings print equally ----------

  lemma {:induction false} ItemsMeaning(items: seq<Json>)
    ensures |MeaningOfItems(items)| == |items|
    ensures forall i | 0 <= i < |items| :: MeaningOfItems(items)[i] == Meaning(items[i])
  {
    if items != [] { ItemsMeaning(items[1..]); }
  }

  lemma {:induction false} PrintedFields(fs: seq<Entry<Json>>)
    ensures |PrintFields(fs)| == |fs|
    ensures forall i | 0 <= i < |fs| :: PrintFields(fs)[i] == Entry(fs[i].key, Canonical(fs[i].value))
  {
    if fs != [] { PrintedFields(fs[1..]); }
  }

  lemma {:induction false} JoinedItems(a: seq<Json>, b: seq<Json>)
    requires |a| == |b| && forall i | 0 <= i < |a| :: Canonical(a[i]) == Canonical(b[i])
    ensures JoinItems(a) == JoinItems(b)
  {
    if |a| > 1 { JoinedItems(a[1..], b[1..]); }
  }

  /** The sorted fields of two objects with the same meaning pair up by key and meaning. */
  lemma SortedFieldsPair(a: seq<Entry<Json>>, b: seq<Entry<Json>>)
    requires Distinct(a) && Distinct(b) && MeaningOfFields(a) == MeaningOfFields(b)
    ensures |Sort(a)| == |Sort(b)|
    ensures forall i | 0 <= i < |Sort(a)| ::
      Sort(a)[i].key == Sort(b)[i].key && Meaning(Sort(a)[i].value) == Meaning(Sort(b)[i].value)
  {
    var fa, fb := Sort(a), Sort(b);
    SortSorted(a);
    SortSorted(b);
    SortDistinct(a);
    SortDistinct(b);
    SortMeaning(a);
    SortMeaning(b);
    FieldsMeaning(fa);
    FieldsMeaning(fb);
    SortedKeysUnique(fa, fb);
    forall i | 0 <= i < |fa| ensures Meaning(fa[i].value) == Meaning(fb[i].value) {
      assert fa[i] in fa && fb[i] in fb;
    }
  }

  lemma {:induction false} SameMeaningPrintsSame(a: Json, b: Json)
    requires WellFormed(a) && WellFormed(b) && Meaning(a) == Meaning(b)
    ensures Canonical(a) == Canonical(b)
    decreases a
  {
    match a
    case Array(items) =>
      ItemsMeaning(items);
      ItemsMeaning(b.items);
      forall i | 0 <= i < |items| ensures Canonical(items[i]) == Canonical(b.items[i]) {
        assert MeaningOfItems(items)[i] == MeaningOfItems(b.items)[i];
        SameMeaningPrintsSame(items[i], b.items[i]);
      }
      JoinedItems(items, b.items);
    case Object(fields) =>
      var fa, fb := Sort(fields), Sort(b.fields);
      SortedFieldsPair(fields, b.fields);
      PrintSort(fields);
      PrintSort(b.fields);
      PrintedFields(fa);
      PrintedFields(fb);
      forall i | 0 <= i < |fa| ensures PrintFields(fa)[i] == PrintFields(fb)[i] {
        SortMember(fields, fa[i]);
        SortMember(b.fields, fb[i]);
        SameMeaningPrintsSame(fa[i].value, fb[i].value);
      }
      assert PrintFields(fa) == PrintFields(fb);
    case _ =>
  }

  /** An object prints its fields in ascending code-unit order of their keys, each once. */
  lemma KeysAscend(fields: seq<Entry<Json>>)
    requires Distinct(fields)
    ensures exists es: seq<Entry<Str>> ::
      && Sorted(es) && multiset(es) == multiset(PrintFields(fields))
      && Canonical(Object(fields)) == [OPEN_BRACE] + JoinEntries(es) + [CLOSE_BRACE]
  {
    hide JoinEntries;
    var es := Sort(PrintFields(fields));
    PrintedFields(fields);
    assert Distinct(PrintFields(fields));
    SortSorted(PrintFields(fields));
    SortContents(PrintFields(fields));
    assert Canonical(Object(fields)) == [OPEN_BRACE] + JoinEntries(es) + [CLOSE_BRACE];
  }

  /** The literals and the punctuation, as they are written. */
  lemma PrintedLiterals()
    ensures Canonical(Null) == Units("null")
    ensures Canonical(Bool(true)) == Units("true") && Canonical(Bool(false)) == Units("false")
    ensures Canonical(Array([Null, Null])) == Units("[null,null]")
    ensures Canonical(Object([Entry(Units("a"), Null)])) == Units("{\"a\":null}")
  {
    hide Canonical;
    Literals();
    TwoItems();
    OneField();
    assert [OPEN_BRACKET] + NULL + [COMMA] + NULL + [CLOSE_BRACKET] == Units("[null,null]");
    assert [OPEN_BRACE, QUOTE, 0x61, QUOTE, COLON] + NULL + [CLOSE_BRACE] == Units("{\"a\":null}");
  }

  lemma Literals()
    ensures Canonical(Null) == Units("null")
    ensures Canonical(Bool(true)) == Units("true") && Canonical(Bool(false)) == Units("false")
  {
    assert NULL == Units("null") && TRUE == Units("true") && FALSE == Units("false");
  }

  lemma TwoItems()
    ensures Canonical(Array([Null, Null])) == [OPEN_BRACKET] + NULL + [COMMA] + NULL + [CLOSE_BRACKET]
  {
    assert [Null, Null][1..] == [Null];
    assert JoinItems([Null]) == NULL;
    assert JoinItems([Null, Null]) == NULL + [COMMA] + JoinItems([Null]);
  }

  lemma OneField()
    ensures Canonical(Object([Entry(Units("a"), Null)])) == [OPEN_BRACE, QUOTE, 0x61, QUOTE, COLON] + NULL + [CLOSE_BRACE]
  {
    hide Quote;
    assert Units("a") == [0x61];
    var e: Entry<Str>, fields: seq<Entry<Json>> := Entry([0x61], NULL), [Entry([0x61], Null)];
    var es := [e];
    assert fields[1..] == [] && es[1..] == [];
    assert PrintFields(fields) == es + PrintFields([]);
    assert Sort(es) == Insert(e, Sort(es[1..]));
    assert JoinEntries(es) == Quote([0x61]) + [COLON] + NULL;
    OneLetter(0x61);
  }

  lemma OneLetter(u: Unit)
    requires 0x61 <= u <= 0x7A
    ensures Quote([u]) == [QUOTE, u, QUOTE]
  {
    PlainPrintsItself([u]);
  }

  /** Quotes, backslashes, control characters and lone surrogates. */
  predicate MustEscape(s: Str, i: nat)
    requires i < |s|
  {
    || s[i] == QUOTE || s[i] == BACKSLASH || s[i] < SPACE
    || (IsLead(s[i]) && !(i + 1 < |s| && IsTrail(s[i + 1])))
    || (IsTrail(s[i]) && !(i > 0 && IsLead(s[i - 1])))
  }

  /** A string without any of those is printed as it is. */
  lemma {:induction false} PlainPrintsItself(s: Str)
    requires forall i | 0 <= i < |s| :: !MustEscape(s, i)
    ensures Escape(s) == s
    decreases |s|
  {
    if s != [] {
      assert !MustEscape(s, 0);
      if |s| >= 2 && IsLead(s[0]) && IsTrail(s[1]) {
        forall i | 0 <= i < |s[2..]| ensures !MustEscape(s[2..], i) { assert !MustEscape(s, i + 2); }
        PlainPrintsItself(s[2..]);
        assert s == [s[0], s[1]] + s[2..];
      } else {
        forall i | 0 <= i < |s[1..]| ensures !MustEscape(s[1..], i) { assert !MustEscape(s, i + 1); }
        PlainPrintsItself(s[1..]);
        assert s == [s[0]] + s[1..];
      }
    }
  }

  const HEX: Str :=
    [0x30, 0x31, 0x32, 0x33, 0x34, 0x35, 0x36, 0x37, 0x38, 0x39, 0x61, 0x62, 0x63, 0x64, 0x65, 0x66]

  /** How each unit that must be escaped is written: its short form if it has one, else four lower-case hex digits. */
  lemma EscapeTable(u: Unit)
    ensures u == 0x22 ==> EscapeUnit(u) == [0x5C, 0x22]
    ensures u == 0x5C ==> EscapeUnit(u) == [0x5C, 0x5C]
    ensures u == 0x08 ==> EscapeUnit(u) == [0x5C, 0x62]
    ensures u == 0x0C ==> EscapeUnit(u) == [0x5C, 0x66]
    ensures u == 0x0A ==> EscapeUnit(u) == [0x5C, 0x6E]
    ensures u == 0x0D ==> EscapeUnit(u) == [0x5C, 0x72]
    ensures u == 0x09 ==> EscapeUnit(u) == [0x5C, 0x74]
    ensures (u < 0x20 && u !in {0x08, 0x09, 0x0A, 0x0C, 0x0D}) || 0xD800 <= u <= 0xDFFF ==>
      EscapeUnit(u) == [0x5C, 0x75, HEX[u / 4096], HEX[u / 256 % 16], HEX[u / 16 % 16], HEX[u % 16]]
  {
    hide HexDigit;
    HexDigits(u / 4096);
    HexDigits(u / 256 % 16);
    HexDigits(u / 16 % 16);
    HexDigits(u % 16);
  }

  lemma HexDigits(n: int)
    requires 0 <= n < 16
    ensures HexDigit(n) == HEX[n]
  {
  }

  /** Canonical JSON is injective and blind to key order: two values print alike exactly when they mean the same. */
  lemma CanonicalIsIdentity(a: Json, b: Json)
    requires WellFormed(a) && WellFormed(b)
    ensures Canonical(a) == Canonical(b) <==> Meaning(a) == Meaning(b)
  {
    if Canonical(a) == Canonical(b) {
      ValueReads(a, []);
      ValueReads(b, []);
      assert Canonical(a) + [] == Canonical(b) + [];
    } else if Meaning(a) == Meaning(b) {
      SameMeaningPrintsSame(a, b);
    }
  }
}
