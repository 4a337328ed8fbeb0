/** What the event-stream reader reads back: the frames that a writer of the same dialect put into the text. */
module SseFrames {
  import opened Managed
  import opened Text
  import opened Sse

  // ---------- Writing frames ----------

  /** One `data:` line, with or without a space after the colon, ended by LF or CRLF. */
  datatype DataLine = DataLine(text: Str, spaced: bool, crlf: bool)

  /** A line inside a frame: data, or a comment or other field. */
  datatype Item = Data(line: DataLine) | Noise(raw: Str)

  /** The lines of a frame, and how its blank line is ended. */
  datatype Frame = Frame(items: seq<Item>, crlf: bool)

  /** The text has no line feed, is not mistaken for its own CR, and only a spaced line may begin with a space. */
  predicate LineOk(l: DataLine) {
    && LINE_FEED !in l.text
    && (l.crlf || l.text == [] || l.text[|l.text| - 1] != CARRIAGE_RETURN)
    && (l.spaced || l.text == [] || l.text[0] != SPACE)
  }

  predicate ItemOk(item: Item) {
    match item
    case Data(l) => LineOk(l)
    case Noise(raw) => LINE_FEED !in raw && StripReturn(raw) != [] && !(DATA <= StripReturn(raw))
  }

  predicate ItemsOk(items: seq<Item>) {
    forall i | 0 <= i < |items| :: ItemOk(items[i])
  }

  function Raw(item: Item): Str {
    match item
    case Data(l) => DATA + (if l.spaced then [SPACE] else []) + l.text + (if l.crlf then [CARRIAGE_RETURN] else [])
    case Noise(raw) => raw
  }

  function Raws(items: seq<Item>): (raws: seq<Str>)
    ensures |raws| == |items| && forall i | 0 <= i < |items| :: raws[i] == Raw(items[i])
  {
    seq(|items|, i requires 0 <= i < |items| => Raw(items[i]))
  }

  function Blank(crlf: bool): Str {
    if crlf then [CARRIAGE_RETURN] else []
  }

  function FrameLines(f: Frame): seq<Str> {
    Raws(f.items) + [Blank(f.crlf)]
  }

  function AllLines(fs: seq<Frame>): seq<Str> {
    if fs == [] then [] else FrameLines(fs[0]) + AllLines(fs[1..])
  }

  /** Every line ended by a line feed. */
  function Unlines(lines: seq<Str>): Str {
    if lines == [] then [] else lines[0] + [LINE_FEED] + Unlines(lines[1..])
  }

  // ---------- What a frame says ----------

  function Texts(items: seq<Item>): seq<Str> {
    if items == [] then [] else (if items[0].Data? then [items[0].line.text] else []) + Texts(items[1..])
  }

  /** Lines joined by line feeds. */
  function Join(lines: seq<Str>): Str {
    if lines == [] then []
    else if |lines| == 1 then lines[0]
    else lines[0] + [LINE_FEED] + Join(lines[1..])
  }

  function DropEmpty(lines: seq<Str>): seq<Str> {
    if lines != [] && lines[0] == [] then DropEmpty(lines[1..]) else lines
  }

  /** A frame's data lines joined by line feeds; the reader forgets empty ones at its start. */
  function Content(items: seq<Item>): Str {
    Join(DropEmpty(Texts(items)))
  }

  function Contents(fs: seq<Frame>): seq<Str> {
    if fs == [] then [] else [Content(fs[0].items)] + Contents(fs[1..])
  }

  /** The contents that are not empty and parse, parsed, in order. */
  function Parsed<J>(contents: seq<Str>, parse: Str -> Option<J>): seq<J> {
    if contents == [] then []
    else
      (if contents[0] != [] && parse(contents[0]).Some? then [parse(contents[0]).value] else [])
      + Parsed(contents[1..], parse)
  }

  ghost predicate FrameOk(f: Frame) {
    ItemsOk(f.items) && |Content(f.items)| <= MAX_FRAME
  }

  // ---------- Lines ----------

  lemma {:induction false} LinesOfUnlines(lines: seq<Str>, tail: Str)
    requires LINE_FEED !in tail && forall i | 0 <= i < |lines| :: LINE_FEED !in lines[i]
    ensures Lines(Unlines(lines) + tail) == lines && Tail(Unlines(lines) + tail) == tail
    decreases |lines|
  {
    hide Lines, Tail;
    if lines == [] {
      NoLine(tail);
      assert Unlines(lines) + tail == tail;
    } else {
      var t, rest := Unlines(lines) + tail, Unlines(lines[1..]) + tail;
      assert t == lines[0] + ([LINE_FEED] + rest);
      assert t[..|lines[0]|] == lines[0] && t[|lines[0]| + 1..] == rest && t[|lines[0]|] == LINE_FEED;
      assert forall i | 0 <= i < |lines[0]| :: t[i] == lines[0][i];
      FirstLine(t, |lines[0]|);
      LinesOfUnlines(lines[1..], tail);
      assert [lines[0]] + lines[1..] == lines;
    }
  }

  lemma RawHasNoLineFeed(item: Item)
    requires ItemOk(item)
    ensures LINE_FEED !in Raw(item)
  {
  }

  lemma {:induction false} AllLinesAreLines(fs: seq<Frame>)
    requires forall i | 0 <= i < |fs| :: ItemsOk(fs[i].items)
    ensures forall line | line in AllLines(fs) :: LINE_FEED !in line
  {
    if fs != [] {
      AllLinesAreLines(fs[1..]);
      forall i | 0 <= i < |fs[0].items| ensures LINE_FEED !in Raw(fs[0].items[i]) {
        RawHasNoLineFeed(fs[0].items[i]);
      }
    }
  }

  // ---------- Collecting data ----------

  function Add(data: Str, text: Str): Str {
    if data != [] then data + [LINE_FEED] + text else text
  }

  function Collect(data: Str, texts: seq<Str>): Str
    decreases |texts|
  {
    if texts == [] then data else Collect(Add(data, texts[0]), texts[1..])
  }

  lemma {:induction false} CollectGrows(data: Str, texts: seq<Str>)
    ensures |data| <= |Collect(data, texts)|
    decreases |texts|
  {
    if texts != [] { CollectGrows(Add(data, texts[0]), texts[1..]); }
  }

  lemma {:induction false} CollectJoins(data: Str, texts: seq<Str>)
    requires data != []
    ensures Collect(data, texts) == if texts == [] then data else data + [LINE_FEED] + Join(texts)
    decreases |texts|
  {
    hide Join;
    if texts != [] {
      CollectJoins(Add(data, texts[0]), texts[1..]);
      JoinHead(texts);
      if |texts| > 1 { Regroup(data, texts[0], Join(texts[1..])); }
    }
  }

  lemma JoinHead(lines: seq<Str>)
    requires lines != []
    ensures Join(lines) == if |lines| == 1 then lines[0] else lines[0] + [LINE_FEED] + Join(lines[1..])
  {
  }

  lemma Regroup(a: Str, b: Str, c: Str)
    ensures a + [LINE_FEED] + b + [LINE_FEED] + c == a + [LINE_FEED] + (b + [LINE_FEED] + c)
  {
  }

  lemma {:induction false} CollectIsContent(texts: seq<Str>)
    ensures Collect([], texts) == Join(DropEmpty(texts))
    decreases |texts|
  {
    if texts != [] {
      if texts[0] == [] {
        CollectIsContent(texts[1..]);
      } else {
        CollectJoins(texts[0], texts[1..]);
      }
    }
  }

  /** A data line adds its text, whatever its spacing and its end. */
  lemma DataAccepted<J>(p: Parser<J>, l: DataLine, parse: Str -> Option<J>)
    requires LineOk(l) && !p.failed && |Add(p.data, l.text)| <= MAX_FRAME
    ensures Accept(p, Raw(Data(l)), parse) == p.(data := Add(p.data, l.text))
  {
    var head := DATA + (if l.spaced then [SPACE] else []) + l.text;
    var raw := Raw(Data(l));
    StripEnd(head, l.crlf);
    assert raw == head + (if l.crlf then [CARRIAGE_RETURN] else []);
    assert head[..5] == DATA && head[5..] == (if l.spaced then [SPACE] else []) + l.text;
    assert l.spaced ==> head[5..][1..] == l.text;
    AddText(p.data, head, l.text);
  }

  lemma StripEnd(head: Str, crlf: bool)
    requires head != [] && (crlf || head[|head| - 1] != CARRIAGE_RETURN)
    ensures StripReturn(head + (if crlf then [CARRIAGE_RETURN] else [])) == head
  {
    if crlf {
      assert (head + [CARRIAGE_RETURN])[..|head|] == head;
    } else {
      assert head + [] == head;
    }
  }

  lemma AddText(data: Str, head: Str, text: Str)
    requires DATA <= head
    requires if head[5..] != [] && head[5..][0] == SPACE then head[5..][1..] == text else head[5..] == text
    ensures AddData(data, head) == Add(data, text)
  {
    assert [] + text == text;
  }

  lemma NoiseIgnored<J>(p: Parser<J>, raw: Str, parse: Str -> Option<J>)
    requires ItemOk(Noise(raw))
    ensures Accept(p, raw, parse) == p
  {
  }

  lemma {:induction false} ItemsAccepted<J>(p: Parser<J>, items: seq<Item>, parse: Str -> Option<J>)
    requires ItemsOk(items) && !p.failed && |Collect(p.data, Texts(items))| <= MAX_FRAME
    ensures AcceptAll(p, Raws(items), parse) == p.(data := Collect(p.data, Texts(items)))
    decreases |items|
  {
    hide Accept, Raw, ItemOk;
    if items == [] {
      assert Raws(items) == [];
    } else {
      var rest := items[1..];
      assert Raws(items)[1..] == Raws(rest);
      if items[0].Data? {
        var text := items[0].line.text;
        assert Texts(items) == [text] + Texts(rest) && Texts(items)[1..] == Texts(rest);
        CollectGrows(Add(p.data, text), Texts(rest));
        ItemIsLine(items[0]);
        DataAccepted(p, items[0].line, parse);
        ItemsAccepted(p.(data := Add(p.data, text)), rest, parse);
      } else {
        assert Texts(items) == Texts(rest);
        NoiseRaw(items[0]);
        NoiseIgnored(p, items[0].raw, parse);
        ItemsAccepted(p, rest, parse);
      }
    }
  }

  lemma ItemIsLine(item: Item)
    requires ItemOk(item) && item.Data?
    ensures LineOk(item.line) && item == Data(item.line)
  {
  }

  lemma NoiseRaw(item: Item)
    requires item.Noise?
    ensures Raw(item) == item.raw && item == Noise(item.raw)
  {
  }

  lemma BlankEnds<J>(p: Parser<J>, crlf: bool, parse: Str -> Option<J>)
    requires !p.failed
    ensures Accept(p, Blank(crlf), parse) == Parser([], p.out + Parsed([p.data], parse), false)
  {
    assert StripReturn(Blank(crlf)) == [];
    OneParsed(p.data, parse);
    assert p.out + [] == p.out;
  }

  lemma OneParsed<J>(content: Str, parse: Str -> Option<J>)
    ensures Parsed([content], parse) == if content != [] && parse(content).Some? then [parse(content).value] else []
  {
    assert [content][1..] == [];
    assert Parsed([], parse) == [];
  }

  lemma FrameAccepted<J>(out: seq<J>, f: Frame, parse: Str -> Option<J>)
    requires FrameOk(f)
    ensures AcceptAll(Parser([], out, false), FrameLines(f), parse)
         == Parser([], out + Parsed([Content(f.items)], parse), false)
  {
    hide Accept, Parsed, ItemsOk;
    CollectIsContent(Texts(f.items));
    ItemsAccepted(Parser([], out, false), f.items, parse);
    var p := Parser(Content(f.items), out, false);
    AcceptAppend(Parser([], out, false), Raws(f.items), [Blank(f.crlf)], parse);
    assert [Blank(f.crlf)][1..] == [];
    BlankEnds(p, f.crlf, parse);
    assert AcceptAll(p, [Blank(f.crlf)], parse) == AcceptAll(Accept(p, Blank(f.crlf), parse), [], parse);
  }

  lemma {:induction false} FramesAccepted<J>(out: seq<J>, fs: seq<Frame>, parse: Str -> Option<J>)
    requires forall i | 0 <= i < |fs| :: FrameOk(fs[i])
    ensures AcceptAll(Parser([], out, false), AllLines(fs), parse) == Parser([], out + Parsed(Contents(fs), parse), false)
    decreases |fs|
  {
    hide FrameOk, FrameLines, Content, AcceptAll, Parsed;
    if fs == [] {
      NothingAccepted(out, parse);
    } else {
      var first, rest := [Content(fs[0].items)], Contents(fs[1..]);
      FrameAccepted(out, fs[0], parse);
      AcceptAppend(Parser([], out, false), FrameLines(fs[0]), AllLines(fs[1..]), parse);
      FramesAccepted(out + Parsed(first, parse), fs[1..], parse);
      ParsedAppend(first, rest, parse);
      assert out + Parsed(first, parse) + Parsed(rest, parse) == out + (Parsed(first, parse) + Parsed(rest, parse));
    }
  }

  lemma NothingAccepted<J>(out: seq<J>, parse: Str -> Option<J>)
    ensures AcceptAll(Parser([], out, false), [], parse) == Parser([], out + Parsed([], parse), false)
  {
    assert out + [] == out;
  }

  lemma {:induction false} ParsedAppend<J>(a: seq<Str>, b: seq<Str>, parse: Str -> Option<J>)
    ensures Parsed(a + b, parse) == Parsed(a, parse) + Parsed(b, parse)
    decreases |a|
  {
    if a == [] {
      assert a + b == b;
    } else {
      assert (a + b)[1..] == a[1..] + b;
      ParsedAppend(a[1..], b, parse);
    }
  }

  /** The text of whole frames, then the lines of a last one without its blank line, then an unfinished line. */
  function Written(fs: seq<Frame>, last: seq<Item>, tail: Str): Str {
    Unlines(AllLines(fs) + Raws(last)) + tail
  }

  /** The reader yields exactly what was written: of each frame its joined data, of those that parse, in order,
      the last frame without its blank line included; other lines change nothing, and an unfinished line is dropped. */
  lemma FramesReadBack<J>(fs: seq<Frame>, last: seq<Item>, tail: Str, parse: Str -> Option<J>)
    requires (forall i | 0 <= i < |fs| :: FrameOk(fs[i])) && ItemsOk(last) && |Content(last)| <= MAX_FRAME
    requires LINE_FEED !in tail
    ensures Meaning(Written(fs, last, tail), parse) == (Parsed(Contents(fs) + [Content(last)], parse), false)
  {
    hide Parsed, Content, Lines, ItemsOk, Unlines;
    var lines := AllLines(fs) + Raws(last);
    WrittenLines(fs, last);
    LinesOfUnlines(lines, tail);
    var out := Parsed(Contents(fs), parse);
    FramesAccepted([], fs, parse);
    assert [] + out == out;
    AcceptAppend(Start(), AllLines(fs), Raws(last), parse);
    LastAccepted(out, last, parse);
    OneParsed(Content(last), parse);
    ParsedAppend(Contents(fs), [Content(last)], parse);
    assert out + [] == out;
  }

  lemma LastAccepted<J>(out: seq<J>, last: seq<Item>, parse: Str -> Option<J>)
    requires ItemsOk(last) && |Content(last)| <= MAX_FRAME
    ensures AcceptAll(Parser([], out, false), Raws(last), parse) == Parser(Content(last), out, false)
  {
    hide Accept, ItemsOk;
    CollectIsContent(Texts(last));
    ItemsAccepted(Parser([], out, false), last, parse);
  }

  lemma WrittenLines(fs: seq<Frame>, last: seq<Item>)
    requires (forall i | 0 <= i < |fs| :: FrameOk(fs[i])) && ItemsOk(last)
    ensures forall i | 0 <= i < |AllLines(fs) + Raws(last)| :: LINE_FEED !in (AllLines(fs) + Raws(last))[i]
  {
    AllLinesAreLines(fs);
    forall i | 0 <= i < |last| ensures LINE_FEED !in Raw(last[i]) { RawHasNoLineFeed(last[i]); }
    forall i | 0 <= i < |AllLines(fs) + Raws(last)| ensures LINE_FEED !in (AllLines(fs) + Raws(last))[i] {
      if i < |AllLines(fs)| { assert AllLines(fs)[i] in AllLines(fs); }
    }
  }

  /** However it is cut, a written text within the limits is read back as its frames. */
  method ReadFrames<J>(chunks: seq<Chunk>, fs: seq<Frame>, last: seq<Item>, tail: Str, parse: Str -> Option<J>)
    returns (out: seq<J>, failed: bool)
    requires (forall i | 0 <= i < |fs| :: FrameOk(fs[i])) && ItemsOk(last) && |Content(last)| <= MAX_FRAME
    requires LINE_FEED !in tail && Concat(chunks) == Written(fs, last, tail)
    requires LinesWithin(Concat(chunks)) && TotalBytes(chunks) <= MAX_TOTAL
    ensures !failed && out == Parsed(Contents(fs) + [Content(last)], parse)
  {
    AnyCutFits(chunks);
    FramesReadBack(fs, last, tail, parse);
    out, failed := SseEnvelopes(chunks, parse);
  }
}
