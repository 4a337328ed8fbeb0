/** The incremental reader of the OpenCode event stream, and why chunk boundaries do not matter. */
module Sse {
  import opened Managed
  import opened Text

  const MAX_FRAME: nat := 256 * 1024
  const MAX_TOTAL: nat := 8 * 1024 * 1024

  /** `data:` */
  const DATA: Str := [0x64, 0x61, 0x74, 0x61, 0x3A]

  /** One read from the network: its decoded text and its length in bytes. */
  datatype Chunk = Chunk(text: Str, bytes: nat)

  function Concat(chunks: seq<Chunk>): Str {
    if chunks == [] then [] else Concat(chunks[..|chunks| - 1]) + chunks[|chunks| - 1].text
  }

  function TotalBytes(chunks: seq<Chunk>): nat {
    if chunks == [] then 0 else TotalBytes(chunks[..|chunks| - 1]) + chunks[|chunks| - 1].bytes
  }

  // ---------- What a stream of text means ----------

  function IndexOf(t: Str, u: Unit): (n: nat)
    requires u in t
    ensures n < |t| && t[n] == u && forall i | 0 <= i < n :: t[i] != u
  {
    if t[0] == u then 0 else 1 + IndexOf(t[1..], u)
  }

  /** The lines that have been completed by a line feed. */
  function Lines(t: Str): seq<Str>
    decreases |t|
  {
    if LINE_FEED !in t then []
    else var n := IndexOf(t, LINE_FEED); [t[..n]] + Lines(t[n + 1..])
  }

  /** The unfinished last line. */
  function Tail(t: Str): Str
    decreases |t|
  {
    if LINE_FEED !in t then t else Tail(t[IndexOf(t, LINE_FEED) + 1..])
  }

  function StripReturn(line: Str): Str {
    if line != [] && line[|line| - 1] == CARRIAGE_RETURN then line[..|line| - 1] else line
  }

  /** The frame being collected, the envelopes yielded so far, and whether a frame outgrew the limit. */
  datatype Parser<J> = Parser(data: Str, out: seq<J>, failed: bool)

  function Yield<J>(p: Parser<J>, parse: Str -> Option<J>): seq<J> {
    if parse(p.data).Some? then p.out + [parse(p.data).value] else p.out
  }

  function AddData(data: Str, line: Str): Str
    requires DATA <= line
  {
    var rest := line[5..];
    (if data != [] then data + [LINE_FEED] else data) + (if rest != [] && rest[0] == SPACE then rest[1..] else rest)
  }

  function Accept<J>(p: Parser<J>, raw: Str, parse: Str -> Option<J>): Parser<J> {
    var line := StripReturn(raw);
    if p.failed then p
    else if DATA <= line then p.(data := AddData(p.data, line), failed := |AddData(p.data, line)| > MAX_FRAME)
    else if line == [] && p.data != [] then Parser([], Yield(p, parse), false)
    else p
  }

  function AcceptAll<J>(p: Parser<J>, lines: seq<Str>, parse: Str -> Option<J>): Parser<J>
    decreases |lines|
  {
    if lines == [] then p else AcceptAll(Accept(p, lines[0], parse), lines[1..], parse)
  }

  function Start<J>(): Parser<J> {
    Parser([], [], false)
  }

  /** What the whole text yields: a last frame is flushed at the end, but an unfinished last line is dropped. */
  function Meaning<J>(text: Str, parse: Str -> Option<J>): (seq<J>, bool) {
    var p := AcceptAll(Start(), Lines(text), parse);
    (if !p.failed && p.data != [] then Yield(p, parse) else p.out, p.failed)
  }

  // ---------- Splitting commutes with concatenation ----------

  /** Taking the first line off. */
  lemma FirstLine(t: Str, n: nat)
    requires n < |t| && t[n] == LINE_FEED && forall i | 0 <= i < n :: t[i] != LINE_FEED
    ensures Lines(t) == [t[..n]] + Lines(t[n + 1..]) && Tail(t) == Tail(t[n + 1..])
  {
    hide IndexOf;
    FirstIndex(t, LINE_FEED, n);
  }

  lemma NoLine(t: Str)
    requires LINE_FEED !in t
    ensures Lines(t) == [] && Tail(t) == t
  {
  }

  lemma {:induction false} SplitAppend(a: Str, b: Str)
    ensures Lines(a + b) == Lines(a) + Lines(Tail(a) + b)
    ensures Tail(a + b) == Tail(Tail(a) + b)
    decreases |a|
  {
    hide IndexOf, Lines, Tail;
    if LINE_FEED in a {
      var n := IndexOf(a, LINE_FEED);
      FirstLine(a, n);
      assert (a + b)[..n] == a[..n];
      assert forall i | 0 <= i < n :: (a + b)[i] == a[i];
      FirstLine(a + b, n);
      assert (a + b)[n + 1..] == a[n + 1..] + b;
      SplitAppend(a[n + 1..], b);
    } else {
      NoLine(a);
    }
  }

  lemma FirstIndex(t: Str, u: Unit, n: nat)
    requires n < |t| && t[n] == u && forall i | 0 <= i < n :: t[i] != u
    ensures u in t && IndexOf(t, u) == n
  {
    var m := IndexOf(t, u);
    assert t[m] == u;
  }

  lemma {:induction false} TailHasNoLineFeed(t: Str)
    ensures LINE_FEED !in Tail(t)
    decreases |t|
  {
    if LINE_FEED in t { TailHasNoLineFeed(t[IndexOf(t, LINE_FEED) + 1..]); }
  }

  lemma {:induction false} AcceptAppend<J>(p: Parser<J>, a: seq<Str>, b: seq<Str>, parse: Str -> Option<J>)
    ensures AcceptAll(p, a + b, parse) == AcceptAll(AcceptAll(p, a, parse), b, parse)
    decreases |a|
  {
    if a == [] {
      assert a + b == b;
    } else {
      assert (a + b)[1..] == a[1..] + b;
      AcceptAppend(Accept(p, a[0], parse), a[1..], b, parse);
    }
  }

  lemma {:induction false} FailureSticks<J>(p: Parser<J>, lines: seq<Str>, parse: Str -> Option<J>)
    requires p.failed
    ensures AcceptAll(p, lines, parse) == p
  {
    if lines != [] { FailureSticks(Accept(p, lines[0], parse), lines[1..], parse); }
  }

  lemma {:induction false} OutputGrows<J>(p: Parser<J>, lines: seq<Str>, parse: Str -> Option<J>)
    ensures p.out <= AcceptAll(p, lines, parse).out
    decreases |lines|
  {
    if lines != [] { OutputGrows(Accept(p, lines[0], parse), lines[1..], parse); }
  }

  // ---------- The limits ----------

  /** The stream stays within both limits as it is cut: its length, and the unfinished line after each read. */
  ghost predicate Within(chunks: seq<Chunk>) {
    && TotalBytes(chunks) <= MAX_TOTAL
    && forall k | 0 <= k <= |chunks| :: |Tail(Concat(chunks[..k]))| <= MAX_FRAME
  }

  ghost predicate LinesWithin(t: Str) {
    (forall line | line in Lines(t) :: |line| <= MAX_FRAME) && |Tail(t)| <= MAX_FRAME
  }

  /** Where a text is cut, the unfinished line is the beginning of one of its lines. */
  lemma {:induction false} CutLineFits(a: Str, b: Str)
    requires LinesWithin(a + b)
    ensures |Tail(a)| <= MAX_FRAME
  {
    SplitAppend(a, b);
    TailHasNoLineFeed(a);
    var t := Tail(a) + b;
    if LINE_FEED in t {
      var n := IndexOf(t, LINE_FEED);
      assert forall i | 0 <= i < |Tail(a)| :: t[i] == Tail(a)[i] && t[i] != LINE_FEED;
      assert Lines(t)[0] in Lines(a + b);
    }
  }

  lemma {:induction false} ConcatSplit(chunks: seq<Chunk>, k: nat)
    requires k <= |chunks|
    ensures Concat(chunks) == Concat(chunks[..k]) + Concat(chunks[k..])
    decreases |chunks|
  {
    if k == |chunks| {
      assert chunks[..k] == chunks;
    } else {
      var shorter := chunks[..|chunks| - 1];
      ConcatSplit(shorter, k);
      assert shorter[..k] == chunks[..k];
      assert chunks[k..][..|chunks[k..]| - 1] == shorter[k..];
    }
  }

  /** If the text's own lines fit, every way of cutting it fits. */
  lemma AnyCutFits(chunks: seq<Chunk>)
    requires TotalBytes(chunks) <= MAX_TOTAL && LinesWithin(Concat(chunks))
    ensures Within(chunks)
  {
    forall k | 0 <= k <= |chunks| ensures |Tail(Concat(chunks[..k]))| <= MAX_FRAME {
      ConcatSplit(chunks, k);
      CutLineFits(Concat(chunks[..k]), Concat(chunks[k..]));
    }
  }

  // ---------- The reader ----------

  /** After `k` clean reads the reader holds the unfinished line and the parse of every finished one. */
  ghost predicate ReadSoFar<J>(chunks: seq<Chunk>, k: nat, buffer: Str, p: Parser<J>, parse: Str -> Option<J>)
    requires k <= |chunks|
  {
    && buffer == Tail(Concat(chunks[..k]))
    && p == AcceptAll(Start(), Lines(Concat(chunks[..k])), parse)
    && !p.failed
  }

  lemma {:induction false} StopsEarly<J>(chunks: seq<Chunk>, k: nat, p: Parser<J>, parse: Str -> Option<J>)
    requires k <= |chunks| && p == AcceptAll(Start(), Lines(Concat(chunks[..k])), parse)
    ensures p.failed ==> AcceptAll(Start(), Lines(Concat(chunks)), parse) == p
    ensures p.out <= Meaning(Concat(chunks), parse).0
  {
    ConcatSplit(chunks, k);
    var a, b := Concat(chunks[..k]), Concat(chunks[k..]);
    SplitAppend(a, b);
    AcceptAppend(Start(), Lines(a), Lines(Tail(a) + b), parse);
    OutputGrows(p, Lines(Tail(a) + b), parse);
    if p.failed { FailureSticks(p, Lines(Tail(a) + b), parse); }
  }

  lemma {:induction false} BytesGrow(chunks: seq<Chunk>, k: nat)
    requires k <= |chunks|
    ensures TotalBytes(chunks[..k]) <= TotalBytes(chunks)
    decreases |chunks|
  {
    if k < |chunks| {
      BytesGrow(chunks[..|chunks| - 1], k);
      assert chunks[..|chunks| - 1][..k] == chunks[..k];
    } else {
      assert chunks[..k] == chunks;
    }
  }

  /** The inner loop: take every finished line off the buffer, stopping at a frame that outgrows the limit. */
  method DrainLines<J>(start: Str, p: Parser<J>, parse: Str -> Option<J>)
    returns (buffer: Str, data: Str, out: seq<J>, failed: bool)
    requires !p.failed
    ensures Parser(data, out, failed) == AcceptAll(p, Lines(start), parse)
    ensures !failed ==> buffer == Tail(start)
  {
    buffer, data, out, failed := start, p.data, p.out, false;
    while LINE_FEED in buffer
      invariant AcceptAll(p, Lines(start), parse) == AcceptAll(Parser(data, out, false), Lines(buffer), parse)
      invariant Tail(start) == Tail(buffer)
      decreases |buffer|
    {
      ghost var before := Parser(data, out, false);
      var newline := IndexOf(buffer, LINE_FEED);
      ghost var raw := buffer[..newline];
      var line := StripReturn(buffer[..newline]);
      buffer := buffer[newline + 1..];
      assert ([raw] + Lines(buffer))[1..] == Lines(buffer);
      if DATA <= line {
        data := AddData(data, line);
        if |data| > MAX_FRAME {
          FailureSticks(Parser(data, out, true), Lines(buffer), parse);
          return buffer, data, out, true;
        }
      } else if line == [] && data != [] {
        if parse(data).Some? { out := out + [parse(data).value]; }
        data := [];
      }
      assert Parser(data, out, false) == Accept(before, raw, parse);
    }
  }

  /** One more chunk on top of a clean prefix. */
  lemma {:induction false} NextChunk<J>(chunks: seq<Chunk>, k: nat, buffer: Str, p: Parser<J>, parse: Str -> Option<J>)
    requires k < |chunks| && ReadSoFar(chunks, k, buffer, p, parse)
    ensures Tail(Concat(chunks[..k + 1])) == Tail(buffer + chunks[k].text)
    ensures AcceptAll(Start(), Lines(Concat(chunks[..k + 1])), parse) == AcceptAll(p, Lines(buffer + chunks[k].text), parse)
  {
    assert chunks[..k + 1][..k] == chunks[..k];
    SplitAppend(Concat(chunks[..k]), chunks[k].text);
    AcceptAppend(Start(), Lines(Concat(chunks[..k])), Lines(buffer + chunks[k].text), parse);
  }

  lemma WithinNext(chunks: seq<Chunk>, k: nat)
    requires k < |chunks|
    ensures Within(chunks[..k + 1]) <==>
      Within(chunks[..k]) && TotalBytes(chunks[..k + 1]) <= MAX_TOTAL && |Tail(Concat(chunks[..k + 1]))| <= MAX_FRAME
  {
    var a, b := chunks[..k], chunks[..k + 1];
    assert b[..k] == a && b[..k + 1] == b;
    assert forall i | 0 <= i <= k :: a[..i] == b[..i];
    BytesGrow(b, k);
  }

  lemma {:induction false} WithinPrefix(chunks: seq<Chunk>, k: nat)
    requires k <= |chunks| && Within(chunks)
    ensures Within(chunks[..k])
  {
    BytesGrow(chunks, k);
    assert forall i | 0 <= i <= k :: chunks[..k][..i] == chunks[..i];
  }

  /**
   The stream reader.  It fails exactly when a frame outgrows the limit or the stream, as cut, exceeds a limit;
   within the limits, what it yields is a function of the text alone, failing or not.
   */
  method SseEnvelopes<J>(chunks: seq<Chunk>, parse: Str -> Option<J>) returns (out: seq<J>, failed: bool)
    ensures failed <==> Fails(chunks, parse)
    ensures Within(chunks) ==> out == Meaning(Concat(chunks), parse).0
    ensures out <= Meaning(Concat(chunks), parse).0
  {
    var buffer: Str, data: Str, totalBytes := [], [], 0;
    out := [];
    for k := 0 to |chunks|
      invariant ReadSoFar(chunks, k, buffer, Parser(data, out, false), parse)
      invariant totalBytes == TotalBytes(chunks[..k]) && Within(chunks[..k])
    {
      assert chunks[..k + 1][..k] == chunks[..k];
      StopsEarly(chunks, k, Parser(data, out, false), parse);
      WithinNext(chunks, k);
      totalBytes := totalBytes + chunks[k].bytes;
      if totalBytes > MAX_TOTAL {
        BytesGrow(chunks, k + 1);
        return out, true;
      }
      NextChunk(chunks, k, buffer, Parser(data, out, false), parse);
      buffer, data, out, failed := DrainLines(buffer + chunks[k].text, Parser(data, out, false), parse);
      StopsEarly(chunks, k + 1, Parser(data, out, failed), parse);
      if failed { return out, true; }
      if |buffer| > MAX_FRAME {
        if Within(chunks) { WithinPrefix(chunks, k + 1); }
        return out, true;
      }
    }
    assert chunks[..|chunks|] == chunks;
    if data != [] && parse(data).Some? { out := out + [parse(data).value]; }
    failed := false;
  }

  /** Two cuts of the same text, if its lines and its length are within the limits, are read alike:
      the same envelopes, and the same failure if a frame outgrows the limit. */
  method ReadBothCuts<J>(a: seq<Chunk>, b: seq<Chunk>, parse: Str -> Option<J>)
    returns (fromA: seq<J>, failedA: bool, fromB: seq<J>, failedB: bool)
    requires Concat(a) == Concat(b) && LinesWithin(Concat(a))
    requires TotalBytes(a) <= MAX_TOTAL && TotalBytes(b) <= MAX_TOTAL
    ensures fromA == fromB && failedA == failedB
  {
    AnyCutFits(a);
    AnyCutFits(b);
    fromA, failedA := SseEnvelopes(a, parse);
    fromB, failedB := SseEnvelopes(b, parse);
  }

  // ---------- Exactly when cutting shows ----------

  /** Whether the reader fails on these chunks. */
  ghost predicate Fails<J>(chunks: seq<Chunk>, parse: Str -> Option<J>) {
    Meaning(Concat(chunks), parse).1 || !Within(chunks)
  }

  ghost predicate IsCut(chunks: seq<Chunk>, t: Str, total: nat) {
    Concat(chunks) == t && TotalBytes(chunks) == total
  }

  /** All cuts of a text of so many bytes fail, or none does. */
  ghost predicate CutsAgree<J>(t: Str, total: nat, parse: Str -> Option<J>) {
    forall a: seq<Chunk>, b: seq<Chunk> | IsCut(a, t, total) && IsCut(b, t, total) :: Fails(a, parse) <==> Fails(b, parse)
  }

  /** A text whose own lines fit, or that is refused however it arrives: it holds a frame beyond the limit,
      or its unfinished last line is beyond it. */
  ghost predicate CutBlind<J>(t: Str, parse: Str -> Option<J>) {
    LinesWithin(t) || Meaning(t, parse).1 || |Tail(t)| > MAX_FRAME
  }

  lemma BlindCutsAgree<J>(t: Str, parse: Str -> Option<J>, a: seq<Chunk>, b: seq<Chunk>)
    requires CutBlind(t, parse) && Concat(a) == t && Concat(b) == t
    requires TotalBytes(a) <= MAX_TOTAL && TotalBytes(b) <= MAX_TOTAL
    ensures Fails(a, parse) <==> Fails(b, parse)
  {
    if LinesWithin(t) {
      AnyCutFits(a);
      AnyCutFits(b);
    } else if |Tail(t)| > MAX_FRAME {
      assert a[..|a|] == a && b[..|b|] == b;
    }
  }

  /** A line beyond the limit can be cut at its end. */
  lemma {:induction false} LongLineCut(t: Str) returns (k: nat)
    requires exists line :: line in Lines(t) && |line| > MAX_FRAME
    ensures k <= |t| && |Tail(t[..k])| > MAX_FRAME
    decreases |t|
  {
    hide Lines, Tail, IndexOf;
    var line :| line in Lines(t) && |line| > MAX_FRAME;
    assert LINE_FEED in t by { if LINE_FEED !in t { NoLine(t); } }
    var n := IndexOf(t, LINE_FEED);
    FirstLine(t, n);
    if |t[..n]| > MAX_FRAME {
      k := n;
      NoLine(t[..n]);
    } else {
      var rest := t[n + 1..];
      assert line in Lines(rest);
      var k' := LongLineCut(rest);
      k := n + 1 + k';
      assert t[..k][n + 1..] == rest[..k'] && t[..k][n] == LINE_FEED;
      FirstLine(t[..k], n);
    }
  }

  /** Where the text's lines do not fit and nothing else refuses it, arriving whole passes and some cut fails. */
  lemma LongLineShowsTheCut<J>(t: Str, total: nat, parse: Str -> Option<J>)
    requires !CutBlind(t, parse) && total <= MAX_TOTAL
    ensures exists a: seq<Chunk>, b: seq<Chunk> ::
      IsCut(a, t, total) && IsCut(b, t, total) && !Fails(a, parse) && Fails(b, parse)
  {
    hide Within, Concat, TotalBytes, Tail, Lines, Meaning;
    var k := LongLineCut(t);
    var late := if |t[k..]| <= total then |t[k..]| else 0;
    var whole, first, last := Chunk(t, total), Chunk(t[..k], total - late), Chunk(t[k..], late);
    OneChunk(whole);
    TwoChunks(first, last);
    assert t[..k] + t[k..] == t;
    assert IsCut([whole], t, total) && IsCut([first, last], t, total);
    assert !Fails([whole], parse) && Fails([first, last], parse);
  }

  /** Failure is independent of how a text is cut if and only if its lines fit, a frame of it is beyond the limit,
      or its unfinished last line is. */
  lemma CutsAgreeExactly<J>(t: Str, total: nat, parse: Str -> Option<J>)
    requires total <= MAX_TOTAL
    ensures CutsAgree(t, total, parse) <==> CutBlind(t, parse)
  {
    hide Fails, CutBlind;
    if CutBlind(t, parse) {
      forall a: seq<Chunk>, b: seq<Chunk> | IsCut(a, t, total) && IsCut(b, t, total)
        ensures Fails(a, parse) <==> Fails(b, parse)
      {
        BlindCutsAgree(t, parse, a, b);
      }
    } else {
      LongLineShowsTheCut(t, total, parse);
    }
  }

  /** An instance: a long line that is no `data:` line passes when it arrives whole, and fails when its end is cut off. */
  lemma LongLinesDependOnTheCut<J>(line: Str, bytes: nat, parse: Str -> Option<J>)
    requires LINE_FEED !in line && |line| > MAX_FRAME && !(DATA <= line) && bytes + 1 <= MAX_TOTAL
    ensures !Fails([Chunk(line + [LINE_FEED], bytes + 1)], parse)
    ensures Fails([Chunk(line, bytes), Chunk([LINE_FEED], 1)], parse)
    ensures Concat([Chunk(line, bytes), Chunk([LINE_FEED], 1)]) == Concat([Chunk(line + [LINE_FEED], bytes + 1)])
  {
    hide Within, Concat, TotalBytes, Tail, Meaning;
    var whole, first, last := Chunk(line + [LINE_FEED], bytes + 1), Chunk(line, bytes), Chunk([LINE_FEED], 1);
    OneChunk(whole);
    TwoChunks(first, last);
    EndOfLine(line);
    PlainLineIsIgnored(line, parse);
  }

  lemma PlainLineIsIgnored<J>(line: Str, parse: Str -> Option<J>)
    requires LINE_FEED !in line && !(DATA <= line) && |line| > 1
    ensures Meaning(line + [LINE_FEED], parse) == ([], false)
  {
    var t := line + [LINE_FEED];
    FirstLine(t, |line|);
    NoLine(t[|line| + 1..]);
    assert t[..|line|] == line;
    assert Lines(t) == [line];
    assert !(DATA <= StripReturn(line)) && StripReturn(line) != [];
    var p: Parser<J> := Start();
    assert Accept(p, line, parse) == p;
    assert [line][1..] == [] && AcceptAll(p, [], parse) == p;
    assert AcceptAll(p, [line], parse) == p;
  }

  lemma EndOfLine(line: Str)
    requires LINE_FEED !in line
    ensures Tail(line) == line && Tail(line + [LINE_FEED]) == []
  {
    FirstIndex(line + [LINE_FEED], LINE_FEED, |line|);
  }

  lemma TwoChunks(c: Chunk, d: Chunk)
    ensures Concat([c, d]) == c.text + d.text && TotalBytes([c, d]) == c.bytes + d.bytes
    ensures |Tail(c.text)| > MAX_FRAME ==> !Within([c, d])
  {
    hide Tail;
    OneChunk(c);
    assert [c, d][..1] == [c];
  }

  lemma OneChunk(c: Chunk)
    ensures Concat([c]) == c.text && TotalBytes([c]) == c.bytes
    ensures Within([c]) <==> c.bytes <= MAX_TOTAL && |Tail(c.text)| <= MAX_FRAME
  {
    assert [c][..0] == [] && [c][..1] == [c];
    assert Concat([]) == [] && Tail([]) == [];
  }
}
