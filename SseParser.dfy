/**
 * The client-side incremental parser of the event stream
 * (`createSSEParser` / `parse`). The parser keeps the unterminated tail of the
 * text seen so far in `buffer`, prepends it to each new chunk, splits the
 * result at newlines, keeps the new tail and decodes every complete line.
 */
module SseParser {
  import opened JsValues
  import opened Strings
  import opened Protocol

  /**
   * The decoding of one complete line: nothing for noise, the done message for
   * the sentinel, an error message for a payload `JSON.parse` rejects, the
   * decoded value when its `type` is a message type, nothing otherwise.
   * A payload that decodes to `null` makes reading `.type` throw inside the
   * `try`, so it yields the error message as well.
   */
  function DecodeLine(fr: Framing, rt: Runtime, line: string): (r: Option<Json>)
    ensures r.Some? ==> StartsWith(Trim(line), fr.prefix) && Trim(line) != ""
    ensures r.Some? ==> HasMessageType(r.value)
    ensures StartsWith(Trim(line), fr.prefix) && Trim(line) != "" ==>
      var data := Trim(line)[|fr.prefix|..];
      && (data == fr.doneToken ==> r == Some(DoneSentinelMessage()))
      && (data != fr.doneToken && rt.parse(data).None? ==> r == Some(ParseErrorMessage()))
      && (data != fr.doneToken && rt.parse(data) == Some(JNull) ==> r == Some(ParseErrorMessage()))
      && (data != fr.doneToken && rt.parse(data).Some? && rt.parse(data).value != JNull ==>
            r == (if HasMessageType(rt.parse(data).value) then rt.parse(data) else None))
  {
    var trimmed := Trim(line);
    if trimmed == "" || !StartsWith(trimmed, fr.prefix) then None
    else
      var data := trimmed[|fr.prefix|..];
      if data == fr.doneToken then Some(DoneSentinelMessage())
      else match rt.parse(data)
        case None => Some(ParseErrorMessage())
        case Some(parsed) =>
          if parsed == JNull then Some(ParseErrorMessage())
          else if HasMessageType(parsed) then Some(parsed)
          else None
  }

  /** `lines.map(decode).filter(m => m !== null)` */
  function DecodeLines(fr: Framing, rt: Runtime, ls: seq<string>): (r: seq<Json>)
    ensures |r| <= |ls|
    ensures forall i :: 0 <= i < |r| ==> HasMessageType(r[i])
    decreases |ls|
  {
    if ls == [] then []
    else
      var head := DecodeLine(fr, rt, ls[0]);
      (if head.Some? then [head.value] else []) + DecodeLines(fr, rt, ls[1..])
  }

  /** Decoding distributes over a concatenation of line sequences (order is kept). */
  lemma {:induction false} DecodeLinesAppend(fr: Framing, rt: Runtime, a: seq<string>, b: seq<string>)
    ensures DecodeLines(fr, rt, a + b) == DecodeLines(fr, rt, a) + DecodeLines(fr, rt, b)
    decreases |a|
  {
    if a == [] {
      assert a + b == b;
    } else {
      assert (a + b)[0] == a[0];
      assert (a + b)[1..] == a[1..] + b;
      DecodeLinesAppend(fr, rt, a[1..], b);
    }
  }

  /** One call of `parse` as a function of the buffer and the chunk: (messages, new buffer). */
  function ParseStep(fr: Framing, rt: Runtime, buffer: string, chunk: string): (seq<Json>, string) {
    (DecodeLines(fr, rt, Lines(buffer + chunk)), Rest(buffer + chunk))
  }

  /** Successive calls of `parse`, concatenating the messages they return. */
  function ParseChunks(fr: Framing, rt: Runtime, buffer: string, chunks: seq<string>): (seq<Json>, string)
    decreases |chunks|
  {
    if chunks == [] then ([], buffer)
    else
      var (m1, b1) := ParseStep(fr, rt, buffer, chunks[0]);
      var (m2, b2) := ParseChunks(fr, rt, b1, chunks[1..]);
      (m1 + m2, b2)
  }

  function Concat(chunks: seq<string>): string
    decreases |chunks|
  {
    if chunks == [] then "" else chunks[0] + Concat(chunks[1..])
  }

  /**
   * Chunk boundaries do not matter: parsing `a` then `b` returns the same
   * messages, in the same order, and leaves the same buffer as parsing `a + b`.
   */
  lemma ChunkBoundaryInvariance(fr: Framing, rt: Runtime, buffer: string, a: string, b: string)
    ensures
      var (m1, b1) := ParseStep(fr, rt, buffer, a);
      var (m2, b2) := ParseStep(fr, rt, b1, b);
      ParseStep(fr, rt, buffer, a + b) == (m1 + m2, b2)
  {
    var x := buffer + a;
    assert buffer + (a + b) == x + b;
    SplitAppend(x, b);
    DecodeLinesAppend(fr, rt, Lines(x), Lines(Rest(x) + b));
  }

  /** Any split of a text into chunks parses like the whole text. */
  lemma {:induction false} ParseChunksIsParseOfConcat(fr: Framing, rt: Runtime, buffer: string, chunks: seq<string>)
    requires NoNewline(buffer)
    ensures ParseChunks(fr, rt, buffer, chunks) == ParseStep(fr, rt, buffer, Concat(chunks))
    decreases |chunks|
  {
    if chunks == [] {
      assert buffer + "" == Terminated([]) + buffer;
      SplitOfLayout([], buffer);
    } else {
      var (m1, b1) := ParseStep(fr, rt, buffer, chunks[0]);
      SplitLayout(buffer + chunks[0]);
      ParseChunksIsParseOfConcat(fr, rt, b1, chunks[1..]);
      ChunkBoundaryInvariance(fr, rt, buffer, chunks[0], Concat(chunks[1..]));
    }
  }

  // ---------------------------------------------------------------------------
  // Frames written by the server are read back by the parser.

  lemma {:induction false} BlankPieces(ls: seq<string>, r: string)
    requires AllWhitespace(Terminated(ls) + r)
    ensures forall i :: 0 <= i < |ls| ==> AllWhitespace(ls[i])
    ensures AllWhitespace(r)
    decreases |ls|
  {
    if ls == [] {
      assert Terminated(ls) + r == r;
    } else {
      var t := Terminated(ls) + r;
      assert t == ls[0] + ("\n" + (Terminated(ls[1..]) + r));
      assert forall k :: 0 <= k < |ls[0]| ==> t[k] == ls[0][k];
      var tail := Terminated(ls[1..]) + r;
      assert forall k :: 0 <= k < |tail| ==> t[|ls[0]| + 1 + k] == tail[k];
      BlankPieces(ls[1..], r);
    }
  }

  lemma {:induction false} DecodeBlankLines(fr: Framing, rt: Runtime, ls: seq<string>)
    requires forall i :: 0 <= i < |ls| ==> AllWhitespace(ls[i])
    ensures DecodeLines(fr, rt, ls) == []
    decreases |ls|
  {
    if ls != [] {
      TrimBlank(ls[0]);
      DecodeBlankLines(fr, rt, ls[1..]);
    }
  }

  predicate Blank(s: string) {
    AllWhitespace(s) && NoNewline(s)
  }

  /** From a blank buffer, one frame yields exactly its message and leaves a blank buffer. */
  lemma OneFrame(fr: Framing, rt: Runtime, w: string, m: Json)
    requires WellFormed(fr) && Transmissible(fr, rt, m) && Blank(w)
    ensures ParseStep(fr, rt, w, Frame(fr, rt, m)).0 == [m]
    ensures Blank(ParseStep(fr, rt, w, Frame(fr, rt, m)).1)
  {
    var e := rt.stringify(m);
    var p, d := fr.prefix, fr.delimiter;
    var line := w + p + e;
    var d' := d[1..];
    assert d == "\n" + d';
    assert w + Frame(fr, rt, m) == line + "\n" + d';
    assert NoNewline(line) by {
      assert forall k :: 0 <= k < |line| ==> line[k] == (if k < |w| then w[k] else if k < |w| + |p| then p[k - |w|] else e[k - |w| - |p|]);
    }
    SplitAfterLine(line, d');
    assert Lines(w + Frame(fr, rt, m)) == [line] + Lines(d');
    assert Rest(w + Frame(fr, rt, m)) == Rest(d');
    // the frame's line decodes to m
    assert (p + e)[0] == p[0] && (p + e)[|p + e| - 1] == e[|e| - 1];
    assert line == w + (p + e);
    TrimPadded(w, p + e);
    assert (p + e)[..|p|] == p && (p + e)[|p|..] == e;
    assert DecodeLine(fr, rt, line) == Some(m);
    // the rest of the delimiter is blank
    SplitLayout(d');
    assert forall k :: 0 <= k < |d'| ==> d'[k] == d[k + 1];
    BlankPieces(Lines(d'), Rest(d'));
    DecodeBlankLines(fr, rt, Lines(d'));
    DecodeLinesAppend(fr, rt, [line], Lines(d'));
  }

  /**
   * Round trip: whatever the chunking of the text of a sequence of frames, the
   * parser returns exactly the framed messages, in order.
   */
  lemma {:induction false} WireRoundTrip(fr: Framing, rt: Runtime, w: string, ms: seq<Json>)
    requires WellFormed(fr) && Blank(w)
    requires forall i :: 0 <= i < |ms| ==> Transmissible(fr, rt, ms[i])
    ensures ParseStep(fr, rt, w, Wire(fr, rt, ms)).0 == ms
    ensures Blank(ParseStep(fr, rt, w, Wire(fr, rt, ms)).1)
    decreases |ms|
  {
    if ms == [] {
      assert w + "" == Terminated([]) + w;
      SplitOfLayout([], w);
    } else {
      OneFrame(fr, rt, w, ms[0]);
      var (m1, b1) := ParseStep(fr, rt, w, Frame(fr, rt, ms[0]));
      WireRoundTrip(fr, rt, b1, ms[1..]);
      ChunkBoundaryInvariance(fr, rt, w, Frame(fr, rt, ms[0]), Wire(fr, rt, ms[1..]));
      assert [ms[0]] + ms[1..] == ms;
    }
  }

  lemma ReassembleAnyChunking(fr: Framing, rt: Runtime, chunks: seq<string>, ms: seq<Json>)
    requires WellFormed(fr)
    requires forall i :: 0 <= i < |ms| ==> Transmissible(fr, rt, ms[i])
    requires Concat(chunks) == Wire(fr, rt, ms)
    ensures ParseChunks(fr, rt, "", chunks).0 == ms
  {
    ParseChunksIsParseOfConcat(fr, rt, "", chunks);
    WireRoundTrip(fr, rt, "", ms);
  }

  // ---------------------------------------------------------------------------
  // The parser object

  /** The object `createSSEParser()` returns, with its captured `buffer`. */
  class SSEParser {
    const framing: Framing
    const rt: Runtime
    var buffer: string

    constructor (framing: Framing, rt: Runtime)
      ensures this.framing == framing && this.rt == rt && buffer == ""
    {
      this.framing := framing;
      this.rt := rt;
      buffer := "";
    }

    /**
     * `parse(chunk)`: the messages of the complete lines of buffer + chunk; the
     * new buffer is the text after its last newline.
     */
    method Parse(chunk: string) returns (messages: seq<Json>)
      modifies this
      ensures buffer == Rest(old(buffer) + chunk)
      ensures messages == DecodeLines(framing, rt, Lines(old(buffer) + chunk))
      ensures old(buffer) + chunk == Terminated(Lines(old(buffer) + chunk)) + buffer
      ensures NoNewline(buffer)
      ensures |messages| <= |Lines(old(buffer) + chunk)|
    {
      var text := buffer + chunk;
      SplitLayout(text);
      var lines := Split(text);
      buffer := lines[|lines| - 1];
      messages := DecodeLines(framing, rt, lines[..|lines| - 1]);
    }
  }
}
