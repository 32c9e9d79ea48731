/** The stream observer of src/proxy/stream.rs: a line reassembler that works in place on
    whatever chunks arrive, and the fold over whole lines it must agree with.

    It reads a subset of the event-stream format of the WHATWG HTML Living Standard, sections
    9.2.5 and 9.2.6: lines end at LF, one CR before it is dropped, a lone CR is an ordinary byte. */
module SseObserver {
  import opened Common

  newtype byte = x: int | 0 <= x < 256

  type Bytes = seq<byte>

  const BUFFER_CAP: nat := 64 * 1024
  const LF: byte := 10
  const CR: byte := 13

  const COLON: Bytes := [58]
  const EVENT: Bytes := [101, 118, 101, 110, 116, 58]
  const ID: Bytes := [105, 100, 58]
  const RETRY: Bytes := [114, 101, 116, 114, 121, 58]
  const DATA: Bytes := [100, 97, 116, 97, 58]
  const DATA_SPACE: Bytes := [100, 97, 116, 97, 58, 32]
  const DONE: Bytes := [91, 68, 79, 78, 69, 93]

  datatype Usage = Usage(promptTokens: u32, completionTokens: u32)

  // What one JSON payload contributes; both fields are None when it does not parse.
  datatype Extract = Extract(finishReason: Option<string>, usage: Option<Usage>)

  // The parts that are library code: the UTF-8 check, str::trim and the JSON lookup.
  datatype Codec = Codec(validUtf8: Bytes -> bool, trim: Bytes -> Bytes, json: Bytes -> Extract)

  datatype Seen = Seen(usage: Option<Usage>, finishReason: Option<string>, done: bool)

  const NOTHING: Seen := Seen(None, None, false)

  datatype StreamResult = StreamResult(usage: Option<Usage>, finishReason: Option<string>, doneReceived: bool)

  const EMPTY_RESULT: StreamResult := StreamResult(None, None, false)

  // ----- one line

  function AfterData(c: Codec, s: Seen, payload: Bytes): Seen {
    var data := c.trim(payload);
    if data == DONE then s.(done := true)
    else
      var e := c.json(data);
      s.(finishReason := if e.finishReason.Some? then e.finishReason else s.finishReason,
         usage := if e.usage.Some? then e.usage else s.usage)
  }

  function AfterLine(c: Codec, s: Seen, line: Bytes): Seen {
    if line == [] || COLON <= line || EVENT <= line || ID <= line || RETRY <= line then s
    else if DATA_SPACE <= line then AfterData(c, s, line[|DATA_SPACE|..])
    else if DATA <= line then AfterData(c, s, line[|DATA|..])
    else s
  }

  function TrimCr(line: Bytes): Bytes {
    if line != [] && line[|line| - 1] == CR then line[..|line| - 1] else line
  }

  // A line as it was sent, its terminator removed.
  function AfterRawLine(c: Codec, s: Seen, raw: Bytes): Seen {
    var line := TrimCr(raw);
    if c.validUtf8(line) then AfterLine(c, s, line) else s
  }

  // ----- the reference: split the whole stream at LF, then fold

  // The lines of a stream; the last one is what follows the last LF.
  function Lines(s: Bytes): (r: seq<Bytes>)
    ensures r != []
  {
    if s == [] then [[]]
    else
      var r := Lines(s[1..]);
      if s[0] == LF then [[]] + r else [[s[0]] + r[0]] + r[1..]
  }

  function Join(lines: seq<Bytes>): Bytes
    requires lines != []
  {
    if |lines| == 1 then lines[0] else lines[0] + [LF] + Join(lines[1..])
  }

  predicate OneLine(s: Bytes) {
    LF !in s
  }

  /** `Lines` is the split at LF: it is the only way to cut the stream into LF-free pieces. */
  lemma {:induction false} LinesSplit(s: Bytes)
    ensures Join(Lines(s)) == s
    ensures forall k :: 0 <= k < |Lines(s)| ==> OneLine(Lines(s)[k])
  {
    if s != [] {
      LinesSplit(s[1..]);
      var r := Lines(s[1..]);
      assert s == [s[0]] + s[1..];
      if s[0] == LF {
        JoinEmpty(r);
      } else {
        JoinLonger(s[0], r);
      }
    }
  }

  lemma JoinEmpty(r: seq<Bytes>)
    requires r != []
    ensures Join([[]] + r) == [LF] + Join(r)
  {
    assert ([[]] + r)[1..] == r;
    assert [] + [LF] + Join(r) == [LF] + Join(r);
  }

  lemma JoinLonger(x: byte, r: seq<Bytes>)
    requires r != []
    ensures Join([[x] + r[0]] + r[1..]) == [x] + Join(r)
  {
    var longer := [[x] + r[0]] + r[1..];
    assert longer[1..] == r[1..];
    if |r| > 1 {
      assert ([x] + r[0]) + [LF] + Join(r[1..]) == [x] + (r[0] + [LF] + Join(r[1..]));
    }
  }

  lemma {:induction false} LinesOfJoin(lines: seq<Bytes>)
    requires lines != [] && forall k :: 0 <= k < |lines| ==> OneLine(lines[k])
    ensures Lines(Join(lines)) == lines
  {
    if |lines| == 1 {
      LinesOfOne(lines[0]);
    } else {
      LinesOfJoin(lines[1..]);
      LinesPrepend(lines[0], Join(lines[1..]));
      assert lines == [lines[0]] + lines[1..];
    }
  }

  lemma {:induction false} LinesOfOne(s: Bytes)
    requires OneLine(s)
    ensures Lines(s) == [s]
  {
    if s != [] {
      LinesOfOne(s[1..]);
      assert [s[0]] + s[1..] == s;
    }
  }

  lemma {:induction false} LinesPrepend(line: Bytes, rest: Bytes)
    requires OneLine(line)
    ensures Lines(line + [LF] + rest) == [line] + Lines(rest)
  {
    var s := line + [LF] + rest;
    if line == [] {
      assert s[1..] == rest;
    } else {
      LinesPrepend(line[1..], rest);
      assert s[1..] == line[1..] + [LF] + rest;
      assert [line[0]] + line[1..] == line;
    }
  }

  function FoldLines(c: Codec, s: Seen, lines: seq<Bytes>): Seen
    decreases |lines|
  {
    if lines == [] then s else FoldLines(c, AfterRawLine(c, s, lines[0]), lines[1..])
  }

  /** What the whole stream says, had it arrived in one piece. */
  function Reference(c: Codec, stream: Bytes): Seen {
    FoldLines(c, NOTHING, Lines(stream))
  }

  // ----- the observer

  function FirstLf(s: Bytes): (r: Option<nat>)
    ensures r.None? <==> OneLine(s)
    ensures r.Some? ==> r.value < |s| && s[r.value] == LF && OneLine(s[..r.value])
  {
    if s == [] then None
    else if s[0] == LF then Some(0)
    else
      var r := FirstLf(s[1..]);
      assert s == [s[0]] + s[1..];
      if r.None? then None else (assert s[..r.value + 1] == [s[0]] + s[1..][..r.value]; Some(r.value + 1))
  }

  // The complete lines of a buffer are folded, the incomplete one is kept.
  function Drained(c: Codec, buffer: Bytes, s: Seen): (Bytes, Seen) {
    var lines := Lines(buffer);
    (lines[|lines| - 1], FoldLines(c, s, lines[..|lines| - 1]))
  }

  function Fed(c: Codec, buffer: Bytes, s: Seen, chunk: Bytes): (Bytes, Seen) {
    if |buffer + chunk| > BUFFER_CAP then ([], s) else Drained(c, buffer + chunk, s)
  }

  function Flushed(c: Codec, buffer: Bytes, s: Seen): Seen {
    if buffer == [] then s else AfterRawLine(c, s, buffer)
  }

  function ResultOf(s: Seen): StreamResult {
    if !s.done then EMPTY_RESULT else StreamResult(s.usage, s.finishReason, true)
  }

  // Where the observer leaves its result; shared with the reader of the stream.
  class ResultHandle {
    var slot: Option<StreamResult>

    constructor ()
      ensures slot == None
    {
      slot := None;
    }
  }

  class Observer {
    const codec: Codec
    var buffer: Bytes
    var usage: Option<Usage>
    var finishReason: Option<string>
    var doneReceived: bool
    var resultHandle: ResultHandle?

    function View(): Seen
      reads this
    {
      Seen(usage, finishReason, doneReceived)
    }

    constructor (codec: Codec, handle: ResultHandle?)
      ensures this.codec == codec && buffer == [] && View() == NOTHING && resultHandle == handle
    {
      this.codec := codec;
      buffer, usage, finishReason, doneReceived, resultHandle := [], None, None, false, handle;
    }

    method ProcessChunk(bytes: Bytes)
      modifies this
      ensures (buffer, View()) == Fed(codec, old(buffer), old(View()), bytes)
      ensures OneLine(buffer) && |buffer| <= BUFFER_CAP
      ensures resultHandle == old(resultHandle)
    {
      buffer := buffer + bytes;
      if |buffer| > BUFFER_CAP {
        buffer := [];
        return;
      }
      ghost var all, start := buffer, View();
      while true
        invariant |buffer| <= BUFFER_CAP && resultHandle == old(resultHandle)
        invariant Drained(codec, buffer, View()) == Drained(codec, all, start)
        decreases |buffer|
      {
        var newline := FirstLf(buffer);
        if newline.None? {
          break;
        }
        var pos := newline.value;
        DrainOne(codec, buffer, View(), pos);
        var lineEnd := if pos > 0 && buffer[pos - 1] == CR then pos - 1 else pos;
        var line := buffer[..lineEnd];
        assert line == TrimCr(buffer[..pos]);
        buffer := buffer[pos + 1..];
        if codec.validUtf8(line) {
          ProcessLine(line);
        }
      }
      LinesOfOne(buffer);
    }

    method FlushBuffer()
      modifies this
      ensures View() == Flushed(codec, old(buffer), old(View())) && buffer == []
      ensures resultHandle == old(resultHandle)
    {
      if buffer == [] {
        return;
      }
      var remaining := buffer;
      buffer := [];
      var line := if remaining[|remaining| - 1] == CR then remaining[..|remaining| - 1] else remaining;
      if codec.validUtf8(line) {
        ProcessLine(line);
      }
    }

    method ProcessLine(line: Bytes)
      modifies this
      ensures View() == AfterLine(codec, old(View()), line)
      ensures buffer == old(buffer) && resultHandle == old(resultHandle)
    {
      if line == [] {
        return;
      }
      if COLON <= line {
        return;
      }
      if EVENT <= line || ID <= line || RETRY <= line {
        return;
      }
      if DATA_SPACE <= line {
        ProcessData(line[|DATA_SPACE|..]);
      } else if DATA <= line {
        ProcessData(line[|DATA|..]);
      }
    }

    method ProcessData(payload: Bytes)
      modifies this
      ensures View() == AfterData(codec, old(View()), payload)
      ensures buffer == old(buffer) && resultHandle == old(resultHandle)
    {
      var data := codec.trim(payload);
      if data == DONE {
        doneReceived := true;
        return;
      }
      var e := codec.json(data);
      if e.finishReason.Some? {
        finishReason := e.finishReason;
      }
      if e.usage.Some? {
        usage := e.usage;
      }
    }

    method IntoResult() returns (r: StreamResult)
      modifies this
      ensures r == ResultOf(Flushed(codec, old(buffer), old(View())))
      ensures resultHandle == null
    {
      resultHandle := null;
      FlushBuffer();
      if !doneReceived {
        return EMPTY_RESULT;
      }
      r := StreamResult(usage, finishReason, true);
    }

    method BuildResult() returns (r: StreamResult)
      ensures r == ResultOf(View())
    {
      if !doneReceived {
        return EMPTY_RESULT;
      }
      r := StreamResult(usage, finishReason, true);
    }

    // Writes the same result as IntoResult returns, and writes it at most once.
    method Drop()
      modifies this, resultHandle
      ensures resultHandle == null
      ensures old(resultHandle) != null ==>
        old(resultHandle).slot == Some(ResultOf(Flushed(codec, old(buffer), old(View()))))
    {
      if resultHandle != null {
        var handle := resultHandle;
        resultHandle := null;
        FlushBuffer();
        var result := BuildResult();
        handle.slot := Some(result);
      }
    }
  }

  // ----- from chunks to the whole stream

  lemma DrainOne(c: Codec, buffer: Bytes, s: Seen, pos: nat)
    requires pos < |buffer| && buffer[pos] == LF && OneLine(buffer[..pos])
    ensures Drained(c, buffer, s) == Drained(c, buffer[pos + 1..], AfterRawLine(c, s, buffer[..pos]))
  {
    var line, rest := buffer[..pos], buffer[pos + 1..];
    assert buffer == line + [LF] + rest;
    LinesPrepend(line, rest);
    var lines := [line] + Lines(rest);
    assert lines[..|lines| - 1][0] == line && lines[..|lines| - 1][1..] == Lines(rest)[..|Lines(rest)| - 1];
  }

  function FeedAll(c: Codec, buffer: Bytes, s: Seen, chunks: seq<Bytes>): (Bytes, Seen)
    decreases |chunks|
  {
    if chunks == [] then (buffer, s)
    else
      var (buffer', s') := Fed(c, buffer, s, chunks[0]);
      FeedAll(c, buffer', s', chunks[1..])
  }

  // What the observer has seen when the stream is over.
  function Observed(c: Codec, chunks: seq<Bytes>): Seen {
    var (buffer, s) := FeedAll(c, [], NOTHING, chunks);
    Flushed(c, buffer, s)
  }

  function LastLine(s: Bytes): Bytes {
    Lines(s)[|Lines(s)| - 1]
  }

  function CompleteLines(s: Bytes): Bytes {
    if |LastLine(s)| <= |s| then s[..|s| - |LastLine(s)|] else []
  }

  // The bytes that reach a line: an append over the cap loses the chunk and the partial line before it.
  function Surviving(partial: Bytes, chunks: seq<Bytes>): Bytes
    decreases |chunks|
  {
    if chunks == [] then partial
    else if |partial + chunks[0]| > BUFFER_CAP then Surviving([], chunks[1..])
    else CompleteLines(partial + chunks[0]) + Surviving(LastLine(partial + chunks[0]), chunks[1..])
  }

  function Concat(chunks: seq<Bytes>): Bytes {
    if chunks == [] then [] else chunks[0] + Concat(chunks[1..])
  }

  // No append exceeds the cap.
  predicate Fits(partial: Bytes, chunks: seq<Bytes>)
    decreases |chunks|
  {
    chunks != [] ==>
      |partial + chunks[0]| <= 65_536 && Fits(LastLine(partial + chunks[0]), chunks[1..])
  }

  lemma LinesConcat(s: Bytes, t: Bytes)
    ensures OneLine(LastLine(s)) && |LastLine(s)| <= |s| && CompleteLines(s) + LastLine(s) == s
    ensures Lines(CompleteLines(s) + t) == Lines(s)[..|Lines(s)| - 1] + Lines(t)
  {
    var lines := Lines(s);
    LinesSplit(s);
    CutLast(lines, t);
  }

  // Replacing the last of some lines.
  lemma {:induction false} CutLast(lines: seq<Bytes>, t: Bytes)
    requires lines != [] && forall k :: 0 <= k < |lines| ==> OneLine(lines[k])
    ensures var s, last := Join(lines), lines[|lines| - 1];
      && |last| <= |s| && s[|s| - |last|..] == last
      && Lines(s[..|s| - |last|] + t) == lines[..|lines| - 1] + Lines(t)
  {
    var s, last := Join(lines), lines[|lines| - 1];
    if |lines| == 1 {
      assert s[..|s| - |last|] + t == t;
      assert lines[..|lines| - 1] + Lines(t) == Lines(t);
    } else {
      CutLast(lines[1..], t);
      var s1 := Join(lines[1..]);
      CutBehind(lines[0], s1, |last|, t);
      LinesPrepend(lines[0], s1[..|s1| - |last|] + t);
      PutBack(lines, Lines(t));
    }
  }

  lemma CutBehind(line: Bytes, rest: Bytes, n: nat, t: Bytes)
    requires n <= |rest|
    ensures var s := line + [LF] + rest;
      && s[..|s| - n] + t == line + [LF] + (rest[..|rest| - n] + t)
      && s[|s| - n..] == rest[|rest| - n..]
  {
  }

  lemma PutBack(lines: seq<Bytes>, more: seq<Bytes>)
    requires |lines| > 1
    ensures [lines[0]] + (lines[1..][..|lines[1..]| - 1] + more) == lines[..|lines| - 1] + more
    ensures lines[1..][|lines[1..]| - 1] == lines[|lines| - 1]
  {
    assert lines[..|lines| - 1] == [lines[0]] + lines[1..][..|lines[1..]| - 1];
  }

  lemma {:induction false} FoldConcat(c: Codec, s: Seen, a: seq<Bytes>, b: seq<Bytes>)
    ensures FoldLines(c, s, a + b) == FoldLines(c, FoldLines(c, s, a), b)
    decreases |a|
  {
    if a == [] {
      assert a + b == b;
    } else {
      FoldConcat(c, AfterRawLine(c, s, a[0]), a[1..], b);
      assert (a + b)[1..] == a[1..] + b;
    }
  }

  lemma {:induction false} FeedIsFold(c: Codec, buffer: Bytes, s: Seen, chunks: seq<Bytes>)
    requires OneLine(buffer)
    ensures var (rest, s') := FeedAll(c, buffer, s, chunks);
      Flushed(c, rest, s') == FoldLines(c, s, Lines(Surviving(buffer, chunks)))
    decreases |chunks|
  {
    if chunks == [] {
      LinesOfOne(buffer);
      EmptyLineIsInert(c, s);
      assert FoldLines(c, s, [buffer]) == AfterRawLine(c, s, buffer);
    } else {
      var all := buffer + chunks[0];
      if |all| > BUFFER_CAP {
        FeedIsFold(c, [], s, chunks[1..]);
      } else {
        var done, last := Lines(all)[..|Lines(all)| - 1], LastLine(all);
        var tail := Surviving(last, chunks[1..]);
        LinesConcat(all, tail);
        FeedIsFold(c, last, FoldLines(c, s, done), chunks[1..]);
        FoldConcat(c, s, done, Lines(tail));
      }
    }
  }

  lemma EmptyLineIsInert(c: Codec, s: Seen)
    ensures AfterRawLine(c, s, []) == s
  {
  }

  /** For any chunks at all, the observer ends with what the lines of the surviving bytes say. */
  lemma ObservedIsReference(c: Codec, chunks: seq<Bytes>)
    ensures Observed(c, chunks) == Reference(c, Surviving([], chunks))
  {
    FeedIsFold(c, [], NOTHING, chunks);
  }

  lemma {:induction false} FittingBytesSurvive(partial: Bytes, chunks: seq<Bytes>)
    requires Fits(partial, chunks)
    ensures Surviving(partial, chunks) == partial + Concat(chunks)
    decreases |chunks|
  {
    if chunks != [] {
      var all := partial + chunks[0];
      LinesConcat(all, []);
      FittingBytesSurvive(LastLine(all), chunks[1..]);
      assert CompleteLines(all) + (LastLine(all) + Concat(chunks[1..])) == all + Concat(chunks[1..]);
      assert partial + (chunks[0] + Concat(chunks[1..])) == all + Concat(chunks[1..]);
    }
  }

  /** Bytes are lost exactly when some append goes over the cap. */
  lemma {:induction false} LostIffOverflow(partial: Bytes, chunks: seq<Bytes>)
    ensures |Surviving(partial, chunks)| <= |partial| + |Concat(chunks)|
    ensures |Surviving(partial, chunks)| == |partial| + |Concat(chunks)| <==> Fits(partial, chunks)
    decreases |chunks|
  {
    if chunks != [] {
      var all := partial + chunks[0];
      if |all| > BUFFER_CAP {
        LostIffOverflow([], chunks[1..]);
      } else {
        LinesConcat(all, []);
        LostIffOverflow(LastLine(all), chunks[1..]);
      }
    }
  }

  /** Chunking independence: two deliveries of the same bytes, neither going over the cap, give the
      same usage, finish reason and done flag, namely those of the stream split at LF. */
  lemma ChunkingIndependence(c: Codec, chunks: seq<Bytes>, chunks': seq<Bytes>)
    requires Concat(chunks) == Concat(chunks') && Fits([], chunks) && Fits([], chunks')
    ensures Observed(c, chunks) == Observed(c, chunks') == Reference(c, Concat(chunks))
  {
    ObservedIsReference(c, chunks);
    ObservedIsReference(c, chunks');
    FittingBytesSurvive([], chunks);
    FittingBytesSurvive([], chunks');
    assert [] + Concat(chunks) == Concat(chunks);
  }

  function Comment(n: nat): Bytes {
    seq(n, k => 58)
  }

  lemma CommentHasNoLf(n: nat)
    ensures OneLine(Comment(n)) && |Comment(n)| == n
  {
  }

  lemma ConcatTwo(a: Bytes, b: Bytes)
    ensures Concat([a, b]) == a + b && Concat([a + b]) == a + b
  {
    assert [a, b][1..] == [b] && [b][1..] == [] && [a + b][1..] == [];
    assert Concat([b]) == b + [] == b && Concat([a + b]) == (a + b) + [];
  }

  // Two chunks are fed one after the other.
  lemma FeedTwo(c: Codec, a: Bytes, b: Bytes)
    ensures FeedAll(c, [], NOTHING, [a, b]) ==
      var (buffer, s) := Fed(c, [], NOTHING, a); Fed(c, buffer, s, b)
  {
    var (buffer, s) := Fed(c, [], NOTHING, a);
    assert [a, b][1..] == [b] && [b][1..] == [];
    assert FeedAll(c, [], NOTHING, [a, b]) == FeedAll(c, buffer, s, [b]);
  }

  // `data: [DONE]` and then a comment that fills the buffer.
  lemma DoneIsLost(c: Codec)
    requires c.validUtf8(DATA_SPACE + DONE) && c.trim(DONE) == DONE
    ensures var a, b := DATA_SPACE + DONE + [LF], Comment(BUFFER_CAP);
      Observed(c, [a, b]).done && !Observed(c, [a + b]).done
  {
    var a, b := DATA_SPACE + DONE + [LF], Comment(BUFFER_CAP);
    CommentHasNoLf(BUFFER_CAP);
    assert a == (DATA_SPACE + DONE) + [LF] + [];
    LinesPrepend(DATA_SPACE + DONE, []);
    assert [] + a == a && Lines(a) == [DATA_SPACE + DONE, []];
    DoneLine(c);
    assert FoldLines(c, NOTHING, Lines(a)[..1]) == NOTHING.(done := true);
    assert Fed(c, [], NOTHING, a) == ([], NOTHING.(done := true));
    LinesOfOne(b);
    assert [] + b == b;
    assert Fed(c, [], NOTHING.(done := true), b) == (b, NOTHING.(done := true));
    FeedTwo(c, a, b);
    assert AfterRawLine(c, NOTHING.(done := true), b) == NOTHING.(done := true);
    assert [] + (a + b) == a + b && [a + b][1..] == [];
    assert Fed(c, [], NOTHING, a + b) == ([], NOTHING);
    assert FeedAll(c, [], NOTHING, [a + b]) == ([], NOTHING);
  }

  // A comment that is too long, its last bytes a chunk of their own.
  lemma DoneIsInvented(c: Codec)
    requires c.validUtf8(DATA_SPACE + DONE) && c.trim(DONE) == DONE
    ensures var a, b := Comment(BUFFER_CAP + 1), DATA_SPACE + DONE;
      Observed(c, [a, b]).done && !Reference(c, a + b).done
  {
    var a, b := Comment(BUFFER_CAP + 1), DATA_SPACE + DONE;
    CommentHasNoLf(BUFFER_CAP + 1);
    assert [] + a == a && [] + b == b;
    assert Fed(c, [], NOTHING, a) == ([], NOTHING);
    LinesOfOne(b);
    assert Fed(c, [], NOTHING, b) == (b, NOTHING);
    FeedTwo(c, a, b);
    DoneLine(c);
    LinesOfOne(a + b);
    assert (a + b)[0] == 58;
    assert Lines(a + b) == [a + b];
    assert !AfterRawLine(c, NOTHING, a + b).done;
    assert FoldLines(c, NOTHING, [a + b]) == AfterRawLine(c, NOTHING, a + b);
  }

  /** Over the cap the delivery matters, in both directions: `data: [DONE]` is seen when the long comment
      after it comes as a chunk of its own, and lost when both come together; and the end of a comment
      that is too long, when it comes as a chunk of its own, is taken for a `data: [DONE]` that no line of
      the stream is. */
  lemma ChunkingMattersOverTheCap(c: Codec)
    requires c.validUtf8(DATA_SPACE + DONE) && c.trim(DONE) == DONE
    ensures exists chunks, chunks' ::
      Concat(chunks) == Concat(chunks') && Observed(c, chunks).done && !Observed(c, chunks').done
    ensures exists chunks :: Observed(c, chunks).done && !Reference(c, Concat(chunks)).done
  {
    var a, b := DATA_SPACE + DONE + [LF], Comment(BUFFER_CAP);
    ConcatTwo(a, b);
    DoneIsLost(c);
    assert Observed(c, [a, b]).done && !Observed(c, [a + b]).done;
    ConcatTwo(Comment(BUFFER_CAP + 1), DATA_SPACE + DONE);
    DoneIsInvented(c);
  }

  lemma DoneLine(c: Codec)
    requires c.validUtf8(DATA_SPACE + DONE) && c.trim(DONE) == DONE
    ensures AfterRawLine(c, NOTHING, DATA_SPACE + DONE) == NOTHING.(done := true)
  {
    var line := DATA_SPACE + DONE;
    assert line[|DATA_SPACE|..] == DONE && line[..|DATA_SPACE|] == DATA_SPACE && DATA_SPACE <= line;
    assert line[0] == 100 && COLON[0] == 58 && EVENT[0] == 101 && ID[0] == 105 && RETRY[0] == 114;
    assert TrimCr(line) == line;
  }

  // ----- the end of the stream

  /** Flushing is processing one more LF, as long as the LF still fits. */
  lemma FlushIsOneMoreNewline(c: Codec, buffer: Bytes, s: Seen)
    requires OneLine(buffer)
    ensures |buffer| < BUFFER_CAP ==> Fed(c, buffer, s, [LF]) == ([], Flushed(c, buffer, s))
    ensures |buffer| == BUFFER_CAP ==> Fed(c, buffer, s, [LF]) == ([], s)
  {
    if |buffer| < BUFFER_CAP {
      assert buffer + [LF] == buffer + [LF] + [];
      LinesPrepend(buffer, []);
      assert Lines(buffer + [LF]) == [buffer, []];
      assert Lines(buffer + [LF])[..1] == [buffer];
      assert FoldLines(c, s, [buffer]) == AfterRawLine(c, s, buffer);
      EmptyLineIsInert(c, s);
    }
  }

  // ----- what the result says, in the bytes of the stream

  // The payload of a line, trimmed: what follows `data:` and one space, if there is one, in a line that is
  // valid UTF-8 once a CR at its end is dropped.
  function PayloadOf(c: Codec, raw: Bytes): Option<Bytes> {
    var line := if raw != [] && raw[|raw| - 1] == 13 then raw[..|raw| - 1] else raw;
    if !c.validUtf8(line) || |line| < 5 || line[..5] != [100, 97, 116, 97, 58] then None
    else if |line| > 5 && line[5] == 32 then Some(c.trim(line[6..]))
    else Some(c.trim(line[5..]))
  }

  // The payload is `[DONE]`.
  predicate IsDone(c: Codec, raw: Bytes) {
    PayloadOf(c, raw) == Some([91, 68, 79, 78, 69, 93])
  }

  predicate SomeLineDone(c: Codec, lines: seq<Bytes>) {
    exists k :: 0 <= k < |lines| && IsDone(c, lines[k])
  }

  // What the payload of a line reports, unless it is `[DONE]`.

  function UsageIn(c: Codec): Bytes -> Option<Usage> {
    (raw: Bytes) => if PayloadOf(c, raw).None? || IsDone(c, raw) then None else c.json(PayloadOf(c, raw).value).usage
  }

  function ReasonIn(c: Codec): Bytes -> Option<string> {
    (raw: Bytes) =>
      if PayloadOf(c, raw).None? || IsDone(c, raw) then None else c.json(PayloadOf(c, raw).value).finishReason
  }

  function LastIn<T>(lines: seq<Bytes>, report: Bytes -> Option<T>): Option<T> {
    if lines == [] then None
    else
      var last := report(lines[|lines| - 1]);
      if last.Some? then last else LastIn(lines[..|lines| - 1], report)
  }

  // Line k reports r and no later line reports anything.
  ghost predicate IsLastReport<T>(lines: seq<Bytes>, report: Bytes -> Option<T>, k: nat, r: T) {
    k < |lines| && report(lines[k]) == Some(r) && forall j :: k < j < |lines| ==> report(lines[j]).None?
  }

  lemma {:induction false} LastInIsLast<T>(lines: seq<Bytes>, report: Bytes -> Option<T>)
    ensures LastIn(lines, report).None? <==> forall k :: 0 <= k < |lines| ==> report(lines[k]).None?
    ensures LastIn(lines, report).Some? ==> exists k :: IsLastReport(lines, report, k, LastIn(lines, report).value)
  {
    if lines != [] {
      var n := |lines| - 1;
      LastInIsLast(lines[..n], report);
      if report(lines[n]).Some? {
        assert IsLastReport(lines, report, n, LastIn(lines, report).value);
      } else if LastIn(lines[..n], report).Some? {
        var k :| IsLastReport(lines[..n], report, k, LastIn(lines, report).value);
        assert IsLastReport(lines, report, k, LastIn(lines, report).value);
      } else {
        assert forall k :: 0 <= k < n ==> lines[..n][k] == lines[k];
      }
    }
  }

  lemma LineMeans(c: Codec, s: Seen, raw: Bytes)
    ensures var s' := AfterRawLine(c, s, raw);
      && s'.usage == (if UsageIn(c)(raw).Some? then UsageIn(c)(raw) else s.usage)
      && s'.finishReason == (if ReasonIn(c)(raw).Some? then ReasonIn(c)(raw) else s.finishReason)
      && (s'.done <==> s.done || IsDone(c, raw))
  {
    var line := TrimCr(raw);
    if c.validUtf8(line) && |line| >= 5 && line[..5] == DATA {
      assert line[0] == 100 && COLON[0] == 58 && EVENT[0] == 101 && ID[0] == 105 && RETRY[0] == 114;
      var payload := if |line| > 5 && line[5] == 32 then line[6..] else line[5..];
      assert DATA_SPACE <= line <==> |line| > 5 && line[5] == 32;
      assert PayloadOf(c, raw) == Some(c.trim(payload));
      assert AfterRawLine(c, s, raw) == AfterData(c, s, payload);
    } else {
      assert PayloadOf(c, raw) == None;
      assert DATA_SPACE[..5] == DATA;
      assert DATA_SPACE <= line ==> line[..5] == DATA_SPACE[..5];
      assert DATA <= line ==> line[..5] == DATA;
      assert AfterRawLine(c, s, raw) == s;
    }
  }

  lemma {:induction false} FoldMeans(c: Codec, lines: seq<Bytes>)
    ensures var s := FoldLines(c, NOTHING, lines);
      && s.usage == LastIn(lines, UsageIn(c)) && s.finishReason == LastIn(lines, ReasonIn(c))
      && (s.done <==> SomeLineDone(c, lines))
  {
    if lines != [] {
      var front, last := lines[..|lines| - 1], lines[|lines| - 1];
      FoldMeans(c, front);
      assert front + [last] == lines;
      FoldConcat(c, NOTHING, front, [last]);
      assert FoldLines(c, FoldLines(c, NOTHING, front), [last]) == AfterRawLine(c, FoldLines(c, NOTHING, front), last);
      LineMeans(c, FoldLines(c, NOTHING, front), last);
      DoneOneMore(c, lines);
    }
  }

  lemma DoneOneMore(c: Codec, lines: seq<Bytes>)
    requires lines != []
    ensures SomeLineDone(c, lines) <==> SomeLineDone(c, lines[..|lines| - 1]) || IsDone(c, lines[|lines| - 1])
  {
    var front := lines[..|lines| - 1];
    if SomeLineDone(c, front) {
      var k :| 0 <= k < |front| && IsDone(c, front[k]);
      assert IsDone(c, lines[k]);
    }
    if SomeLineDone(c, lines) {
      var k :| 0 <= k < |lines| && IsDone(c, lines[k]);
      assert k < |front| ==> IsDone(c, front[k]);
    }
  }

  /** The result withholds everything unless the payload of some surviving line is `[DONE]`; then its usage
      is the one reported last, by whatever line, and its finish reason likewise. */
  lemma ResultNeedsDone(c: Codec, chunks: seq<Bytes>)
    ensures var r, lines := ResultOf(Observed(c, chunks)), Lines(Surviving([], chunks));
      && (r.doneReceived <==> SomeLineDone(c, lines))
      && (!r.doneReceived ==> r == EMPTY_RESULT)
      && (r.doneReceived ==> r.usage == LastIn(lines, UsageIn(c)) && r.finishReason == LastIn(lines, ReasonIn(c)))
  {
    ObservedIsReference(c, chunks);
    FoldMeans(c, Lines(Surviving([], chunks)));
  }
}
