/**
  Incremental framing of server-sent events (blackbox_server/proxy/rollout_llm_proxy.py:1378-1398,
  3100-3128): the LF-LF subset of sections 9.2.5 and 9.2.6 of the WHATWG HTML Living Standard.

  Decoding a whole frame is a parameter; where it matters it is only asked to leave ASCII alone.
 */
module SseFraming {
  import opened Wrappers
  import opened Strings
  import opened Sequences

  type Byte = x: int | 0 <= x < 256

  const LF: Byte := 10
  const CR: Byte := 13
  const Colon: Byte := 58

  type Decoder = seq<Byte> -> string

  function Join<T>(chunks: seq<seq<T>>): seq<T> {
    if chunks == [] then [] else chunks[0] + Join(chunks[1..])
  }

  // ------------------------------------------------------------------- frames

  predicate BreakAt(b: seq<Byte>, i: int) {
    0 <= i < |b| - 1 && b[i] == LF && b[i + 1] == LF
  }

  /** `bytes.find(b"\n\n")`: the first blank line at or after `from`. */
  function FindFrom(b: seq<Byte>, from: nat): (r: Option<nat>)
    ensures r.Some? ==> from <= r.value && BreakAt(b, r.value) && forall j | from <= j < r.value :: !BreakAt(b, j)
    ensures r.None? ==> forall j | from <= j :: !BreakAt(b, j)
    decreases |b| - from
  {
    if from >= |b| - 1 then None else if BreakAt(b, from) then Some(from) else FindFrom(b, from + 1)
  }

  function Find(b: seq<Byte>): (r: Option<nat>)
    ensures r.Some? ==> r.value + 2 <= |b|
  {
    FindFrom(b, 0)
  }

  /** The complete frames of a byte string, and what follows the last of them. */
  function Frames(b: seq<Byte>): seq<seq<Byte>>
    decreases |b|
  {
    var at := Find(b);
    if at.None? then [] else [b[..at.value]] + Frames(b[at.value + 2..])
  }

  function Rest(b: seq<Byte>): (r: seq<Byte>)
    ensures Find(r).None?
    decreases |b|
  {
    var at := Find(b);
    if at.None? then b else Rest(b[at.value + 2..])
  }

  /** The first blank line does not move when bytes arrive behind it. */
  lemma FindExtends(b: seq<Byte>, c: seq<Byte>)
    requires Find(b).Some?
    ensures Find(b + c) == Find(b)
  {
    var i := Find(b).value;
    assert BreakAt(b + c, i);
    forall j | 0 <= j < i ensures !BreakAt(b + c, j) {
      assert !BreakAt(b, j);
    }
  }

  /** Splitting what is left over together with what comes next is splitting everything at once. */
  lemma {:induction false} FramesExtend(b: seq<Byte>, c: seq<Byte>)
    ensures Frames(b + c) == Frames(b) + Frames(Rest(b) + c)
    ensures Rest(b + c) == Rest(Rest(b) + c)
    decreases |b|
  {
    var at := Find(b);
    if at.Some? {
      FindExtends(b, c);
      var tail := b[at.value + 2..];
      assert (b + c)[at.value + 2..] == tail + c && (b + c)[..at.value] == b[..at.value];
      FramesExtend(tail, c);
    }
  }

  // ----------------------------------------------------------------- payloads

  /** The characters `str.splitlines` breaks at. */
  predicate LineBreak(c: char) {
    || ('\n' <= c <= '\r') || ('\U{1c}' <= c <= '\U{1e}') || c == '\U{85}' || c == '\U{2028}' || c == '\U{2029}'
  }

  /** The first line break at or after `from`, or the end. */
  function LineEndFrom(s: string, from: nat): (r: nat)
    requires from <= |s|
    ensures from <= r <= |s|
    ensures r < |s| ==> LineBreak(s[r])
    ensures forall i | from <= i < r :: !LineBreak(s[i])
    decreases |s| - from
  {
    if from == |s| || LineBreak(s[from]) then from else LineEndFrom(s, from + 1)
  }

  function LineEnd(s: string): (r: nat)
    ensures r <= |s|
    ensures r < |s| ==> LineBreak(s[r])
    ensures forall i | 0 <= i < r :: !LineBreak(s[i])
  {
    LineEndFrom(s, 0)
  }

  function SplitLines(s: string): seq<string>
    decreases |s|
  {
    if s == [] then []
    else
      var i := LineEnd(s);
      var next := if i + 1 < |s| && s[i] == '\r' && s[i + 1] == '\n' then i + 2 else i + 1;
      [s[..i]] + if next < |s| then SplitLines(s[next..]) else []
  }

  predicate IsData(line: string) {
    "data:" <= line
  }

  function DataLines(lines: seq<string>): seq<string> {
    if lines == [] then []
    else (if IsData(lines[0]) then [Strip(lines[0][5..])] else []) + DataLines(lines[1..])
  }

  function JoinLines(lines: seq<string>): string {
    if lines == [] then [] else if |lines| == 1 then lines[0] else lines[0] + "\n" + JoinLines(lines[1..])
  }

  /** The lines of a text that newlines separate. */
  function LinesOf(s: string): (r: seq<string>)
    ensures |r| > 0
  {
    if s == "" then [""] else AddChar(LinesOf(s[..|s| - 1]), s[|s| - 1])
  }

  function AddChar(lines: seq<string>, c: char): (r: seq<string>)
    requires |lines| > 0
    ensures |r| > 0
  {
    if c == '\n' then lines + [""] else lines[..|lines| - 1] + [lines[|lines| - 1] + [c]]
  }

  lemma AddCharConcat(a: seq<string>, b: seq<string>, c: char)
    requires |b| > 0
    ensures AddChar(a + b, c) == a + AddChar(b, c)
  {
  }

  lemma LinesSnoc(s: string, c: char)
    ensures LinesOf(s + [c]) == AddChar(LinesOf(s), c)
  {
    assert (s + [c])[..|s|] == s;
  }

  lemma {:induction false} OneLine(s: string)
    requires '\n' !in s
    ensures LinesOf(s) == [s]
  {
    if s != "" {
      var before, last := s[..|s| - 1], s[|s| - 1];
      assert s == before + [last];
      OneLine(before);
      LineGrows(before, last);
    }
  }

  lemma LineGrows(s: string, c: char)
    requires LinesOf(s) == [s] && c != '\n'
    ensures LinesOf(s + [c]) == [s + [c]]
  {
    LinesSnoc(s, c);
    assert [s][..0] + [s + [c]] == [s + [c]];
  }

  ghost predicate LinesJoin(head: string, a: string, b: string) {
    LinesOf(head + b) == LinesOf(a) + LinesOf(b)
  }

  lemma LinesJoinStart(a: string)
    ensures LinesJoin(a + ['\n'], a, "")
  {
    LinesSnoc(a, '\n');
    assert a + ['\n'] + "" == a + ['\n'];
  }

  lemma LinesJoinStep(head: string, a: string, b: string, c: char)
    requires LinesJoin(head, a, b)
    ensures LinesJoin(head, a, b + [c])
  {
    LinesSnoc(head + b, c);
    LinesSnoc(b, c);
    AddCharConcat(LinesOf(a), LinesOf(b), c);
    Regroup(head, b, [c]);
  }

  lemma {:induction false} LinesConcat(head: string, a: string, b: string)
    requires head == a + ['\n']
    ensures LinesJoin(head, a, b)
  {
    if b == "" {
      LinesJoinStart(a);
    } else {
      var before, last := b[..|b| - 1], b[|b| - 1];
      assert b == before + [last];
      LinesConcat(head, a, before);
      LinesJoinStep(head, a, before, last);
    }
  }

  /** The lines of a payload are the data lines it was joined from. */
  lemma {:induction false} JoinedLinesReadBack(lines: seq<string>)
    requires lines != [] && forall line | line in lines :: '\n' !in line
    ensures LinesOf(JoinLines(lines)) == lines
  {
    OneLine(lines[0]);
    if |lines| > 1 {
      JoinedLinesReadBack(lines[1..]);
      LinesConcat(lines[0] + ['\n'], lines[0], JoinLines(lines[1..]));
    }
  }

  /** What one event carries: its data lines joined, or nothing. */
  function EventPayloads(text: string): seq<string> {
    var data := DataLines(SplitLines(text));
    if data == [] then [] else [JoinLines(data)]
  }

  function FramePayloads(decode: Decoder, frames: seq<seq<Byte>>): seq<string> {
    if frames == [] then [] else EventPayloads(decode(frames[0])) + FramePayloads(decode, frames[1..])
  }

  predicate WhiteByte(b: Byte) {
    b == 32 || 9 <= b <= 13
  }

  predicate BlankBytes(b: seq<Byte>) {
    forall i | 0 <= i < |b| :: WhiteByte(b[i])
  }

  function TailPayloads(decode: Decoder, rest: seq<Byte>): seq<string> {
    if BlankBytes(rest) then [] else EventPayloads(decode(rest))
  }

  /** The payloads of a whole stream, with no notion of chunks. */
  function Payloads(decode: Decoder, b: seq<Byte>): seq<string> {
    FramePayloads(decode, Frames(b)) + TailPayloads(decode, Rest(b))
  }

  // ------------------------------------------------------------- incrementally

  /** The payloads read from `buffer` and the chunks after it, keeping only the incomplete frame between chunks. */
  function Incremental(decode: Decoder, buffer: seq<Byte>, chunks: seq<seq<Byte>>): seq<string>
    decreases |chunks|
  {
    if chunks == [] then Payloads(decode, buffer)
    else FramePayloads(decode, Frames(buffer)) + Incremental(decode, Rest(buffer) + chunks[0], chunks[1..])
  }

  lemma {:induction false} FramePayloadsConcat(decode: Decoder, a: seq<seq<Byte>>, b: seq<seq<Byte>>)
    ensures FramePayloads(decode, a + b) == FramePayloads(decode, a) + FramePayloads(decode, b)
  {
    if a == [] {
      assert a + b == b;
    } else {
      assert (a + b)[1..] == a[1..] + b;
      FramePayloadsConcat(decode, a[1..], b);
    }
  }

  lemma PayloadsExtend(decode: Decoder, b: seq<Byte>, c: seq<Byte>)
    ensures Payloads(decode, b + c) == FramePayloads(decode, Frames(b)) + Payloads(decode, Rest(b) + c)
  {
    FramesExtend(b, c);
    FramePayloadsConcat(decode, Frames(b), Frames(Rest(b) + c));
    Regroup(FramePayloads(decode, Frames(b)), FramePayloads(decode, Frames(Rest(b) + c)),
            TailPayloads(decode, Rest(Rest(b) + c)));
  }

  lemma JoinUnfolds<T>(before: seq<T>, chunks: seq<seq<T>>)
    ensures before + Join(chunks) == if chunks == [] then before else before + chunks[0] + Join(chunks[1..])
  {
  }

  /** However a stream is cut into chunks, the payloads are those of the whole stream. */
  lemma {:induction false} IncrementalIsWhole(decode: Decoder, buffer: seq<Byte>, chunks: seq<seq<Byte>>)
    ensures Incremental(decode, buffer, chunks) == Payloads(decode, buffer + Join(chunks))
    decreases |chunks|
  {
    JoinUnfolds(buffer, chunks);
    if chunks != [] {
      IncrementalIsWhole(decode, Rest(buffer) + chunks[0], chunks[1..]);
      JoinUnfolds(Rest(buffer), chunks);
      PayloadsExtend(decode, buffer, Join(chunks));
    }
  }

  lemma ChunkingIsInvisible(decode: Decoder, first: seq<Byte>, chunks: seq<seq<Byte>>,
                            first': seq<Byte>, chunks': seq<seq<Byte>>)
    requires first + Join(chunks) == first' + Join(chunks')
    ensures Incremental(decode, first, chunks) == Incremental(decode, first', chunks')
  {
    IncrementalIsWhole(decode, first, chunks);
    IncrementalIsWhole(decode, first', chunks');
  }

  lemma FirstFramePayloads(decode: Decoder, b: seq<Byte>)
    requires Find(b).Some?
    ensures var i := Find(b).value;
            && FramePayloads(decode, Frames(b))
            == EventPayloads(decode(b[..i])) + FramePayloads(decode, Frames(b[i + 2..]))
            && Rest(b) == Rest(b[i + 2..])
  {
    var i := Find(b).value;
    assert Frames(b)[1..] == Frames(b[i + 2..]);
  }

  /** Empties the buffer of complete frames. */
  method TakeFrames(decode: Decoder, buffer: seq<Byte>) returns (payloads: seq<string>, rest: seq<Byte>)
    ensures payloads == FramePayloads(decode, Frames(buffer)) && rest == Rest(buffer)
  {
    payloads, rest := [], buffer;
    while Find(rest).Some?
      invariant payloads + FramePayloads(decode, Frames(rest)) == FramePayloads(decode, Frames(buffer))
      invariant Rest(rest) == Rest(buffer)
      decreases |rest|
    {
      var at := Find(rest).value;
      FirstFramePayloads(decode, rest);
      var more := EventPayloads(decode(rest[..at]));
      rest := rest[at + 2..];
      Regroup(payloads, more, FramePayloads(decode, Frames(rest)));
      payloads := payloads + more;
    }
  }

  /** _iter_openai_sse_payloads. */
  method IterPayloads(decode: Decoder, first: seq<Byte>, chunks: seq<seq<Byte>>) returns (payloads: seq<string>)
    ensures payloads == Payloads(decode, first + Join(chunks))
  {
    IncrementalIsWhole(decode, first, chunks);
    DrainedResumes(decode, first, chunks);
    assert chunks[0..] == chunks;
    var buffer: seq<Byte>;
    payloads, buffer := TakeFrames(decode, first);
    for n := 0 to |chunks|
      invariant buffer == Rest(buffer)
      invariant payloads + Incremental(decode, buffer, chunks[n..]) == Incremental(decode, first, chunks)
    {
      NextChunk(decode, buffer, chunks, n);
      var more;
      more, buffer := TakeFrames(decode, buffer + chunks[n]);
      Regroup(payloads, more, Incremental(decode, buffer, chunks[n + 1..]));
      payloads := payloads + more;
    }
    LastPayloads(decode, buffer);
    assert chunks[|chunks|..] == [];
    if !BlankBytes(buffer) {
      payloads := payloads + EventPayloads(decode(buffer));
    }
  }

  lemma NextChunk(decode: Decoder, buffer: seq<Byte>, chunks: seq<seq<Byte>>, n: nat)
    requires buffer == Rest(buffer) && n < |chunks|
    ensures var arrived := buffer + chunks[n];
            Incremental(decode, buffer, chunks[n..]) ==
            FramePayloads(decode, Frames(arrived)) + Incremental(decode, Rest(arrived), chunks[n + 1..])
  {
    assert chunks[n..][1..] == chunks[n + 1..];
    assert Frames(buffer) == [];
    DrainedResumes(decode, buffer + chunks[n], chunks[n + 1..]);
  }

  lemma LastPayloads(decode: Decoder, buffer: seq<Byte>)
    requires buffer == Rest(buffer)
    ensures Incremental(decode, buffer, []) == TailPayloads(decode, buffer)
  {
    assert Frames(buffer) == [];
  }

  lemma DrainedResumes(decode: Decoder, buffer: seq<Byte>, chunks: seq<seq<Byte>>)
    ensures Incremental(decode, buffer, chunks) ==
            FramePayloads(decode, Frames(buffer)) + Incremental(decode, Rest(buffer), chunks)
  {
    if chunks != [] {
      assert Frames(Rest(buffer)) == [] && Rest(Rest(buffer)) == Rest(buffer);
      assert [] + Incremental(decode, Rest(buffer) + chunks[0], chunks[1..])
          == Incremental(decode, Rest(buffer) + chunks[0], chunks[1..]);
    }
  }

  // --------------------------------------------------------- the keepalive prelude

  function LStripNewlines(b: seq<Byte>): seq<Byte> {
    if b != [] && (b[0] == CR || b[0] == LF) then LStripNewlines(b[1..]) else b
  }

  /** Frames the drain takes for keepalives: blank ones and those that open with a comment. */
  predicate Skipped(frame: seq<Byte>) {
    BlankBytes(frame) || (LStripNewlines(frame) != [] && LStripNewlines(frame)[0] == Colon)
  }

  /** The stream from its first real frame on, and the frames dropped before it. */
  function DropPrelude(b: seq<Byte>): seq<Byte>
    decreases |b|
  {
    var at := Find(b);
    if at.Some? && Skipped(b[..at.value]) then DropPrelude(b[at.value + 2..]) else b
  }

  function Prelude(b: seq<Byte>): seq<seq<Byte>>
    decreases |b|
  {
    var at := Find(b);
    if at.Some? && Skipped(b[..at.value]) then [b[..at.value]] + Prelude(b[at.value + 2..]) else []
  }

  lemma DropSkips(b: seq<Byte>, c: seq<Byte>)
    requires Find(b).Some? && Skipped(b[..Find(b).value])
    ensures DropPrelude(b + c) == DropPrelude(b[Find(b).value + 2..] + c)
  {
    var i := Find(b).value;
    FindExtends(b, c);
    assert (b + c)[..i] == b[..i] && (b + c)[i + 2..] == b[i + 2..] + c;
  }

  lemma DropStops(b: seq<Byte>, c: seq<Byte>)
    requires Find(b).Some? && !Skipped(b[..Find(b).value])
    ensures DropPrelude(b + c) == b + c
  {
    var i := Find(b).value;
    FindExtends(b, c);
    assert (b + c)[..i] == b[..i];
  }

  lemma FrameWithBreak(b: seq<Byte>)
    requires Find(b).Some?
    ensures b == b[..Find(b).value] + [LF, LF] + b[Find(b).value + 2..]
  {
    assert BreakAt(b, Find(b).value);
  }

  /**
    _drain_keepalive_prelude: what it returns, followed by the chunks it left unread, is the stream
    without its prelude.
   */
  method DrainPrelude(chunks: seq<seq<Byte>>) returns (first: seq<Byte>, consumed: nat)
    ensures consumed <= |chunks|
    ensures first + Join(chunks[consumed..]) == DropPrelude(Join(chunks))
  {
    var buffer: seq<Byte> := [];
    assert chunks[0..] == chunks && [] + Join(chunks) == Join(chunks);
    for n := 0 to |chunks|
      invariant DropPrelude(buffer + Join(chunks[n..])) == DropPrelude(Join(chunks))
      invariant Find(buffer).None?
    {
      JoinUnfolds(buffer, chunks[n..]);
      assert chunks[n..][1..] == chunks[n + 1..];
      buffer := buffer + chunks[n];
      while Find(buffer).Some?
        invariant DropPrelude(buffer + Join(chunks[n + 1..])) == DropPrelude(Join(chunks))
        decreases |buffer|
      {
        var at := Find(buffer).value;
        var frame := buffer[..at];
        if !Skipped(frame) {
          DropStops(buffer, Join(chunks[n + 1..]));
          FrameWithBreak(buffer);
          return frame + [LF, LF] + buffer[at + 2..], n + 1;
        }
        DropSkips(buffer, Join(chunks[n + 1..]));
        buffer := buffer[at + 2..];
      }
    }
    assert chunks[|chunks|..] == [] && buffer + [] == buffer;
    return buffer, |chunks|;
  }

  /** Dropping the prelude loses exactly the payloads of the dropped frames. */
  lemma {:induction false} PreludePayloads(decode: Decoder, b: seq<Byte>)
    ensures Payloads(decode, b) == FramePayloads(decode, Prelude(b)) + Payloads(decode, DropPrelude(b))
    decreases |b|
  {
    var at := Find(b);
    if at.Some? && Skipped(b[..at.value]) {
      var tail := b[at.value + 2..];
      PreludePayloads(decode, tail);
      FirstFramePayloads(decode, b);
      assert Prelude(b)[1..] == Prelude(tail);
      Regroup(EventPayloads(decode(b[..at.value])), FramePayloads(decode, Frames(tail)),
              TailPayloads(decode, Rest(tail)));
      Regroup(EventPayloads(decode(b[..at.value])), FramePayloads(decode, Prelude(tail)),
              Payloads(decode, DropPrelude(tail)));
    }
  }

  predicate CarriesData(text: string) {
    exists line | line in SplitLines(text) :: IsData(line)
  }

  lemma {:induction false} NoDataLines(lines: seq<string>)
    ensures DataLines(lines) == [] <==> forall line | line in lines :: !IsData(line)
  {
    if lines != [] {
      NoDataLines(lines[1..]);
      assert lines == [lines[0]] + lines[1..];
    }
  }

  lemma PayloadIffData(text: string)
    ensures EventPayloads(text) != [] <==> CarriesData(text)
  {
    NoDataLines(SplitLines(text));
  }

  ghost predicate AllSilent(decode: Decoder, frames: seq<seq<Byte>>) {
    forall f | f in frames :: !CarriesData(decode(f))
  }

  lemma FirstAndRestSilent(decode: Decoder, first: seq<Byte>, rest: seq<seq<Byte>>)
    ensures AllSilent(decode, [first] + rest) <==> !CarriesData(decode(first)) && AllSilent(decode, rest)
  {
    assert first in [first] + rest;
    assert forall f | f in rest :: f in [first] + rest;
  }

  lemma {:induction false} NothingCarried(decode: Decoder, frames: seq<seq<Byte>>)
    ensures FramePayloads(decode, frames) == [] <==> AllSilent(decode, frames)
  {
    if frames != [] {
      assert frames == [frames[0]] + frames[1..];
      FirstAndRestSilent(decode, frames[0], frames[1..]);
      NothingCarried(decode, frames[1..]);
      FirstPayload(decode, frames);
    }
  }

  lemma FirstPayload(decode: Decoder, frames: seq<seq<Byte>>)
    requires frames != []
    ensures FramePayloads(decode, frames) == [] <==>
            !CarriesData(decode(frames[0])) && FramePayloads(decode, frames[1..]) == []
  {
    PayloadIffData(decode(frames[0]));
  }

  /** The prelude can be dropped unseen if and only if no dropped frame has a data line. */
  lemma PreludeIsInvisible(decode: Decoder, b: seq<Byte>)
    ensures Payloads(decode, DropPrelude(b)) == Payloads(decode, b)
            <==> forall f | f in Prelude(b) :: !CarriesData(decode(f))
  {
    PreludePayloads(decode, b);
    NothingCarried(decode, Prelude(b));
    SuffixIsAll(FramePayloads(decode, Prelude(b)), Payloads(decode, DropPrelude(b)));
  }

  lemma SuffixIsAll<T>(a: seq<T>, b: seq<T>)
    ensures b == a + b <==> a == []
  {
    if b == a + b {
      assert |a| == 0;
    }
  }

  // -------------------------------------------------------------- keepalive frames

  function AsciiText(b: seq<Byte>): string {
    seq(|b|, i requires 0 <= i < |b| => b[i] as char)
  }

  predicate IsAscii(b: seq<Byte>) {
    forall i | 0 <= i < |b| :: b[i] < 128
  }

  ghost predicate KeepsAscii(decode: Decoder) {
    forall b | IsAscii(b) :: decode(b) == AsciiText(b)
  }

  /** Every line is a comment or empty. */
  predicate CommentsOnly(text: string) {
    forall line | line in SplitLines(text) :: line == [] || line[0] == ':'
  }

  lemma {:induction false} NoDataWithoutD(text: string)
    requires 'd' !in text
    ensures !CarriesData(text)
    decreases |text|
  {
    if text != [] {
      var i := LineEnd(text);
      var next := if i + 1 < |text| && text[i] == '\r' && text[i + 1] == '\n' then i + 2 else i + 1;
      assert !IsData(text[..i]);
      if next < |text| {
        NoDataWithoutD(text[next..]);
      }
    }
  }

  /** Blank frames and frames of comment lines alone, which is all a heartbeat sends. */
  lemma KeepaliveCarriesNothing(decode: Decoder, frame: seq<Byte>)
    requires KeepsAscii(decode) && (BlankBytes(frame) || CommentsOnly(decode(frame)))
    ensures !CarriesData(decode(frame))
  {
    if BlankBytes(frame) {
      assert IsAscii(frame);
      NoDataWithoutD(decode(frame));
    }
  }

  /** Draining keepalives and then framing, however the bytes arrive, yields the payloads of the whole stream. */
  lemma KeepalivesAreInvisible(decode: Decoder, chunks: seq<seq<Byte>>, first: seq<Byte>, consumed: nat)
    requires KeepsAscii(decode)
    requires forall f | f in Prelude(Join(chunks)) :: BlankBytes(f) || CommentsOnly(decode(f))
    requires consumed <= |chunks| && first + Join(chunks[consumed..]) == DropPrelude(Join(chunks))
    ensures Incremental(decode, first, chunks[consumed..]) == Payloads(decode, Join(chunks))
  {
    IncrementalIsWhole(decode, first, chunks[consumed..]);
    forall f | f in Prelude(Join(chunks)) ensures !CarriesData(decode(f)) {
      KeepaliveCarriesNothing(decode, f);
    }
    PreludeIsInvisible(decode, Join(chunks));
  }

  lemma FirstLine(head: string, tail: string)
    requires LineEnd(head) == |head| && tail != [] && LineBreak(tail[0])
    ensures LineEnd(head + tail) == |head|
  {
    assert (head + tail)[|head|] == tail[0];
    assert forall i | 0 <= i < |head| :: (head + tail)[i] == head[i] && !LineBreak(head[i]);
  }

  lemma SplitsAtNewline(head: string, data: string)
    requires LineEnd(head) == |head| && data != []
    ensures SplitLines(head + (['\n'] + data)) == [head] + SplitLines(data)
  {
    FirstLine(head, ['\n'] + data);
    PartsOf(head, '\n', data);
    SplitsAt(head + (['\n'] + data), |head|);
  }

  lemma PartsOf<T>(head: seq<T>, x: T, tail: seq<T>)
    ensures var all := head + ([x] + tail);
            all[..|head|] == head && all[|head|] == x && all[|head| + 1..] == tail
  {
  }

  lemma SplitsAt(text: string, i: nat)
    requires i + 1 < |text| && LineEnd(text) == i && text[i] == '\n'
    ensures SplitLines(text) == [text[..i]] + SplitLines(text[i + 1..])
  {
  }

  lemma SecondLineCarries(head: string, data: string)
    requires LineEnd(head) == |head| && LineEnd(data) == |data| && IsData(data)
    ensures CarriesData(head + (['\n'] + data))
  {
    SplitsAtNewline(head, data);
    assert SplitLines(data)[0] == data;
    assert ([head] + SplitLines(data))[1] == data;
    assert data in SplitLines(head + (['\n'] + data));
  }

  /** Printable ASCII bytes, which hold no line break. */
  predicate Printable(b: seq<Byte>) {
    forall i | 0 <= i < |b| :: 32 <= b[i] < 127
  }

  lemma PrintableIsOneLine(b: seq<Byte>)
    requires Printable(b)
    ensures LineEnd(AsciiText(b)) == |b|
  {
    NoBreaks(AsciiText(b));
  }

  lemma AsciiConcat(a: seq<Byte>, b: seq<Byte>)
    ensures AsciiText(a + b) == AsciiText(a) + AsciiText(b)
  {
  }

  lemma TextOfCommented(decode: Decoder, note: seq<Byte>, data: seq<Byte>)
    requires KeepsAscii(decode) && Printable(note) && Printable(data)
    ensures decode(note + ([LF] + data)) == AsciiText(note) + (['\n'] + AsciiText(data))
  {
    AsciiConcat([LF], data);
    AsciiConcat(note, [LF] + data);
    assert AsciiText([LF]) == ['\n'];
    assert IsAscii(note + ([LF] + data));
  }

  lemma CommentedCarries(decode: Decoder, note: seq<Byte>, data: seq<Byte>)
    requires KeepsAscii(decode) && Printable(note) && Printable(data) && IsData(AsciiText(data))
    ensures CarriesData(decode(note + ([LF] + data)))
  {
    PrintableIsOneLine(note);
    PrintableIsOneLine(data);
    TextOfCommented(decode, note, data);
    SecondLineCarries(AsciiText(note), AsciiText(data));
  }

  lemma CommentedFrame(frame: seq<Byte>, note: seq<Byte>, data: seq<Byte>)
    requires Printable(note) && Printable(data) && data != [] && frame == note + ([LF] + data)
    ensures Find(frame + [LF, LF]) == Some(|frame|)
  {
    var b := frame + [LF, LF];
    forall j | 0 <= j < |frame| ensures !BreakAt(b, j) {
      assert b[|note|] == LF && b[|note| + 1] == data[0];
      assert j < |note| ==> b[j] == note[j];
      assert j > |note| ==> b[j] == data[j - |note| - 1];
    }
    assert BreakAt(b, |frame|);
  }

  /** A frame that opens with a comment but also has a data line is dropped with its data. */
  lemma CommentedDataIsLost(decode: Decoder, note: seq<Byte>, data: seq<Byte>)
    requires KeepsAscii(decode) && Printable(note) && Printable(data)
    requires note != [] && note[0] == Colon && IsData(AsciiText(data))
    ensures var b := note + ([LF] + data) + [LF, LF];
            Payloads(decode, DropPrelude(b)) != Payloads(decode, b)
  {
    var frame := note + ([LF] + data);
    var b := frame + [LF, LF];
    CommentedFrame(frame, note, data);
    CommentedCarries(decode, note, data);
    assert b[..|frame|] == frame && frame[0] == Colon;
    assert Prelude(b)[0] == frame;
    PreludeIsInvisible(decode, b);
  }

  lemma NoBreaks(s: string)
    requires forall i | 0 <= i < |s| :: !LineBreak(s[i])
    ensures LineEnd(s) == |s|
  {
  }

  // ------------------------------------------------------------------ round trip

  predicate PrintableText(s: string) {
    forall i | 0 <= i < |s| :: ' ' <= s[i] <= '~'
  }

  function Bytes(s: string): seq<Byte>
    requires PrintableText(s)
  {
    seq(|s|, i requires 0 <= i < |s| => s[i] as int)
  }

  /** A payload as the proxy sends it: printable, and neither starting nor ending with a space. */
  predicate Sendable(text: string) {
    PrintableText(text) && text != [] && text[0] != ' ' && text[|text| - 1] != ' '
  }

  function Line(text: string): (r: string)
    requires PrintableText(text)
    ensures PrintableText(r)
  {
    "data: " + text
  }

  /** One event of the pseudo-stream. */
  function Event(text: string): seq<Byte>
    requires Sendable(text)
  {
    Bytes(Line(text)) + [LF, LF]
  }

  function Stream(texts: seq<string>): seq<Byte>
    requires forall t | t in texts :: Sendable(t)
  {
    if texts == [] then [] else Event(texts[0]) + Stream(texts[1..])
  }

  lemma BytesDecode(decode: Decoder, s: string)
    requires KeepsAscii(decode) && PrintableText(s)
    ensures decode(Bytes(s)) == s
  {
    assert IsAscii(Bytes(s));
    assert AsciiText(Bytes(s)) == s;
  }

  lemma StripSpace(text: string)
    requires Sendable(text)
    ensures Strip([' '] + text) == text
  {
    assert ([' '] + text)[1..] == text;
    assert !White(text[0]) && !White(text[|text| - 1]);
    assert LStrip([' '] + text) == LStrip(text) == text;
    assert RStrip(text) == text;
  }

  lemma LinePayload(text: string)
    requires Sendable(text)
    ensures EventPayloads(Line(text)) == [text]
  {
    var line := Line(text);
    NoBreaks(line);
    assert line[..|line|] == line;
    assert SplitLines(line) == [line];
    assert line[5..] == [' '] + text;
    StripSpace(text);
    assert [line][1..] == [];
    assert DataLines([line]) == [text];
  }

  lemma EventIsOneFrame(text: string, rest: seq<Byte>)
    requires Sendable(text)
    ensures Find(Event(text) + rest) == Some(|Line(text)|)
  {
    var b := Event(text) + rest;
    var n := |Line(text)|;
    forall j | 0 <= j < n ensures !BreakAt(b, j) {
      assert b[j] == Bytes(Line(text))[j] != LF;
    }
    assert BreakAt(b, n);
  }

  lemma FirstEvent(decode: Decoder, text: string, rest: seq<Byte>)
    requires KeepsAscii(decode) && Sendable(text)
    ensures Payloads(decode, Event(text) + rest) == [text] + Payloads(decode, rest)
  {
    var b := Event(text) + rest;
    var n := |Line(text)|;
    EventIsOneFrame(text, rest);
    FirstFramePayloads(decode, b);
    assert b[..n] == Bytes(Line(text)) && b[n + 2..] == rest;
    BytesDecode(decode, Line(text));
    LinePayload(text);
    Regroup([text], FramePayloads(decode, Frames(rest)), TailPayloads(decode, Rest(rest)));
  }

  /** What the proxy sends is what framing reads, event for event and however it is cut. */
  lemma {:induction false} FramingRoundTrip(decode: Decoder, texts: seq<string>)
    requires KeepsAscii(decode) && forall t | t in texts :: Sendable(t)
    ensures Payloads(decode, Stream(texts)) == texts
  {
    if texts != [] {
      FirstEvent(decode, texts[0], Stream(texts[1..]));
      FramingRoundTrip(decode, texts[1..]);
      assert texts == [texts[0]] + texts[1..];
    } else {
      assert Frames([]) == [] && Rest([]) == [];
    }
  }
}
