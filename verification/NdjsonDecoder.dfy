/**
 The newline-delimited JSON decoder of the target's standard output.

 Three views of one decoder are related here: the plain reference that splits the whole stream on
 newlines (`Reference`), a machine that is fed one byte at a time (`Feed`), and the class that
 collects bytes in blocks of 64 KiB (`NdjsonDecoder`).  UTF-8 decoding, trimming and JSON parsing
 are one uninterpreted function `parse` from a payload to an optional message.
 */
module NdjsonDecoding {
  import opened Common

  newtype Byte = x: int | 0 <= x < 256

  const NEWLINE: Byte := 0x0a
  const CARRIAGE_RETURN: Byte := 0x0d
  const ACCUMULATOR_BLOCK_BYTES: nat := 65536

  datatype Fault = InvalidLimit | FrameTooLarge | EmptyFrame | Unparseable | IncompleteFrame | AlreadyFinished

  datatype Frame<M> = Frame(byteLength: nat, message: M)

  /** The limits and the parser one decoder is built with. */
  datatype Codec<!M> = Codec(maxFrameBytes: nat, parse: seq<Byte> -> Option<M>)

  /** The limits the constructor accepts; it throws for every other one. */
  predicate ValidLimit(maxFrameBytes: nat) {
    1 <= maxFrameBytes < MAX_SAFE_INTEGER
  }

  // ---------------------------------------------------------------- one line

  function StripCarriageReturn(line: seq<Byte>): seq<Byte> {
    if line != [] && line[|line| - 1] == CARRIAGE_RETURN then line[..|line| - 1] else line
  }

  /** What a complete line, without its newline, decodes to. */
  function DecodeLine<M>(codec: Codec<M>, line: seq<Byte>): Result<Frame<M>, Fault> {
    var payload := StripCarriageReturn(line);
    if |payload| > codec.maxFrameBytes then Failure(FrameTooLarge)
    else if payload == [] then Failure(EmptyFrame)
    else match codec.parse(payload)
      case None => Failure(Unparseable)
      case Some(message) => Success(Frame(|payload|, message))
  }

  /** No continuation of this unfinished line can be a frame within the limit. */
  predicate Overlong(line: seq<Byte>, maxFrameBytes: nat) {
    |line| > maxFrameBytes + 1 || (|line| == maxFrameBytes + 1 && line[|line| - 1] != CARRIAGE_RETURN)
  }

  // ---------------------------------------------------------------- the reference

  /** Frames handed to the consumer, and the failure that ended decoding, if any. */
  datatype Transcript<M> = Transcript(frames: seq<Frame<M>>, verdict: Option<Fault>)

  /** Position of the first newline at or after `from`, or the length of the bytes. */
  function NewlineIndex(bytes: seq<Byte>, from: nat): (index: nat)
    requires from <= |bytes|
    ensures from <= index <= |bytes|
    ensures forall i :: from <= i < index ==> bytes[i] != NEWLINE
    ensures index < |bytes| ==> bytes[index] == NEWLINE
    decreases |bytes| - from
  {
    if from == |bytes| || bytes[from] == NEWLINE then from else NewlineIndex(bytes, from + 1)
  }

  /** The whole stream, split on newlines in one pass. */
  function Reference<M>(codec: Codec<M>, stream: seq<Byte>): Transcript<M>
    decreases |stream|
  {
    var end := NewlineIndex(stream, 0);
    if end == |stream| then
      Transcript([], if stream == [] then None
                     else Some(if Overlong(stream, codec.maxFrameBytes) then FrameTooLarge else IncompleteFrame))
    else match DecodeLine(codec, stream[..end])
      case Failure(fault) => Transcript([], Some(fault))
      case Success(frame) =>
        var rest := Reference(codec, stream[end + 1..]);
        Transcript([frame] + rest.frames, rest.verdict)
  }

  function Flatten(chunks: seq<seq<Byte>>): seq<Byte> {
    if chunks == [] then [] else chunks[0] + Flatten(chunks[1..])
  }

  // ---------------------------------------------------------------- one byte at a time

  datatype Decoding = Reading(held: seq<Byte>) | Failed(fault: Fault)

  datatype Progress<M> = Progress(state: Decoding, frames: seq<Frame<M>>)

  function FeedByte<M>(codec: Codec<M>, state: Decoding, b: Byte): Progress<M> {
    match state
    case Failed(_) => Progress(state, [])
    case Reading(held) =>
      if b == NEWLINE then
        match DecodeLine(codec, held)
        case Failure(fault) => Progress(Failed(fault), [])
        case Success(frame) => Progress(Reading([]), [frame])
      else if Overlong(held + [b], codec.maxFrameBytes) then Progress(Failed(FrameTooLarge), [])
      else Progress(Reading(held + [b]), [])
  }

  function Feed<M>(codec: Codec<M>, state: Decoding, bytes: seq<Byte>): Progress<M> {
    if bytes == [] then Progress(state, [])
    else
      var before := Feed(codec, state, bytes[..|bytes| - 1]);
      var last := FeedByte(codec, before.state, bytes[|bytes| - 1]);
      Progress(last.state, before.frames + last.frames)
  }

  predicate Sound(codec: Codec, state: Decoding) {
    state.Reading? ==> !Overlong(state.held, codec.maxFrameBytes)
  }

  /** Feeding is indifferent to where the bytes are cut. */
  lemma {:induction false} FeedSplit<M>(codec: Codec<M>, state: Decoding, a: seq<Byte>, b: seq<Byte>)
    ensures var first := Feed(codec, state, a);
            var second := Feed(codec, first.state, b);
            Feed(codec, state, a + b) == Progress(second.state, first.frames + second.frames)
  {
    hide FeedByte;
    if b == [] {
      assert a + b == a;
    } else {
      var init := b[..|b| - 1];
      FeedSplit(codec, state, a, init);
      assert (a + b)[..|a + b| - 1] == a + init;
      var first, second := Feed(codec, state, a), Feed(codec, Feed(codec, state, a).state, init);
      var last := FeedByte(codec, second.state, b[|b| - 1]);
      assert first.frames + second.frames + last.frames == first.frames + (second.frames + last.frames);
    }
  }

  lemma {:induction false} FailedStays<M>(codec: Codec<M>, fault: Fault, bytes: seq<Byte>)
    ensures Feed(codec, Failed(fault), bytes) == Progress(Failed(fault), [])
  {
    if bytes != [] {
      FailedStays(codec, fault, bytes[..|bytes| - 1]);
    }
  }

  /** A run of bytes without a newline is held, or fails as soon as it is too long. */
  lemma {:induction false} FeedSegment<M>(codec: Codec<M>, held: seq<Byte>, segment: seq<Byte>)
    requires !Overlong(held, codec.maxFrameBytes)
    requires NEWLINE !in segment
    ensures Feed(codec, Reading(held), segment)
            == Progress(if Overlong(held + segment, codec.maxFrameBytes) then Failed(FrameTooLarge)
                        else Reading(held + segment), [])
  {
    if segment == [] {
      assert held + segment == held;
    } else {
      var init := segment[..|segment| - 1];
      assert segment[|segment| - 1] in segment;
      FeedSegment(codec, held, init);
      assert held + init + [segment[|segment| - 1]] == held + segment;
    }
  }

  /** State and frames after a line is completed by its newline. */
  function CompleteLine<M>(codec: Codec<M>, line: seq<Byte>): Progress<M> {
    match DecodeLine(codec, line)
    case Failure(fault) => Progress(Failed(fault), [])
    case Success(frame) => Progress(Reading([]), [frame])
  }

  /** A run of bytes closed by a newline decodes as one line, however much of it was held before. */
  lemma FeedLine<M>(codec: Codec<M>, held: seq<Byte>, segment: seq<Byte>)
    requires !Overlong(held, codec.maxFrameBytes)
    requires NEWLINE !in segment
    ensures Feed(codec, Reading(held), segment + [NEWLINE]) == CompleteLine(codec, held + segment)
  {
    FeedSegment(codec, held, segment);
    assert (segment + [NEWLINE])[..|segment|] == segment;
  }

  /** The first complete line of a stream is decoded on its own, then the rest. */
  lemma FeedFirstLine<M>(codec: Codec<M>, held: seq<Byte>, segment: seq<Byte>, rest: seq<Byte>)
    requires !Overlong(held, codec.maxFrameBytes)
    requires NEWLINE !in segment
    ensures var first := CompleteLine(codec, held + segment);
            var second := Feed(codec, first.state, rest);
            Feed(codec, Reading(held), segment + [NEWLINE] + rest)
            == Progress(second.state, first.frames + second.frames)
  {
    FeedLine(codec, held, segment);
    FeedSplit(codec, Reading(held), segment + [NEWLINE], rest);
  }

  /** All there will be, given the frames so far, the state and the bytes still to come. */
  function Ahead<M>(codec: Codec<M>, frames: seq<Frame<M>>, state: Decoding, rest: seq<Byte>): Progress<M> {
    var p := Feed(codec, state, rest);
    Progress(p.state, frames + p.frames)
  }

  lemma LineAhead<M>(codec: Codec<M>, frames: seq<Frame<M>>, held: seq<Byte>, segment: seq<Byte>, rest: seq<Byte>)
    requires !Overlong(held, codec.maxFrameBytes)
    requires NEWLINE !in segment
    ensures Ahead(codec, frames, Reading(held), segment + [NEWLINE] + rest)
            == match DecodeLine(codec, held + segment)
               case Failure(fault) => Progress(Failed(fault), frames)
               case Success(frame) => Ahead(codec, frames + [frame], Reading([]), rest)
  {
    FeedFirstLine(codec, held, segment, rest);
    match DecodeLine(codec, held + segment)
    case Failure(fault) =>
      FailedStays(codec, fault, rest);
    case Success(frame) =>
      var p := Feed(codec, Reading([]), rest);
      assert frames + ([frame] + p.frames) == frames + [frame] + p.frames;
  }

  lemma ChunkAhead<M>(codec: Codec<M>, frames: seq<Frame<M>>, state: Decoding, chunks: seq<seq<Byte>>)
    requires chunks != []
    ensures var p := Feed(codec, state, chunks[0]);
            Ahead(codec, frames, state, Flatten(chunks))
            == Ahead(codec, frames + p.frames, p.state, Flatten(chunks[1..]))
    ensures state.Failed? ==> Feed(codec, state, chunks[0]) == Progress(state, [])
  {
    hide Feed;
    FeedSplit(codec, state, chunks[0], Flatten(chunks[1..]));
    var p := Feed(codec, state, chunks[0]);
    var q := Feed(codec, p.state, Flatten(chunks[1..]));
    assert frames + (p.frames + q.frames) == frames + p.frames + q.frames;
    if state.Failed? {
      FailedStays(codec, state.fault, chunks[0]);
    }
  }

  lemma SegmentAhead<M>(codec: Codec<M>, frames: seq<Frame<M>>, held: seq<Byte>, segment: seq<Byte>)
    requires !Overlong(held, codec.maxFrameBytes)
    requires NEWLINE !in segment
    ensures Ahead(codec, frames, Reading(held), segment)
            == if Overlong(held + segment, codec.maxFrameBytes) then Progress(Failed(FrameTooLarge), frames)
               else Ahead(codec, frames, Reading(held + segment), [])
  {
    FeedSegment(codec, held, segment);
  }

  /** Exactly the lines that are cut off early would be refused as too large once complete. */
  lemma OverlongIsTooLarge(codec: Codec, line: seq<Byte>)
    requires codec.maxFrameBytes >= 1
    ensures Overlong(line, codec.maxFrameBytes) <==> |StripCarriageReturn(line)| > codec.maxFrameBytes
  {
  }

  /** What `finish` reports after feeding. */
  function Closing(state: Decoding): Option<Fault> {
    match state
    case Failed(fault) => Some(fault)
    case Reading(held) => if held == [] then None else Some(IncompleteFrame)
  }

  /** The first line of a stream, fed to a decoder that holds nothing. */
  lemma FeedFreshLine<M>(codec: Codec<M>, line: seq<Byte>, rest: seq<Byte>)
    requires NEWLINE !in line
    ensures Feed(codec, Reading([]), line + [NEWLINE] + rest)
            == match DecodeLine(codec, line)
               case Failure(fault) => Progress(Failed(fault), [])
               case Success(frame) =>
                 var later := Feed(codec, Reading([]), rest);
                 Progress(later.state, [frame] + later.frames)
  {
    hide Feed;
    assert [] + line == line;
    FeedFirstLine(codec, [], line, rest);
    var first := CompleteLine(codec, line);
    if first.state.Failed? {
      FailedStays(codec, first.state.fault, rest);
    }
  }

  /** Byte-at-a-time decoding of a whole stream is the reference. */
  lemma {:induction false} FeedIsReference<M>(codec: Codec<M>, stream: seq<Byte>)
    ensures var all := Feed(codec, Reading([]), stream);
            Reference(codec, stream) == Transcript(all.frames, Closing(all.state))
    decreases |stream|
  {
    hide Feed, DecodeLine;
    var end := NewlineIndex(stream, 0);
    if end == |stream| {
      FeedSegment(codec, [], stream);
      assert [] + stream == stream;
    } else {
      var line, rest := stream[..end], stream[end + 1..];
      assert stream == line + [NEWLINE] + rest;
      FeedFreshLine(codec, line, rest);
      FeedIsReference(codec, rest);
    }
  }

  /** Feeding a stream chunk by chunk. */
  function FeedChunks<M>(codec: Codec<M>, state: Decoding, chunks: seq<seq<Byte>>): Progress<M>
    decreases |chunks|
  {
    if chunks == [] then Progress(state, [])
    else
      var first := Feed(codec, state, chunks[0]);
      var rest := FeedChunks(codec, first.state, chunks[1..]);
      Progress(rest.state, first.frames + rest.frames)
  }

  lemma {:induction false} ChunksAreOneChunk<M>(codec: Codec<M>, state: Decoding, chunks: seq<seq<Byte>>)
    ensures FeedChunks(codec, state, chunks) == Feed(codec, state, Flatten(chunks))
    decreases |chunks|
  {
    if chunks != [] {
      ChunksAreOneChunk(codec, Feed(codec, state, chunks[0]).state, chunks[1..]);
      FeedSplit(codec, state, chunks[0], Flatten(chunks[1..]));
    }
  }

  /** However a stream is cut, its frames, their lengths and the verdict are those of the reference. */
  lemma ChunkIndependence<M>(codec: Codec<M>, chunks: seq<seq<Byte>>)
    ensures var all := FeedChunks(codec, Reading([]), chunks);
            Transcript(all.frames, Closing(all.state)) == Reference(codec, Flatten(chunks))
  {
    ChunksAreOneChunk(codec, Reading([]), chunks);
    FeedIsReference(codec, Flatten(chunks));
  }

  // ---------------------------------------------------------------- printed frames

  /** One printed message and its newline, as the writer puts it on the stream. */
  function FrameBytes(payload: seq<Byte>): seq<Byte> {
    payload + [NEWLINE]
  }

  function Wire<M>(render: M -> seq<Byte>, messages: seq<M>): seq<Byte> {
    if messages == [] then [] else FrameBytes(render(messages[0])) + Wire(render, messages[1..])
  }

  function FramesOf<M>(render: M -> seq<Byte>, messages: seq<M>): seq<Frame<M>> {
    if messages == [] then [] else [Frame(|render(messages[0])|, messages[0])] + FramesOf(render, messages[1..])
  }

  /** All that is assumed of JSON: printing is non-empty, one line, does not end in CR, and parses back. */
  ghost predicate PrintsOneLine<M>(codec: Codec<M>, render: M -> seq<Byte>, message: M) {
    var payload := render(message);
    && payload != [] && NEWLINE !in payload && payload[|payload| - 1] != CARRIAGE_RETURN
    && codec.parse(payload) == Some(message)
  }

  ghost predicate Prints<M>(codec: Codec<M>, render: M -> seq<Byte>, message: M) {
    PrintsOneLine(codec, render, message) && |render(message)| <= codec.maxFrameBytes
  }

  lemma NewlineIndexOfFrame(payload: seq<Byte>, rest: seq<Byte>, from: nat)
    requires NEWLINE !in payload && from <= |payload|
    ensures NewlineIndex(FrameBytes(payload) + rest, from) == |payload|
    decreases |payload| - from
  {
    if from < |payload| {
      assert (FrameBytes(payload) + rest)[from] == payload[from];
      NewlineIndexOfFrame(payload, rest, from + 1);
    }
  }

  /** A line end on the wire: CR LF or LF alone. */
  function LineEnd(crLf: bool): seq<Byte> {
    if crLf then [13, 10] else [10]
  }

  /** Printed messages, each with its own line end. */
  function EndedWire<M>(render: M -> seq<Byte>, messages: seq<M>, crLf: seq<bool>): seq<Byte>
    requires |crLf| == |messages|
  {
    if messages == [] then []
    else render(messages[0]) + LineEnd(crLf[0]) + EndedWire(render, messages[1..], crLf[1..])
  }

  /** The bytes of a line up to its end, whichever that is; a text that ends in CR needs CR LF. */
  lemma LineIsParsed<M>(codec: Codec<M>, text: seq<Byte>, crLf: bool)
    requires crLf || text == [] || text[|text| - 1] != 13
    ensures DecodeLine(codec, if crLf then text + [13] else text)
            == if |text| > codec.maxFrameBytes then Failure(FrameTooLarge)
               else if text == [] then Failure(EmptyFrame)
               else if codec.parse(text).None? then Failure(Unparseable)
               else Success(Frame(|text|, codec.parse(text).value))
  {
  }

  /** A line at the head of a stream is decoded by itself. */
  lemma ReferenceOfLine<M>(codec: Codec<M>, text: seq<Byte>, crLf: bool, rest: seq<Byte>)
    requires NEWLINE !in text
    ensures Reference(codec, text + LineEnd(crLf) + rest)
            == match DecodeLine(codec, if crLf then text + [13] else text)
               case Failure(fault) => Transcript([], Some(fault))
               case Success(frame) =>
                 Transcript([frame] + Reference(codec, rest).frames, Reference(codec, rest).verdict)
  {
    var line := if crLf then text + [13] else text;
    var stream := text + LineEnd(crLf) + rest;
    assert stream == FrameBytes(line) + rest;
    NewlineIndexOfFrame(line, rest, 0);
    assert stream[..|line|] == line && stream[|line| + 1..] == rest;
  }

  /** A printed message at the head of a stream decodes to itself. */
  lemma PrintedLineDecodes<M>(codec: Codec<M>, render: M -> seq<Byte>, message: M, crLf: bool, rest: seq<Byte>)
    requires Prints(codec, render, message)
    ensures Reference(codec, render(message) + LineEnd(crLf) + rest)
            == Transcript([Frame(|render(message)|, message)] + Reference(codec, rest).frames,
                          Reference(codec, rest).verdict)
  {
    hide Reference;
    LineIsParsed(codec, render(message), crLf);
    hide DecodeLine, LineEnd;
    ReferenceOfLine(codec, render(message), crLf, rest);
  }

  lemma WireStep<M>(render: M -> seq<Byte>, messages: seq<M>, crLf: seq<bool>, rest: seq<Byte>)
    requires |crLf| == |messages| && messages != []
    ensures EndedWire(render, messages, crLf) + rest
            == render(messages[0]) + LineEnd(crLf[0]) + (EndedWire(render, messages[1..], crLf[1..]) + rest)
  {
  }

  /** Printed messages at the head of a stream decode to themselves, whatever follows. */
  lemma {:induction false} PrintedHeadDecodes<M>(codec: Codec<M>, render: M -> seq<Byte>, messages: seq<M>,
                                                 crLf: seq<bool>, rest: seq<Byte>)
    requires |crLf| == |messages| && forall m :: m in messages ==> Prints(codec, render, m)
    ensures Reference(codec, EndedWire(render, messages, crLf) + rest)
            == Transcript(FramesOf(render, messages) + Reference(codec, rest).frames, Reference(codec, rest).verdict)
  {
    hide Reference, Prints, LineEnd;
    if messages == [] {
      assert EndedWire(render, messages, crLf) + rest == rest;
      assert FramesOf(render, messages) + Reference(codec, rest).frames == Reference(codec, rest).frames;
    } else {
      hide EndedWire;
      assert messages[0] in messages;
      WireStep(render, messages, crLf, rest);
      PrintedLineDecodes(codec, render, messages[0], crLf[0], EndedWire(render, messages[1..], crLf[1..]) + rest);
      PrintedHeadDecodes(codec, render, messages[1..], crLf[1..], rest);
      var first, later, last := Frame(|render(messages[0])|, messages[0]), FramesOf(render, messages[1..]),
                                Reference(codec, rest).frames;
      assert [first] + (later + last) == [first] + later + last;
    }
  }

  /** Printed messages decode to themselves, without a fault, whether each line ends in CR LF or in LF. */
  lemma PrintedStreamDecodes<M>(codec: Codec<M>, render: M -> seq<Byte>, messages: seq<M>, crLf: seq<bool>)
    requires |crLf| == |messages| && forall m :: m in messages ==> Prints(codec, render, m)
    ensures Reference(codec, EndedWire(render, messages, crLf)) == Transcript(FramesOf(render, messages), None)
  {
    hide DecodeLine, FramesOf;
    PrintedHeadDecodes(codec, render, messages, crLf, []);
    assert EndedWire(render, messages, crLf) + [] == EndedWire(render, messages, crLf);
    assert FramesOf(render, messages) + [] == FramesOf(render, messages);
  }

  /** The first line that is too large, empty or not parsed ends a stream, behind all the frames before it. */
  lemma BadLineEndsStream<M>(codec: Codec<M>, render: M -> seq<Byte>, messages: seq<M>, crLf: seq<bool>,
                             text: seq<Byte>, end: bool, rest: seq<Byte>)
    requires |crLf| == |messages| && forall m :: m in messages ==> Prints(codec, render, m)
    requires 10 !in text && (end || text == [] || text[|text| - 1] != 13)
    requires |text| > codec.maxFrameBytes || text == [] || codec.parse(text).None?
    ensures Reference(codec, EndedWire(render, messages, crLf) + (text + LineEnd(end) + rest))
            == Transcript(FramesOf(render, messages),
                          Some(if |text| > codec.maxFrameBytes then FrameTooLarge
                               else if text == [] then EmptyFrame else Unparseable))
  {
    hide Reference, FramesOf;
    LineIsParsed(codec, text, end);
    hide DecodeLine;
    ReferenceOfLine(codec, text, end, rest);
    PrintedHeadDecodes(codec, render, messages, crLf, text + LineEnd(end) + rest);
    assert FramesOf(render, messages) + [] == FramesOf(render, messages);
  }

  /** A stream that breaks off inside a line is incomplete, or too large if no line end could still save that line. */
  lemma BrokenOffStream<M>(codec: Codec<M>, render: M -> seq<Byte>, messages: seq<M>, crLf: seq<bool>, text: seq<Byte>)
    requires |crLf| == |messages| && forall m :: m in messages ==> Prints(codec, render, m)
    requires 10 !in text && text != []
    ensures Reference(codec, EndedWire(render, messages, crLf) + text)
            == Transcript(FramesOf(render, messages),
                          Some(if |text| - (if text[|text| - 1] == 13 then 1 else 0) > codec.maxFrameBytes
                               then FrameTooLarge else IncompleteFrame))
  {
    hide FramesOf;
    PrintedHeadDecodes(codec, render, messages, crLf, text);
    assert FramesOf(render, messages) + [] == FramesOf(render, messages);
  }

  lemma {:induction false} WireIsEnded<M>(render: M -> seq<Byte>, messages: seq<M>)
    ensures Wire(render, messages) == EndedWire(render, messages, seq(|messages|, _ => false))
  {
    if messages != [] {
      WireIsEnded(render, messages[1..]);
      assert seq(|messages|, _ => false)[1..] == seq(|messages| - 1, _ => false);
    }
  }

  // ---------------------------------------------------------------- the block accumulator

  function Joined(blocks: seq<array<Byte>>): seq<Byte>
    reads blocks
  {
    if blocks == [] then [] else Joined(blocks[..|blocks| - 1]) + blocks[|blocks| - 1][..]
  }

  /** No block is open: all are full blocks, or the last one was cut to the limit and is full. */
  predicate ClosedShape(limit: nat, count: nat, bytes: nat) {
    || bytes == 65536 * count
    || (bytes == limit + 1 && 65536 * (count - 1) < bytes <= 65536 * count)
  }

  /** A block of `capacity` bytes is open behind `count` full ones and has room left. */
  predicate OpenShape(limit: nat, count: nat, bytes: nat, capacity: nat, used: nat) {
    && bytes == 65536 * count <= limit
    && used < capacity == (if limit + 1 - bytes < ACCUMULATOR_BLOCK_BYTES then limit + 1 - bytes
                           else ACCUMULATOR_BLOCK_BYTES)
  }

  method CopyBytes(source: seq<Byte>, target: array<Byte>, at: nat)
    requires at + |source| <= target.Length
    modifies target
    ensures target[..] == old(target[..at]) + source + old(target[at + |source|..])
  {
    forall i | 0 <= i < |source| {
      target[at + i] := source[i];
    }
  }

  method IndexOfNewline(bytes: seq<Byte>, from: nat) returns (index: nat)
    requires from <= |bytes|
    ensures index == NewlineIndex(bytes, from)
  {
    index := from;
    while index < |bytes| && bytes[index] != NEWLINE
      invariant from <= index <= |bytes|
      invariant NewlineIndex(bytes, from) == NewlineIndex(bytes, index)
    {
      index := index + 1;
    }
  }

  lemma SplitAround(s: seq<Byte>, from: nat, k: nat)
    requires from <= k < |s|
    ensures s[from..] == s[from..k] + [s[k]] + s[k + 1..]
  {
    assert s[from..] == s[from..k] + s[k..];
    assert s[k..] == [s[k]] + s[k + 1..];
  }

  class NdjsonDecoder<M> {
    const codec: Codec<M>
    var blocks: seq<array<Byte>>
    var tail: array?<Byte>
    var tailLength: nat
    var bufferedBytes: nat
    var failure: Option<Fault>
    var finished: bool

    /** The bytes of the unfinished line. */
    ghost function Held(): seq<Byte>
      reads this, blocks, tail
    {
      Joined(blocks) + (if tail == null then [] else if tailLength <= tail.Length then tail[..tailLength] else [])
    }

    /** The open block is the one given or was allocated since the method began. */
    twostate predicate TailOwned(before: array?<Byte>)
      reads this
    {
      tail == null || tail == before || fresh(tail)
    }

    ghost function State(): Decoding
      reads this, blocks, tail
    {
      if failure.Some? then Failed(failure.value) else Reading(Held())
    }

    /** The accumulator's shape, also while a block is being filled. */
    ghost predicate Blocks()
      reads this, blocks, tail
    {
      && codec.maxFrameBytes >= 1
      && bufferedBytes == |Held()|
      && (tail == null ==> tailLength == 0 && ClosedShape(codec.maxFrameBytes, |blocks|, |Joined(blocks)|))
      && (tail != null ==>
            tail !in blocks && OpenShape(codec.maxFrameBytes, |blocks|, |Joined(blocks)|, tail.Length, tailLength))
    }

    ghost predicate Valid()
      reads this, blocks, tail
    {
      && Blocks()
      && (tail != null ==> tailLength > 0)
      && !Overlong(Held(), codec.maxFrameBytes)
      && (failure.Some? ==> Held() == [])
    }

    constructor (codec: Codec<M>)
      requires ValidLimit(codec.maxFrameBytes)
      ensures Valid() && tail == null
      ensures this.codec == codec && State() == Reading([]) && !finished
    {
      this.codec := codec;
      blocks, tail, tailLength, bufferedBytes := [], null, 0, 0;
      failure, finished := None, false;
    }

    method BufferedBlockCount() returns (count: nat)
      requires Valid()
      ensures 65536 * (count - 1) < |Held()| <= 65536 * count
    {
      count := |blocks| + (if tail == null then 0 else 1);
    }

    /** Buffers a run of bytes that holds no newline, filling blocks in place. */
    method Append(segment: seq<Byte>) returns (fault: Option<Fault>)
      requires Valid() && failure.None?
      modifies this, tail
      ensures Valid() && TailOwned(old(tail))
      ensures failure == old(failure) && finished == old(finished)
      ensures fault == if Overlong(old(Held()) + segment, codec.maxFrameBytes) then Some(FrameTooLarge) else None
      ensures Held() == if fault.Some? then old(Held()) else old(Held()) + segment
    {
      if |segment| == 0 {
        assert Held() + segment == Held();
        return None;
      }
      var nextSize := bufferedBytes + |segment|;
      var isPotentialCrLf := nextSize == codec.maxFrameBytes + 1 && segment[|segment| - 1] == CARRIAGE_RETURN;
      if nextSize > codec.maxFrameBytes && !isPotentialCrLf {
        return Some(FrameTooLarge);
      }
      Accumulate(segment);
      fault := None;
    }

    /** The copy loop; every round copies at least one byte. */
    method Accumulate(segment: seq<Byte>)
      requires Blocks() && (tail != null ==> tailLength > 0)
      requires bufferedBytes + |segment| <= codec.maxFrameBytes + 1
      modifies this, tail
      ensures Blocks() && TailOwned(old(tail))
      ensures tail != null ==> tailLength > 0
      ensures failure == old(failure) && finished == old(finished)
      ensures Held() == old(Held()) + segment
    {
      hide Joined, OpenShape, ClosedShape;
      var offset := 0;
      while offset < |segment|
        invariant 0 <= offset <= |segment|
        invariant Blocks() && TailOwned(old(tail))
        invariant tail != null ==> tailLength > 0
        invariant failure == old(failure) && finished == old(finished)
        invariant Held() == old(Held()) + segment[..offset]
      {
        if tail == null {
          OpenTail();
        }
        ghost var before := offset;
        offset := FillBlock(segment, offset);
        assert segment[..before] + segment[before..offset] == segment[..offset];
      }
      assert segment[..offset] == segment;
    }

    /** Fills the open block, and retires it once it is full. */
    method FillBlock(segment: seq<Byte>, offset: nat) returns (next: nat)
      requires Blocks() && tail != null && offset < |segment|
      requires bufferedBytes + |segment| - offset <= codec.maxFrameBytes + 1
      modifies this, tail
      ensures Blocks() && (tail == null || (tail == old(tail) && tailLength > 0))
      ensures failure == old(failure) && finished == old(finished)
      ensures offset < next <= |segment|
      ensures Held() == old(Held()) + segment[offset..next]
    {
      ghost var held, retired := Held(), Joined(blocks);
      next := CopyIntoTail(segment, offset);
      assert Joined(blocks) == retired;
      assert Held() == held + segment[offset..next];
      if tailLength == tail.Length {
        RetireTail();
      }
    }

    /** Allocates the next block, no larger than the limit can still need. */
    method OpenTail()
      requires Blocks() && tail == null && bufferedBytes <= codec.maxFrameBytes
      modifies this`tail, this`tailLength
      ensures Blocks() && fresh(tail) && Held() == old(Held())
    {
      var remainingCapacity := codec.maxFrameBytes + 1 - bufferedBytes;
      tail := new Byte[if ACCUMULATOR_BLOCK_BYTES < remainingCapacity then ACCUMULATOR_BLOCK_BYTES
                       else remainingCapacity];
      tailLength := 0;
    }

    /** Copies as much of the segment as the open block still takes. */
    method CopyIntoTail(segment: seq<Byte>, offset: nat) returns (next: nat)
      requires tail != null && tailLength < tail.Length && offset < |segment|
      modifies this`tailLength, this`bufferedBytes, tail
      ensures offset < next <= |segment| && tailLength <= tail.Length
      ensures next == |segment| || tailLength == tail.Length
      ensures tailLength == old(tailLength) + next - offset
      ensures bufferedBytes == old(bufferedBytes) + next - offset
      ensures tail[..tailLength] == old(tail[..tailLength]) + segment[offset..next]
    {
      var writableBytes := tail.Length - tailLength;
      var copyBytes := if writableBytes < |segment| - offset then writableBytes else |segment| - offset;
      next := offset + copyBytes;
      CopyBytes(segment[offset..next], tail, tailLength);
      tailLength := tailLength + copyBytes;
      bufferedBytes := bufferedBytes + copyBytes;
    }

    /** Moves a full block to the retired ones. */
    method RetireTail()
      requires tail != null && tailLength == tail.Length
      modifies this`blocks, this`tail, this`tailLength
      ensures tail == null && tailLength == 0
      ensures blocks == old(blocks) + [old(tail)]
      ensures Joined(blocks) == old(Joined(blocks) + tail[..tailLength])
    {
      assert (blocks + [tail])[..|blocks|] == blocks;
      assert tail[..] == tail[..tailLength];
      blocks := blocks + [tail];
      tail := null;
      tailLength := 0;
    }

    /** All buffered bytes as one buffer. */
    method Collect() returns (bytes: seq<Byte>)
      requires Valid()
      ensures bytes == Held()
    {
      bytes := [];
      for i := 0 to |blocks|
        invariant bytes == Joined(blocks[..i])
      {
        assert blocks[..i + 1][..i] == blocks[..i];
        bytes := bytes + blocks[i][..];
      }
      assert blocks[..|blocks|] == blocks;
      if tail != null && tailLength != 0 {
        bytes := bytes + tail[..tailLength];
      }
    }

    method ResetBuffer()
      requires codec.maxFrameBytes >= 1
      modifies this`blocks, this`tail, this`tailLength, this`bufferedBytes
      ensures Valid() && Held() == [] && tail == null
    {
      blocks, tail, tailLength, bufferedBytes := [], null, 0, 0;
    }

    /** Latches a failure and drops what was buffered. */
    method Fail(fault: Fault)
      requires codec.maxFrameBytes >= 1
      modifies this`blocks, this`tail, this`tailLength, this`bufferedBytes, this`failure
      ensures Valid() && State() == Failed(fault) && tail == null
    {
      failure := Some(fault);
      ResetBuffer();
    }

    /** The line ended in this chunk but began in an earlier one. */
    method CompleteBufferedFrame(finalSegment: seq<Byte>) returns (r: Result<Frame<M>, Fault>)
      requires Valid() && failure.None? && Held() != []
      modifies this, tail
      ensures Valid() && TailOwned(old(tail)) && failure.None? && finished == old(finished)
      ensures r == DecodeLine(codec, old(Held()) + finalSegment)
      ensures r.Success? ==> Held() == []
    {
      hide Joined;
      OverlongIsTooLarge(codec, Held() + finalSegment);
      var fault := Append(finalSegment);
      if fault.Some? {
        return Failure(fault.value);
      }
      r := CompleteHeldFrame();
    }

    method CompleteHeldFrame() returns (r: Result<Frame<M>, Fault>)
      requires Valid() && failure.None? && Held() != []
      modifies this`blocks, this`tail, this`tailLength, this`bufferedBytes
      ensures Valid() && tail == null && Held() == []
      ensures r == DecodeLine(codec, old(Held()))
    {
      OverlongIsTooLarge(codec, Held());
      var bytes := Collect();
      var hasCrLfDelimiter := bytes[|bytes| - 1] == CARRIAGE_RETURN;
      var wireByteLength := bufferedBytes - (if hasCrLfDelimiter then 1 else 0);
      ResetBuffer();
      if hasCrLfDelimiter {
        bytes := bytes[..|bytes| - 1];
      }
      r := DecodeFrame(bytes, wireByteLength);
    }

    method CompleteFrame(segment: seq<Byte>) returns (r: Result<Frame<M>, Fault>)
      requires Valid() && failure.None?
      modifies this, tail
      ensures Valid() && TailOwned(old(tail)) && failure.None? && finished == old(finished)
      ensures r == DecodeLine(codec, old(Held()) + segment)
      ensures r.Success? ==> Held() == []
    {
      if bufferedBytes == 0 {
        assert Held() + segment == segment;
        r := CompleteDirectFrame(segment);
      } else {
        r := CompleteBufferedFrame(segment);
      }
    }

    /** The line lies inside one chunk. */
    method CompleteDirectFrame(segment: seq<Byte>) returns (r: Result<Frame<M>, Fault>)
      ensures r == DecodeLine(codec, segment)
    {
      var hasCrLfDelimiter := |segment| > 0 && segment[|segment| - 1] == CARRIAGE_RETURN;
      var bytes := if hasCrLfDelimiter then segment[..|segment| - 1] else segment;
      if |bytes| > codec.maxFrameBytes {
        return Failure(FrameTooLarge);
      }
      r := DecodeFrame(bytes, |bytes|);
    }

    method DecodeFrame(bytes: seq<Byte>, wireByteLength: nat) returns (r: Result<Frame<M>, Fault>)
      ensures r == if bytes == [] then Failure(EmptyFrame)
                   else match codec.parse(bytes)
                        case None => Failure(Unparseable)
                        case Some(message) => Success(Frame(wireByteLength, message))
    {
      if |bytes| == 0 {
        return Failure(EmptyFrame);
      }
      match codec.parse(bytes)
      case None => r := Failure(Unparseable);
      case Some(message) => r := Success(Frame(wireByteLength, message));
    }

    /** Decodes one non-empty chunk; the frames are those the consumer has been called with, in order. */
    method DecodeChunk(chunk: seq<Byte>) returns (frames: seq<Frame<M>>, fault: Option<Fault>)
      requires Valid() && failure.None?
      modifies this, tail
      ensures Valid() && TailOwned(old(tail)) && failure.None? && finished == old(finished)
      ensures Ahead(codec, [], old(State()), chunk)
              == Progress(if fault.Some? then Failed(fault.value) else State(), frames)
    {
      frames := [];
      var offset := 0;
      assert chunk[0..] == chunk;
      while offset < |chunk|
        invariant 0 <= offset <= |chunk|
        invariant Valid() && TailOwned(old(tail)) && failure.None? && finished == old(finished)
        invariant Ahead(codec, frames, State(), chunk[offset..]) == Ahead(codec, [], old(State()), chunk)
      {
        frames, offset, fault := DecodeNext(chunk, offset, frames);
        if fault.Some? {
          return;
        }
      }
      fault := None;
    }

    /** Takes the bytes up to the next newline, or all that is left of the chunk. */
    method DecodeNext(chunk: seq<Byte>, offset: nat, frames: seq<Frame<M>>)
      returns (delivered: seq<Frame<M>>, next: nat, fault: Option<Fault>)
      requires Valid() && failure.None? && offset < |chunk|
      modifies this, tail
      ensures Valid() && TailOwned(old(tail)) && failure.None? && finished == old(finished)
      ensures offset < next <= |chunk|
      ensures Ahead(codec, frames, old(State()), chunk[offset..])
              == if fault.Some? then Progress(Failed(fault.value), delivered)
                 else Ahead(codec, delivered, State(), chunk[next..])
    {
      hide Ahead, DecodeLine, Overlong, Joined;
      var newlineIndex := IndexOfNewline(chunk, offset);
      var segment := chunk[offset..newlineIndex];
      if newlineIndex == |chunk| {
        assert chunk[offset..] == segment && chunk[|chunk|..] == [];
        SegmentAhead(codec, frames, Held(), segment);
        fault := Append(segment);
        return frames, |chunk|, fault;
      }
      next := newlineIndex + 1;
      SplitAround(chunk, offset, newlineIndex);
      LineAhead(codec, frames, Held(), segment, chunk[next..]);
      var r := CompleteFrame(segment);
      match r
      case Failure(error) =>
        delivered, fault := frames, Some(error);
      case Success(frame) =>
        delivered, fault := frames + [frame], None;
    }

    method PushEach(chunk: seq<Byte>) returns (frames: seq<Frame<M>>, fault: Option<Fault>)
      requires Valid()
      modifies this, tail
      ensures Valid() && TailOwned(old(tail)) && finished == old(finished)
      ensures old(failure).Some? ==> frames == [] && fault == old(failure) && State() == old(State())
      ensures old(failure).None? && finished ==>
                frames == [] && fault == Some(AlreadyFinished) && State() == old(State())
      ensures old(failure).None? && !finished ==>
                var p := Feed(codec, old(State()), chunk);
                State() == p.state && frames == p.frames && fault == failure
    {
      if failure.Some? {
        return [], failure;
      }
      if finished {
        return [], Some(AlreadyFinished);
      }
      if |chunk| == 0 {
        return [], None;
      }
      frames, fault := DecodeChunk(chunk);
      if fault.Some? {
        Fail(fault.value);
      }
    }

    method Finish() returns (fault: Option<Fault>)
      requires Valid()
      modifies this
      ensures Valid()
      ensures old(failure).None? ==> finished
      ensures fault == if old(failure).None? && old(finished) then None else Closing(old(State()))
      ensures State() == if fault.Some? then Failed(fault.value) else old(State())
    {
      if failure.Some? {
        return failure;
      }
      if finished {
        return None;
      }
      finished := true;
      if bufferedBytes != 0 {
        Fail(IncompleteFrame);
        return failure;
      }
      fault := None;
    }
  }

  /** A decoder driven over a whole stream, chunk by chunk, until it fails or the stream ends. */
  method DecodeStream<M>(codec: Codec<M>, chunks: seq<seq<Byte>>) returns (transcript: Transcript<M>)
    ensures transcript == if 1 <= codec.maxFrameBytes <= 9007199254740990 then Reference(codec, Flatten(chunks))
                          else Transcript([], Some(InvalidLimit))
  {
    if !ValidLimit(codec.maxFrameBytes) {
      return Transcript([], Some(InvalidLimit));
    }
    var decoder := new NdjsonDecoder(codec);
    var frames: seq<Frame<M>> := [];
    for i := 0 to |chunks|
      invariant fresh(decoder) && decoder.codec == codec && decoder.Valid() && !decoder.finished
      invariant decoder.tail == null || fresh(decoder.tail)
      invariant Ahead(codec, frames, decoder.State(), Flatten(chunks[i..])) == Feed(codec, Reading([]), Flatten(chunks))
    {
      ChunkAhead(codec, frames, decoder.State(), chunks[i..]);
      var delivered, fault := decoder.PushEach(chunks[i]);
      frames := frames + delivered;
    }
    var verdict := decoder.Finish();
    FeedIsReference(codec, Flatten(chunks));
    transcript := Transcript(frames, verdict);
  }
}
