/**
 From one end of the pipe to the other: messages accepted by a writer, cut into chunks at will, decoded,
 queued and received.
 */
module RoundTrip {
  import opened Common
  import opened NdjsonDecoding
  import Writer = SerializedWriter
  import Queue = MessageQueue

  /** No accepted payload exceeds the writer's frame limit. */
  lemma {:induction false} AcceptedFits(options: Writer.Options, events: seq<Writer.Event>)
    ensures forall i :: 0 <= i < |Writer.Run(options, events).accepted| ==>
              |Writer.Run(options, events).accepted[i]| <= options.maxFrameBytes
  {
    if events != [] {
      var init := events[..|events| - 1];
      AcceptedFits(options, init);
      Writer.AcceptedGrows(options, Writer.Run(options, init), events[|events| - 1]);
    }
  }

  /** The frames on the stream are those of the first accepted payloads. */
  lemma WrittenAreAccepted(options: Writer.Options, events: seq<Writer.Event>)
    ensures var s := Writer.Run(options, events);
            var written := Writer.Written(s.log);
            |written| <= |s.accepted| && forall i :: 0 <= i < |written| ==> written[i] == FrameBytes(s.accepted[i])
  {
    Writer.RunKeepsInv(options, events);
  }

  /** The payloads of the given messages. */
  function Payloads<M>(render: M -> seq<Byte>, messages: seq<M>): seq<seq<Byte>> {
    seq(|messages|, i requires 0 <= i < |messages| => render(messages[i]))
  }

  lemma {:induction false} FlattenFrames<M>(render: M -> seq<Byte>, messages: seq<M>, frames: seq<seq<Byte>>)
    requires |frames| == |messages|
    requires forall i :: 0 <= i < |frames| ==> frames[i] == FrameBytes(render(messages[i]))
    ensures Flatten(frames) == Wire(render, messages)
  {
    if frames != [] {
      FlattenFrames(render, messages[1..], frames[1..]);
    }
  }

  lemma {:induction false} FramesOfAt<M>(render: M -> seq<Byte>, messages: seq<M>, i: nat)
    requires i < |messages|
    ensures |FramesOf(render, messages)| == |messages|
    ensures FramesOf(render, messages)[i] == Frame(|render(messages[i])|, messages[i])
  {
    if i > 0 {
      FramesOfAt(render, messages[1..], i - 1);
    } else if |messages| > 1 {
      FramesOfAt(render, messages[1..], 0);
    }
  }

  /**
   What the writer put on the stream decodes, however it is cut, to the first of its accepted messages,
   and every decoded length is one less than the length on the receipt.
   */
  lemma WrittenStreamDecodes<M>(codec: Codec<M>, render: M -> seq<Byte>, options: Writer.Options,
                                events: seq<Writer.Event>, messages: seq<M>, chunks: seq<seq<Byte>>)
    requires options.maxFrameBytes <= codec.maxFrameBytes
    requires Writer.Run(options, events).accepted == Payloads(render, messages)
    requires forall m :: m in messages ==> PrintsOneLine(codec, render, m)
    requires Flatten(chunks) == Flatten(Writer.Written(Writer.Run(options, events).log))
    ensures var s := Writer.Run(options, events);
            var n := |Writer.Written(s.log)|;
            var decoded := FeedChunks(codec, Reading([]), chunks);
            && n <= |messages|
            && decoded == Progress(Reading([]), FramesOf(render, messages[..n]))
            && |s.resolved| <= |decoded.frames| == n && |s.resolved| <= |s.receipts|
            && forall i :: 0 <= i < |s.resolved| ==>
                 && s.receipts[i].promise.Fulfilled?
                 && decoded.frames[i].message == messages[i]
                 && decoded.frames[i].byteLength + 1 == s.receipts[i].promise.value.byteLength
  {
    hide Writer.Run;
    var s := Writer.Run(options, events);
    Writer.ReceiptsAreGapFree(options, events);
    WrittenAreAccepted(options, events);
    var frames := Writer.Written(s.log);
    var sent := messages[..|frames|];
    AcceptedFits(options, events);
    forall m | m in sent
      ensures Prints(codec, render, m)
    {
      var i :| 0 <= i < |sent| && sent[i] == m;
      assert s.accepted[i] == render(messages[i]);
    }
    FramesDecode(codec, render, sent, frames, chunks);
  }

  lemma FramesDecode<M>(codec: Codec<M>, render: M -> seq<Byte>, sent: seq<M>, frames: seq<seq<Byte>>,
                        chunks: seq<seq<Byte>>)
    requires forall m :: m in sent ==> Prints(codec, render, m)
    requires |frames| == |sent|
    requires forall i :: 0 <= i < |frames| ==> frames[i] == FrameBytes(render(sent[i]))
    requires Flatten(chunks) == Flatten(frames)
    ensures var decoded := FeedChunks(codec, Reading([]), chunks);
            && decoded == Progress(Reading([]), FramesOf(render, sent))
            && |decoded.frames| == |sent|
            && forall i :: 0 <= i < |sent| ==> decoded.frames[i] == Frame(|render(sent[i])|, sent[i])
  {
    FlattenFrames(render, sent, frames);
    WireIsEnded(render, sent);
    PrintedStreamDecodes(codec, render, sent, seq(|sent|, _ => false));
    ChunkIndependence(codec, chunks);
    assert Closing(FeedChunks(codec, Reading([]), chunks).state) == None;
    forall i | 0 <= i < |sent|
      ensures |FramesOf(render, sent)| == |sent|
      ensures FramesOf(render, sent)[i] == Frame(|render(sent[i])|, sent[i])
    {
      FramesOfAt(render, sent, i);
    }
  }

  /** The messages pushed, in order. */
  function Pushes<M>(events: seq<Queue.Event<M>>): seq<M> {
    if events == [] then []
    else
      var before, last := Pushes(events[..|events| - 1]), events[|events| - 1];
      if last.PushCall? then before + [last.message] else before
  }

  lemma {:induction false} AcceptedPushes<M>(limits: Queue.Limits, events: seq<Queue.Event<M>>)
    requires limits.Valid()
    ensures var s := Queue.Run(limits, events);
            && |s.accepted| <= |Pushes(events)|
            && (|s.accepted| == |Pushes(events)| ==> s.accepted == Pushes(events))
  {
    if events != [] {
      var init := events[..|events| - 1];
      AcceptedPushes(limits, init);
      Queue.AcceptedGrows(limits, Queue.Run(limits, init), events[|events| - 1]);
    }
  }

  function MessagesOf<M>(frames: seq<Frame<M>>): seq<M> {
    if frames == [] then [] else [frames[0].message] + MessagesOf(frames[1..])
  }

  lemma {:induction false} MessagesOfFrames<M>(render: M -> seq<Byte>, messages: seq<M>)
    ensures MessagesOf(FramesOf(render, messages)) == messages
  {
    if messages != [] {
      MessagesOfFrames(render, messages[1..]);
    }
  }

  /**
   End to end: if the decoded frames are pushed in order and none overflows the queue, then successful
   receives return the messages the writer accepted, in order and once each; all that were written, once
   the queue is empty and nothing was discarded.
   */
  lemma EndToEnd<M>(codec: Codec<M>, render: M -> seq<Byte>, options: Writer.Options, events: seq<Writer.Event>,
                    messages: seq<M>, chunks: seq<seq<Byte>>, limits: Queue.Limits, calls: seq<Queue.Event<M>>)
    requires options.maxFrameBytes <= codec.maxFrameBytes && limits.Valid()
    requires Writer.Run(options, events).accepted == Payloads(render, messages)
    requires forall m :: m in messages ==> PrintsOneLine(codec, render, m)
    requires Flatten(chunks) == Flatten(Writer.Written(Writer.Run(options, events).log))
    requires Pushes(calls) <= MessagesOf(FeedChunks(codec, Reading([]), chunks).frames)
    requires |Queue.Run(limits, calls).accepted| == |Pushes(calls)|
    ensures var n := |Writer.Written(Writer.Run(options, events).log)|;
            var s := Queue.Run(limits, calls);
            && n <= |messages|
            && Queue.Received(s.receives) <= messages[..n]
            && ((Pushes(calls) == MessagesOf(FeedChunks(codec, Reading([]), chunks).frames)
                 && s.items == [] && s.discarded == []) ==> Queue.Received(s.receives) == messages[..n])
  {
    WrittenStreamDecodes(codec, render, options, events, messages, chunks);
    MessagesOfFrames(render, messages[..|Writer.Written(Writer.Run(options, events).log)|]);
    AcceptedPushes(limits, calls);
    Queue.FirstInFirstOut(limits, calls);
  }
}
