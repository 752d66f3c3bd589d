/** Relaying the model's stream: content-block starts and deltas become `streaming_message`
    frames carrying the delta's text. */
module Transcoder {
  import opened Wrappers
  import opened LanguageModel
  import opened EventStream

  const ContentBlockStart := "content_block_start"
  const ContentBlockDelta := "content_block_delta"

  /** The chunk kinds that are relayed to the browser. */
  predicate IsRelayed(c: Chunk) {
    c.kind == ContentBlockStart || c.kind == ContentBlockDelta
  }

  /** The text a relayed chunk contributes: its delta's text, or the empty string when the
      chunk has no delta or the delta has no (or an empty) text. */
  function DeltaText(c: Chunk): string {
    match c.deltaText
    case Some(t) => t
    case None => ""
  }

  /** The relayed chunks of a stream, in stream order. */
  function Relayed(chunks: seq<Chunk>): (r: seq<Chunk>)
    ensures forall c :: c in r ==> c in chunks && IsRelayed(c)
  {
    if chunks == [] then []
    else (if IsRelayed(chunks[0]) then [chunks[0]] else []) + Relayed(chunks[1..])
  }

  function StreamingFrame(c: Chunk): Frame {
    DataFrame(StreamingMessageType, TextData(DeltaText(c)))
  }

  /** The frames the route sends while it consumes `chunks`. */
  function StreamingFrames(chunks: seq<Chunk>): (r: seq<Frame>)
    ensures |r| <= |chunks|
    ensures forall f :: f in r ==> f.DataFrame? && f.kind == StreamingMessageType && f.data.TextData?
  {
    if chunks == [] then []
    else (if IsRelayed(chunks[0]) then [StreamingFrame(chunks[0])] else []) + StreamingFrames(chunks[1..])
  }

  /** Relaying is chunk by chunk: the frames of a concatenated stream are the frames of its parts. */
  lemma {:induction false} StreamingFramesAppend(a: seq<Chunk>, b: seq<Chunk>)
    ensures StreamingFrames(a + b) == StreamingFrames(a) + StreamingFrames(b)
  {
    if a != [] {
      assert (a + b)[1..] == a[1..] + b;
      StreamingFramesAppend(a[1..], b);
    } else {
      assert a + b == b;
    }
  }

  /** There is one `streaming_message` frame per relayed chunk, in stream order, carrying that
      chunk's delta text. */
  lemma {:induction false} StreamingFramesFollowRelayedChunks(chunks: seq<Chunk>)
    ensures |StreamingFrames(chunks)| == |Relayed(chunks)|
    ensures forall k :: 0 <= k < |Relayed(chunks)| ==>
      StreamingFrames(chunks)[k] == DataFrame(StreamingMessageType, TextData(DeltaText(Relayed(chunks)[k])))
  {
    if chunks != [] {
      var c, tail := chunks[0], chunks[1..];
      StreamingFramesFollowRelayedChunks(tail);
      if IsRelayed(c) {
        assert Relayed(chunks) == [c] + Relayed(tail);
        assert StreamingFrames(chunks) == [StreamingFrame(c)] + StreamingFrames(tail);
      } else {
        assert Relayed(chunks) == Relayed(tail);
        assert StreamingFrames(chunks) == StreamingFrames(tail);
      }
    }
  }

  /** A stream whose chunks are all of other kinds produces no frame. */
  lemma {:induction false} UnrelayedChunksSendNothing(chunks: seq<Chunk>)
    requires forall c :: c in chunks ==> !IsRelayed(c)
    ensures StreamingFrames(chunks) == []
  {
    if chunks != [] {
      UnrelayedChunksSendNothing(chunks[1..]);
    }
  }

  /** No `streaming_message` frame is a `full_message` frame. */
  lemma StreamingFramesHoldNoFullMessage(chunks: seq<Chunk>)
    ensures FullMessagesOf(StreamingFrames(chunks)) == []
  {
    var fs := StreamingFrames(chunks);
    TextFramesHoldNoFullMessage(fs);
  }

  lemma {:induction false} TextFramesHoldNoFullMessage(fs: seq<Frame>)
    requires forall f :: f in fs ==> f.DataFrame? && f.data.TextData?
    ensures FullMessagesOf(fs) == []
  {
    if fs != [] {
      assert fs[0] in fs;
      TextFramesHoldNoFullMessage(fs[1..]);
    }
  }

  /** The `for await` loop over the model's stream. */
  method ForwardChunks(chunks: seq<Chunk>, controller: StreamController)
    requires !controller.closed
    modifies controller
    ensures controller.frames == old(controller.frames) + StreamingFrames(chunks)
    ensures !controller.closed
  {
    for i := 0 to |chunks|
      invariant !controller.closed
      invariant controller.frames == old(controller.frames) + StreamingFrames(chunks[..i])
    {
      var chunk := chunks[i];
      if chunk.kind == ContentBlockStart || chunk.kind == ContentBlockDelta {
        SendEventToBrowser(controller, StreamingMessageType, TextData(DeltaText(chunk)));
      }
      assert chunks[..i + 1] == chunks[..i] + [chunk];
      StreamingFramesAppend(chunks[..i], [chunk]);
    }
    assert chunks[..|chunks|] == chunks;
  }
}
