/** The outbound event stream: the frames the route enqueues and the stream's controller. */
module EventStream {
  import opened Messages

  const StreamingMessageType := "streaming_message"
  const FullMessageType := "full_message"
  const ErrorType := "error"

  datatype EventData = TextData(text: string) | MessageData(message: Message)

  /** A normal frame is the object `{type, data}`; the fault frame is `{type: 'error', message}`. */
  datatype Frame = DataFrame(kind: string, data: EventData) | ErrorFrame(message: string)
  {
    function Type(): string {
      if DataFrame? then kind else ErrorType
    }
  }

  function FullMessageFrame(m: Message): Frame
  {
    DataFrame(FullMessageType, MessageData(m))
  }

  /** The messages carried, in order, by the `full_message` frames of `frames`. */
  function FullMessagesOf(frames: seq<Frame>): seq<Message>
  {
    if frames == [] then []
    else
      var f := frames[0];
      (if f.DataFrame? && f.kind == FullMessageType && f.data.MessageData? then [f.data.message] else [])
      + FullMessagesOf(frames[1..])
  }

  lemma {:induction false} FullMessagesOfAppend(a: seq<Frame>, b: seq<Frame>)
    ensures FullMessagesOf(a + b) == FullMessagesOf(a) + FullMessagesOf(b)
  {
    if a != [] {
      assert (a + b)[1..] == a[1..] + b;
      FullMessagesOfAppend(a[1..], b);
    } else {
      assert a + b == b;
    }
  }

  /** The controller of the outbound stream: frames enqueued so far, and whether it is closed.
      Enqueueing to or closing a closed stream is an error, so both require an open one. */
  class StreamController {
    var frames: seq<Frame>
    var closed: bool

    constructor ()
      ensures frames == [] && !closed
    {
      frames := [];
      closed := false;
    }

    method Enqueue(f: Frame)
      requires !closed
      modifies this
      ensures frames == old(frames) + [f] && !closed
    {
      frames := frames + [f];
    }

    method Close()
      requires !closed
      modifies this
      ensures frames == old(frames) && closed
    {
      closed := true;
    }
  }

  /** Sends one `{type, data}` frame to the browser. */
  method SendEventToBrowser(controller: StreamController, kind: string, data: EventData)
    requires !controller.closed
    modifies controller
    ensures controller.frames == old(controller.frames) + [DataFrame(kind, data)]
    ensures !controller.closed
  {
    controller.Enqueue(DataFrame(kind, data));
  }
}
