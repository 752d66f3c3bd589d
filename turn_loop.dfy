/** The turn loop of the stream route and its fault boundary. */
module TurnLoop {
  import opened Wrappers
  import opened Messages
  import opened LanguageModel
  import opened EventStream
  import opened Transcoder
  import opened Tools

  const NoToolUseMessage := "No tool_use content block found in message"

  /** How a turn ends: the loop goes on with another turn, finishes normally, or throws. */
  datatype Verdict = Continue | Finish | Abort(message: string)

  /** What one turn does with the service's response: the messages it appends to the log, the
      frames it sends, and how it ends. */
  datatype Step = Step(appended: seq<Message>, frames: seq<Frame>, verdict: Verdict)

  /** What a run of the loop does, from some point on: the messages it has appended to the
      log by the end, the frames it sends, the requests it makes, the message of the error it
      throws (if any), and the script it leaves unread. */
  datatype Run = Run(
    newMessages: seq<Message>,
    frames: seq<Frame>,
    requests: seq<Request>,
    fault: Option<string>,
    unread: seq<ScriptedTurn>)

  /** One turn of the loop body, from the response `turn`. */
  function TurnStep(turn: ScriptedTurn, registry: Registry): (s: Step)
    ensures turn.outcome.StreamFault? ==> s.verdict.Abort?
  {
    var streamed := StreamingFrames(turn.chunks);
    match turn.outcome
    case StreamFault(m) => Step([], streamed, Abort(m))
    case Finalized(content, stopReason) =>
      var assistant := Message(Assistant, content);
      var shown := streamed + [FullMessageFrame(assistant)];
      if stopReason != ToolUse then Step([assistant], shown, Finish)
      else
        var calls := ToolUses(content);
        if calls == [] then Step([assistant], shown, Abort(NoToolUseMessage))
        else
          match ToolResults(calls, registry)
          case Failure(m) => Step([assistant], shown, Abort(m))
          case Success(results) =>
            var toolResult := Message(User, results);
            Step([assistant, toolResult], shown + [FullMessageFrame(toolResult)], Continue)
  }

  /** The service's response to the next request, and the script left after it. */
  function NextTurn(script: seq<ScriptedTurn>): ScriptedTurn {
    if script == [] then Exhausted else script[0]
  }

  function AfterTurn(script: seq<ScriptedTurn>): (r: seq<ScriptedTurn>)
    ensures script != [] ==> |r| < |script|
  {
    if script == [] then [] else script[1..]
  }

  /** The loop, started with `newMessages` already logged and `script` as the service's
      remaining responses. */
  function Process(initial: seq<Message>, newMessages: seq<Message>, script: seq<ScriptedTurn>, registry: Registry): Run
    decreases |script|
  {
    var request := RequestFor(initial + newMessages);
    var step := TurnStep(NextTurn(script), registry);
    var logged := newMessages + step.appended;
    match step.verdict
    case Continue =>
      var rest := Process(initial, logged, AfterTurn(script), registry);
      rest.(frames := step.frames + rest.frames, requests := [request] + rest.requests)
    case Finish => Run(logged, step.frames, [request], None, AfterTurn(script))
    case Abort(m) => Run(logged, step.frames, [request], Some(m), AfterTurn(script))
  }

  /** Everything the browser receives: the loop's frames, then one `error` frame if the loop
      threw. */
  function Transcript(initial: seq<Message>, script: seq<ScriptedTurn>, registry: Registry): seq<Frame>
  {
    var r := Process(initial, [], script, registry);
    r.frames + match r.fault case Some(m) => [ErrorFrame(m)] case None => []
  }

  lemma ConcatAssociates<T>(a: seq<T>, b: seq<T>, c: seq<T>)
    ensures a + b + c == a + (b + c)
  {
  }

  /** A turn that continues puts its frames and request in front of the rest of the run. */
  lemma ProcessContinues(initial: seq<Message>, newMessages: seq<Message>, script: seq<ScriptedTurn>, registry: Registry)
    requires TurnStep(NextTurn(script), registry).verdict == Continue
    ensures var step := TurnStep(NextTurn(script), registry);
      var rest := Process(initial, newMessages + step.appended, AfterTurn(script), registry);
      var p := Process(initial, newMessages, script, registry);
      && p.frames == step.frames + rest.frames
      && p.requests == [RequestFor(initial + newMessages)] + rest.requests
      && p.newMessages == rest.newMessages && p.fault == rest.fault && p.unread == rest.unread
  {
  }

  /** One pass of the `do ... while` body of `processMessages`: request a response for the
      whole log, relay its stream, log and send the assistant message and, on a `tool_use`
      stop, dispatch the tools and log and send the tool-result message. `verdict` is
      `Abort(m)` where the body throws an error with message `m`. */
  method TakeTurn(initialMessages: seq<Message>, newMessages: seq<Message>, model: ScriptedModel, registry: Registry, controller: StreamController)
    returns (logged: seq<Message>, verdict: Verdict)
    requires !controller.closed
    modifies model, controller
    ensures var step := TurnStep(NextTurn(old(model.remaining)), registry);
      && logged == newMessages + step.appended && verdict == step.verdict
      && controller.frames == old(controller.frames) + step.frames
      && model.requests == old(model.requests) + [RequestFor(initialMessages + newMessages)]
      && model.remaining == AfterTurn(old(model.remaining))
    ensures !controller.closed
  {
    logged := newMessages;
    var turn := model.Stream(initialMessages + newMessages);
    ForwardChunks(turn.chunks, controller);
    if turn.outcome.StreamFault? {
      return logged, Abort(turn.outcome.message);
    }
    var content := turn.outcome.content;
    var assistantMessage := Message(Assistant, content);
    logged := logged + [assistantMessage];
    SendEventToBrowser(controller, FullMessageType, MessageData(assistantMessage));

    var stopReason := turn.outcome.stopReason;
    if stopReason != ToolUse {
      return logged, Finish;
    }
    var toolUseBlocks := ToolUses(content);
    if |toolUseBlocks| == 0 {
      return logged, Abort(NoToolUseMessage);
    }
    var dispatched := DispatchTools(toolUseBlocks, registry);
    if dispatched.Failure? {
      return logged, Abort(dispatched.error);
    }
    var toolResultMessage := Message(User, dispatched.value);
    logged := logged + [toolResultMessage];
    SendEventToBrowser(controller, FullMessageType, MessageData(toolResultMessage));
    assert logged == newMessages + [assistantMessage, toolResultMessage];
    verdict := Continue;
  }

  /** A turn that does not continue ends the run with its frames and request. */
  lemma ProcessStops(initial: seq<Message>, newMessages: seq<Message>, script: seq<ScriptedTurn>, registry: Registry)
    requires TurnStep(NextTurn(script), registry).verdict != Continue
    ensures var step := TurnStep(NextTurn(script), registry);
      var p := Process(initial, newMessages, script, registry);
      && p.frames == step.frames
      && p.requests == [RequestFor(initial + newMessages)]
      && p.newMessages == newMessages + step.appended
      && p.fault == (if step.verdict.Abort? then Some(step.verdict.message) else None)
      && p.unread == AfterTurn(script)
  {
  }

  /** `processMessages`: a `do ... while` loop that takes turns while the last one ended
      with a `tool_use` stop and everything it needed went through. Returns `None` when it
      resolves, or `Some(m)` when it throws an error with message `m`. */
  method ProcessMessages(initialMessages: seq<Message>, model: ScriptedModel, registry: Registry, controller: StreamController)
    returns (fault: Option<string>)
    requires !controller.closed
    modifies model, controller
    ensures var r := Process(initialMessages, [], old(model.remaining), registry);
      && fault == r.fault
      && controller.frames == old(controller.frames) + r.frames
      && model.requests == old(model.requests) + r.requests
      && model.remaining == r.unread
    ensures !controller.closed
  {
    ghost var whole := Process(initialMessages, [], model.remaining, registry);
    var newMessages: seq<Message> := [];
    var verdict := Continue;  // the `do` body always runs once
    while verdict == Continue
      invariant !controller.closed
      invariant verdict == Continue ==>
        var p := Process(initialMessages, newMessages, model.remaining, registry);
        && controller.frames + p.frames == old(controller.frames) + whole.frames
        && model.requests + p.requests == old(model.requests) + whole.requests
        && p.newMessages == whole.newMessages && p.fault == whole.fault && p.unread == whole.unread
      invariant verdict != Continue ==>
        && controller.frames == old(controller.frames) + whole.frames
        && model.requests == old(model.requests) + whole.requests
        && whole.fault == (if verdict.Abort? then Some(verdict.message) else None)
        && model.remaining == whole.unread
      decreases |model.remaining|, verdict == Continue
    {
      ghost var script := model.remaining;
      ghost var framesBefore := controller.frames;
      ghost var requestsBefore := model.requests;
      ghost var newMessages0 := newMessages;
      newMessages, verdict := TakeTurn(initialMessages, newMessages, model, registry, controller);
      ghost var step := TurnStep(NextTurn(script), registry);
      if verdict == Continue {
        ProcessContinues(initialMessages, newMessages0, script, registry);
        ghost var rest := Process(initialMessages, newMessages, model.remaining, registry);
        ConcatAssociates(framesBefore, step.frames, rest.frames);
        ConcatAssociates(requestsBefore, [RequestFor(initialMessages + newMessages0)], rest.requests);
      } else {
        ProcessStops(initialMessages, newMessages0, script, registry);
      }
    }
    fault := if verdict.Abort? then Some(verdict.message) else None;
  }

  /** The stream's `start` inside `POST`: run the loop; on a throw, send one `error` frame;
      close the stream either way. */
  method Post(messages: seq<Message>, model: ScriptedModel, registry: Registry, controller: StreamController)
    requires !controller.closed
    modifies model, controller
    ensures controller.closed
    ensures controller.frames == old(controller.frames) + Transcript(messages, old(model.remaining), registry)
    ensures var r := Process(messages, [], old(model.remaining), registry);
      model.requests == old(model.requests) + r.requests && model.remaining == r.unread
  {
    var fault := ProcessMessages(messages, model, registry, controller);
    match fault {
      case None =>
        controller.Close();
      case Some(message) =>
        controller.Enqueue(ErrorFrame(message));
        controller.Close();
    }
  }
}
