/** What the turn loop guarantees, proved about its specification `Process`. */
module TurnLoopProperties {
  import opened Wrappers
  import opened Messages
  import opened LanguageModel
  import opened EventStream
  import opened Transcoder
  import opened Tools
  import opened TurnLoop

  // ---------------------------------------------------------------- one turn

  /** A turn goes on exactly when its response stops for `tool_use`, holds at least one
      `tool_use` block and every block's tool has a handler; it finishes normally exactly when
      the response stops for any other reason; otherwise it throws, with the stream fault's
      message, the missing-block message or the missing-handler message. A tool that throws
      while executing never makes the turn throw. */
  lemma TurnVerdict(turn: ScriptedTurn, registry: Registry)
    ensures var v := TurnStep(turn, registry).verdict;
      && (v == Continue <==>
            && turn.outcome.Finalized? && turn.outcome.stopReason == ToolUse
            && ToolUses(turn.outcome.content) != []
            && forall i :: 0 <= i < |ToolUses(turn.outcome.content)| ==> ToolUses(turn.outcome.content)[i].name in registry)
      && (v == Finish <==> turn.outcome.Finalized? && turn.outcome.stopReason != ToolUse)
      && (turn.outcome.StreamFault? ==> v == Abort(turn.outcome.message))
      && (turn.outcome.Finalized? && turn.outcome.stopReason == ToolUse && ToolUses(turn.outcome.content) == [] ==>
            v == Abort(NoToolUseMessage))
  {
    if turn.outcome.Finalized? {
      ToolResultsSucceedIffAllHandled(ToolUses(turn.outcome.content), registry);
    }
  }

  /** The frames and log entries of one turn: on a stream fault only the relayed chunks; once
      the response is final, the relayed chunks, then one `full_message` with the assistant
      message (whose content is the final content), and, when the turn goes on, one more
      `full_message` with the tool-result message, which answers the `tool_use` blocks one to
      one. Every `full_message` carries exactly the message appended to the log. */
  lemma TurnStepShape(turn: ScriptedTurn, registry: Registry)
    ensures var step := TurnStep(turn, registry);
      var streamed := StreamingFrames(turn.chunks);
      && FullMessagesOf(step.frames) == step.appended
      && (step.verdict == Continue ==> |step.appended| == 2)
      && (step.verdict != Continue ==> |step.appended| <= 1)
      && (turn.outcome.StreamFault? ==> step.appended == [] && step.frames == streamed)
      && (turn.outcome.Finalized? ==>
            && |step.appended| >= 1
            && step.appended[0] == Message(Assistant, turn.outcome.content)
            && step.frames[..|streamed| + 1] == streamed + [FullMessageFrame(step.appended[0])])
      && (step.verdict == Continue ==>
            && step.appended[1].role == User
            && Answers(ToolUses(turn.outcome.content), step.appended[1].content)
            && step.frames == streamed + [FullMessageFrame(step.appended[0]), FullMessageFrame(step.appended[1])])
      && (step.verdict != Continue ==> |step.frames| <= |streamed| + 1)
  {
    var step := TurnStep(turn, registry);
    var streamed := StreamingFrames(turn.chunks);
    StreamingFramesHoldNoFullMessage(turn.chunks);
    match turn.outcome {
      case StreamFault(_) =>
      case Finalized(content, stopReason) =>
        var assistant := Message(Assistant, content);
        FullMessagesOfAppend(streamed, [FullMessageFrame(assistant)]);
        assert (streamed + [FullMessageFrame(assistant)])[..|streamed| + 1] == streamed + [FullMessageFrame(assistant)];
        if step.verdict == Continue {
          var calls := ToolUses(content);
          ToolResultsCorrespond(calls, registry);
          var toolResult := Message(User, ToolResults(calls, registry).value);
          FullMessagesOfAppend(streamed + [FullMessageFrame(assistant)], [FullMessageFrame(toolResult)]);
          assert step.frames == streamed + [FullMessageFrame(assistant)] + [FullMessageFrame(toolResult)];
          assert step.frames[..|streamed| + 1] == streamed + [FullMessageFrame(assistant)];
        }
    }
  }

  // ---------------------------------------------------------------- whole runs

  /** The log only grows: what was logged before is a prefix of what is logged after. */
  lemma {:induction false} LogOnlyGrows(initial: seq<Message>, done: seq<Message>, script: seq<ScriptedTurn>, registry: Registry)
    ensures var r := Process(initial, done, script, registry);
      |done| <= |r.newMessages| && r.newMessages[..|done|] == done
    decreases |script|
  {
    var step := TurnStep(NextTurn(script), registry);
    var logged := done + step.appended;
    if step.verdict == Continue {
      ProcessContinues(initial, done, script, registry);
      LogOnlyGrows(initial, logged, AfterTurn(script), registry);
      assert logged[..|done|] == done;
    } else {
      ProcessStops(initial, done, script, registry);
      assert logged[..|done|] == done;
    }
  }

  /** Turn k's request carries the initial messages followed by everything logged before it:
      the log as it stood after the k turns before it, two messages each. */
  lemma {:induction false} EveryRequestCarriesTheWholeLog(initial: seq<Message>, done: seq<Message>, script: seq<ScriptedTurn>, registry: Registry)
    ensures var r := Process(initial, done, script, registry);
      && |r.requests| >= 1
      && forall k :: 0 <= k < |r.requests| ==>
           |done| + 2 * k <= |r.newMessages| &&
           r.requests[k] == Request(initial + r.newMessages[..|done| + 2 * k], RequestMaxTokens, ModelName)
    decreases |script|
  {
    var r := Process(initial, done, script, registry);
    var step := TurnStep(NextTurn(script), registry);
    var logged := done + step.appended;
    LogOnlyGrows(initial, done, script, registry);
    if step.verdict == Continue {
      TurnStepShape(NextTurn(script), registry);
      ProcessContinues(initial, done, script, registry);
      var rest := Process(initial, logged, AfterTurn(script), registry);
      EveryRequestCarriesTheWholeLog(initial, logged, AfterTurn(script), registry);
      forall k | 1 <= k < |r.requests|
        ensures |done| + 2 * k <= |r.newMessages|
        ensures r.requests[k] == Request(initial + r.newMessages[..|done| + 2 * k], RequestMaxTokens, ModelName)
      {
        assert r.requests[k] == rest.requests[k - 1];
        assert |logged| + 2 * (k - 1) == |done| + 2 * k;
      }
    } else {
      ProcessStops(initial, done, script, registry);
    }
  }

  /** The `full_message` frames carry, in order, exactly the messages the run appends to the
      log: one per appended message, no more. */
  lemma {:induction false} FullMessagesMirrorLog(initial: seq<Message>, done: seq<Message>, script: seq<ScriptedTurn>, registry: Registry)
    ensures var r := Process(initial, done, script, registry);
      |done| <= |r.newMessages| && FullMessagesOf(r.frames) == r.newMessages[|done|..]
    decreases |script|
  {
    var r := Process(initial, done, script, registry);
    var step := TurnStep(NextTurn(script), registry);
    var logged := done + step.appended;
    TurnStepShape(NextTurn(script), registry);
    if step.verdict == Continue {
      ProcessContinues(initial, done, script, registry);
      var rest := Process(initial, logged, AfterTurn(script), registry);
      FullMessagesMirrorLog(initial, logged, AfterTurn(script), registry);
      LogOnlyGrows(initial, logged, AfterTurn(script), registry);
      FullMessagesOfAppend(step.frames, rest.frames);
      assert rest.newMessages == logged + rest.newMessages[|logged|..];
      assert r.newMessages[|done|..] == step.appended + rest.newMessages[|logged|..];
    } else {
      ProcessStops(initial, done, script, registry);
      assert r.newMessages[|done|..] == step.appended;
    }
  }

  /** From index `from` on, entry `from + 2j` of `log` is the assistant message of turn j of
      `script`, with that turn's final content. */
  ghost predicate AssistantEntries(log: seq<Message>, from: nat, script: seq<ScriptedTurn>) {
    forall j :: 0 <= j && from + 2 * j < |log| ==>
      && j < |script| && script[j].outcome.Finalized?
      && log[from + 2 * j] == Message(Assistant, script[j].outcome.content)
  }

  /** From index `from` on, entry `from + 2j + 1` of `log` is a `user` message whose
      `tool_result` blocks answer the `tool_use` blocks of entry `from + 2j` one to one, in
      order, by identifier. */
  ghost predicate ToolResultEntries(log: seq<Message>, from: nat) {
    forall j :: 0 <= j && from + 2 * j + 1 < |log| ==>
      && log[from + 2 * j + 1].role == User
      && Answers(ToolUses(log[from + 2 * j].content), log[from + 2 * j + 1].content)
  }

  lemma AssistantEntriesShift(log: seq<Message>, from: nat, script: seq<ScriptedTurn>)
    requires script != [] && script[0].outcome.Finalized?
    requires from < |log| && log[from] == Message(Assistant, script[0].outcome.content)
    requires AssistantEntries(log, from + 2, script[1..])
    ensures AssistantEntries(log, from, script)
  {
    forall j | 1 <= j && from + 2 * j < |log|
      ensures j < |script| && script[j].outcome.Finalized?
      ensures log[from + 2 * j] == Message(Assistant, script[j].outcome.content)
    {
      assert from + 2 * j == (from + 2) + 2 * (j - 1);
      assert script[1..][j - 1] == script[j];
    }
  }

  lemma ToolResultEntriesShift(log: seq<Message>, from: nat)
    requires from + 1 < |log| && log[from + 1].role == User
    requires Answers(ToolUses(log[from].content), log[from + 1].content)
    requires ToolResultEntries(log, from + 2)
    ensures ToolResultEntries(log, from)
  {
    forall j | 1 <= j && from + 2 * j + 1 < |log|
      ensures log[from + 2 * j + 1].role == User
      ensures Answers(ToolUses(log[from + 2 * j].content), log[from + 2 * j + 1].content)
    {
      assert from + 2 * j == (from + 2) + 2 * (j - 1);
    }
  }

  /** The assistant entries of the log the run appends hold the final content of their turns. */
  lemma {:induction false} AssistantEntriesHoldFinalContent(initial: seq<Message>, done: seq<Message>, script: seq<ScriptedTurn>, registry: Registry)
    ensures AssistantEntries(Process(initial, done, script, registry).newMessages, |done|, script)
    decreases |script|
  {
    var log := Process(initial, done, script, registry).newMessages;
    var turn := NextTurn(script);
    var step := TurnStep(turn, registry);
    var logged := done + step.appended;
    TurnStepShape(turn, registry);
    if step.verdict == Continue {
      ProcessContinues(initial, done, script, registry);
      AssistantEntriesHoldFinalContent(initial, logged, AfterTurn(script), registry);
      LogOnlyGrows(initial, logged, AfterTurn(script), registry);
      assert log[|done|] == logged[|done|] == step.appended[0];
      AssistantEntriesShift(log, |done|, script);
    } else {
      ProcessStops(initial, done, script, registry);
      assert log == logged;
      if |done| < |log| {
        assert log[|done|] == step.appended[0];
        assert turn == script[0];
      }
    }
  }

  /** The tool-result entries of the log the run appends answer the assistant entry before them. */
  lemma {:induction false} ToolResultsAnswerToolUses(initial: seq<Message>, done: seq<Message>, script: seq<ScriptedTurn>, registry: Registry)
    ensures ToolResultEntries(Process(initial, done, script, registry).newMessages, |done|)
    decreases |script|
  {
    var log := Process(initial, done, script, registry).newMessages;
    var step := TurnStep(NextTurn(script), registry);
    var logged := done + step.appended;
    TurnStepShape(NextTurn(script), registry);
    if step.verdict == Continue {
      ProcessContinues(initial, done, script, registry);
      ToolResultsAnswerToolUses(initial, logged, AfterTurn(script), registry);
      LogOnlyGrows(initial, logged, AfterTurn(script), registry);
      assert log[|done|] == logged[|done|] == step.appended[0];
      assert log[|done| + 1] == logged[|done| + 1] == step.appended[1];
      ToolResultEntriesShift(log, |done|);
    } else {
      ProcessStops(initial, done, script, registry);
      assert log == logged;
    }
  }

  /** The run takes turns while they go on: every turn but the last went on, the last one did
      not (it is the response after the script ran out when the count exceeds the script), the
      run throws exactly when the last turn throws, with its message, and it leaves the rest of
      the script unread. */
  lemma {:induction false} RunStopsAtFirstTurnThatDoesNotContinue(initial: seq<Message>, done: seq<Message>, script: seq<ScriptedTurn>, registry: Registry)
    ensures var r := Process(initial, done, script, registry);
      var last := |r.requests| - 1;
      && 0 <= last <= |script|
      && (forall k :: 0 <= k < last ==> TurnStep(script[k], registry).verdict == Continue)
      && TurnStep(NextTurn(script[last..]), registry).verdict != Continue
      && r.fault == (match TurnStep(NextTurn(script[last..]), registry).verdict
                     case Abort(m) => Some(m)
                     case _ => None)
      && r.unread == AfterTurn(script[last..])
      && |r.newMessages| == |done| + 2 * last + |TurnStep(NextTurn(script[last..]), registry).appended|
    decreases |script|
  {
    var r := Process(initial, done, script, registry);
    var step := TurnStep(NextTurn(script), registry);
    var logged := done + step.appended;
    TurnStepShape(NextTurn(script), registry);
    assert script[0..] == script;
    if step.verdict == Continue {
      ProcessContinues(initial, done, script, registry);
      var rest := Process(initial, logged, AfterTurn(script), registry);
      RunStopsAtFirstTurnThatDoesNotContinue(initial, logged, AfterTurn(script), registry);
      assert script != [];
      var last := |r.requests| - 1;
      assert AfterTurn(script)[last - 1..] == script[last..];
      forall k | 0 <= k < last
        ensures TurnStep(script[k], registry).verdict == Continue
      {
        if k > 0 {
          assert AfterTurn(script)[k - 1] == script[k];
        }
      }
    } else {
      ProcessStops(initial, done, script, registry);
    }
  }

  /** A run ends without an error exactly when its last turn's response is final and stops for
      a reason other than `tool_use`. */
  lemma NormalEndIffNonToolStop(initial: seq<Message>, script: seq<ScriptedTurn>, registry: Registry)
    ensures var r := Process(initial, [], script, registry);
      var last := |r.requests| - 1;
      (r.fault == None <==>
        last < |script| && script[last].outcome.Finalized? && script[last].outcome.stopReason != ToolUse)
  {
    var r := Process(initial, [], script, registry);
    RunStopsAtFirstTurnThatDoesNotContinue(initial, [], script, registry);
    var last := |r.requests| - 1;
    TurnVerdict(NextTurn(script[last..]), registry);
    TurnVerdict(Exhausted, registry);
    if last < |script| {
      assert NextTurn(script[last..]) == script[last];
    }
  }

  /** The loop itself sends only `{type, data}` frames of type `streaming_message` or
      `full_message`, never an `error` frame. */
  lemma {:induction false} LoopSendsNoErrorFrame(initial: seq<Message>, done: seq<Message>, script: seq<ScriptedTurn>, registry: Registry)
    ensures forall f :: f in Process(initial, done, script, registry).frames ==>
      f.DataFrame? && f.Type() in {StreamingMessageType, FullMessageType}
    decreases |script|
  {
    var step := TurnStep(NextTurn(script), registry);
    TurnStepShape(NextTurn(script), registry);
    assert forall f :: f in step.frames ==> f.DataFrame? && f.Type() in {StreamingMessageType, FullMessageType} by {
      var streamed := StreamingFrames(NextTurn(script).chunks);
      if NextTurn(script).outcome.Finalized? {
        assert step.frames == streamed + step.frames[|streamed|..];
        assert forall i :: |streamed| <= i < |step.frames| ==> step.frames[i].kind == FullMessageType;
      }
    }
    if step.verdict == Continue {
      ProcessContinues(initial, done, script, registry);
      LoopSendsNoErrorFrame(initial, done + step.appended, AfterTurn(script), registry);
    } else {
      ProcessStops(initial, done, script, registry);
    }
  }

  /** The browser receives at most one `error` frame: it is the last frame, present exactly
      when the loop threw, and carries the thrown message. Everything before it is what the
      loop had already sent. */
  lemma ErrorFrameOnlyAtTheEnd(initial: seq<Message>, script: seq<ScriptedTurn>, registry: Registry)
    ensures var r := Process(initial, [], script, registry);
      var t := Transcript(initial, script, registry);
      && t[..|r.frames|] == r.frames
      && (forall i :: 0 <= i < |t| ==> (t[i].ErrorFrame? <==> r.fault.Some? && i == |t| - 1))
      && (r.fault.Some? ==> t[|t| - 1] == ErrorFrame(r.fault.value))
      && (r.fault.None? ==> t == r.frames)
  {
    var r := Process(initial, [], script, registry);
    LoopSendsNoErrorFrame(initial, [], script, registry);
    assert forall i :: 0 <= i < |r.frames| ==> r.frames[i] in r.frames;
  }
}
