/** Tool dispatch: picking the `tool_use` blocks out of a response and turning each into a
    `tool_result` block through the tool registry. */
module Tools {
  import opened Wrappers
  import opened Messages

  /** What a tool's `execute` does: return an output (already serialised), or throw an error
      with a message. */
  datatype ToolOutcome = Returns(output: string) | Throws(message: string)

  /** The tool handler lookup: a name with a handler maps to what executing it does. */
  type Registry = map<string, ToolOutcome>

  const NoHandlerPrefix := "No handler found for tool "
  const ExecutionErrorPrefix := "Error executing tool "

  function NoHandlerMessage(name: string): string {
    NoHandlerPrefix + name
  }

  function ExecutionErrorText(name: string, message: string): string {
    ExecutionErrorPrefix + name + ": " + message
  }

  /** The `tool_use` blocks of a response, in order (the `filter` over its content). */
  function ToolUses(content: seq<ContentBlock>): (r: seq<ToolCall>)
    ensures |r| <= |content|
    ensures forall c :: c in r <==> ToolUseBlock(c) in content
  {
    if content == [] then []
    else
      (match content[0] case ToolUseBlock(c) => [c] case _ => [])
      + ToolUses(content[1..])
  }

  /** The filter keeps the order of the blocks it picks. */
  lemma {:induction false} ToolUsesAppend(a: seq<ContentBlock>, b: seq<ContentBlock>)
    ensures ToolUses(a + b) == ToolUses(a) + ToolUses(b)
  {
    if a != [] {
      assert (a + b)[1..] == a[1..] + b;
      ToolUsesAppend(a[1..], b);
    } else {
      assert a + b == b;
    }
  }

  /** The `tool_result` content for a call whose handler behaves as `outcome`. */
  function ResultContent(name: string, outcome: ToolOutcome): ToolResultContent {
    match outcome
    case Returns(output) => Serialized(output)
    case Throws(message) => ErrorPayload(ExecutionErrorText(name, message))
  }

  function ResultBlock(call: ToolCall, outcome: ToolOutcome): ContentBlock {
    ToolResultBlock(call.id, ResultContent(call.name, outcome))
  }

  /** Dispatching the calls in order: the first call without a handler throws; otherwise one
      result block per call. */
  function ToolResults(calls: seq<ToolCall>, registry: Registry): (r: Result<seq<ContentBlock>, string>)
    ensures r.Success? ==> |r.value| == |calls|
  {
    if calls == [] then Success([])
    else if calls[0].name !in registry then Failure(NoHandlerMessage(calls[0].name))
    else
      match ToolResults(calls[1..], registry)
      case Failure(m) => Failure(m)
      case Success(rest) => Success([ResultBlock(calls[0], registry[calls[0].name])] + rest)
  }

  /** `results` answer `calls` one to one: same length, same order, matching identifiers. */
  predicate Answers(calls: seq<ToolCall>, results: seq<ContentBlock>) {
    |results| == |calls| &&
    forall i :: 0 <= i < |calls| ==>
      results[i].ToolResultBlock? && results[i].toolUseId == calls[i].id
  }

  /** Dispatch fails only for a missing handler: a throwing tool still yields a result. */
  lemma {:induction false} ToolResultsSucceedIffAllHandled(calls: seq<ToolCall>, registry: Registry)
    ensures ToolResults(calls, registry).Success? <==> forall i :: 0 <= i < |calls| ==> calls[i].name in registry
  {
    if calls != [] {
      ToolResultsSucceedIffAllHandled(calls[1..], registry);
      assert forall i :: 1 <= i < |calls| ==> calls[i] == calls[1..][i - 1];
    }
  }

  /** On success, result i belongs to call i and carries its output, or the error text naming
      the tool when its `execute` threw. */
  lemma {:induction false} ToolResultsCorrespond(calls: seq<ToolCall>, registry: Registry)
    requires ToolResults(calls, registry).Success?
    ensures var results := ToolResults(calls, registry).value;
      && Answers(calls, results)
      && forall i :: 0 <= i < |calls| ==>
           calls[i].name in registry &&
           results[i] == ToolResultBlock(calls[i].id, ResultContent(calls[i].name, registry[calls[i].name]))
  {
    if calls != [] {
      ToolResultsCorrespond(calls[1..], registry);
      var results := ToolResults(calls, registry).value;
      var rest := ToolResults(calls[1..], registry).value;
      assert results == [ResultBlock(calls[0], registry[calls[0].name])] + rest;
      assert forall i :: 1 <= i < |calls| ==> calls[i] == calls[1..][i - 1] && results[i] == rest[i - 1];
    }
  }

  /** A tool whose `execute` throws is answered with the error payload naming that tool. */
  lemma ThrowingToolIsReported(calls: seq<ToolCall>, registry: Registry, i: nat)
    requires ToolResults(calls, registry).Success?
    requires i < |calls| && calls[i].name in registry && registry[calls[i].name].Throws?
    ensures ToolResults(calls, registry).value[i] ==
      ToolResultBlock(calls[i].id, ErrorPayload(ExecutionErrorPrefix + calls[i].name + ": " + registry[calls[i].name].message))
  {
    ToolResultsCorrespond(calls, registry);
  }

  /** On failure, the message names the first call that has no handler. */
  lemma {:induction false} ToolResultsFailAtFirstMissingHandler(calls: seq<ToolCall>, registry: Registry)
    requires ToolResults(calls, registry).Failure?
    ensures exists i :: (0 <= i < |calls| && calls[i].name !in registry
      && (forall j :: 0 <= j < i ==> calls[j].name in registry)
      && ToolResults(calls, registry).error == NoHandlerPrefix + calls[i].name)
  {
    if calls[0].name in registry {
      ToolResultsFailAtFirstMissingHandler(calls[1..], registry);
      var i :| 0 <= i < |calls[1..]| && calls[1..][i].name !in registry
        && (forall j :: 0 <= j < i ==> calls[1..][j].name in registry)
        && ToolResults(calls[1..], registry).error == NoHandlerPrefix + calls[1..][i].name;
      assert forall j :: 1 <= j < i + 1 ==> calls[j] == calls[1..][j - 1];
      assert calls[i + 1] == calls[1..][i];
    } else {
      assert calls[0].name !in registry;
    }
  }

  /** The `for` loop over the tool-use blocks: look up each handler (throwing when there is
      none), run it and push its result block. */
  method DispatchTools(calls: seq<ToolCall>, registry: Registry) returns (res: Result<seq<ContentBlock>, string>)
    ensures res == ToolResults(calls, registry)
  {
    var results: seq<ContentBlock> := [];
    assert calls[0..] == calls;
    match ToolResults(calls, registry) {
      case Success(all) => assert [] + all == all;
      case Failure(_) =>
    }
    for i := 0 to |calls|
      invariant ToolResults(calls, registry) == Prefixed(results, ToolResults(calls[i..], registry))
    {
      var call := calls[i];
      assert calls[i..][0] == call && calls[i..][1..] == calls[i + 1..];
      if call.name !in registry {
        return Failure(NoHandlerPrefix + call.name);
      }
      var outcome := registry[call.name];
      var content := match outcome
        case Returns(output) => Serialized(output)
        case Throws(message) => ErrorPayload(ExecutionErrorPrefix + call.name + ": " + message);
      var block := ToolResultBlock(call.id, content);
      assert block == ResultBlock(call, outcome);
      PrefixedShift(results, block, ToolResults(calls[i + 1..], registry));
      results := results + [block];
    }
    assert calls[|calls|..] == [] && results + [] == results;
    return Success(results);
  }

  /** `r` with `done` put in front of its value when it is a success. */
  function Prefixed(done: seq<ContentBlock>, r: Result<seq<ContentBlock>, string>): Result<seq<ContentBlock>, string> {
    match r
    case Success(rest) => Success(done + rest)
    case Failure(m) => Failure(m)
  }

  lemma PrefixedShift(done: seq<ContentBlock>, b: ContentBlock, r: Result<seq<ContentBlock>, string>)
    ensures Prefixed(done, Prefixed([b], r)) == Prefixed(done + [b], r)
  {
    if r.Success? {
      assert done + ([b] + r.value) == (done + [b]) + r.value;
    }
  }
}
