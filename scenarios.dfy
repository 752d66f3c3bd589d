/** Concrete runs of the route: the transcript the browser receives for a few conversations. */
module Scenarios {
  import opened Wrappers
  import opened Messages
  import opened LanguageModel
  import opened EventStream
  import opened Transcoder
  import opened Tools
  import opened TurnLoop

  function Question(): seq<Message> {
    [Message(User, [TextBlock("What's 2+2?")])]
  }

  /** A text answer streamed as a block start, one delta and the stream's other events. */
  function TextAnswer(text: string, stopReason: StopReason): ScriptedTurn {
    ScriptedTurn(
      [Chunk("message_start", None), Chunk(ContentBlockStart, None), Chunk(ContentBlockDelta, Some(text)),
       Chunk("content_block_stop", None), Chunk("message_stop", None)],
      Finalized([TextBlock(text)], stopReason))
  }

  function Lookup(): ToolCall {
    ToolCall("t1", "lookup", "{\"q\":\"x\"}")
  }

  /** A response that asks for `lookup`, streamed as the tool-use block's start and one
      non-text (input) delta. */
  function LookupRequest(): ScriptedTurn {
    ScriptedTurn([Chunk(ContentBlockStart, None), Chunk(ContentBlockDelta, None)],
      Finalized([ToolUseBlock(Lookup())], ToolUse))
  }

  lemma TextAnswerStreams(text: string, stopReason: StopReason)
    ensures StreamingFrames(TextAnswer(text, stopReason).chunks) ==
      [DataFrame(StreamingMessageType, TextData("")), DataFrame(StreamingMessageType, TextData(text))]
  {
    var cs := TextAnswer(text, stopReason).chunks;
    assert !IsRelayed(cs[0]) && IsRelayed(cs[1]) && IsRelayed(cs[2]) && !IsRelayed(cs[3]) && !IsRelayed(cs[4]);
    assert StreamingFrames(cs[4..]) == [] by { assert cs[4..][1..] == []; }
    assert StreamingFrames(cs[3..]) == [] by { assert cs[3..][1..] == cs[4..]; }
    assert StreamingFrames(cs[2..]) == [StreamingFrame(cs[2])] by { assert cs[2..][1..] == cs[3..]; }
    assert StreamingFrames(cs[1..]) == [StreamingFrame(cs[1]), StreamingFrame(cs[2])] by { assert cs[1..][1..] == cs[2..]; }
  }

  lemma LookupRequestStreams()
    ensures StreamingFrames(LookupRequest().chunks) ==
      [DataFrame(StreamingMessageType, TextData("")), DataFrame(StreamingMessageType, TextData(""))]
  {
    var cs := LookupRequest().chunks;
    assert IsRelayed(cs[0]) && IsRelayed(cs[1]);
    assert StreamingFrames(cs[1..]) == [StreamingFrame(cs[1])] by { assert cs[1..][1..] == []; }
  }

  /** A plain answer: the deltas, one `full_message`, then the stream closes; no tool runs. */
  lemma PlainAnswer()
    ensures Transcript(Question(), [TextAnswer("4", EndTurn)], map[]) == [
      DataFrame(StreamingMessageType, TextData("")),
      DataFrame(StreamingMessageType, TextData("4")),
      FullMessageFrame(Message(Assistant, [TextBlock("4")]))]
    ensures Process(Question(), [], [TextAnswer("4", EndTurn)], map[]).requests == [RequestFor(Question())]
  {
    TextAnswerStreams("4", EndTurn);
    assert Question() + [] == Question();
    ProcessStops(Question(), [], [TextAnswer("4", EndTurn)], map[]);
  }

  /** One tool round trip: the tool's output goes back to the model under the call's id, and
      the second request carries the whole conversation. */
  lemma ToolRoundTrip()
    ensures var registry := map["lookup" := Returns("{\"value\":42}")];
      var script := [LookupRequest(), TextAnswer("42", EndTurn)];
      var asked := Message(Assistant, [ToolUseBlock(Lookup())]);
      var answered := Message(User, [ToolResultBlock("t1", Serialized("{\"value\":42}"))]);
      var r := Process(Question(), [], script, registry);
      && Transcript(Question(), script, registry) == [
           DataFrame(StreamingMessageType, TextData("")),
           DataFrame(StreamingMessageType, TextData("")),
           FullMessageFrame(asked),
           FullMessageFrame(answered),
           DataFrame(StreamingMessageType, TextData("")),
           DataFrame(StreamingMessageType, TextData("42")),
           FullMessageFrame(Message(Assistant, [TextBlock("42")]))]
      && r.requests == [RequestFor(Question()), RequestFor(Question() + [asked, answered])]
  {
    var registry := map["lookup" := Returns("{\"value\":42}")];
    var script := [LookupRequest(), TextAnswer("42", EndTurn)];
    var asked := Message(Assistant, [ToolUseBlock(Lookup())]);
    var answered := Message(User, [ToolResultBlock("t1", Serialized("{\"value\":42}"))]);
    LookupRequestStreams();
    TextAnswerStreams("42", EndTurn);
    assert ToolUses(asked.content) == [Lookup()];
    assert [Lookup()][1..] == [];
    assert Lookup().name in registry;
    assert ToolResults([], registry) == Success([]);
    assert ResultBlock(Lookup(), registry[Lookup().name]) == answered.content[0];
    assert [answered.content[0]] + [] == answered.content;
    assert ToolResults([Lookup()], registry) == Success(answered.content);
    var first := TurnStep(LookupRequest(), registry);
    assert first.appended == [asked, answered] && first.verdict == Continue;
    ProcessContinues(Question(), [], script, registry);
    assert Question() + [] == Question() && [] + first.appended == [asked, answered];
    assert AfterTurn(script) == [TextAnswer("42", EndTurn)];
    ProcessStops(Question(), [asked, answered], [TextAnswer("42", EndTurn)], registry);
  }

  /** A `tool_use` stop without any `tool_use` block: one `error` frame, no second request. */
  lemma ToolUseStopWithoutBlocks()
    ensures var script := [TextAnswer("hm", ToolUse), TextAnswer("never", EndTurn)];
      && Transcript(Question(), script, map[]) == [
           DataFrame(StreamingMessageType, TextData("")),
           DataFrame(StreamingMessageType, TextData("hm")),
           FullMessageFrame(Message(Assistant, [TextBlock("hm")])),
           ErrorFrame(NoToolUseMessage)]
      && |Process(Question(), [], script, map[]).requests| == 1
  {
    var script := [TextAnswer("hm", ToolUse), TextAnswer("never", EndTurn)];
    TextAnswerStreams("hm", ToolUse);
    assert ToolUses([TextBlock("hm")]) == [];
    ProcessStops(Question(), [], script, map[]);
  }

  /** A tool name without a handler throws out of the loop: no tool-result message, one
      `error` frame naming the tool. */
  lemma UnknownToolAborts()
    ensures var script := [LookupRequest(), TextAnswer("42", EndTurn)];
      && Transcript(Question(), script, map[]) == [
           DataFrame(StreamingMessageType, TextData("")),
           DataFrame(StreamingMessageType, TextData("")),
           FullMessageFrame(Message(Assistant, [ToolUseBlock(Lookup())])),
           ErrorFrame("No handler found for tool lookup")]
      && |Process(Question(), [], script, map[]).requests| == 1
  {
    var script := [LookupRequest(), TextAnswer("42", EndTurn)];
    LookupRequestStreams();
    assert ToolUses([ToolUseBlock(Lookup())]) == [Lookup()];
    assert NoHandlerPrefix + "lookup" == "No handler found for tool lookup";
    assert ToolResults([Lookup()], map[]) == Failure("No handler found for tool lookup");
    ProcessStops(Question(), [], script, map[]);
  }

  /** A tool that throws does not stop the run: its result carries the error text and the
      next turn starts. */
  lemma ThrowingToolContinues()
    ensures var registry := map["lookup" := Throws("boom")];
      var script := [LookupRequest(), TextAnswer("sorry", EndTurn)];
      var r := Process(Question(), [], script, registry);
      && r.fault == None
      && |r.requests| == 2
      && r.newMessages[1] == Message(User, [ToolResultBlock("t1", ErrorPayload("Error executing tool lookup: boom"))])
  {
    var registry := map["lookup" := Throws("boom")];
    var script := [LookupRequest(), TextAnswer("sorry", EndTurn)];
    var asked := Message(Assistant, [ToolUseBlock(Lookup())]);
    var answered := Message(User, [ToolResultBlock("t1", ErrorPayload("Error executing tool lookup: boom"))]);
    assert ExecutionErrorText("lookup", "boom") == "Error executing tool lookup: boom";
    assert ToolUses(asked.content) == [Lookup()];
    assert [Lookup()][1..] == [];
    assert Lookup().name in registry;
    assert ToolResults([], registry) == Success([]);
    assert ResultBlock(Lookup(), registry[Lookup().name]) == answered.content[0];
    assert [answered.content[0]] + [] == answered.content;
    assert ToolResults([Lookup()], registry) == Success(answered.content);
    ProcessContinues(Question(), [], script, registry);
    assert AfterTurn(script) == [TextAnswer("sorry", EndTurn)];
    ProcessStops(Question(), [asked, answered], [TextAnswer("sorry", EndTurn)], registry);
  }

  /** A service fault after some text was streamed: the text stays sent, then one `error` frame. */
  lemma ServiceFaultKeepsStreamedText()
    ensures var script := [ScriptedTurn([Chunk(ContentBlockDelta, Some("par"))], StreamFault("overloaded"))];
      Transcript(Question(), script, map[]) == [DataFrame(StreamingMessageType, TextData("par")), ErrorFrame("overloaded")]
  {
  }
}
