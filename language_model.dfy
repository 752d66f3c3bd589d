/** The language-model service, replaced by a finite script of turns. */
module LanguageModel {
  import opened Wrappers
  import opened Messages

  datatype StopReason = EndTurn | MaxTokens | StopSequence | ToolUse | Unset

  /** One event of the model's stream: its `type` and, when it carries a delta with a `text`
      field, that text. */
  datatype Chunk = Chunk(kind: string, deltaText: Option<string>)

  /** How a turn's stream ends: a final message (content and stop reason), or a fault of the
      service (network, authorisation, malformed stream, ...) with its message. */
  datatype TurnOutcome =
    | Finalized(content: seq<ContentBlock>, stopReason: StopReason)
    | StreamFault(message: string)

  /** The chunks the service streams for one request, then how the stream ends. */
  datatype ScriptedTurn = ScriptedTurn(chunks: seq<Chunk>, outcome: TurnOutcome)

  /** The parameters of one `messages.stream` request that the model keeps track of. */
  datatype Request = Request(messages: seq<Message>, maxTokens: nat, model: string)

  const RequestMaxTokens: nat := 4096
  const ModelName := "claude-3-5-sonnet-20240620"

  /** The fault the service reports once the script has no response left. */
  const ExhaustedMessage := "the language model service has no response for this request"
  const Exhausted := ScriptedTurn([], StreamFault(ExhaustedMessage))

  function RequestFor(messages: seq<Message>): Request
  {
    Request(messages, RequestMaxTokens, ModelName)
  }

  /** The service client: it answers each request with the next scripted turn and keeps a
      log of the requests it received. */
  class ScriptedModel {
    var remaining: seq<ScriptedTurn>
    var requests: seq<Request>

    constructor (script: seq<ScriptedTurn>)
      ensures remaining == script && requests == []
    {
      remaining := script;
      requests := [];
    }

    /** Starts one turn: the request is logged and the next scripted turn is its response. */
    method Stream(messages: seq<Message>) returns (turn: ScriptedTurn)
      modifies this
      ensures requests == old(requests) + [RequestFor(messages)]
      ensures old(remaining) == [] ==> turn == Exhausted && remaining == []
      ensures old(remaining) != [] ==> turn == old(remaining)[0] && remaining == old(remaining)[1..]
    {
      requests := requests + [RequestFor(messages)];
      if remaining == [] {
        turn := Exhausted;
      } else {
        turn := remaining[0];
        remaining := remaining[1..];
      }
    }
  }
}
