/** The chat endpoint (`POST /api/chat`): it checks the request, builds the
    multimodal content list, asks the LLM and shapes its answer. The HTTP
    call is the parameter `llm`, which returns the reply or what it threw. */
module ChatRoute {
  import opened Common

  /** The request body; a field that is missing or falsy is "". */
  datatype ChatBody = ChatBody(message: string, image: string)

  datatype LlamaContent = TextPart(text: string) | ImagePart(url: string)

  datatype LlamaMetric = LlamaMetric(metric: string, value: real, unit: string)

  /** The parts of the LLM's JSON reply the route reads: the completion
      text ("" when missing), the metrics and the id. */
  datatype LlamaJson = LlamaJson(text: string, metrics: Option<seq<LlamaMetric>>, id: Option<string>)

  /** An HTTP reply of the LLM; `body` is `None` when it is not JSON. */
  datatype LlamaReply = LlamaReply(ok: bool, status: int, body: Option<LlamaJson>)

  /** What is sent: the model, the authorization header and one user
      message with the content list. */
  datatype LlamaRequest = LlamaRequest(model: string, authorization: string, content: seq<LlamaContent>)

  datatype ChatResponse =
    | Answered(response: string, metrics: seq<LlamaMetric>, id: Option<string>)
    | Refused(status: int, error: string, details: Option<LlamaJson>)

  const Model: string := "Llama-4-Maverick-17B-128E-Instruct-FP8"

  const MissingInput: string := "Message or image is required"
  const UpstreamFailed: string := "Failed to get response from Llama API"
  const InternalError: string := "Internal server error"
  const NoAnswer: string := "No response received"

  /** The image travels as a JPEG data URL. */
  function ImageUrl(image: string): (r: string)
    ensures EndsWith(r, image)
  {
    EndsWithAppended("data:image/jpeg;base64,", image);
    "data:image/jpeg;base64," + image
  }

  /** The content list: a text part when there is a message, then an image
      part when there is an image. */
  method BuildContent(message: string, image: string) returns (content: seq<LlamaContent>)
    ensures content == Content(ChatBody(message, image))
    ensures |content| == (if message != "" then 1 else 0) + (if image != "" then 1 else 0)
    ensures message != "" <==> TextPart(message) in content
    ensures message != "" ==> content[0] == TextPart(message)
    ensures image != "" ==> content[|content| - 1] == ImagePart(ImageUrl(image))
    ensures forall i :: 0 <= i < |content| ==> (content[i].TextPart? <==> i == 0 && message != "")
  {
    content := [];
    if message != "" {
      content := content + [TextPart(message)];
    }
    if image != "" {
      content := content + [ImagePart(ImageUrl(image))];
    }
  }

  /** A successful reply: its text, or a placeholder when it has none, and
      its metrics, or none. */
  function Answer(j: LlamaJson): (r: ChatResponse)
    ensures r.Answered? && r.response != "" && r.id == j.id
    ensures j.text != "" ==> r.response == j.text
    ensures j.text == "" ==> r.response == NoAnswer
    ensures r.metrics == (if j.metrics.Some? then j.metrics.value else [])
  {
    Answered(OrElse(j.text, NoAnswer), j.metrics.GetOr([]), j.id)
  }

  /** `Bearer ${process.env.LLAMA_API_KEY}`, which prints "undefined" for an
      unset key. */
  function Authorization(apiKey: Option<string>): string {
    "Bearer " + apiKey.GetOr("undefined")
  }

  /** The route. `body` is `None` when the request is not JSON; a throw
      anywhere is answered with status 500. */
  method Chat(body: Option<ChatBody>, apiKey: Option<string>, llm: LlamaRequest -> Result<LlamaReply, Failure>)
    returns (r: ChatResponse)
    ensures body.None? ==> r == Refused(500, InternalError, None)
    ensures body.Some? && body.value.message == "" && body.value.image == "" ==> r == Refused(400, MissingInput, None)
    ensures r.Refused? && r.error == MissingInput <==> body.Some? && body.value.message == "" && body.value.image == ""
    ensures r.Answered? ==> body.Some? && 1 <= |Content(body.value)| <= 2
    ensures body.Some? && (body.value.message != "" || body.value.image != "") ==>
      var sent := llm(LlamaRequest(Model, Authorization(apiKey), Content(body.value)));
      match sent
      case Err(_) => r == Refused(500, InternalError, None)
      case Ok(reply) =>
        if reply.body.None? then r == Refused(500, InternalError, None)
        else if reply.ok then r == Answer(reply.body.value)
        else r == Refused(reply.status, UpstreamFailed, reply.body)
  {
    if body.None? {
      return Refused(500, InternalError, None);
    }
    var b := body.value;
    if b.message == "" && b.image == "" {
      return Refused(400, MissingInput, None);
    }
    var content := BuildContent(b.message, b.image);
    var sent := llm(LlamaRequest(Model, Authorization(apiKey), content));
    match sent
    case Err(_) =>
      r := Refused(500, InternalError, None);
    case Ok(reply) =>
      if reply.body.None? {
        r := Refused(500, InternalError, None);
      } else if !reply.ok {
        r := Refused(reply.status, UpstreamFailed, reply.body);
      } else {
        r := Answer(reply.body.value);
      }
  }

  /** The content list of a request, as `BuildContent` builds it. */
  function Content(b: ChatBody): seq<LlamaContent> {
    (if b.message != "" then [TextPart(b.message)] else []) + (if b.image != "" then [ImagePart(ImageUrl(b.image))] else [])
  }
}
