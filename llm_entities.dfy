/** The message entities exchanged with language-model requesters and runners
    (`llm_entities.Message`, `ContentElement`, `ToolCall`, `FunctionCall`). */
module LlmEntities {
  import opened Wrappers

  /** One element of a multi-part message; its Python `type` is given by `Kind`. */
  datatype ContentElement =
    | TextElement(text: string)
    | ImageUrlElement(url: string)
    | ImageBase64Element(data: string)

  function Kind(e: ContentElement): string {
    match e
    case TextElement(_) => "text"
    case ImageUrlElement(_) => "image_url"
    case ImageBase64Element(_) => "image_base64"
  }

  /** `Message.content`: `None`, a plain string, or a list of elements. */
  datatype Content =
    | NoContent
    | TextContent(s: string)
    | ElementList(elems: seq<ContentElement>)

  datatype FunctionCall = FunctionCall(name: string, arguments: string)

  datatype ToolCall = ToolCall(id: string, kind: string, call: FunctionCall)

  datatype Message = Message(
    role: string,
    name: Option<string>,
    content: Content,
    toolCalls: Option<seq<ToolCall>>,
    toolCallId: Option<string>)
}
