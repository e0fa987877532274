/** The Anthropic Messages requester: how a call turns the conversation into request
    arguments (system prompt pulled out, tool results and tool uses rewritten as blocks) and
    how the response's blocks are assembled into one reply message. The HTTP call itself is
    an input: its outcome is handed to `Call`. */
module AnthropicMessages {
  import opened Wrappers
  import opened Json
  import opened LlmEntities
  import opened PyStrings
  import opened ImageUtil

  datatype ModelInfo = ModelInfo(name: string, modelName: Option<string>)

  /** The `model` argument: the provider's model name when set, else the entry's own name. */
  function RequestedModel(m: ModelInfo): (r: string)
    ensures m.modelName.Some? ==> r == m.modelName.value
    ensures m.modelName.None? ==> r == m.name
  {
    if m.modelName.None? then m.name else m.modelName.value
  }

  // ---------------------------------------------------------------- request side

  /** One block of a request message's `content` list. `ElementBlock` is an element passed
      through as `ContentElement.dict()` writes it. */
  datatype Block =
    | TextBlock(text: string)
    | ElementBlock(element: ContentElement)
    | ImageBlock(mediaType: string, data: string)
    | ToolUseBlock(id: string, name: string, input: Json)
    | ToolResultBlock(toolUseId: Option<string>, content: Content)

  /** A request message's `content`: absent (`exclude_none` drops it), a raw string, or blocks. */
  datatype ReqContent = Absent | RawText(s: string) | Blocks(blocks: seq<Block>)

  /** A request message, `m.dict(exclude_none=True)` after the rewriting. */
  datatype ReqMessage = ReqMessage(
    role: string, name: Option<string>, content: ReqContent,
    toolCalls: Option<seq<ToolCall>>, toolCallId: Option<string>)

  datatype CallError =
    | NameError(name: string)
    | KeyError(key: string)
    | AttributeError
    | JsonDecodeError
    | RequesterError(message: string)
    | ApiError(message: string)

  /** The position of the first system message. */
  function FirstSystem(ms: seq<Message>): (r: Option<nat>)
    ensures r.Some? ==>
      (r.value < |ms| && ms[r.value].role == "system"
       && forall j :: 0 <= j < r.value ==> ms[j].role != "system")
    ensures r.None? ==> forall j :: 0 <= j < |ms| ==> ms[j].role != "system"
  {
    if ms == [] then None
    else if ms[0].role == "system" then Some(0)
    else match FirstSystem(ms[1..])
      case None => None
      case Some(k) => Some(k + 1)
  }

  /** The caller's list after `messages.pop(i)`: only the first system message goes. */
  function WithoutFirstSystem(ms: seq<Message>): (r: seq<Message>)
    ensures FirstSystem(ms).None? ==> r == ms
    ensures FirstSystem(ms).Some? ==> |r| == |ms| - 1
  {
    match FirstSystem(ms)
    case None => ms
    case Some(i) => ms[..i] + ms[i + 1..]
  }

  /** The messages in front of the first system message keep their places. */
  lemma EarlierMessagesStay(ms: seq<Message>)
    requires FirstSystem(ms).Some?
    ensures var i := FirstSystem(ms).value;
      forall j :: 0 <= j < i ==> WithoutFirstSystem(ms)[j] == ms[j]
  {
    var i := FirstSystem(ms).value;
    var r := ms[..i] + ms[i + 1..];
    assert WithoutFirstSystem(ms) == r;
    forall j | 0 <= j < i ensures r[j] == ms[j] {
      assert r[j] == ms[..i][j];
    }
  }

  /** Every message after the first system message, later system messages included, stays,
      moved up by one. */
  lemma LaterSystemsStay(ms: seq<Message>)
    requires FirstSystem(ms).Some?
    ensures var i := FirstSystem(ms).value;
      forall j :: i < j < |ms| ==> WithoutFirstSystem(ms)[j - 1] == ms[j]
  {
    var i := FirstSystem(ms).value;
    var r := ms[..i] + ms[i + 1..];
    assert WithoutFirstSystem(ms) == r;
    forall j | i < j < |ms| ensures r[j - 1] == ms[j] {
      assert r[j - 1] == ms[i + 1..][j - 1 - i];
    }
  }

  /** `args['system']`: only a first system message with string content sets it. */
  function SystemPrompt(ms: seq<Message>): (r: Option<string>)
    ensures r.Some? <==> FirstSystem(ms).Some? && ms[FirstSystem(ms).value].content.TextContent?
    ensures r.Some? ==> r.value == ms[FirstSystem(ms).value].content.s
  {
    match FirstSystem(ms)
    case None => None
    case Some(i) => if ms[i].content.TextContent? then Some(ms[i].content.s) else None
  }

  /** `m.dict(exclude_none=True)` before any rewriting. */
  function Dump(m: Message): ReqMessage {
    var content := match m.content
      case NoContent => Absent
      case TextContent(s) => RawText(s)
      case ElementList(es) => Blocks(seq(|es|, i requires 0 <= i < |es| => ElementBlock(es[i])));
    ReqMessage(m.role, m.name, content, m.toolCalls, m.toolCallId)
  }

  /** The element rewriting as written: the source calls `image.extract_b64_and_format`
      without importing `image`, so the first `image_base64` element raises `NameError`. */
  function RewriteElementsAsWritten(es: seq<ContentElement>): (r: Result<seq<Block>, CallError>)
    ensures r.Success? ==> |r.value| == |es| && forall i :: 0 <= i < |es| ==> r.value[i] == ElementBlock(es[i])
  {
    if es == [] then Success([])
    else if es[0].ImageBase64Element? then Failure(NameError("image"))
    else match RewriteElementsAsWritten(es[1..])
      case Failure(e) => Failure(e)
      case Success(rest) => Success([ElementBlock(es[0])] + rest)
  }

  /** As written, a list content fails exactly when it holds an `image_base64` element. */
  lemma {:induction false} AsWrittenImagesFail(es: seq<ContentElement>)
    ensures RewriteElementsAsWritten(es).Failure? <==> exists i :: 0 <= i < |es| && es[i].ImageBase64Element?
    ensures RewriteElementsAsWritten(es).Failure? ==> RewriteElementsAsWritten(es).error == NameError("image")
  {
    if es != [] && !es[0].ImageBase64Element? {
      AsWrittenImagesFail(es[1..]);
      if exists i :: 0 <= i < |es| && es[i].ImageBase64Element? {
        var i :| 0 <= i < |es| && es[i].ImageBase64Element?;
        assert es[1..][i - 1] == es[i];
      }
    }
  }

  /** A user message carrying one base64 image: the as-written requester cannot build its request. */
  lemma ImageMessageRaises(data: string)
    ensures RewriteElementsAsWritten([ImageBase64Element(data)]) == Failure(NameError("image"))
  {
  }

  /** One element as intended: a base64 image becomes an image block with its payload and
      `image/<format>`; every other element passes through. */
  function RewriteElement(e: ContentElement): Block {
    match e
    case ImageBase64Element(d) =>
      var (b64, imageFormat) := ExtractB64AndFormat(d);
      ImageBlock("image/" + imageFormat, b64)
    case _ => ElementBlock(e)
  }

  /** The intended rewriting of a list content: never fails and keeps every element in its place. */
  function RewriteElements(es: seq<ContentElement>): (r: seq<Block>)
    ensures |r| == |es| && forall i :: 0 <= i < |es| ==> r[i] == RewriteElement(es[i])
  {
    seq(|es|, i requires 0 <= i < |es| => RewriteElement(es[i]))
  }

  /** Wherever the source succeeds (no base64 image), the intended rewriting agrees with it. */
  lemma RewriteAgrees(es: seq<ContentElement>)
    requires RewriteElementsAsWritten(es).Success?
    ensures RewriteElementsAsWritten(es).value == RewriteElements(es)
  {
    AsWrittenImagesFail(es);
  }

  /** A data-URL image becomes the block Anthropic expects. */
  lemma ImageElementBlock(b64: string, imageFormat: string)
    requires ',' !in b64 && ':' !in b64
    requires ':' !in imageFormat && ';' !in imageFormat && '/' !in imageFormat && ',' !in imageFormat
    ensures RewriteElement(ImageBase64Element(DataUrl(b64, imageFormat))) == ImageBlock("image/" + imageFormat, b64)
  {
    ExtractDataUrl(b64, imageFormat);
  }

  /** The `tool_use` blocks for a message's tool calls, in order; `json.loads` is `loads`,
      `None` where it raises. */
  function ToolUses(tcs: seq<ToolCall>, loads: string -> Option<Json>): (r: Result<seq<Block>, CallError>)
    ensures r.Success? ==>
      (|r.value| == |tcs|
       && forall i :: 0 <= i < |tcs| ==>
            loads(tcs[i].call.arguments).Some?
            && r.value[i] == ToolUseBlock(tcs[i].id, tcs[i].call.name, loads(tcs[i].call.arguments).value))
    ensures r.Failure? ==> r.error == JsonDecodeError
    ensures (forall i :: 0 <= i < |tcs| ==> loads(tcs[i].call.arguments).Some?) ==> r.Success?
  {
    if tcs == [] then Success([])
    else match loads(tcs[0].call.arguments)
      case None => Failure(JsonDecodeError)
      case Some(input) =>
        match ToolUses(tcs[1..], loads)
        case Failure(e) => Failure(e)
        case Success(rest) =>
          assert forall i :: 1 <= i < |tcs| ==> tcs[1..][i - 1] == tcs[i];
          Success([ToolUseBlock(tcs[0].id, tcs[0].call.name, input)] + rest)
  }

  /** The request message for one remaining message. */
  function TranslateMessage(m: Message, loads: string -> Option<Json>): (r: Result<ReqMessage, CallError>)
    ensures m.role == "tool" ==> r == Success(ReqMessage("user", None, Blocks([ToolResultBlock(m.toolCallId, m.content)]), None, None))
  {
    if m.role == "tool" then Success(ReqMessage("user", None, Blocks([ToolResultBlock(m.toolCallId, m.content)]), None, None))
    else
      var d := Dump(m);
      var content := match m.content
        case TextContent(s) => if Strip(s) != "" then Blocks([TextBlock(s)]) else d.content
        case ElementList(es) => Blocks(RewriteElements(es))
        case NoContent => d.content;
      if m.toolCalls.Some? && m.toolCalls.value != [] then
        match content
        case Absent => Failure(KeyError("content"))
        case RawText(_) => Failure(AttributeError)
        case Blocks(bs) =>
          match ToolUses(m.toolCalls.value, loads)
          case Failure(e) => Failure(e)
          case Success(uses) => Success(d.(content := Blocks(bs + uses), toolCalls := None))
      else Success(d.(content := content))
  }

  /** A message without tool calls keeps its role, name and id; non-blank string content
      becomes one text block, blank string content stays a string, and a list becomes its
      rewritten elements. */
  lemma PlainMessage(m: Message, loads: string -> Option<Json>)
    requires m.role != "tool" && (m.toolCalls.None? || m.toolCalls == Some([]))
    ensures var r := TranslateMessage(m, loads);
      && r.Success?
      && r.value.role == m.role && r.value.name == m.name && r.value.toolCallId == m.toolCallId
      && r.value.toolCalls == m.toolCalls
      && (m.content.TextContent? && Strip(m.content.s) != "" ==> r.value.content == Blocks([TextBlock(m.content.s)]))
      && (m.content.TextContent? && Strip(m.content.s) == "" ==> r.value.content == RawText(m.content.s))
      && (m.content.ElementList? ==> r.value.content == Blocks(RewriteElements(m.content.elems)))
      && (m.content.NoContent? ==> r.value.content == Absent)
  {
  }

  /** Tool calls of a message become `tool_use` blocks after its content, and the
      `tool_calls` key goes; on absent or blank string content the append fails. */
  lemma ToolCallsAppended(m: Message, loads: string -> Option<Json>)
    requires m.role != "tool" && m.toolCalls.Some? && m.toolCalls.value != []
    ensures m.content.NoContent? ==> TranslateMessage(m, loads) == Failure(KeyError("content"))
    ensures m.content.TextContent? && Strip(m.content.s) == "" ==> TranslateMessage(m, loads) == Failure(AttributeError)
    ensures m.content.TextContent? && Strip(m.content.s) != "" && ToolUses(m.toolCalls.value, loads).Success? ==>
      TranslateMessage(m, loads) == Success(ReqMessage(m.role, m.name,
        Blocks([TextBlock(m.content.s)] + ToolUses(m.toolCalls.value, loads).value), None, m.toolCallId))
    ensures m.content.ElementList? && ToolUses(m.toolCalls.value, loads).Success? ==>
      TranslateMessage(m, loads) == Success(ReqMessage(m.role, m.name,
        Blocks(RewriteElements(m.content.elems) + ToolUses(m.toolCalls.value, loads).value), None, m.toolCallId))
  {
  }

  /** All remaining messages, in order; the first failing one aborts the call. */
  function TranslateAll(ms: seq<Message>, loads: string -> Option<Json>): (r: Result<seq<ReqMessage>, CallError>)
    ensures r.Success? ==>
      (|r.value| == |ms|
       && forall i :: 0 <= i < |ms| ==> TranslateMessage(ms[i], loads) == Success(r.value[i]))
    ensures (forall i :: 0 <= i < |ms| ==> TranslateMessage(ms[i], loads).Success?) ==> r.Success?
  {
    if ms == [] then Success([])
    else match TranslateAll(ms[..|ms| - 1], loads)
      case Failure(e) => Failure(e)
      case Success(rs) =>
        match TranslateMessage(ms[|ms| - 1], loads)
        case Failure(e) => Failure(e)
        case Success(last) =>
          assert forall i :: 0 <= i < |ms| - 1 ==> ms[..|ms| - 1][i] == ms[i];
          Success(rs + [last])
  }

  /** A failure on a prefix is the failure of the whole list. */
  lemma {:induction false} TranslateAllFails(ms: seq<Message>, k: nat, loads: string -> Option<Json>)
    requires k <= |ms| && TranslateAll(ms[..k], loads).Failure?
    ensures TranslateAll(ms, loads) == TranslateAll(ms[..k], loads)
    decreases |ms| - k
  {
    if k < |ms| {
      assert ms[..k + 1][..k] == ms[..k];
      TranslateAllFails(ms, k + 1, loads);
    } else {
      assert ms[..k] == ms;
    }
  }

  /** The request arguments: the configured `args` with `model`, `system`, `messages` and
      `tools` set on top. */
  datatype Request = Request(
    baseArgs: map<string, Json>, model: string, system: Option<string>,
    messages: seq<ReqMessage>, tools: Option<seq<Json>>)

  /** What `call` sends for a conversation; `generateTools` is the tool manager's
      `generate_tools_for_anthropic`. */
  function RequestFor<F>(model: ModelInfo, ms: seq<Message>, baseArgs: map<string, Json>,
                         funcs: seq<F>, generateTools: seq<F> -> seq<Json>,
                         loads: string -> Option<Json>): Result<Request, CallError>
  {
    match TranslateAll(WithoutFirstSystem(ms), loads)
    case Failure(e) => Failure(e)
    case Success(rs) =>
      var tools := if funcs != [] && generateTools(funcs) != [] then Some(generateTools(funcs)) else None;
      Success(Request(baseArgs, RequestedModel(model), SystemPrompt(ms), rs, tools))
  }

  /** With no tool calls anywhere, the request holds one message per remaining message, in
      order, and the system prompt is the first system message's string content. */
  lemma RequestShape<F>(model: ModelInfo, ms: seq<Message>, baseArgs: map<string, Json>,
                        funcs: seq<F>, generateTools: seq<F> -> seq<Json>, loads: string -> Option<Json>)
    requires forall i :: 0 <= i < |ms| ==> ms[i].toolCalls.None?
    ensures var r := RequestFor(model, ms, baseArgs, funcs, generateTools, loads);
      && r.Success?
      && |r.value.messages| == |WithoutFirstSystem(ms)|
      && r.value.system == SystemPrompt(ms)
      && r.value.model == RequestedModel(model)
  {
    var rest := WithoutFirstSystem(ms);
    assert forall i :: 0 <= i < |rest| ==> rest[i].toolCalls.None? by {
      forall i | 0 <= i < |rest| ensures rest[i].toolCalls.None? {
        if FirstSystem(ms).Some? {
          var k := FirstSystem(ms).value;
          if i < k { assert rest[i] == ms[i]; } else { assert rest[i] == ms[i + 1]; }
        }
      }
    }
    forall i | 0 <= i < |rest| ensures TranslateMessage(rest[i], loads).Success? {
      if rest[i].role != "tool" {
        PlainMessage(rest[i], loads);
      }
    }
  }

  /** The caller's message list, which `call` edits in place. */
  class MessageList {
    var items: seq<Message>

    constructor (items: seq<Message>)
      ensures this.items == items
    {
      this.items := items;
    }
  }

  /** The `enumerate` loop of `call` that looks for the first system message. */
  method FindSystemMessage(all: seq<Message>) returns (i: nat, systemRoleMessage: Option<Message>)
    ensures systemRoleMessage.Some? <==> FirstSystem(all).Some?
    ensures systemRoleMessage.Some? ==> FirstSystem(all) == Some(i) && systemRoleMessage.value == all[i]
  {
    i := 0;
    systemRoleMessage := None;
    while i < |all|
      invariant 0 <= i <= |all|
      invariant forall j :: 0 <= j < i ==> all[j].role != "system"
    {
      if all[i].role == "system" {
        systemRoleMessage := Some(all[i]);
        FirstSystemAt(all, i);
        return;
      }
      i := i + 1;
    }
  }

  lemma FirstSystemAt(ms: seq<Message>, i: nat)
    requires i < |ms| && ms[i].role == "system"
    requires forall j :: 0 <= j < i ==> ms[j].role != "system"
    ensures FirstSystem(ms) == Some(i)
  {
    var k := FirstSystem(ms);
    assert !(k.value < i) && !(k.value > i);
  }

  /** The loop of `call` that rewrites the remaining messages one by one; the first message
      that cannot be rewritten ends it with its error. */
  method TranslateMessages(rest: seq<Message>, loads: string -> Option<Json>)
    returns (r: Result<seq<ReqMessage>, CallError>)
    ensures r == TranslateAll(rest, loads)
  {
    var reqMessages: seq<ReqMessage> := [];
    for k := 0 to |rest|
      invariant TranslateAll(rest[..k], loads) == Success(reqMessages)
    {
      var t := TranslateMessage(rest[k], loads);
      assert rest[..k + 1][..k] == rest[..k];
      if t.Failure? {
        TranslateAllFails(rest, k + 1, loads);
        return Failure(t.error);
      }
      reqMessages := reqMessages + [t.value];
    }
    assert rest[..|rest|] == rest;
    return Success(reqMessages);
  }

  /** The request-building part of `call`: finds and pops the first system message from the
      caller's list, then rewrites the remaining messages one by one. */
  method BuildRequest<F>(model: ModelInfo, messages: MessageList, baseArgs: map<string, Json>,
                         funcs: seq<F>, generateTools: seq<F> -> seq<Json>, loads: string -> Option<Json>)
    returns (r: Result<Request, CallError>)
    modifies messages
    ensures messages.items == WithoutFirstSystem(old(messages.items))
    ensures r == RequestFor(model, old(messages.items), baseArgs, funcs, generateTools, loads)
  {
    var all := messages.items;
    var i, systemRoleMessage := FindSystemMessage(all);
    if systemRoleMessage.Some? {
      messages.items := all[..i] + all[i + 1..];
    }
    var system: Option<string> := None;
    if systemRoleMessage.Some? && systemRoleMessage.value.content.TextContent? {
      system := Some(systemRoleMessage.value.content.s);
    }

    var reqMessages := TranslateMessages(messages.items, loads);
    if reqMessages.Failure? {
      return Failure(reqMessages.error);
    }

    var tools: Option<seq<Json>> := None;
    if funcs != [] {
      var generated := generateTools(funcs);
      if generated != [] {
        tools := Some(generated);
      }
    }
    return Success(Request(baseArgs, RequestedModel(model), system, reqMessages.value, tools));
  }

  // ---------------------------------------------------------------- response side

  /** A block of the response's `content`. */
  datatype RespBlock =
    | ThinkingBlock(thinking: string)
    | TextRespBlock(text: string)
    | ToolUseRespBlock(id: string, name: string, input: Json)
    | OtherBlock

  function ThinkWrap(thinking: string): string {
    "<think>" + thinking + "</think>\n"
  }

  /** The reply text after a run of blocks: a thinking block goes in front of what is there,
      a text block after it. */
  function ReplyContent(bs: seq<RespBlock>): string {
    if bs == [] then ""
    else
      var prev := ReplyContent(bs[..|bs| - 1]);
      match bs[|bs| - 1]
      case ThinkingBlock(t) => ThinkWrap(t) + prev
      case TextRespBlock(t) => prev + t
      case _ => prev
  }

  /** The thinking blocks' wrappers, latest first. */
  function ThinkPrefix(bs: seq<RespBlock>): string {
    if bs == [] then ""
    else
      var prev := ThinkPrefix(bs[..|bs| - 1]);
      if bs[|bs| - 1].ThinkingBlock? then ThinkWrap(bs[|bs| - 1].thinking) + prev else prev
  }

  /** The text blocks' texts, in order. */
  function Texts(bs: seq<RespBlock>): string {
    if bs == [] then ""
    else Texts(bs[..|bs| - 1]) + (if bs[|bs| - 1].TextRespBlock? then bs[|bs| - 1].text else "")
  }

  /** The reply is every thinking block, latest first, followed by all the text in order. */
  lemma {:induction false} ReplyContentSplits(bs: seq<RespBlock>)
    ensures ReplyContent(bs) == ThinkPrefix(bs) + Texts(bs)
  {
    if bs != [] {
      ReplyContentSplits(bs[..|bs| - 1]);
    }
  }

  /** The tool calls of the response's `tool_use` blocks, in order; `json.dumps` is `dumps`. */
  function ReplyToolCalls(bs: seq<RespBlock>, dumps: Json -> string): (r: seq<ToolCall>)
    ensures |r| <= |bs|
  {
    if bs == [] then []
    else
      var prev := ReplyToolCalls(bs[..|bs| - 1], dumps);
      match bs[|bs| - 1]
      case ToolUseRespBlock(id, name, input) => prev + [ToolCall(id, "function", FunctionCall(name, dumps(input)))]
      case _ => prev
  }

  /** The tool calls of two runs of blocks are those of the first run followed by those of
      the second. */
  lemma {:induction false} ReplyToolCallsAppend(a: seq<RespBlock>, b: seq<RespBlock>, dumps: Json -> string)
    ensures ReplyToolCalls(a + b, dumps) == ReplyToolCalls(a, dumps) + ReplyToolCalls(b, dumps)
  {
    if b == [] {
      assert a + b == a;
    } else {
      var ab, b', x := a + b, b[..|b| - 1], b[|b| - 1];
      assert ab[..|ab| - 1] == a + b' && ab[|ab| - 1] == x;
      ReplyToolCallsAppend(a, b', dumps);
      if x.ToolUseRespBlock? {
        var call := ToolCall(x.id, "function", FunctionCall(x.name, dumps(x.input)));
        assert ReplyToolCalls(ab, dumps) == ReplyToolCalls(a + b', dumps) + [call];
        assert ReplyToolCalls(b, dumps) == ReplyToolCalls(b', dumps) + [call];
      } else {
        assert ReplyToolCalls(ab, dumps) == ReplyToolCalls(a + b', dumps);
        assert ReplyToolCalls(b, dumps) == ReplyToolCalls(b', dumps);
      }
    }
  }

  /** One `tool_use` block gives one call with its id, type "function", its name and the
      `json.dumps` of its input; any other block gives none. */
  lemma ReplyToolCallsSingle(blk: RespBlock, dumps: Json -> string)
    ensures ReplyToolCalls([blk], dumps) ==
      (if blk.ToolUseRespBlock? then [ToolCall(blk.id, "function", FunctionCall(blk.name, dumps(blk.input)))] else [])
  {
    assert [blk][..0] == [];
  }

  /** No `tool_use` block, no tool calls. */
  lemma {:induction false} NoToolUseNoCalls(bs: seq<RespBlock>, dumps: Json -> string)
    requires forall i :: 0 <= i < |bs| ==> !bs[i].ToolUseRespBlock?
    ensures ReplyToolCalls(bs, dumps) == []
  {
    if bs != [] {
      NoToolUseNoCalls(bs[..|bs| - 1], dumps);
    }
  }

  /** A `tool_use` block always contributes a call. */
  lemma {:induction false} ToolUseGivesCalls(bs: seq<RespBlock>, dumps: Json -> string, i: nat)
    requires i < |bs| && bs[i].ToolUseRespBlock?
    ensures ReplyToolCalls(bs, dumps) != []
  {
    if i < |bs| - 1 {
      ToolUseGivesCalls(bs[..|bs| - 1], dumps, i);
    }
  }

  /** `Message(**args)` for the assembled reply; `tool_calls` is present only when a call occurred. */
  function ReplyMessage(role: string, bs: seq<RespBlock>, dumps: Json -> string): Message {
    var calls := ReplyToolCalls(bs, dumps);
    Message(role, None, TextContent(ReplyContent(bs)), if calls == [] then None else Some(calls), None)
  }

  /** The response loop of `call`. Changes nothing. */
  method AssembleReply(role: string, blocks: seq<RespBlock>, dumps: Json -> string) returns (msg: Message)
    ensures msg == ReplyMessage(role, blocks, dumps)
  {
    var content := "";
    var toolCalls: Option<seq<ToolCall>> := None;
    for i := 0 to |blocks|
      invariant content == ReplyContent(blocks[..i])
      invariant toolCalls == (if ReplyToolCalls(blocks[..i], dumps) == [] then None else Some(ReplyToolCalls(blocks[..i], dumps)))
    {
      assert blocks[..i + 1][..i] == blocks[..i];
      match blocks[i] {
        case ThinkingBlock(t) =>
          content := "<think>" + t + "</think>\n" + content;
        case TextRespBlock(t) =>
          content := content + t;
        case ToolUseRespBlock(id, name, input) =>
          var toolCall := ToolCall(id, "function", FunctionCall(name, dumps(input)));
          if toolCalls.None? {
            toolCalls := Some([]);
          }
          toolCalls := Some(toolCalls.value + [toolCall]);
        case OtherBlock =>
      }
    }
    assert blocks[..|blocks|] == blocks;
    msg := Message(role, None, TextContent(content), toolCalls, None);
  }

  /** What `messages.create` did with the request. */
  datatype ApiOutcome =
    | Created(role: string, blocks: seq<RespBlock>)
    | AuthenticationError(message: string)
    | BadRequestError(message: string)
    | OtherFailure(message: string)

  /** The reply, or the error `call` raises: authentication and bad-request errors become
      `RequesterError`; anything else propagates. */
  function ReplyFor(outcome: ApiOutcome, dumps: Json -> string): (r: Result<Message, CallError>)
    ensures outcome.AuthenticationError? ==> r == Failure(RequesterError("api-key 无效: " + outcome.message))
    ensures outcome.BadRequestError? ==> r == Failure(RequesterError("请求参数错误: " + outcome.message))
    ensures outcome.OtherFailure? ==> r == Failure(ApiError(outcome.message))
    ensures outcome.Created? ==> r == Success(ReplyMessage(outcome.role, outcome.blocks, dumps))
  {
    match outcome
    case Created(role, blocks) => Success(ReplyMessage(role, blocks, dumps))
    case AuthenticationError(m) => Failure(RequesterError("api-key 无效: " + m))
    case BadRequestError(m) => Failure(RequesterError("请求参数错误: " + m))
    case OtherFailure(m) => Failure(ApiError(m))
  }

  /** `call`: builds the request (popping the system message from the caller's list), and
      given the API's outcome for it, assembles the reply or maps the error. */
  method Call<F>(model: ModelInfo, messages: MessageList, baseArgs: map<string, Json>,
                 funcs: seq<F>, generateTools: seq<F> -> seq<Json>,
                 loads: string -> Option<Json>, dumps: Json -> string, outcome: ApiOutcome)
    returns (r: Result<Message, CallError>)
    modifies messages
    ensures messages.items == WithoutFirstSystem(old(messages.items))
    ensures var req := RequestFor(model, old(messages.items), baseArgs, funcs, generateTools, loads);
      && (req.Failure? ==> r == Failure(req.error))
      && (req.Success? ==> r == ReplyFor(outcome, dumps))
  {
    var req := BuildRequest(model, messages, baseArgs, funcs, generateTools, loads);
    if req.Failure? {
      return Failure(req.error);
    }
    match outcome {
      case Created(role, blocks) =>
        var msg := AssembleReply(role, blocks, dumps);
        return Success(msg);
      case AuthenticationError(m) =>
        return Failure(RequesterError("api-key 无效: " + m));
      case BadRequestError(m) =>
        return Failure(RequesterError("请求参数错误: " + m));
      case OtherFailure(m) =>
        return Failure(ApiError(m));
    }
  }
}
