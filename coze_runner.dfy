/** The Coze runner's configuration checks (agent or workflow application), its plain-text
    extraction from the user message, and the dispatch of `run` on the application type. */
module CozeRunner {
  import opened Wrappers
  import opened Json
  import opened LlmEntities

  /** `CozeAPIError` with its cause, and the dictionary errors Python raises on the way. */
  datatype CozeError =
    | UnsupportedAppType(appType: Json)
    | MissingFlowId
    | BothIdsPresent
    | NeitherIdPresent
    | KeyError(key: string)
    | NotADict(key: string)

  /** The runner fields `initialize` sets (the client objects built from them are left out). */
  datatype CozeSettings = CozeSettings(
    appType: Json, patToken: Json, wwwBase: Json, apiBase: Json, stream: Json,
    botId: Json, appId: Json, flowId: Json, inputKey: Json)

  /** The runner's class-level defaults. */
  const Defaults := CozeSettings(JNull, JNull, JNull, JNull, JBool(true), JNull, JNull, JNull, JStr("input"))

  const ValidAppTypes: seq<Json> := [JStr("agent"), JStr("workflow")]

  function Section(cfg: map<string, Json>, key: string): Result<map<string, Json>, CozeError> {
    if key !in cfg then Failure(KeyError(key))
    else match cfg[key]
      case JObj(fields) => Success(fields)
      case _ => Failure(NotADict(key))
  }

  /** What `initialize` makes of the `coze-app-api` section, step by step as the source reads it,
      on a runner whose fields were `prev`. */
  function InitConfig(prev: CozeSettings, cfg: map<string, Json>): (r: Result<CozeSettings, CozeError>)
    ensures "app-type" in cfg && cfg["app-type"] !in ValidAppTypes ==> r == Failure(UnsupportedAppType(cfg["app-type"]))
    ensures r.Success? ==> r.value.appType in ValidAppTypes && r.value.stream == Get(cfg, "stream", JBool(true))
  {
    match CommonConfig(prev, cfg)
    case Failure(e) => Failure(e)
    case Success(base) =>
      if base.appType == JStr("agent") then AgentConfig(base, cfg) else WorkflowConfig(base, cfg)
  }

  /** The checks and fields `initialize` shares between both application types. */
  function CommonConfig(prev: CozeSettings, cfg: map<string, Json>): Result<CozeSettings, CozeError> {
    if "app-type" !in cfg then Failure(KeyError("app-type"))
    else
      var appType := cfg["app-type"];
      if appType !in ValidAppTypes then Failure(UnsupportedAppType(appType))
      else if "pat_token" !in cfg then Failure(KeyError("pat_token"))
      else if "coze_www_base" !in cfg then Failure(KeyError("coze_www_base"))
      else if "coze_api_base" !in cfg then Failure(KeyError("coze_api_base"))
      else Success(prev.(appType := appType, patToken := cfg["pat_token"], wwwBase := cfg["coze_www_base"],
                         apiBase := cfg["coze_api_base"], stream := Get(cfg, "stream", JBool(true))))
  }

  /** The `agent` branch of `initialize`: the bot id is required. */
  function AgentConfig(base: CozeSettings, cfg: map<string, Json>): Result<CozeSettings, CozeError> {
    match Section(cfg, "agent")
    case Failure(e) => Failure(e)
    case Success(agent) =>
      if "bot_id" !in agent then Failure(KeyError("bot_id")) else Success(base.(botId := agent["bot_id"]))
  }

  /** The `workflow` branch of `initialize`: a flow id and exactly one truthy id. */
  function WorkflowConfig(base: CozeSettings, cfg: map<string, Json>): Result<CozeSettings, CozeError> {
    match Section(cfg, "workflow")
    case Failure(e) => Failure(e)
    case Success(wc) =>
      var botId := Get(wc, "bot_id", JNull);
      if "flow_id" !in wc then Failure(MissingFlowId)
      else
        var appId := Get(wc, "app_id", JNull);
        if PyTruthy(appId) && PyTruthy(botId) then Failure(BothIdsPresent)
        else if !PyTruthy(appId) && !PyTruthy(botId) then Failure(NeitherIdPresent)
        else Success(base.(botId := botId, flowId := wc["flow_id"], appId := appId,
                           inputKey := Get(wc, "input_key", JStr("input"))))
  }

  /** An agent configuration takes its bot id from `agent.bot_id` and leaves the other ids
      and the input key as they were (the class defaults on a new runner). */
  lemma AgentSettings(prev: CozeSettings, cfg: map<string, Json>)
    requires InitConfig(prev, cfg).Success? && cfg["app-type"] == JStr("agent")
    ensures cfg["agent"].JObj? && "bot_id" in cfg["agent"].fields
    ensures InitConfig(prev, cfg).value.botId == cfg["agent"].fields["bot_id"]
    ensures InitConfig(prev, cfg).value.appId == prev.appId && InitConfig(prev, cfg).value.flowId == prev.flowId
    ensures InitConfig(prev, cfg).value.inputKey == prev.inputKey
  {
  }

  /** A workflow configuration that passes has a flow id and exactly one truthy id of
      `app_id` and `bot_id`; the input key defaults to "input". */
  lemma WorkflowSettings(prev: CozeSettings, cfg: map<string, Json>)
    requires InitConfig(prev, cfg).Success? && cfg["app-type"] == JStr("workflow")
    ensures cfg["workflow"].JObj? && "flow_id" in cfg["workflow"].fields
    ensures var s := InitConfig(prev, cfg).value;
      && s.flowId == cfg["workflow"].fields["flow_id"]
      && (PyTruthy(s.appId) != PyTruthy(s.botId))
      && s.inputKey == Get(cfg["workflow"].fields, "input_key", JStr("input"))
  {
  }

  /** The workflow checks in both directions: with a flow id present, the configuration is
      accepted exactly when one of `app_id` and `bot_id` is truthy. */
  lemma WorkflowIdRule(prev: CozeSettings, cfg: map<string, Json>)
    requires "app-type" in cfg && cfg["app-type"] == JStr("workflow")
    requires "pat_token" in cfg && "coze_www_base" in cfg && "coze_api_base" in cfg
    requires "workflow" in cfg && cfg["workflow"].JObj? && "flow_id" in cfg["workflow"].fields
    ensures var wc := cfg["workflow"].fields;
      InitConfig(prev, cfg).Success? <==> PyTruthy(Get(wc, "app_id", JNull)) != PyTruthy(Get(wc, "bot_id", JNull))
  {
  }

  /** Which message generator `run` uses. */
  datatype RunPath = AgentPath | WorkflowPath

  /** `run`'s dispatch on the application type. */
  function Dispatch(appType: Json): (r: Result<RunPath, CozeError>)
    ensures r == Success(AgentPath) <==> appType == JStr("agent")
    ensures r == Success(WorkflowPath) <==> appType == JStr("workflow")
    ensures r.Failure? <==> appType !in ValidAppTypes
  {
    if appType == JStr("agent") then Success(AgentPath)
    else if appType == JStr("workflow") then Success(WorkflowPath)
    else Failure(UnsupportedAppType(appType))
  }

  /** After a successful `initialize`, `run` never takes its error branch. */
  lemma InitializedRunDispatches(prev: CozeSettings, cfg: map<string, Json>)
    requires InitConfig(prev, cfg).Success?
    ensures Dispatch(InitConfig(prev, cfg).value.appType).Success?
  {
  }

  /** What one element contributes: its text when it is of type "text", "" otherwise. */
  function Piece(e: ContentElement): string {
    if Kind(e) == "text" then e.text else ""
  }

  /** The text of the elements of type "text", in order. */
  function TextOf(elems: seq<ContentElement>): string {
    if elems == [] then "" else Piece(elems[0]) + TextOf(elems[1..])
  }

  /** The extracted text of a concatenation is the concatenation of the extracted texts. */
  lemma {:induction false} TextOfAppend(a: seq<ContentElement>, b: seq<ContentElement>)
    ensures TextOf(a + b) == TextOf(a) + TextOf(b)
  {
    if a == [] {
      assert a + b == b;
    } else {
      assert (a + b)[1..] == a[1..] + b;
      TextOfAppend(a[1..], b);
    }
  }

  /** One more element adds what it contributes. */
  lemma TextOfSnoc(elems: seq<ContentElement>, e: ContentElement)
    ensures TextOf(elems + [e]) == TextOf(elems) + Piece(e)
  {
    TextOfAppend(elems, [e]);
    assert [e][1..] == [];
  }

  /** Only text elements contribute: a message of images extracts to "". */
  lemma {:induction false} NoTextNoOutput(elems: seq<ContentElement>)
    requires forall i :: 0 <= i < |elems| ==> !elems[i].TextElement?
    ensures TextOf(elems) == ""
  {
    if elems != [] {
      NoTextNoOutput(elems[1..]);
    }
  }

  /** The loop of `_preprocess_user_message` over a list content: appends the text of each
      element of type "text". */
  method ConcatTexts(elems: seq<ContentElement>) returns (plainText: string)
    ensures plainText == TextOf(elems)
  {
    plainText := "";
    for i := 0 to |elems|
      invariant plainText == TextOf(elems[..i])
    {
      assert elems[..i + 1] == elems[..i] + [elems[i]];
      TextOfSnoc(elems[..i], elems[i]);
      if Kind(elems[i]) == "text" {
        plainText := plainText + elems[i].text;
      }
    }
    assert elems[..|elems|] == elems;
  }

  /** The runner's fields. */
  class Runner {
    var appType: Json
    var patToken: Json
    var wwwBase: Json
    var apiBase: Json
    var stream: Json
    var botId: Json
    var appId: Json
    var flowId: Json
    var inputKey: Json

    function Settings(): CozeSettings
      reads this
    {
      CozeSettings(appType, patToken, wwwBase, apiBase, stream, botId, appId, flowId, inputKey)
    }

    constructor ()
      ensures Settings() == Defaults
    {
      appType, patToken, wwwBase, apiBase := JNull, JNull, JNull, JNull;
      stream, botId, appId, flowId, inputKey := JBool(true), JNull, JNull, JNull, JStr("input");
    }

    /** `initialize` on the `coze-app-api` section: assigns the fields in the source's order
        and stops at the first failing check. */
    method Initialize(cfg: map<string, Json>) returns (r: Result<(), CozeError>)
      modifies this
      ensures InitConfig(old(Settings()), cfg).Failure? <==> r.Failure?
      ensures r.Failure? ==> r.error == InitConfig(old(Settings()), cfg).error
      ensures r.Success? ==> Settings() == InitConfig(old(Settings()), cfg).value
    {
      r := InitializeCommon(cfg);
      if r.Failure? {
        return;
      }
      if appType == JStr("agent") {
        r := InitializeAgent(cfg);
      } else {
        r := InitializeWorkflow(cfg);
      }
    }

    /** The checks and assignments before the application types part ways. */
    method InitializeCommon(cfg: map<string, Json>) returns (r: Result<(), CozeError>)
      modifies this
      ensures CommonConfig(old(Settings()), cfg).Failure? <==> r.Failure?
      ensures r.Failure? ==> r.error == CommonConfig(old(Settings()), cfg).error
      ensures r.Success? ==> Settings() == CommonConfig(old(Settings()), cfg).value
    {
      if "app-type" !in cfg {
        return Failure(KeyError("app-type"));
      }
      appType := cfg["app-type"];
      if appType !in ValidAppTypes {
        return Failure(UnsupportedAppType(appType));
      }
      if "pat_token" !in cfg { return Failure(KeyError("pat_token")); }
      patToken := cfg["pat_token"];
      if "coze_www_base" !in cfg { return Failure(KeyError("coze_www_base")); }
      wwwBase := cfg["coze_www_base"];
      if "coze_api_base" !in cfg { return Failure(KeyError("coze_api_base")); }
      apiBase := cfg["coze_api_base"];
      stream := Get(cfg, "stream", JBool(true));
      return Success(());
    }

    /** The `agent` branch of `initialize`, on the fields set so far. */
    method InitializeAgent(cfg: map<string, Json>) returns (r: Result<(), CozeError>)
      modifies this
      ensures AgentConfig(old(Settings()), cfg).Failure? <==> r.Failure?
      ensures r.Failure? ==> r.error == AgentConfig(old(Settings()), cfg).error
      ensures r.Success? ==> Settings() == AgentConfig(old(Settings()), cfg).value
    {
      var agent := Section(cfg, "agent");
      if agent.Failure? { return Failure(agent.error); }
      if "bot_id" !in agent.value { return Failure(KeyError("bot_id")); }
      botId := agent.value["bot_id"];
      return Success(());
    }

    /** The `workflow` branch of `initialize`, on the fields set so far. */
    method InitializeWorkflow(cfg: map<string, Json>) returns (r: Result<(), CozeError>)
      modifies this
      ensures WorkflowConfig(old(Settings()), cfg).Failure? <==> r.Failure?
      ensures r.Failure? ==> r.error == WorkflowConfig(old(Settings()), cfg).error
      ensures r.Success? ==> Settings() == WorkflowConfig(old(Settings()), cfg).value
    {
      var section := Section(cfg, "workflow");
      if section.Failure? { return Failure(section.error); }
      var workflowConfig := section.value;
      botId := Get(workflowConfig, "bot_id", JNull);
      if "flow_id" !in workflowConfig {
        return Failure(MissingFlowId);
      }
      flowId := workflowConfig["flow_id"];
      appId := Get(workflowConfig, "app_id", JNull);
      if PyTruthy(appId) && PyTruthy(botId) {
        return Failure(BothIdsPresent);
      }
      if !PyTruthy(appId) && !PyTruthy(botId) {
        return Failure(NeitherIdPresent);
      }
      inputKey := Get(workflowConfig, "input_key", JStr("input"));
      return Success(());
    }

    /** `_preprocess_user_message`: the text elements of a list content, concatenated in
        order; a string content as it is; "" for anything else. Changes nothing. */
    method PreprocessUserMessage(content: Content) returns (plainText: string)
      ensures content.ElementList? ==> plainText == TextOf(content.elems)
      ensures content.TextContent? ==> plainText == content.s
      ensures content.NoContent? ==> plainText == ""
    {
      plainText := "";
      match content {
        case ElementList(elems) =>
          plainText := ConcatTexts(elems);
        case TextContent(s) =>
          plainText := s;
        case NoContent =>
      }
    }
  }
}
