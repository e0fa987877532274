/** The provider-side session registry: one session per launcher (a person or a group),
    found by a linear search or created with its concurrency limit, and the conversation a
    session is currently using. */
module SessionMgr {
  import opened Wrappers
  import opened LlmEntities

  datatype LauncherType = Person | Group

  /** `LauncherTypes.value`. */
  function TypeValue(t: LauncherType): string {
    match t
    case Person => "person"
    case Group => "group"
  }

  /** The `session-concurrency` override key `f"{type.value}_{id}"`. */
  function LauncherKey(t: LauncherType, launcherId: string): string {
    TypeValue(t) + "_" + launcherId
  }

  /** The concurrency a new session gets: the `default` entry is read first (a missing one
      raises `KeyError`, here `None`), then an entry under the launcher key replaces it. */
  function SessionConcurrency(cfg: map<string, int>, key: string): (r: Option<int>)
    ensures r.None? <==> "default" !in cfg
    ensures r.Some? && key in cfg ==> r.value == cfg[key]
    ensures r.Some? && key !in cfg ==> r.value == cfg["default"]
  {
    if "default" !in cfg then None
    else if key in cfg then Some(cfg[key])
    else Some(cfg["default"])
  }

  /** One `prompt` entry of the pipeline's local-agent settings. */
  datatype PromptSetting = PromptSetting(role: string, content: string)

  /** `Message(**prompt_message)`. */
  function ToMessage(p: PromptSetting): Message {
    Message(p.role, None, TextContent(p.content), None, None)
  }

  datatype Prompt = Prompt(name: string, messages: seq<Message>)

  /** A conversation; the model and the functions are what the model manager and the tool
      manager hand back, opaque here. */
  datatype Conversation<Model, Func> = Conversation(
    prompt: Prompt, messages: seq<Message>, useLlmModel: Model, useFuncs: seq<Func>)

  class Session<Model, Func> {
    const launcherType: LauncherType
    const launcherId: string
    /** The semaphore's initial value. */
    const concurrency: int
    var conversations: Option<seq<Conversation<Model, Func>>>
    var usingConversation: Option<Conversation<Model, Func>>

    constructor (launcherType: LauncherType, launcherId: string, concurrency: int)
      ensures this.launcherType == launcherType && this.launcherId == launcherId
      ensures this.concurrency == concurrency
      ensures conversations == None && usingConversation == None
    {
      this.launcherType := launcherType;
      this.launcherId := launcherId;
      this.concurrency := concurrency;
      conversations := None;
      usingConversation := None;
    }
  }

  predicate IsLauncher<Model, Func>(s: Session<Model, Func>, t: LauncherType, launcherId: string) {
    s.launcherType == t && s.launcherId == launcherId
  }

  /** The position of the first session of that launcher, if any. */
  function FirstMatch<Model, Func>(list: seq<Session<Model, Func>>, t: LauncherType, launcherId: string): (r: Option<nat>)
    ensures r.Some? ==>
      (r.value < |list| && IsLauncher(list[r.value], t, launcherId)
       && forall j :: 0 <= j < r.value ==> !IsLauncher(list[j], t, launcherId))
    ensures r.None? ==> forall j :: 0 <= j < |list| ==> !IsLauncher(list[j], t, launcherId)
  {
    if list == [] then None
    else if IsLauncher(list[0], t, launcherId) then Some(0)
    else match FirstMatch(list[1..], t, launcherId)
      case None => None
      case Some(k) => Some(k + 1)
  }

  /** `prompt_messages`: one message per prompt setting, in order. */
  method PromptMessages(settings: seq<PromptSetting>) returns (msgs: seq<Message>)
    ensures |msgs| == |settings|
    ensures forall i :: 0 <= i < |settings| ==> msgs[i] == ToMessage(settings[i])
  {
    msgs := [];
    for i := 0 to |settings|
      invariant |msgs| == i
      invariant forall j :: 0 <= j < i ==> msgs[j] == ToMessage(settings[j])
    {
      msgs := msgs + [ToMessage(settings[i])];
    }
  }

  class SessionManager<Model, Func> {
    var sessionList: seq<Session<Model, Func>>

    constructor ()
      ensures sessionList == []
    {
      sessionList := [];
    }

    /** `get_session`: the first stored session of the launcher, or a new one appended to
        the list; `cfg` is the `session-concurrency` table. A negative concurrency makes
        `asyncio.Semaphore` raise before anything is appended. */
    method GetSession(t: LauncherType, launcherId: string, cfg: map<string, int>)
      returns (r: Result<Session<Model, Func>, string>)
      modifies this
      ensures FirstMatch(old(sessionList), t, launcherId).Some? ==>
        (r == Success(old(sessionList)[FirstMatch(old(sessionList), t, launcherId).value])
         && sessionList == old(sessionList))
      ensures FirstMatch(old(sessionList), t, launcherId).None? && "default" !in cfg ==>
        (r.Failure? && sessionList == old(sessionList))
      ensures FirstMatch(old(sessionList), t, launcherId).None? && "default" in cfg
              && SessionConcurrency(cfg, LauncherKey(t, launcherId)).value < 0 ==>
        (r.Failure? && sessionList == old(sessionList))
      ensures FirstMatch(old(sessionList), t, launcherId).None? && "default" in cfg
              && SessionConcurrency(cfg, LauncherKey(t, launcherId)).value >= 0 ==>
        && r.Success? && fresh(r.value)
        && sessionList == old(sessionList) + [r.value]
        && IsLauncher(r.value, t, launcherId)
        && Some(r.value.concurrency) == SessionConcurrency(cfg, LauncherKey(t, launcherId))
        && r.value.conversations.None? && r.value.usingConversation.None?
    {
      var i := 0;
      while i < |sessionList|
        invariant 0 <= i <= |sessionList|
        invariant forall j :: 0 <= j < i ==> !IsLauncher(sessionList[j], t, launcherId)
      {
        if t == sessionList[i].launcherType && launcherId == sessionList[i].launcherId {
          assert FirstMatch(sessionList, t, launcherId) == Some(i) by {
            FirstMatchAt(sessionList, t, launcherId, i);
          }
          return Success(sessionList[i]);
        }
        i := i + 1;
      }
      if "default" !in cfg {
        return Failure("KeyError: 'default'");
      }
      var sessionConcurrency := cfg["default"];
      var key := LauncherKey(t, launcherId);
      if key in cfg {
        sessionConcurrency := cfg[key];
      }
      if sessionConcurrency < 0 {
        return Failure("ValueError: Semaphore initial value must be >= 0");
      }
      var session := new Session(t, launcherId, sessionConcurrency);
      sessionList := sessionList + [session];
      return Success(session);
    }

    /** `get_conversation`: normalises a missing or empty conversation list to `[]`, builds
        the default prompt, and starts a conversation only when none is in use. The model
        (looked up by the uuid in the query's pipeline config) and the functions are inputs. */
    method GetConversation(session: Session<Model, Func>, promptSettings: seq<PromptSetting>, model: Model, funcs: seq<Func>)
      returns (conversation: Conversation<Model, Func>)
      modifies session
      ensures var base := if old(session.conversations).None? || old(session.conversations) == Some([]) then []
                          else old(session.conversations).value;
        && (old(session.usingConversation).Some? ==>
              (conversation == old(session.usingConversation).value
               && session.usingConversation == old(session.usingConversation)
               && session.conversations == Some(base)))
        && (old(session.usingConversation).None? ==>
              && conversation.prompt.name == "default"
              && |conversation.prompt.messages| == |promptSettings|
              && (forall i :: 0 <= i < |promptSettings| ==> conversation.prompt.messages[i] == ToMessage(promptSettings[i]))
              && conversation.messages == [] && conversation.useLlmModel == model && conversation.useFuncs == funcs
              && session.conversations == Some(base + [conversation])
              && session.usingConversation == Some(conversation))
    {
      if session.conversations.None? || session.conversations == Some([]) {
        session.conversations := Some([]);
      }
      var promptMessages := PromptMessages(promptSettings);
      var prompt := Prompt("default", promptMessages);
      if session.usingConversation.None? {
        var created := Conversation(prompt, [], model, funcs);
        session.conversations := Some(session.conversations.value + [created]);
        session.usingConversation := Some(created);
      }
      return session.usingConversation.value;
    }
  }

  lemma FirstMatchAt<Model, Func>(list: seq<Session<Model, Func>>, t: LauncherType, launcherId: string, i: nat)
    requires i < |list| && IsLauncher(list[i], t, launcherId)
    requires forall j :: 0 <= j < i ==> !IsLauncher(list[j], t, launcherId)
    ensures FirstMatch(list, t, launcherId) == Some(i)
  {
    var r := FirstMatch(list, t, launcherId);
    assert r.Some?;
    assert !(r.value < i) && !(r.value > i);
  }

  /** A later lookup of the same launcher finds the session that was just created: the list
      held no earlier match, and the new one sits at its end. */
  lemma CreatedIsFound<Model, Func>(list: seq<Session<Model, Func>>, s: Session<Model, Func>, t: LauncherType, launcherId: string)
    requires FirstMatch(list, t, launcherId).None? && IsLauncher(s, t, launcherId)
    ensures FirstMatch(list + [s], t, launcherId) == Some(|list|)
  {
    FirstMatchAt(list + [s], t, launcherId, |list|);
  }
}
