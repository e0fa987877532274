# LangBot core logic, modelled in Dafny

This project models the decision-making core of LangBot, an instant-messaging bot that
connects chat platforms to large-language-model providers. The network clients, the
database, the plugin framework and the user interface are not modelled. What is modelled
is the logic those parts rely on:

- **Pipeline edit form** (`PipelineForm`): which tabs exist, which form values validate,
  which stages are shown, how one stage edit is merged into the form value, what payload
  is submitted, and which tab schemas the metadata loop captures.
- **Wizard navigator** (`WizardNavigator`): a bounded index over the four configuration
  tabs, with previous/next queries, the display rule and the button states.
- **Chat session history window** (`ChatSession`):
  - `cut_out` packs the newest rounds greedily into a token budget;
  - `append`, `undo` and `reset` keep the prompt and the token counts in step;
  - the name parsing of `persistence`;
  - the module-level session registry.
- **Provider session registry** (`SessionMgr`): find-or-create by launcher, the
  concurrency override, and the conversation a session uses.
- **Coze runner** (`CozeRunner`): the configuration checks of `initialize`, the plain-text
  extraction from a user message, and `run`'s dispatch on the application type.
- **Anthropic messages requester** (`AnthropicMessages`):
  - the request side: the system message is taken out, tool messages and content blocks
    are rewritten, and tool calls are appended;
  - the reply side: thinking, text and tool-use response blocks are assembled into a reply.
- **Model manager** (`ModelManager`): the fixed catalogue `initialize` registers, and the
  lookup by name. Each OneAPI entry is built as "OneAPI/" followed by its provider model
  name, which gives the same names and model names the source spells out one by one.
- **Platform manager** (`PlatformManager`):
  - loading, looking up, removing, running and shutting down bots;
  - the write-back of an adapter's configuration to the k-th enabled entry;
  - the `At` prefix rule of `send`.
- **Small functions**: data-URL splitting (`ImageUtil`), command-prefix dispatch
  (`Processor`), and the static-file mimetype chain and health payload (`HttpController`).

Support modules:

- `Wrappers`: `Option` and `Result`.
- `Json`: a JSON value, with JavaScript and Python truthiness and `dict.get`.
- `PyStrings`: Python's `startswith`, `endswith`, `strip`, `split`, `join` and ASCII `lower`.
- `LlmEntities`: the message, content-element and tool-call entities the providers exchange.

Objects that the source updates in place are Dafny classes, with `modifies` clauses and
contracts that state their whole new state. Examples are the chat `Session`, the session
managers, the Coze `Runner`, the model and platform `Manager`s, and the caller's message
list of the Anthropic requester. Pure code is written as functions, with lemmas about them.
Loops in the source are `while` or `for` loops with invariants, proved against a
specification function. Examples are `cut_out`, the token total, the linear searches, the
write-back counter loop, the reply assembly and the plain-text accumulation.

Calls into code that is not visible are parameters of the model:

- the completion call of `append`: its reply text and total token count;
- `json.loads` and `json.dumps`;
- the Anthropic API outcome;
- the tool-schema generator;
- the PIL format sniffing;
- `urlparse`;
- the clock;
- the model and functions handed to `get_conversation`.

## Model

| member | source | states |
|---|---|---|
| PyStrings.Split | pkg/openai/session.py:320 | Python `str.split(c)`: at least one piece, no piece contains the separator, and joining the pieces with it gives back the input |
| PyStrings.StripAllSpace | pkg/openai/session.py:232 | `strip()` yields "" exactly when every character is whitespace |
| PyStrings.StripUnpadded | pkg/pipeline/process/process.py:40 | a string with no whitespace at either end is its own `strip()` |
| PyStrings.AfterLastOf | pkg/utils/image.py:67 | the last piece of `(t + c + u).split(c)` is `u` when `u` has no `c` |
| PyStrings.BeforeFirstOf | pkg/utils/image.py:68 | the first piece of `(t + c + u).split(c)` is `t` when `t` has no `c` |
| PyStrings.SplitWithoutSep | pkg/utils/image.py:67 | a string without the separator splits into itself alone |
| PyStrings.SplitAtSep | pkg/openai/session.py:320 | `(t + c + u).split(c)` is the pieces of `t` followed by the pieces of `u` |
| PyStrings.SplitPiecesWithin | pkg/utils/image.py:67-68 | a character absent from the input is absent from every piece |
| PyStrings.TrimStartFacts | pkg/openai/session.py:232 | dropping leading whitespace leaves a suffix of the input that is empty or starts with a non-space, and everything dropped is whitespace |
| PyStrings.TrimEndFacts | pkg/openai/session.py:232 | dropping trailing whitespace leaves a prefix of the input that is empty or ends with a non-space, and everything dropped is whitespace |
| PyStrings.Strip | pkg/openai/session.py:232 | the result of `strip()` is empty or neither begins nor ends with whitespace |
| PyStrings.StripPadded | pkg/pipeline/process/process.py:40 | the input is the result of `strip()` with only whitespace before and after it |
| Json.Get | pkg/provider/runners/cozeapi.py:62 | `dict.get(key, default)`: the stored value when the key is present, the default otherwise |
| PipelineForm.TabsPerMode | web/src/app/home/pipelines/components/pipeline-form/PipelineFormComponent.tsx:75-83 | edit mode has the tabs basic, ai, trigger, safety, output in that order; create mode has only basic |
| PipelineForm.BasicIssuesNone | web/src/app/home/pipelines/components/pipeline-form/PipelineFormComponent.tsx:53-66 | the basic object reports no issue exactly when the name and the description are non-empty strings |
| PipelineForm.RecordIssuesNone | web/src/app/home/pipelines/components/pipeline-form/PipelineFormComponent.tsx:57-70 | a tab reports no issue exactly when it is a record, or absent in create mode |
| PipelineForm.ValidateAccepts | web/src/app/home/pipelines/components/pipeline-form/PipelineFormComponent.tsx:51-71 | both directions: the values validate exactly when `basic.name` and `basic.description` are non-empty strings and every tab is a record, present in edit mode and optional in create mode |
| PipelineForm.NameRequired | web/src/app/home/pipelines/components/pipeline-form/PipelineFormComponent.tsx:53-56 | a missing or empty name yields an issue on the path basic.name in both modes |
| PipelineForm.CreateAcceptsIdentityOnly | web/src/app/home/pipelines/components/pipeline-form/PipelineFormComponent.tsx:57-60 | values holding only a valid basic pass the create schema and fail the edit schema |
| PipelineForm.RunnerPath | web/src/app/home/pipelines/components/pipeline-form/PipelineFormComponent.tsx:205-206 | the watched `ai.runner.runner` value is the `runner` field of the `ai.runner` stage |
| PipelineForm.VisibleStages | web/src/app/home/pipelines/components/pipeline-form/PipelineFormComponent.tsx:200-246 | a stage is rendered exactly when it is in the tab and passes the visibility rule; never more stages than the tab has |
| PipelineForm.VisibleStagesAppend | web/src/app/home/pipelines/components/pipeline-form/PipelineFormComponent.tsx:246 | the stages rendered from two runs of stages are those of the first run followed by those of the second, so schema order is kept |
| PipelineForm.VisibleStagesSingle | web/src/app/home/pipelines/components/pipeline-form/PipelineFormComponent.tsx:200-205 | one stage is rendered once if it passes the visibility rule and not at all otherwise |
| PipelineForm.OtherTabsShowAll | web/src/app/home/pipelines/components/pipeline-form/PipelineFormComponent.tsx:246-269 | every tab other than ai renders all its stages, in order |
| PipelineForm.AiStagesShown | web/src/app/home/pipelines/components/pipeline-form/PipelineFormComponent.tsx:205-244 | in the ai tab the runner stage is always shown, and any other stage is shown exactly when its name is the selected runner |
| PipelineForm.MergeStageFrame | web/src/app/home/pipelines/components/pipeline-form/PipelineFormComponent.tsx:226-233 | for any form value: a stage commit sets that stage's entry, every other entry of the tab and every other tab keep their values, and a missing or non-object tab starts from no entries |
| PipelineForm.MergeThenInitial | web/src/app/home/pipelines/components/pipeline-form/PipelineFormComponent.tsx:223 | after a commit of truthy values, the stage's initial values are exactly those values |
| PipelineForm.SelectRunner | web/src/app/home/pipelines/components/pipeline-form/PipelineFormComponent.tsx:226-233 | committing the runner stage changes the selected runner to the committed one |
| PipelineForm.StaleRetained | web/src/app/home/pipelines/components/pipeline-form/PipelineFormComponent.tsx:226-244 | a stage hidden by switching runner keeps its values, and they come back when it is selected again |
| PipelineForm.CreatePayload | web/src/app/home/pipelines/components/pipeline-form/PipelineFormComponent.tsx:151-157 | create mode submits a create request with an empty config and the name and description from basic |
| PipelineForm.EditPayload | web/src/app/home/pipelines/components/pipeline-form/PipelineFormComponent.tsx:170-188 | edit mode submits an update for the pipeline id whose config has exactly the keys ai, trigger, safety and output, each tab passed whole |
| PipelineForm.SubmitNeedsValid | web/src/app/home/pipelines/components/pipeline-form/PipelineFormComponent.tsx:142-149 | a request is built exactly when validation passes |
| PipelineForm.HiddenStageSubmitted | web/src/app/home/pipelines/components/pipeline-form/PipelineFormComponent.tsx:171-188 | values committed to any ai stage, shown or not, are in the edit payload |
| PipelineForm.DeleteOrNotice | web/src/app/home/pipelines/components/pipeline-form/PipelineFormComponent.tsx:413-430 | in edit mode exactly one of the delete button and the default-pipeline notice is shown; neither in create mode |
| PipelineForm.CapturedLast | web/src/app/home/pipelines/components/pipeline-form/PipelineFormComponent.tsx:113-123 | a schema slot holds the last metadata tab of its name |
| PipelineForm.CapturedNone | web/src/app/home/pipelines/components/pipeline-form/PipelineFormComponent.tsx:113-123 | a slot whose name no metadata tab carries is unchanged |
| PipelineForm.PipelineFormState.CaptureMetadata | web/src/app/home/pipelines/components/pipeline-form/PipelineFormComponent.tsx:113-123 | the loop stores each of the ai, trigger, safety and output schemas as the fold of the tabs, and touches nothing else |
| PipelineForm.PipelineFormState.ApplyInitValues | web/src/app/home/pipelines/components/pipeline-form/PipelineFormComponent.tsx:127-140 | create mode resets to an empty name and description; edit mode resets to the initial values when given and otherwise keeps the values |
| PipelineForm.PipelineFormState.CommitStage | web/src/app/home/pipelines/components/pipeline-form/PipelineFormComponent.tsx:230 | the form value becomes the merge of the stage edit |
| PipelineForm.PipelineFormState.RenderedStages | web/src/app/home/pipelines/components/pipeline-form/PipelineFormComponent.tsx:200-270 | nothing is rendered outside edit mode or without a schema; otherwise exactly the schema's stages that pass the visibility rule |
| WizardNavigator.AddStep | web_ui/src/app/home/pipeline-config/components/pipeline-form/PipelineFormComponent.tsx:43-47 | the index grows by one below the last tab and is unchanged otherwise, staying in range |
| WizardNavigator.ReduceStep | web_ui/src/app/home/pipeline-config/components/pipeline-form/PipelineFormComponent.tsx:49-53 | the index shrinks by one above 0 and is unchanged otherwise, staying in range |
| WizardNavigator.RunStaysInBounds | web_ui/src/app/home/pipeline-config/components/pipeline-form/PipelineFormComponent.tsx:43-53 | any sequence of add and reduce steps keeps the index within the four tabs |
| WizardNavigator.AddThenReduce | web_ui/src/app/home/pipeline-config/components/pipeline-form/PipelineFormComponent.tsx:43-53 | below the last tab, add then reduce returns to the same index |
| WizardNavigator.Navigator.constructor | web_ui/src/app/home/pipeline-config/components/pipeline-form/PipelineFormComponent.tsx:13 | the index starts at 0 |
| WizardNavigator.Navigator.PreFormLabel | web_ui/src/app/home/pipeline-config/components/pipeline-form/PipelineFormComponent.tsx:27-33 | undefined exactly at index 0, otherwise the label before the current one |
| WizardNavigator.Navigator.NextFormLabel | web_ui/src/app/home/pipeline-config/components/pipeline-form/PipelineFormComponent.tsx:35-41 | undefined exactly at the last index, otherwise the label after the current one |
| WizardNavigator.Navigator.ExactlyOneDisplayed | web_ui/src/app/home/pipeline-config/components/pipeline-form/PipelineFormComponent.tsx:65-391 | of the four forms exactly the one whose name is the current label is displayed: the display tests at lines 65, 211, 329 and 391 each compare their form name with `getNowFormLabel().name` (lines 22-23) |
| WizardNavigator.Navigator.ButtonsAtEnds | web_ui/src/app/home/pipeline-config/components/pipeline-form/PipelineFormComponent.tsx:480-488 | previous is disabled exactly at the first tab and next exactly at the last, never both |
| WizardNavigator.Navigator.AddFormLabelIndex | web_ui/src/app/home/pipeline-config/components/pipeline-form/PipelineFormComponent.tsx:43-47 | the index takes one add step, and the shown label becomes the former next label |
| WizardNavigator.Navigator.ReduceFormLabelIndex | web_ui/src/app/home/pipeline-config/components/pipeline-form/PipelineFormComponent.tsx:49-53 | the index takes one reduce step, and the shown label becomes the former previous label |
| ChatSession.SumSnoc | pkg/openai/session.py:290-291 | extending a prefix by one count adds that count to the sum |
| ChatSession.Total | pkg/openai/session.py:235 | the summing loop returns the sum of the counts |
| ChatSession.GreedyFacts | pkg/openai/session.py:284-294 | every prefix of newest rounds the greedy loop takes fits the budget, and it stops only at the available limit or at a round that does not fit |
| ChatSession.PackingIsGreedy | pkg/openai/session.py:284-286 | the rounds packed are the longest run of newest rounds that fits, among those available |
| ChatSession.HistoryStep | pkg/openai/session.py:289 | one more round puts the next older question and answer in front of the history |
| ChatSession.BalancedWindow | pkg/openai/session.py:279-305 | on a balanced session the request is the default prompt, a contiguous suffix of whole rounds, and the user message; the counts returned are the matching suffix |
| ChatSession.PackWindow | pkg/openai/session.py:264-312 | the packing loop returns exactly the greedy window request and the counts of the rounds it holds |
| ChatSession.Session.CutOut | pkg/openai/session.py:264-312 | returns the greedy window request and its counts for the session's prompt, and the session is unchanged |
| ChatSession.Session.AddRound | pkg/openai/session.py:235-239 | the question and the answer are appended to the prompt, one count to the counts, and balance is kept |
| ChatSession.Session.constructor | pkg/openai/session.py:149-160 | a new session has the name and default prompt, empty history and counts, and both timestamps set to now |
| ChatSession.Session.Append | pkg/openai/session.py:198-246 | the interaction time is set; prevented exactly for a first message the plugin event stops, with the history, counts and switch flag unchanged; otherwise the user and stripped assistant entries are appended with one count of the total minus the packed history, the answer is returned, and balance is kept |
| ChatSession.Session.Complete | pkg/openai/session.py:218-246 | the request is the greedy window for the old history; the user and stripped assistant entries are appended, one count of the total minus the packed history is recorded, the switch flag is cleared, the answer is the stripped reply (none when it is blank), and balance is kept |
| ChatSession.Session.Undo | pkg/openai/session.py:249-261 | fails exactly with fewer than two entries; otherwise returns the last question and drops the last two entries and the last count |
| ChatSession.Session.Reset | pkg/openai/session.py:330-353 | a non-empty history is persisted first; when that raises, nothing changes; otherwise the prompt and counts are emptied, the new default prompt is set, and the timestamps are renewed |
| ChatSession.AppendUndoRestores | pkg/openai/session.py:198-261 | `append` then `undo` on one session: a completed append's question comes back and the prompt and counts are as before; a prevented append leaves nothing to undo |
| ChatSession.RemoveUnderscores | pkg/openai/session.py:321 | removing digit separators keeps only digits and changes nothing without them |
| ChatSession.DecimalRoundTrip | pkg/openai/session.py:321 | the digit value of the decimal rendering of n is n |
| ChatSession.DigitsAreRun | pkg/openai/session.py:321 | plain digits are a digit run that `int()` accepts, with no underscore to remove |
| ChatSession.ParseDigits | pkg/openai/session.py:321 | `int()` of unsigned digits with no padding is their value |
| ChatSession.ParseDecimal | pkg/openai/session.py:321 | `int()` of the decimal rendering of n is n |
| ChatSession.SplitTwo | pkg/openai/session.py:320 | splitting `t_d` at '_', with no '_' in `t` or `d`, gives `[t, d]` |
| ChatSession.PersistenceKeyOfName | pkg/openai/session.py:316-324 | a name `type_n` with a changed prompt persists under subject type and number n |
| ChatSession.PersistenceNeedsUnderscore | pkg/openai/session.py:320-321 | a name without '_' raises the index error |
| ChatSession.StrippedAnswer | pkg/openai/session.py:232-246 | the leading-newline branch never fires on a stripped reply: the answer is the stripped reply, and `res_ans[0]` raises exactly when the reply is all whitespace |
| ChatSession.SessionRegistry.GetSession | pkg/openai/session.py:86-90 | the stored session for a known name with the registry unchanged; otherwise a fresh empty session registered under the name |
| ChatSession.SessionRegistry.DumpSession | pkg/openai/session.py:93-98 | a stored session is persisted first and then unregistered; when the persistence raises it stays registered; an absent name does nothing |
| SessionMgr.SessionConcurrency | pkg/provider/session/sessionmgr.py:32-35 | missing `default` raises; otherwise the launcher key's value when present, the default otherwise |
| SessionMgr.FirstMatch | pkg/provider/session/sessionmgr.py:28-30 | the first session of the launcher, or none |
| SessionMgr.PromptMessages | pkg/provider/session/sessionmgr.py:54-55 | one message per prompt setting, in the same order |
| SessionMgr.SessionManager.GetSession | pkg/provider/session/sessionmgr.py:25-43 | the first matching session with the list unchanged; otherwise a missing default or a negative concurrency fails with the list unchanged, and any other lookup appends and returns one fresh session with that concurrency |
| SessionMgr.SessionManager.GetConversation | pkg/provider/session/sessionmgr.py:45-76 | a missing or empty list becomes []; a conversation in use is returned and nothing is added; otherwise a new default-prompt conversation is appended and put in use |
| SessionMgr.CreatedIsFound | pkg/provider/session/sessionmgr.py:28-43 | a session just created is what the next lookup finds |
| CozeRunner.InitConfig | pkg/provider/runners/cozeapi.py:43-81 | an unsupported app type raises; on success the app type is valid and stream defaults to True |
| CozeRunner.AgentSettings | pkg/provider/runners/cozeapi.py:65-66 | in agent mode the bot id comes from `agent.bot_id` |
| CozeRunner.WorkflowSettings | pkg/provider/runners/cozeapi.py:69-81 | in workflow mode success means a flow id and exactly one truthy id; input_key defaults to "input" |
| CozeRunner.WorkflowIdRule | pkg/provider/runners/cozeapi.py:76-80 | both directions: a workflow configuration with a flow id passes exactly when one of app_id and bot_id is truthy |
| CozeRunner.Dispatch | pkg/provider/runners/cozeapi.py:242-256 | agent goes to the agent path, workflow to the workflow path, any other type raises |
| CozeRunner.InitializedRunDispatches | pkg/provider/runners/cozeapi.py:247-256 | after a successful initialize, run never raises on the app type |
| CozeRunner.TextOfAppend | pkg/provider/runners/cozeapi.py:118-122 | the extracted text of a concatenation is the concatenation of the extracted texts |
| CozeRunner.NoTextNoOutput | pkg/provider/runners/cozeapi.py:118-122 | elements with no text element extract to "" |
| CozeRunner.TextOfSnoc | pkg/provider/runners/cozeapi.py:119-121 | one more element adds its text, if it is a text element, to the end of the extracted text |
| CozeRunner.ConcatTexts | pkg/provider/runners/cozeapi.py:118-121 | the accumulating loop returns the text of the text elements, in order |
| CozeRunner.Runner.constructor | pkg/provider/runners/cozeapi.py:27-40 | a new runner holds the class defaults |
| CozeRunner.Runner.Initialize | pkg/provider/runners/cozeapi.py:43-81 | fails exactly when the configuration is rejected, with its error; on success the fields are the accepted settings |
| CozeRunner.Runner.InitializeCommon | pkg/provider/runners/cozeapi.py:43-62 | fails exactly on a missing key or an unsupported app type; on success the app type, token, bases and stream flag are set |
| CozeRunner.Runner.InitializeAgent | pkg/provider/runners/cozeapi.py:65-66 | fails exactly when `agent.bot_id` is missing; otherwise only the bot id is set |
| CozeRunner.Runner.InitializeWorkflow | pkg/provider/runners/cozeapi.py:67-81 | fails exactly on a missing flow id or when not exactly one id is truthy; otherwise the bot, flow and app ids and the input key are set |
| CozeRunner.Runner.PreprocessUserMessage | pkg/provider/runners/cozeapi.py:114-125 | list content gives its text elements concatenated in order, string content gives itself, anything else gives "" |
| ImageUtil.ExtractB64AndFormat | pkg/utils/image.py:61-69 | the payload holds no ',' and is the input when it has none; the format holds no ':', ';' or '/' |
| ImageUtil.ExtractDataUrl | pkg/utils/image.py:67-68 | round trip: a data URL built from a payload and a format splits back into them |
| ImageUtil.DataUrlPayload | pkg/utils/image.py:68 | the text after the last ',' of a data URL is the payload |
| ImageUtil.DataUrlAfterColon | pkg/utils/image.py:67 | the text after the last ':' of a data URL is "image/<format>;base64,<payload>" |
| ImageUtil.MediaTypeFormat | pkg/utils/image.py:67 | cut at the first ';' that text is "image/<format>", and after its last '/' comes the format |
| ImageUtil.JpegExample | pkg/utils/image.py:63-65 | "data:image/jpeg;base64,xxx" gives ("xxx", "jpeg") |
| ImageUtil.DownloadableUrl | pkg/utils/image.py:11-15 | the URL is "http://" + netloc + path, and the query is returned apart |
| ImageUtil.ImageFormat | pkg/utils/image.py:28-35 | a missing content type gives jpeg, and a non-image type the lower-cased sniffed format |
| ImageUtil.ImageFormatOfImageType | pkg/utils/image.py:35 | `image/X` gives X |
| AnthropicMessages.RequestedModel | pkg/provider/modelmgr/requesters/anthropicmsgs.py:47 | the provider model name when set, the model's name otherwise |
| AnthropicMessages.FirstSystem | pkg/provider/modelmgr/requesters/anthropicmsgs.py:54-58 | the position of the first system message, or none |
| AnthropicMessages.WithoutFirstSystem | pkg/provider/modelmgr/requesters/anthropicmsgs.py:59-61 | exactly one message fewer when there is a system message, the list unchanged otherwise |
| AnthropicMessages.EarlierMessagesStay | pkg/provider/modelmgr/requesters/anthropicmsgs.py:54-61 | the messages in front of the first system message keep their places |
| AnthropicMessages.LaterSystemsStay | pkg/provider/modelmgr/requesters/anthropicmsgs.py:54-61 | every message after the first system message, later system messages included, is kept in order; with EarlierMessagesStay, only the first system message goes |
| AnthropicMessages.SystemPrompt | pkg/provider/modelmgr/requesters/anthropicmsgs.py:63-65 | the system argument is set exactly when the first system message has string content, and is that string |
| AnthropicMessages.RewriteElementsAsWritten | pkg/provider/modelmgr/requesters/anthropicmsgs.py:95-110 | as written: a success keeps every element in place |
| AnthropicMessages.AsWrittenImagesFail | pkg/provider/modelmgr/requesters/anthropicmsgs.py:98-100 | as written: the rewriting raises NameError exactly when some element is a base64 image |
| AnthropicMessages.ImageMessageRaises | pkg/provider/modelmgr/requesters/anthropicmsgs.py:98-100 | as written: a message with one base64 image raises NameError |
| AnthropicMessages.RewriteElements | pkg/provider/modelmgr/requesters/anthropicmsgs.py:95-110 | corrected: every element is rewritten in its place, and nothing fails |
| AnthropicMessages.RewriteAgrees | pkg/provider/modelmgr/requesters/anthropicmsgs.py:95-110 | whenever the code as written succeeds, it agrees with the corrected rewriting |
| AnthropicMessages.ImageElementBlock | pkg/provider/modelmgr/requesters/anthropicmsgs.py:100-108 | corrected: a base64 image becomes an image block with its media type and payload |
| AnthropicMessages.ToolUses | pkg/provider/modelmgr/requesters/anthropicmsgs.py:112-120 | one tool_use block per tool call in order, with the parsed arguments; a parse failure is the only error |
| AnthropicMessages.TranslateMessage | pkg/provider/modelmgr/requesters/anthropicmsgs.py:70-84 | a tool message becomes a user message holding one tool_result block |
| AnthropicMessages.PlainMessage | pkg/provider/modelmgr/requesters/anthropicmsgs.py:86-110 | without tool calls: non-blank text becomes one text block, blank text stays, element lists are rewritten by the corrected image rewriting (see Findings), the other fields are kept |
| AnthropicMessages.ToolCallsAppended | pkg/provider/modelmgr/requesters/anthropicmsgs.py:112-122 | tool_use blocks are appended after the content and the tool_calls key is removed; missing content raises KeyError and blank text AttributeError; element lists go through the corrected image rewriting (see Findings) |
| AnthropicMessages.TranslateAll | pkg/provider/modelmgr/requesters/anthropicmsgs.py:67-124 | one request message per message in order, and success when every message translates |
| AnthropicMessages.TranslateAllFails | pkg/provider/modelmgr/requesters/anthropicmsgs.py:67-124 | the first failing message's error ends the translation |
| AnthropicMessages.RequestShape | pkg/provider/modelmgr/requesters/anthropicmsgs.py:47-132 | without tool calls the request, built with the corrected image rewriting (see Findings), succeeds, holding one message per message of the list without its first system message, with the system prompt and the requested model |
| AnthropicMessages.FindSystemMessage | pkg/provider/modelmgr/requesters/anthropicmsgs.py:54-58 | the loop finds a system message exactly when there is one, and then stops at the first |
| AnthropicMessages.TranslateMessages | pkg/provider/modelmgr/requesters/anthropicmsgs.py:67-124 | the loop yields the specified translation, ending at the first message that fails |
| AnthropicMessages.BuildRequest | pkg/provider/modelmgr/requesters/anthropicmsgs.py:47-132 | the caller's list loses its first system message, and the request is the specified one, built with the corrected image rewriting (see Findings) |
| AnthropicMessages.ReplyContentSplits | pkg/provider/modelmgr/requesters/anthropicmsgs.py:138-149 | the reply is every thinking block wrapped in think tags, latest first, followed by all the text in order |
| AnthropicMessages.NoToolUseNoCalls | pkg/provider/modelmgr/requesters/anthropicmsgs.py:150-160 | with no tool_use block there are no tool calls |
| AnthropicMessages.ToolUseGivesCalls | pkg/provider/modelmgr/requesters/anthropicmsgs.py:150-160 | any tool_use block yields tool calls |
| AnthropicMessages.ReplyToolCallsAppend | pkg/provider/modelmgr/requesters/anthropicmsgs.py:145-162 | the tool calls of two runs of blocks are those of the first followed by those of the second |
| AnthropicMessages.ReplyToolCallsSingle | pkg/provider/modelmgr/requesters/anthropicmsgs.py:150-162 | a tool_use block gives one call with its id, type "function", its name and the dumped input; any other block gives none |
| AnthropicMessages.AssembleReply | pkg/provider/modelmgr/requesters/anthropicmsgs.py:138-164 | the response loop builds the specified reply message |
| AnthropicMessages.ReplyFor | pkg/provider/modelmgr/requesters/anthropicmsgs.py:138-168 | authentication and bad-request errors become requester errors with their messages; a created response becomes the reply |
| AnthropicMessages.Call | pkg/provider/modelmgr/requesters/anthropicmsgs.py:45-168 | the caller's list loses its first system message; a request error is returned, otherwise the reply for the API outcome; the request uses the corrected image rewriting (see Findings) |
| ModelManager.CatalogueLayout | pkg/provider/modelmgr/modelmgr.py:34-194 | 6 gpt-3.5, then 8 gpt-4, then 9 OneAPI entries, in that order |
| ModelManager.ToolCallFlags | pkg/provider/modelmgr/modelmgr.py:39-190 | the gpt entries support tool calls and the OneAPI entries do not |
| ModelManager.OneApiNames | pkg/provider/modelmgr/modelmgr.py:129-190 | every OneAPI entry's model name is its name without the "OneAPI/" prefix, and gpt entries have none |
| ModelManager.OneApiDistinct | pkg/provider/modelmgr/modelmgr.py:128-194 | the OneAPI entries have distinct names, since their provider model names are distinct |
| ModelManager.GroupsApart | pkg/provider/modelmgr/modelmgr.py:34-194 | a gpt-3.5 name, a gpt-4 name and a OneAPI name are never equal |
| ModelManager.NamesDistinct | pkg/provider/modelmgr/modelmgr.py:34-194 | no two catalogue entries share a name |
| ModelManager.FirstNamed | pkg/provider/modelmgr/modelmgr.py:24-26 | the first model of the name, or none |
| ModelManager.EveryEntryFound | pkg/provider/modelmgr/modelmgr.py:21-194 | after initialize on an empty registry, every catalogue model is found under its own name |
| ModelManager.EarlierEntriesWin | pkg/provider/modelmgr/modelmgr.py:73 | models registered earlier keep precedence over catalogue entries of the same name |
| ModelManager.Manager.GetModelByName | pkg/provider/modelmgr/modelmgr.py:21-27 | the first model of the name, or the ValueError |
| ModelManager.Manager.Initialize | pkg/provider/modelmgr/modelmgr.py:29-194 | the list is extended by the catalogue, with existing entries kept in front |
| PlatformManager.OriginOf | pkg/platform/manager.py:139-159 | a friend message is a person query under the sender, a group message a group query under the group |
| PlatformManager.FirstBot | pkg/platform/manager.py:185-189 | the first bot with the uuid, or none |
| PlatformManager.SlotFrom | pkg/platform/manager.py:222-230 | the counting loop ends at an entry index or at -1 |
| PlatformManager.SlotIsKthEnabled | pkg/platform/manager.py:222-230 | the slot found is the entry with exactly k enabled entries before it; -1 means at most k enabled entries |
| PlatformManager.NewConfig | pkg/platform/manager.py:232-236 | the new entry is adapter name and `enable: True` overlaid by the config, the config winning |
| PlatformManager.Manager.constructor | pkg/platform/manager.py:99-105 | the adapter, bot and component lists start empty |
| PlatformManager.Manager.LoadBot | pkg/platform/manager.py:132-183 | an unknown adapter fails; otherwise exactly one fresh bot with a fresh adapter and both listeners is appended |
| PlatformManager.Manager.GetBotByUuid | pkg/platform/manager.py:185-189 | the first bot of the uuid, or none |
| PlatformManager.Manager.RemoveBot | pkg/platform/manager.py:191-197 | only the first matching bot is removed, and its adapter is killed only when the bot is enabled; no match changes nothing; the other manager fields and every adapter's listeners are unchanged |
| PlatformManager.Manager.AdapterInfoByName | pkg/platform/manager.py:205-209 | the first component of the name, or none |
| PlatformManager.Manager.WriteBackConfig | pkg/platform/manager.py:211-238 | an unknown adapter raises; otherwise the k-th enabled entry, or the last entry when there is none, is replaced by the new entry and nothing else changes |
| PlatformManager.Manager.Run | pkg/platform/manager.py:257-261 | exactly the enabled bots are started |
| PlatformManager.Manager.Shutdown | pkg/platform/manager.py:263-267 | exactly the adapters of enabled bots are killed, and every adapter's listeners are unchanged |
| PlatformManager.Manager.Send | pkg/platform/manager.py:240-255 | At(sender) is put in front only for a group message when the manager's at-sender setting is truthy; quote_origin is the truthiness of its quote-origin setting |
| Processor.AnyPrefix | pkg/pipeline/process/process.py:47 | true exactly when some prefix starts the text |
| Processor.Dispatch | pkg/pipeline/process/process.py:40-52 | the command handler exactly when a prefix starts the stripped text, the chat handler exactly when none does |
| Processor.NoPrefixesMeansChat | pkg/pipeline/process/process.py:45-52 | an empty prefix list always selects chat |
| Processor.EmptyPrefixMeansCommand | pkg/pipeline/process/process.py:47 | an empty-string prefix always selects the command handler |
| Processor.LeadingSpaceIgnored | pkg/pipeline/process/process.py:40 | whitespace around the text does not change the choice |
| HttpController.Healthz | pkg/api/http/controller/main.py:60-62 | the payload is code 0 and msg "ok" |
| HttpController.SuffixFree | pkg/api/http/controller/main.py:83-104 | no listed suffix ends another |
| HttpController.SuffixesExclusive | pkg/api/http/controller/main.py:83-104 | no two listed suffixes both end one path |
| HttpController.SuffixGivesMimetype | pkg/api/http/controller/main.py:81-104 | a path ending in a listed suffix gets that suffix's mimetype |
| HttpController.UnlistedSuffix | pkg/api/http/controller/main.py:81-110 | a path with none of the suffixes gets no mimetype |
| HttpController.UpperCaseNotRecognised | pkg/api/http/controller/main.py:83-104 | the tests are case-sensitive: "A.PNG" gets no mimetype |

## Left out

- Network and SDK calls are inputs of the model. These are:
  - the OpenAI completion in `append`;
  - the Anthropic `messages.create`;
  - the Coze streaming, polling and resume;
  - the HTTP client calls of the form components;
  - the image download;
  - Quart serving and route registration.
- Concurrency is not modelled: session scheduling, the expiry timer, response locks,
  semaphores (only their initial value is kept), and task creation and cancellation in
  `run`/`shutdown`. Running a bot is a `started` flag, and shutting an adapter down is a
  `killed` flag.
- The database and files are not modelled: the DB writes of `persistence` and `reset`,
  the session history queries, `load_sessions`, the prompt backup and `dump_config`.
- Foreign libraries are inputs: JSON (de)serialisation, `urlparse`/`parse_qs`, PIL format
  sniffing and base64 encoding. The zod and react-hook-form internals and JSX rendering
  are not modelled. Only the validation rules and the value updates they perform are.
- The floating-point `random` field of the wizard form is not modelled.
- Python's `int()` and `str.lower()` are modelled for ASCII digits and letters only; other
  Unicode digits and case mappings are not.
- `SessionMgr` launcher ids are strings; the source's integer-or-string ids are not
  distinguished.
- `CozeRunner.Runner.Initialize`: on failure the contract does not describe the
  fields assigned before the failing check.
- `CozeRunner.InitConfig`: a `agent` or `workflow` section that is not a dict is collapsed
  to one error, where Python would fail in different ways.
- `PlatformManager.Manager.LoadBot`: the conversion of database rows to dicts and the
  pydantic validation of the bot entity are not modelled.
- `PlatformManager.Manager`: nothing in the manager fills `adapters` or the adapter
  components, so the model offers no way to fill them either. `WriteBackConfig` and
  `AdapterInfoByName` are specified for any contents of those lists.
- `AnthropicMessages.PlainMessage`: element lists go through the corrected image rewriting of
  the finding below, so a base64 image becomes a block where the source raises NameError.
- `AnthropicMessages.ToolCallsAppended`: the same corrected image rewriting is used for
  element lists, in place of the source's NameError.
- `AnthropicMessages.RequestShape`: its success holds for the corrected image rewriting; the
  source raises NameError on any remaining message that holds a base64 image.
- `AnthropicMessages.BuildRequest`: the request it is specified against uses the corrected
  image rewriting, so a request is built where the source raises NameError.
- `AnthropicMessages.Call`: uses the corrected image rewriting, so it returns a reply where
  the source raises NameError. That failure is stated only at element level, by
  `AnthropicMessages.AsWrittenImagesFail`.
- `PipelineForm.Spread`: a truthy string or array tab value spreads to no entries here,
  where JavaScript would spread its characters or elements under index keys; the form's
  tab values are objects.
- `ChatSession.Session`: the source builds a new session's default prompt from the
  configuration, which is a parameter here.
- `ChatSession.Session.Append`: the completion call is replaced by its reply text and
  total token count, and the plugin event by whether it prevented the first message. The
  IndexError that `res_ans[0]` raises on a blank reply is the `None` answer, returned after
  the history has been extended.

## Findings

| source | as written | input that shows it | evidently intended | confidence | as-written member | corrected member |
|---|---|---|---|---|---|---|
| pkg/provider/modelmgr/requesters/anthropicmsgs.py:98-100 | a base64 image element is split with `image.extract_b64_and_format`, but the module never imports `image`, so the name lookup raises NameError | a user message whose content is a list holding one `image_base64` element | the element becomes an Anthropic image block with media type `image/<format>` and the base64 payload | not executed | AnthropicMessages.AsWrittenImagesFail | AnthropicMessages.ImageElementBlock |
