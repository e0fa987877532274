/** The pipeline create/edit form of the web console: which tabs it offers, what its
    validation schema accepts, which stages of a tab it shows, how a stage's edit is merged
    into the form value, and what it sends on submit. */
module PipelineForm {
  import opened Wrappers
  import opened Json

  /** The whole form value: top-level keys `basic`, `ai`, `trigger`, `safety`, `output`;
      an absent key is JavaScript `undefined`. */
  type FormValues = map<string, Json>

  datatype FormLabel = FormLabel(title: string, name: string)

  /** One stage of a tab's metadata, with its field descriptions left opaque. */
  datatype PipelineConfigStage = PipelineConfigStage(
    name: string, title: string, description: Option<string>, config: seq<Json>)

  datatype PipelineConfigTab = PipelineConfigTab(
    name: string, title: string, stages: seq<PipelineConfigStage>)

  // ---------------------------------------------------------------- tabs

  const BasicLabel := FormLabel("基础信息", "basic")
  const SchemaTabs: seq<string> := ["ai", "trigger", "safety", "output"]

  /** `formLabelList`: the edit form has the identity tab and the four schema-driven tabs;
      the create form has the identity tab only. */
  function FormLabelList(isEditMode: bool): seq<FormLabel> {
    if isEditMode then
      [BasicLabel, FormLabel("AI能力", "ai"), FormLabel("触发条件", "trigger"),
       FormLabel("安全能力", "safety"), FormLabel("输出处理", "output")]
    else [BasicLabel]
  }

  function Names(labels: seq<FormLabel>): (r: seq<string>)
    ensures |r| == |labels| && forall k :: 0 <= k < |r| ==> r[k] == labels[k].name
  {
    if labels == [] then [] else [labels[0].name] + Names(labels[1..])
  }

  /** Tab names per mode; the first tab, which the tab strip opens on, is always `basic`,
      and the create form's tabs are a prefix of the edit form's. */
  lemma TabsPerMode()
    ensures Names(FormLabelList(true)) == ["basic"] + SchemaTabs
    ensures Names(FormLabelList(false)) == ["basic"]
    ensures FormLabelList(false) <= FormLabelList(true)
    ensures forall m :: FormLabelList(m)[0].name == "basic"
  {
    assert Names(FormLabelList(true)) == ["basic", "ai", "trigger", "safety", "output"];
  }

  // ---------------------------------------------------------------- validation

  datatype IssueKind = InvalidType | TooSmall(message: string)

  /** One validation issue, at a path into the form value. */
  datatype Issue = Issue(path: seq<string>, kind: IssueKind)

  const NameEmptyMessage := "名称不能为空"
  const DescriptionEmptyMessage := "描述不能为空"

  /** `z.string().min(1, message)` on `basic[key]`. */
  function StringIssues(basic: map<string, Json>, key: string, message: string): seq<Issue> {
    if key !in basic || !basic[key].JStr? then [Issue(["basic", key], InvalidType)]
    else if |basic[key].s| < 1 then [Issue(["basic", key], TooSmall(message))]
    else []
  }

  /** The `basic` object of both schemas. */
  function BasicIssues(values: FormValues): seq<Issue> {
    if "basic" !in values || !values["basic"].JObj? then [Issue(["basic"], InvalidType)]
    else
      var b := values["basic"].fields;
      StringIssues(b, "name", NameEmptyMessage) + StringIssues(b, "description", DescriptionEmptyMessage)
  }

  /** `z.record(z.string(), z.any())`, with `.optional()` in the create schema. */
  function RecordIssues(values: FormValues, key: string, optional: bool): seq<Issue> {
    if key !in values then (if optional then [] else [Issue([key], InvalidType)])
    else if values[key].JObj? then []
    else [Issue([key], InvalidType)]
  }

  /** `formSchema`, chosen by `isEditMode`: the issues in schema key order; none means valid. */
  function Validate(isEditMode: bool, values: FormValues): seq<Issue> {
    var opt := !isEditMode;
    BasicIssues(values)
      + RecordIssues(values, "ai", opt) + RecordIssues(values, "trigger", opt)
      + RecordIssues(values, "safety", opt) + RecordIssues(values, "output", opt)
  }

  predicate IsNonEmptyString(v: map<string, Json>, key: string) {
    key in v && v[key].JStr? && |v[key].s| >= 1
  }

  predicate BasicValid(values: FormValues) {
    "basic" in values && values["basic"].JObj?
    && IsNonEmptyString(values["basic"].fields, "name")
    && IsNonEmptyString(values["basic"].fields, "description")
  }

  lemma BasicIssuesNone(values: FormValues)
    ensures BasicIssues(values) == [] <==> BasicValid(values)
  {
  }

  /** A schema tab is a record, present whenever the schema is the edit one. */
  predicate TabValid(isEditMode: bool, values: FormValues, t: string) {
    (isEditMode ==> t in values) && (t in values ==> values[t].JObj?)
  }

  lemma RecordIssuesNone(values: FormValues, key: string, isEditMode: bool)
    ensures RecordIssues(values, key, !isEditMode) == [] <==> TabValid(isEditMode, values, key)
  {
  }

  /** The validation rule in words: `basic.name` and `basic.description` are non-empty
      strings; each schema tab is a record, which only the create schema lets be absent. */
  lemma ValidateAccepts(isEditMode: bool, values: FormValues)
    ensures Validate(isEditMode, values) == [] <==>
      BasicValid(values)
      && forall t :: t in SchemaTabs ==> TabValid(isEditMode, values, t)
  {
    var opt := !isEditMode;
    BasicIssuesNone(values);
    RecordIssuesNone(values, "ai", isEditMode);
    RecordIssuesNone(values, "trigger", isEditMode);
    RecordIssuesNone(values, "safety", isEditMode);
    RecordIssuesNone(values, "output", isEditMode);
    assert (forall t :: t in SchemaTabs ==> TabValid(isEditMode, values, t)) <==>
      TabValid(isEditMode, values, "ai") && TabValid(isEditMode, values, "trigger")
      && TabValid(isEditMode, values, "safety") && TabValid(isEditMode, values, "output");
    var parts := [BasicIssues(values), RecordIssues(values, "ai", opt), RecordIssues(values, "trigger", opt),
                  RecordIssues(values, "safety", opt), RecordIssues(values, "output", opt)];
    assert |Validate(isEditMode, values)| == |parts[0]| + |parts[1]| + |parts[2]| + |parts[3]| + |parts[4]|;
  }

  /** An empty or missing name is reported at `basic.name`, in both modes. */
  lemma NameRequired(isEditMode: bool, values: FormValues)
    requires "basic" in values && values["basic"].JObj?
    requires !IsNonEmptyString(values["basic"].fields, "name")
    ensures exists k :: (0 <= k < |Validate(isEditMode, values)|
      && Validate(isEditMode, values)[k].path == ["basic", "name"])
  {
    var issues := Validate(isEditMode, values);
    assert issues[0].path == ["basic", "name"];
  }

  /** Partial validation: a value with only a valid identity passes the create schema and
      fails the edit schema. */
  lemma CreateAcceptsIdentityOnly(name: string, description: string)
    requires |name| >= 1 && |description| >= 1
    ensures Validate(false, map["basic" := JObj(map["name" := JStr(name), "description" := JStr(description)])]) == []
    ensures Validate(true, map["basic" := JObj(map["name" := JStr(name), "description" := JStr(description)])]) != []
  {
    var v := map["basic" := JObj(map["name" := JStr(name), "description" := JStr(description)])];
    ValidateAccepts(false, v);
    ValidateAccepts(true, v);
    assert "ai" in SchemaTabs;
  }

  // ---------------------------------------------------------------- stage visibility

  /** `form.watch(path)`: the value at a path, `None` for `undefined`. */
  function ValueAt(v: Json, path: seq<string>): Option<Json> {
    if path == [] then Some(v)
    else if v.JObj? && path[0] in v.fields then ValueAt(v.fields[path[0]], path[1..])
    else None
  }

  /** The runner currently selected, `form.watch('ai.runner.runner')`. */
  function CurrentRunner(values: FormValues): Option<Json> {
    ValueAt(JObj(values), ["ai", "runner", "runner"])
  }

  /** Unfolds the runner path one segment at a time. */
  lemma RunnerPath(values: FormValues)
    ensures "ai" in values && values["ai"].JObj? && "runner" in values["ai"].fields ==>
      CurrentRunner(values) == ValueAt(values["ai"].fields["runner"], ["runner"])
  {
    var p: seq<string> := ["ai", "runner", "runner"];
    assert p[1..] == ["runner", "runner"];
    if "ai" in values && values["ai"].JObj? && "runner" in values["ai"].fields {
      calc {
        CurrentRunner(values);
        ValueAt(JObj(values), p);
        ValueAt(values["ai"], p[1..]);
        ValueAt(values["ai"], ["runner", "runner"]);
        { assert ["runner", "runner"][1..] == ["runner"]; }
        ValueAt(values["ai"].fields["runner"], ["runner"]);
      }
    }
  }

  /** `renderDynamicForms` renders a stage unless the tab is `ai`, the stage is not the
      runner selector, and its name differs from the selected runner. */
  predicate StageShown(formName: string, stageName: string, values: FormValues) {
    formName != "ai" || stageName == "runner" || CurrentRunner(values) == Some(JStr(stageName))
  }

  /** The stages of a tab that are rendered, in schema order. */
  function VisibleStages(formName: string, stages: seq<PipelineConfigStage>, values: FormValues)
    : (r: seq<PipelineConfigStage>)
    ensures |r| <= |stages|
    ensures forall s :: s in r <==> s in stages && StageShown(formName, s.name, values)
  {
    if stages == [] then []
    else
      var rest := VisibleStages(formName, stages[1..], values);
      if StageShown(formName, stages[0].name, values) then [stages[0]] + rest else rest
  }

  /** `stages.map` renders stage by stage: the stages shown from two runs of stages are
      those of the first run followed by those of the second, each in schema order. */
  lemma {:induction false} VisibleStagesAppend(formName: string, a: seq<PipelineConfigStage>,
                                               b: seq<PipelineConfigStage>, values: FormValues)
    ensures VisibleStages(formName, a + b, values) == VisibleStages(formName, a, values) + VisibleStages(formName, b, values)
  {
    if a != [] {
      assert (a + b)[0] == a[0] && (a + b)[1..] == a[1..] + b;
      VisibleStagesAppend(formName, a[1..], b, values);
    } else {
      assert a + b == b;
    }
  }

  /** A single stage is rendered once when it passes the visibility rule, and not at all
      otherwise. */
  lemma VisibleStagesSingle(formName: string, s: PipelineConfigStage, values: FormValues)
    ensures VisibleStages(formName, [s], values) == (if StageShown(formName, s.name, values) then [s] else [])
  {
    assert [s][1..] == [];
  }

  /** In every tab but `ai`, all stages are shown. */
  lemma OtherTabsShowAll(formName: string, stages: seq<PipelineConfigStage>, values: FormValues)
    requires formName != "ai"
    ensures VisibleStages(formName, stages, values) == stages
  {
    if stages != [] {
      OtherTabsShowAll(formName, stages[1..], values);
    }
  }

  /** In the `ai` tab the runner selector is always shown, and any other stage exactly when
      its name is the selected runner. */
  lemma AiStagesShown(stages: seq<PipelineConfigStage>, values: FormValues, s: PipelineConfigStage)
    requires s in stages
    ensures s.name == "runner" ==> s in VisibleStages("ai", stages, values)
    ensures s.name != "runner" ==>
      (s in VisibleStages("ai", stages, values) <==> CurrentRunner(values) == Some(JStr(s.name)))
  {
  }

  // ---------------------------------------------------------------- stage values

  /** Record spread `{...v}` of a form-tab value (falsy values spread to nothing). */
  function Spread(v: Json): map<string, Json> {
    if v.JObj? then v.fields else map[]
  }

  /** `(form.watch(formName))?.[stage.name] || {}`: a stage's initial values. */
  function StageInitialValues(values: FormValues, formName: string, stageName: string): Json {
    if formName in values && values[formName].JObj? && stageName in values[formName].fields
       && JsTruthy(values[formName].fields[stageName])
    then values[formName].fields[stageName]
    else JObj(map[])
  }

  /** The `onSubmit` of a stage: `setValue(formName, {...current, [stage.name]: stageValues})`. */
  function MergeStage(values: FormValues, formName: string, stageName: string, stageValues: Json): FormValues {
    var current := if formName in values && JsTruthy(values[formName]) then values[formName] else JObj(map[]);
    values[formName := JObj(Spread(current)[stageName := stageValues])]
  }

  /** A stage commit replaces that stage's entry and nothing else: every other entry of the
      tab, and every other tab, keeps its value. A tab that is missing or holds no object
      starts from no entries. */
  lemma MergeStageFrame(values: FormValues, formName: string, stageName: string, stageValues: Json)
    ensures var m := MergeStage(values, formName, stageName, stageValues);
      var before := if formName in values then Spread(values[formName]) else map[];
      && m.Keys == values.Keys + {formName}
      && (forall t :: t in values && t != formName ==> m[t] == values[t])
      && m[formName].JObj?
      && m[formName].fields.Keys == before.Keys + {stageName}
      && m[formName].fields[stageName] == stageValues
      && forall k :: k in before && k != stageName ==> m[formName].fields[k] == before[k]
  {
  }

  /** What was committed is what the stage shows next time (when it is truthy). */
  lemma MergeThenInitial(values: FormValues, formName: string, stageName: string, stageValues: Json)
    requires JsTruthy(stageValues)
    ensures StageInitialValues(MergeStage(values, formName, stageName, stageValues), formName, stageName) == stageValues
  {
  }

  /** The runner selector's value after the runner stage is committed with `runner := r`. */
  lemma SelectRunner(values: FormValues, r: Json)
    ensures CurrentRunner(MergeStage(values, "ai", "runner", JObj(map["runner" := r]))) == Some(r)
  {
    var m := MergeStage(values, "ai", "runner", JObj(map["runner" := r]));
    RunnerPath(m);
    assert ValueAt(m["ai"], ["runner", "runner"]) == ValueAt(m["ai"].fields["runner"], ["runner"]);
  }

  /** Stale retention: switching the runner away from a stage and back keeps the values
      committed for that stage, which is then shown again with them. */
  lemma StaleRetained(values: FormValues, stage: PipelineConfigStage, stages: seq<PipelineConfigStage>,
                      stageValues: Json, other: string)
    requires stage in stages && stage.name != "runner" && JsTruthy(stageValues)
    requires other != stage.name
    ensures
      var v1 := MergeStage(MergeStage(values, "ai", "runner", JObj(map["runner" := JStr(stage.name)])),
                           "ai", stage.name, stageValues);
      var v2 := MergeStage(v1, "ai", "runner", JObj(map["runner" := JStr(other)]));
      var v3 := MergeStage(v2, "ai", "runner", JObj(map["runner" := JStr(stage.name)]));
      && stage in VisibleStages("ai", stages, v1)
      && stage !in VisibleStages("ai", stages, v2)
      && stage in VisibleStages("ai", stages, v3)
      && StageInitialValues(v3, "ai", stage.name) == stageValues
  {
    var v0 := MergeStage(values, "ai", "runner", JObj(map["runner" := JStr(stage.name)]));
    var v1 := MergeStage(v0, "ai", stage.name, stageValues);
    var v2 := MergeStage(v1, "ai", "runner", JObj(map["runner" := JStr(other)]));
    var v3 := MergeStage(v2, "ai", "runner", JObj(map["runner" := JStr(stage.name)]));
    SelectRunner(values, JStr(stage.name));
    assert CurrentRunner(v1) == CurrentRunner(v0) by {
      assert v1["ai"].fields["runner"] == v0["ai"].fields["runner"];
      RunnerPath(v0);
      RunnerPath(v1);
    }
    SelectRunner(v1, JStr(other));
    SelectRunner(v2, JStr(stage.name));
    assert v3["ai"].fields[stage.name] == stageValues;
  }

  // ---------------------------------------------------------------- submission

  /** The `Pipeline` entity handed to the persistence collaborator. */
  datatype Pipeline = Pipeline(config: map<string, Json>, description: string, name: string)

  datatype Request = CreatePipeline(pipeline: Pipeline) | UpdatePipeline(uuid: string, pipeline: Pipeline)

  /** `handleFormSubmit` behind `form.handleSubmit`: nothing is sent while the schema reports
      issues; otherwise `handleModify` in edit mode and `handleCreate` in create mode. */
  function Submit(isEditMode: bool, values: FormValues, pipelineId: Option<string>): Result<Request, seq<Issue>> {
    var issues := Validate(isEditMode, values);
    if issues != [] then Failure(issues)
    else
      ValidateAccepts(isEditMode, values);
      var basic := values["basic"].fields;
      var name := basic["name"].s;
      var description := basic["description"].s;
      if isEditMode then
        var realConfig := map["ai" := values["ai"], "trigger" := values["trigger"],
                              "safety" := values["safety"], "output" := values["output"]];
        Success(UpdatePipeline(pipelineId.GetOr(""), Pipeline(realConfig, description, name)))
      else
        Success(CreatePipeline(Pipeline(map[], description, name)))
  }

  /** Create mode sends an empty config with the identity from `basic`. */
  lemma CreatePayload(values: FormValues, pipelineId: Option<string>)
    requires Validate(false, values) == []
    ensures Submit(false, values, pipelineId).Success?
    ensures var req := Submit(false, values, pipelineId).value;
      && req.CreatePipeline?
      && req.pipeline.config == map[]
      && JStr(req.pipeline.name) == values["basic"].fields["name"]
      && JStr(req.pipeline.description) == values["basic"].fields["description"]
  {
    ValidateAccepts(false, values);
  }

  /** Edit mode sends exactly the four schema tabs, each whole, to the pipeline's uuid. */
  lemma EditPayload(values: FormValues, pipelineId: Option<string>)
    requires Validate(true, values) == []
    ensures Submit(true, values, pipelineId).Success?
    ensures var req := Submit(true, values, pipelineId).value;
      && req.UpdatePipeline?
      && req.uuid == pipelineId.GetOr("")
      && req.pipeline.config.Keys == set t | t in SchemaTabs
      && (forall t :: t in SchemaTabs ==> req.pipeline.config[t] == values[t])
      && JStr(req.pipeline.name) == values["basic"].fields["name"]
      && JStr(req.pipeline.description) == values["basic"].fields["description"]
  {
    ValidateAccepts(true, values);
  }

  /** Nothing is submitted unless the mode's schema accepts the value. */
  lemma SubmitNeedsValid(isEditMode: bool, values: FormValues, pipelineId: Option<string>)
    ensures Submit(isEditMode, values, pipelineId).Success? <==> Validate(isEditMode, values) == []
  {
  }

  /** Hidden runner stages are not dropped: a committed stage reaches the update payload
      whichever runner is selected. */
  lemma HiddenStageSubmitted(values: FormValues, stageName: string, stageValues: Json, pipelineId: Option<string>)
    requires Validate(true, values) == []
    ensures var m := MergeStage(values, "ai", stageName, stageValues);
      && Submit(true, m, pipelineId).Success?
      && Submit(true, m, pipelineId).value.pipeline.config["ai"].fields[stageName] == stageValues
  {
    ValidateAccepts(true, values);
    var m := MergeStage(values, "ai", stageName, stageValues);
    assert m["basic"] == values["basic"];
    ValidateAccepts(true, m);
    EditPayload(m, pipelineId);
  }

  /** The delete action is offered only for a non-default pipeline in edit mode. */
  predicate DeleteOffered(isEditMode: bool, isDefaultPipeline: bool) {
    isEditMode && !isDefaultPipeline
  }

  /** The "default pipeline cannot be deleted" notice. */
  predicate DefaultNoticeShown(isEditMode: bool, isDefaultPipeline: bool) {
    isEditMode && isDefaultPipeline
  }

  /** In edit mode exactly one of the delete action and the notice is shown; neither in
      create mode. */
  lemma DeleteOrNotice(isEditMode: bool, isDefaultPipeline: bool)
    ensures isEditMode ==> DeleteOffered(isEditMode, isDefaultPipeline) != DefaultNoticeShown(isEditMode, isDefaultPipeline)
    ensures !isEditMode ==> !DeleteOffered(isEditMode, isDefaultPipeline) && !DefaultNoticeShown(isEditMode, isDefaultPipeline)
  {
  }

  // ---------------------------------------------------------------- form state

  function DefaultValues(): FormValues {
    map["basic" := JObj(map[]), "ai" := JObj(map[]), "trigger" := JObj(map[]),
        "safety" := JObj(map[]), "output" := JObj(map[])]
  }

  /** The effect of one metadata tab on a schema slot: the slot takes the tab when the
      names agree. Folded over the tabs in order, so a later duplicate wins. */
  function Captured(prev: Option<PipelineConfigTab>, configs: seq<PipelineConfigTab>, name: string)
    : Option<PipelineConfigTab>
  {
    if configs == [] then prev
    else if configs[|configs| - 1].name == name then Some(configs[|configs| - 1])
    else Captured(prev, configs[..|configs| - 1], name)
  }

  /** The slot ends up holding the last tab of that name. */
  lemma {:induction false} CapturedLast(prev: Option<PipelineConfigTab>, configs: seq<PipelineConfigTab>, name: string, k: nat)
    requires k < |configs| && configs[k].name == name
    requires forall j :: k < j < |configs| ==> configs[j].name != name
    ensures Captured(prev, configs, name) == Some(configs[k])
  {
    if k < |configs| - 1 {
      CapturedLast(prev, configs[..|configs| - 1], name, k);
    }
  }

  /** A slot no tab names keeps its previous content. */
  lemma {:induction false} CapturedNone(prev: Option<PipelineConfigTab>, configs: seq<PipelineConfigTab>, name: string)
    requires forall j :: 0 <= j < |configs| ==> configs[j].name != name
    ensures Captured(prev, configs, name) == prev
  {
    if configs != [] {
      CapturedNone(prev, configs[..|configs| - 1], name);
    }
  }

  /** The form's state: the value tree and the four tab-schema slots. */
  class PipelineFormState {
    const isEditMode: bool
    const isDefaultPipeline: bool
    const pipelineId: Option<string>
    var values: FormValues
    var aiSchema: Option<PipelineConfigTab>
    var triggerSchema: Option<PipelineConfigTab>
    var safetySchema: Option<PipelineConfigTab>
    var outputSchema: Option<PipelineConfigTab>

    /** `useForm({defaultValues})` and empty `useState` slots. */
    constructor (isEditMode: bool, isDefaultPipeline: bool, pipelineId: Option<string>)
      ensures this.isEditMode == isEditMode && this.isDefaultPipeline == isDefaultPipeline
      ensures this.pipelineId == pipelineId
      ensures values == DefaultValues()
      ensures aiSchema == None && triggerSchema == None && safetySchema == None && outputSchema == None
    {
      this.isEditMode := isEditMode;
      this.isDefaultPipeline := isDefaultPipeline;
      this.pipelineId := pipelineId;
      values := DefaultValues();
      aiSchema, triggerSchema, safetySchema, outputSchema := None, None, None, None;
    }

    /** The metadata effect: each tab named ai, trigger, safety or output fills its slot,
        other names are ignored, and a later duplicate overwrites an earlier one. */
    method CaptureMetadata(configs: seq<PipelineConfigTab>)
      modifies this`aiSchema, this`triggerSchema, this`safetySchema, this`outputSchema
      ensures aiSchema == Captured(old(aiSchema), configs, "ai")
      ensures triggerSchema == Captured(old(triggerSchema), configs, "trigger")
      ensures safetySchema == Captured(old(safetySchema), configs, "safety")
      ensures outputSchema == Captured(old(outputSchema), configs, "output")
    {
      var i := 0;
      while i < |configs|
        invariant 0 <= i <= |configs|
        invariant aiSchema == Captured(old(aiSchema), configs[..i], "ai")
        invariant triggerSchema == Captured(old(triggerSchema), configs[..i], "trigger")
        invariant safetySchema == Captured(old(safetySchema), configs[..i], "safety")
        invariant outputSchema == Captured(old(outputSchema), configs[..i], "output")
      {
        var config := configs[i];
        assert configs[..i + 1][..i] == configs[..i];
        if config.name == "ai" {
          aiSchema := Some(config);
        } else if config.name == "trigger" {
          triggerSchema := Some(config);
        } else if config.name == "safety" {
          safetySchema := Some(config);
        } else if config.name == "output" {
          outputSchema := Some(config);
        }
        i := i + 1;
      }
      assert configs[..i] == configs;
    }

    /** The reset effect: `initValues` replace the value when given; the create form then
        starts over from an empty identity. */
    method ApplyInitValues(initValues: Option<FormValues>)
      modifies this`values
      ensures !isEditMode ==> values == map["basic" := JObj(map["name" := JStr(""), "description" := JStr("")])]
      ensures isEditMode ==> values == if initValues.Some? then initValues.value else old(values)
    {
      if initValues.Some? {
        values := initValues.value;
      }
      if !isEditMode {
        values := map["basic" := JObj(map["name" := JStr(""), "description" := JStr("")])];
      }
    }

    /** A stage form's `onSubmit`. */
    method CommitStage(formName: string, stageName: string, stageValues: Json)
      modifies this`values
      ensures values == MergeStage(old(values), formName, stageName, stageValues)
    {
      var currentValues := if formName in values && JsTruthy(values[formName]) then values[formName] else JObj(map[]);
      values := values[formName := JObj(Spread(currentValues)[stageName := stageValues])];
    }

    /** The schema slot a tab's content is drawn from. */
    function SchemaFor(formName: string): Option<PipelineConfigTab>
      reads this
    {
      if formName == "ai" then aiSchema
      else if formName == "trigger" then triggerSchema
      else if formName == "safety" then safetySchema
      else if formName == "output" then outputSchema
      else None
    }

    /** The stages drawn in a tab: only in edit mode, only once its schema has arrived,
        and only the visible ones. */
    function RenderedStages(formName: string): (r: seq<PipelineConfigStage>)
      reads this
      ensures !isEditMode || SchemaFor(formName).None? ==> r == []
      ensures isEditMode && SchemaFor(formName).Some? ==>
        forall s :: s in r <==> s in SchemaFor(formName).value.stages && StageShown(formName, s.name, values)
    {
      if isEditMode && SchemaFor(formName).Some? then VisibleStages(formName, SchemaFor(formName).value.stages, values)
      else []
    }
  }
}
