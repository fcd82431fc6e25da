/** `PromptBuilder`: it loads the resources, decides between LLM classification,
    the keyword selector and "include everything", assembles the prompt artifacts,
    renders them with the formatter for the target model and optionally has the
    result rewritten by the optimizer. */
module PromptBuilder {
  import opened Base
  import opened Json
  import opened Artifacts
  import opened LlmClient
  import F = Formatter
  import O = Optimizer
  import C = Classifier
  import L = LegacySelector

  /** The oracles one build consults: the LLM, the JSON decoder, the file system, and
      the order in which Python lists the keyword set of the description. */
  datatype World = World(chat: ChatRequest -> ChatReply, decode: Decoder, fs: string -> FileRead, setOrder: seq<string>)

  /** A constructed builder. The classifier and the optimizer exist iff enabled. */
  datatype Builder = Builder(useClassifier: bool, useOptimizer: bool, classifier: Option<Client>, optimizer: Option<Client>)

  const DefaultFeatureType := "feature"
  const DefaultGoals := BusinessGoals("Not specified", [])

  /** `PromptBuilder.__init__`: each enabled LLM client needs an API key, the explicit
      one or the environment's; the classifier and the optimizer both call the default
      model. */
  function NewBuilder(useClassifier: bool, useOptimizer: bool, classifierKey: Option<string>,
                      optimizerKey: Option<string>, env: Option<string>): (r: Result<Builder>)
    ensures r.Ok? <==> (!useClassifier || HasText(classifierKey) || HasText(env))
                       && (!useOptimizer || HasText(optimizerKey) || HasText(env))
    ensures r.Ok? ==> r.value.useClassifier == useClassifier && r.value.useOptimizer == useOptimizer
    ensures r.Ok? ==> (r.value.classifier.Some? <==> useClassifier) && (r.value.optimizer.Some? <==> useOptimizer)
  {
    var classifier :- if useClassifier then MapSome(NewClient(classifierKey, env, DefaultModel)) else Ok(None);
    var optimizer :- if useOptimizer then MapSome(O.NewOptimizer(optimizerKey, env, DefaultModel)) else Ok(None);
    Ok(Builder(useClassifier, useOptimizer, classifier, optimizer))
  }

  function MapSome<T>(r: Result<T>): (s: Result<Option<T>>)
    ensures s.Ok? <==> r.Ok?
    ensures s.Ok? ==> s.value == Some(r.value)
  {
    match r
    case Ok(v) => Ok(Some(v))
    case Err(e) => Err(e)
  }

  /* ---------------------------------------------------------------- formatter table */

  const FormatterTable: seq<(string, F.Formatter)> := [
    ("gpt-4", F.Gpt4Formatter),
    ("gpt-4-turbo", F.Gpt4Formatter),
    ("gpt-4-turbo-preview", F.Gpt4Formatter),
    ("gpt-3.5-turbo", F.Gpt4Formatter),
    ("claude-3-opus", F.ClaudeFormatter),
    ("claude-3-sonnet", F.ClaudeFormatter),
    ("claude-3-haiku", F.ClaudeFormatter)]

  /** `self.formatters.get(model, GPT4Formatter())` */
  function FormatterFor(model: string): (r: F.Formatter)
    ensures r.ClaudeFormatter? <==> model == "claude-3-opus" || model == "claude-3-sonnet" || model == "claude-3-haiku"
    ensures model !in O.KnownTargets ==> r == F.Gpt4Formatter
  {
    ClaudeRows(model);
    var i := RowOf(FormatterTable, model);
    if i < |FormatterTable| then FormatterTable[i].1 else F.Gpt4Formatter
  }

  /** The first row of the table naming the model, or the table's length when none does. */
  function RowOf(t: seq<(string, F.Formatter)>, model: string): (i: nat)
    ensures i <= |t|
    ensures i < |t| ==> t[i].0 == model
    ensures forall j :: 0 <= j < i ==> t[j].0 != model
  {
    if |t| == 0 then 0
    else if t[0].0 == model then 0
    else
      var k := RowOf(t[1..], model);
      assert forall j :: 1 <= j < |t| ==> t[j] == t[1..][j - 1];
      1 + k
  }

  /** The three Claude models reach their own rows of the table, the other known models
      rows before them. */
  lemma ClaudeRows(model: string)
    ensures model == "claude-3-opus" ==> RowOf(FormatterTable, model) == 4
    ensures model == "claude-3-sonnet" ==> RowOf(FormatterTable, model) == 5
    ensures model == "claude-3-haiku" ==> RowOf(FormatterTable, model) == 6
  {
    var i := RowOf(FormatterTable, model);
    if model == "claude-3-opus" || model == "claude-3-sonnet" || model == "claude-3-haiku" {
      var row := if model == "claude-3-opus" then 4 else if model == "claude-3-sonnet" then 5 else 6;
      assert FormatterTable[row].0 == model;
      assert i <= row;
      GptRowsFirst();
      assert model[0] == 'c';
    }
  }

  /** The first four rows are the GPT models. */
  lemma GptRowsFirst()
    ensures forall j :: 0 <= j < 4 ==> |FormatterTable[j].0| > 0 && FormatterTable[j].0[0] == 'g'
  {
  }

  /* ---------------------------------------------------------------- assembly */

  /** `[FeatureExample(**ex) for ex in feature_examples]` when the list is given and
      non-empty; a record missing a required field raises. */
  function FeatureExamples(featureExamples: Option<seq<Json>>): (r: Result<seq<IoExample>>)
    ensures featureExamples.None? || |featureExamples.value| == 0 ==> r == Ok([])
    ensures featureExamples.Some? ==>
      (r.Ok? <==> forall i :: 0 <= i < |featureExamples.value| ==> ValidateIoExample(featureExamples.value[i]).Ok?)
    ensures r.Ok? && featureExamples.Some? ==> |r.value| == |featureExamples.value|
  {
    if featureExamples.None? || |featureExamples.value| == 0 then Ok([])
    else ValidateEach(featureExamples.value, ValidateIoExample)
  }

  /** What the formatter is given, and the classification that led to it. */
  datatype Assembly = Assembly(
    artifacts: PromptArtifacts,
    selected: Option<SelectedContext>,
    classification: Option<C.Classified>)

  /** `classify` as resolved in `build_prompt`: the override, else the instance setting. */
  function EffectiveClassify(b: Builder, enableClassification: Option<bool>): bool
  {
    if enableClassification.Some? then enableClassification.value else b.useClassifier
  }

  /** Classification runs only with an effective flag, a classifier and a selective build. */
  predicate Classifies(b: Builder, enableClassification: Option<bool>, includeAllContext: bool) {
    EffectiveClassify(b, enableClassification) && b.classifier.Some? && !includeAllContext
  }

  /** `resources["system_description"] or SystemDescription()` */
  function SystemOrEmpty(res: Resources): SystemDescription
  {
    if res.systemDescription.Some? then res.systemDescription.value else EmptySystemDescription
  }

  /** The artifacts built from the chosen parts, with the feature's defaults; no
      business context is ever passed. */
  function MakeArtifacts(goals: Option<BusinessGoals>, sd: SystemDescription, guidelines: Option<AgentGuidelines>,
                     feature: FeaturePrompt): (r: PromptArtifacts)
    ensures goals.None? ==> r.businessGoals == DefaultGoals
    ensures goals.Some? ==> r.businessGoals == goals.value
    ensures guidelines.None? ==> r.agentGuidelines == EmptyGuidelines
    ensures guidelines.Some? ==> r.agentGuidelines == guidelines.value
    ensures r.systemDescription == sd && r.featurePrompt == feature && r.businessContext.None?
  {
    PromptArtifacts(
      if goals.Some? then goals.value else DefaultGoals,
      sd,
      if guidelines.Some? then guidelines.value else EmptyGuidelines,
      feature,
      None)
  }

  /** The system description after classification: the selected components and
      sections replace the stored ones only when non-empty. */
  function NarrowSystem(sd: SystemDescription, s: C.Selection): (r: SystemDescription)
    ensures r.components == if |s.components| > 0 then s.components else sd.components
    ensures r.infrastructure.sections == if |s.sections| > 0 then s.sections else sd.infrastructure.sections
    ensures r.ioExamples == sd.ioExamples
    ensures r.infrastructure == sd.infrastructure.(sections := r.infrastructure.sections)
  {
    var withComponents := if |s.components| > 0 then sd.(components := s.components) else sd;
    if |s.sections| > 0 then withComponents.(infrastructure := withComponents.infrastructure.(sections := s.sections))
    else withComponents
  }

  /** The selection handed to the formatter after classification: infrastructure is
      included iff some section was selected, and no business context is passed on. */
  function ClassifiedContext(s: C.Selection): (r: SelectedContext)
    ensures r.components == s.components && r.infrastructureSections == s.sections
    ensures r.includeInfrastructure <==> |s.sections| > 0
    ensures r.businessContextArtifacts == []
  {
    SelectedContext(s.components, |s.sections| > 0, Truthy(s.includeIoExamples), s.sections, [])
  }

  /** Steps 1 to 4 of `build_prompt`: the feature prompt, the selection and the
      prompt artifacts. */
  function Assemble(b: Builder, w: World, res: Resources, description: string, featureType: string,
                    featureExamples: Option<seq<Json>>, includeAllContext: bool,
                    enableClassification: Option<bool>): (r: Result<Assembly>)
    ensures r.Ok? ==> r.value.artifacts.businessContext.None?
    ensures r.Ok? ==> r.value.selected.None? || r.value.selected.value.businessContextArtifacts == []
    ensures r.Ok? ==> r.value.artifacts.featurePrompt.description == description
                      && r.value.artifacts.featurePrompt.featureType == featureType
    ensures r.Ok? ==> (r.value.classification.Some? <==> Classifies(b, enableClassification, includeAllContext))
    ensures r.Ok? && includeAllContext ==> r.value.selected.None?
    ensures r.Ok? && !Classifies(b, enableClassification, includeAllContext) ==>
      r.value.artifacts == MakeArtifacts(res.businessGoals, SystemOrEmpty(res), res.agentGuidelines, r.value.artifacts.featurePrompt)
    ensures r.Ok? && !Classifies(b, enableClassification, includeAllContext) && !includeAllContext ==>
      r.value.selected == Some(L.LegacySelectRelevantContext(description, w.setOrder, res))
    ensures r.Ok? && r.value.classification.Some? ==>
      var s := r.value.classification.value.selected;
      r.value.selected == Some(ClassifiedContext(s))
      && r.value.artifacts.systemDescription == NarrowSystem(SystemOrEmpty(res), s)
    ensures FeatureExamples(featureExamples).Err? ==> r.Err?
    ensures r.Err? && FeatureExamples(featureExamples).Ok? ==> Classifies(b, enableClassification, includeAllContext)
  {
    var examples :- FeatureExamples(featureExamples);
    var feature := FeaturePrompt(description, featureType, examples);
    if Classifies(b, enableClassification, includeAllContext) then
      var classified :- C.ClassifyAndSelect(w.chat, w.decode, b.classifier.value.model, description, res, w.fs);
      var s := classified.selected;
      var goals := if Truthy(s.includeGoals) then res.businessGoals else None;
      var guidelines := if Truthy(s.includeGuidelines) then res.agentGuidelines else None;
      Ok(Assembly(MakeArtifacts(goals, NarrowSystem(SystemOrEmpty(res), s), guidelines, feature),
                  Some(ClassifiedContext(s)), Some(classified)))
    else
      var selected := if includeAllContext then None else Some(L.LegacySelectRelevantContext(description, w.setOrder, res));
      Ok(Assembly(MakeArtifacts(res.businessGoals, SystemOrEmpty(res), res.agentGuidelines, feature), selected, None))
  }

  /* ---------------------------------------------------------------- build */

  /** The dictionary `build_prompt` returns. */
  datatype BuildResult = BuildResult(
    prompt: string,
    initialPrompt: Option<string>,
    classification: Option<C.Classified>,
    model: string,
    featureType: string,
    optimized: bool,
    classified: bool)

  /** `optimize` as resolved in `build_prompt`: the override, else the instance setting
      or `refine_with_model`. */
  function EffectiveOptimize(b: Builder, enableOptimization: Option<bool>, refineWithModel: bool): bool
  {
    if enableOptimization.Some? then enableOptimization.value else b.useOptimizer || refineWithModel
  }

  /** The prompt before optimisation. */
  function InitialPrompt(a: Assembly, model: string, w: World): (r: string)
    ensures r == F.Format(a.artifacts, a.selected, w.fs)
  {
    F.Render(FormatterFor(model), a.artifacts, a.selected, w.fs)
  }

  /** `build_prompt(feature_description, feature_type, feature_examples, model,
      include_all_context, refine_with_model, enable_classification, enable_optimization)` */
  function BuildPrompt(b: Builder, w: World, res: Resources, description: string, featureType: string,
                       featureExamples: Option<seq<Json>>, model: string, includeAllContext: bool,
                       refineWithModel: bool, enableClassification: Option<bool>,
                       enableOptimization: Option<bool>): (r: Result<BuildResult>)
    ensures var a := Assemble(b, w, res, description, featureType, featureExamples, includeAllContext, enableClassification);
      r.Ok? <==> a.Ok?
    ensures r.Ok? ==> r.value.model == model && r.value.featureType == featureType
    ensures r.Ok? ==> r.value.optimized == EffectiveOptimize(b, enableOptimization, refineWithModel)
    ensures r.Ok? ==> r.value.classified == EffectiveClassify(b, enableClassification)
    ensures r.Ok? ==> (r.value.initialPrompt.Some? <==> r.value.optimized)
    ensures r.Ok? ==>
      var a := Assemble(b, w, res, description, featureType, featureExamples, includeAllContext, enableClassification).value;
      var initial := InitialPrompt(a, model, w);
      r.value.classification == a.classification
      && (r.value.optimized ==> r.value.initialPrompt == Some(initial))
      && (!r.value.optimized || b.optimizer.None? ==> r.value.prompt == initial)
      && (r.value.optimized && b.optimizer.Some? ==>
            r.value.prompt == O.Optimize(w.chat, b.optimizer.value, initial, model, Some(description)))
  {
    var a :- Assemble(b, w, res, description, featureType, featureExamples, includeAllContext, enableClassification);
    var initial := InitialPrompt(a, model, w);
    var optimize := EffectiveOptimize(b, enableOptimization, refineWithModel);
    var prompt := if optimize && b.optimizer.Some? then O.Optimize(w.chat, b.optimizer.value, initial, model, Some(description))
                  else initial;
    Ok(BuildResult(prompt, if optimize then Some(initial) else None, a.classification, model, featureType,
                   optimize, EffectiveClassify(b, enableClassification)))
  }

  /* ---------------------------------------------------------------- properties */

  /** The formatter table and the optimizer's guideline table know the same models. */
  lemma FormatterTableKnowsGuidelineTargets()
    ensures |FormatterTable| == |O.KnownTargets|
    ensures forall i :: 0 <= i < |FormatterTable| ==> FormatterTable[i].0 == O.KnownTargets[i]
  {
  }

  /** Whatever the path, the formatter is never handed a business-context document, so
      the rendered prompt has no business-context documentation block. */
  lemma BusinessContextNeverRendered(b: Builder, w: World, res: Resources, description: string, featureType: string,
                                     featureExamples: Option<seq<Json>>, includeAllContext: bool,
                                     enableClassification: Option<bool>)
    requires Assemble(b, w, res, description, featureType, featureExamples, includeAllContext, enableClassification).Ok?
    ensures var a := Assemble(b, w, res, description, featureType, featureExamples, includeAllContext, enableClassification).value;
      F.ShownArtifacts(a.artifacts, a.selected) == [] && F.BusinessContextBlock(F.ShownArtifacts(a.artifacts, a.selected), w.fs) == ""
  {
  }

  /** A failing classification call does not fail the build: the classifier's keyword
      fallback decides, and goals and guidelines are kept. */
  lemma FailedClassificationStillBuilds(b: Builder, w: World, res: Resources, description: string, featureType: string,
                                        featureExamples: Option<seq<Json>>, enableClassification: Option<bool>)
    requires Classifies(b, enableClassification, false)
    requires FeatureExamples(featureExamples).Ok?
    requires LlmClient.MakeJsonLlmCall(w.chat, w.decode, b.classifier.value.model, C.SystemMessage,
               C.ClassificationPrompt(description, C.PrepareContext(res, w.fs)), C.ClassifierTemperature).Err?
    ensures var r := Assemble(b, w, res, description, featureType, featureExamples, false, enableClassification);
      r.Ok? && r.value.classification.Some?
      && r.value.classification.value.classification == C.FallbackClassification(description, C.PrepareContext(res, w.fs))
      && r.value.artifacts.businessGoals == (if res.businessGoals.Some? then res.businessGoals.value else DefaultGoals)
      && r.value.artifacts.agentGuidelines == (if res.agentGuidelines.Some? then res.agentGuidelines.value else EmptyGuidelines)
  {
    C.FailedCallFallsBack(w.chat, w.decode, b.classifier.value.model, description, res, w.fs);
    ClassifiedAssembly(b, w, res, description, featureType, featureExamples, enableClassification);
  }

  /** On the classifier path, goals and guidelines are kept exactly when the
      classification includes them. */
  lemma ClassifiedAssembly(b: Builder, w: World, res: Resources, description: string, featureType: string,
                           featureExamples: Option<seq<Json>>, enableClassification: Option<bool>)
    requires Classifies(b, enableClassification, false)
    requires FeatureExamples(featureExamples).Ok?
    requires C.ClassifyAndSelect(w.chat, w.decode, b.classifier.value.model, description, res, w.fs).Ok?
    ensures var c := C.ClassifyAndSelect(w.chat, w.decode, b.classifier.value.model, description, res, w.fs).value;
      var r := Assemble(b, w, res, description, featureType, featureExamples, false, enableClassification);
      r.Ok? && r.value.classification == Some(c)
      && (Truthy(c.selected.includeGoals) && res.businessGoals.Some? ==> r.value.artifacts.businessGoals == res.businessGoals.value)
      && (Truthy(c.selected.includeGuidelines) && res.agentGuidelines.Some? ==>
            r.value.artifacts.agentGuidelines == res.agentGuidelines.value)
      && (!Truthy(c.selected.includeGoals) || res.businessGoals.None? ==> r.value.artifacts.businessGoals == DefaultGoals)
      && (!Truthy(c.selected.includeGuidelines) || res.agentGuidelines.None? ==>
            r.value.artifacts.agentGuidelines == EmptyGuidelines)
  {
  }

  /** An enabled optimisation without an optimizer still reports `optimized` and returns
      the initial prompt as both prompts. */
  lemma OptimizedWithoutOptimizer(b: Builder, w: World, res: Resources, description: string, featureType: string,
                                  featureExamples: Option<seq<Json>>, model: string, includeAllContext: bool,
                                  refineWithModel: bool, enableClassification: Option<bool>,
                                  enableOptimization: Option<bool>)
    requires b.optimizer.None? && EffectiveOptimize(b, enableOptimization, refineWithModel)
    requires Assemble(b, w, res, description, featureType, featureExamples, includeAllContext, enableClassification).Ok?
    ensures var r := BuildPrompt(b, w, res, description, featureType, featureExamples, model, includeAllContext,
                                 refineWithModel, enableClassification, enableOptimization);
      r.Ok? && r.value.optimized && r.value.initialPrompt == Some(r.value.prompt)
  {
  }

  /** With `include_all_context` nothing is classified, yet `classified` reports the flag. */
  lemma IncludeAllStillReportsClassified(b: Builder, w: World, res: Resources, description: string, featureType: string,
                                         featureExamples: Option<seq<Json>>, model: string,
                                         refineWithModel: bool, enableOptimization: Option<bool>)
    requires b.useClassifier
    requires FeatureExamples(featureExamples).Ok?
    ensures var r := BuildPrompt(b, w, res, description, featureType, featureExamples, model, true,
                                 refineWithModel, None, enableOptimization);
      r.Ok? && r.value.classified && r.value.classification.None?
  {
  }
}
