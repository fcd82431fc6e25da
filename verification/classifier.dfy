/** The LLM-based classifier: the context summary it sends, the request prompt, the
    keyword fallback used whenever the LLM call fails, and the resolution of a
    classification (a decoded JSON object) into selected artifacts. */
module Classifier {
  import opened Base
  import opened Text
  import opened Collections
  import opened Json
  import opened Artifacts
  import opened Keywords
  import FileUtils
  import LlmClient

  /* ---------------------------------------------------------------- context */

  datatype ComponentSummary =
    ComponentSummary(name: string, description: string, responsibilities: seq<string>, dependencies: seq<string>)

  datatype SectionSummary = SectionSummary(title: string, sectionType: string, keywords: seq<string>, summary: string)

  datatype IoSummary = IoSummary(input: string, output: string)

  datatype DocumentSummary =
    DocumentSummary(filename: string, fileType: string, sourcePath: string, summary: string, artifactPath: string)

  /** What the classifier shows the LLM about the available resources. */
  datatype ClassificationContext = ClassificationContext(
    components: seq<ComponentSummary>,
    sections: seq<SectionSummary>,
    goals: Option<BusinessGoals>,
    guidelines: Option<AgentGuidelines>,
    ioExamples: seq<IoSummary>,
    documents: seq<DocumentSummary>)

  const SectionSummaryLength := 500

  function SummariseComponent(c: Component): ComponentSummary {
    ComponentSummary(c.name, c.description, c.responsibilities, c.dependencies)
  }

  function SummariseSection(s: InfrastructureSection): SectionSummary {
    SectionSummary(s.title, s.sectionType, s.keywords, Ellipsize(s.content, SectionSummaryLength))
  }

  function SummariseDocument(a: BusinessContextArtifact, fs: string -> FileRead): DocumentSummary {
    DocumentSummary(a.filename, a.fileType, a.sourcePath,
                    FileUtils.ArtifactSummary(a, FileUtils.DefaultSummaryLength, fs), a.artifactPath)
  }

  /** `_prepare_classification_context`; `fs` reads the artifact files. */
  function PrepareContext(res: Resources, fs: string -> FileRead): (r: ClassificationContext)
    ensures res.componentIndex.None? ==> r.components == []
    ensures res.componentIndex.Some? ==>
      |r.components| == |res.componentIndex.value.components|
      && forall i :: 0 <= i < |r.components| ==>
           r.components[i].name == res.componentIndex.value.components[i].name
           && r.components[i].description == res.componentIndex.value.components[i].description
    ensures res.systemDescription.None? ==> r.sections == [] && r.ioExamples == []
    ensures res.systemDescription.Some? ==>
      var secs := res.systemDescription.value.infrastructure.sections;
      |r.sections| == |secs|
      && (forall i :: 0 <= i < |secs| ==>
            r.sections[i].title == secs[i].title
            && |r.sections[i].summary| <= SectionSummaryLength + 3
            && StartsWith(r.sections[i].summary, PyPrefix(secs[i].content, SectionSummaryLength))
            && (|secs[i].content| <= SectionSummaryLength ==> r.sections[i].summary == secs[i].content))
      && |r.ioExamples| == |res.systemDescription.value.ioExamples|
    ensures r.goals == res.businessGoals && r.guidelines == res.agentGuidelines
    ensures res.businessContext.None? ==> r.documents == []
    ensures res.businessContext.Some? ==>
      var arts := res.businessContext.value.artifacts;
      |r.documents| == |arts|
      && forall i :: 0 <= i < |arts| ==>
           r.documents[i].filename == arts[i].filename
           && r.documents[i].summary == FileUtils.ArtifactSummary(arts[i], FileUtils.DefaultSummaryLength, fs)
  {
    ClassificationContext(
      if res.componentIndex.Some? then MapSeq(res.componentIndex.value.components, SummariseComponent) else [],
      if res.systemDescription.Some? then MapSeq(res.systemDescription.value.infrastructure.sections, SummariseSection)
      else [],
      res.businessGoals,
      res.agentGuidelines,
      if res.systemDescription.Some? then
        MapSeq(res.systemDescription.value.ioExamples, (e: IoExample) => IoSummary(e.inputDescription, e.outputDescription))
      else [],
      if res.businessContext.Some? then
        MapSeq(res.businessContext.value.artifacts, (a: BusinessContextArtifact) => SummariseDocument(a, fs))
      else [])
  }

  /* ---------------------------------------------------------------- request */

  const MaxPromptComponents := 20
  const MaxPromptKeywords := 5
  const MaxPromptConstraints := 5
  const ClassifierTemperature: real := 0.3

  const SystemMessage := "You are an expert at analyzing software feature requirements and identifying relevant context needed for implementation. Your goal is to maximize the effectiveness of the final prompt by selecting only the most relevant artifacts that directly contribute to implementing the feature. Be selective - include only artifacts that provide essential context. Too much irrelevant context can reduce prompt effectiveness. Consider relevance scores to prioritize the most important artifacts."

  const PromptHead := "Analyze the following feature description and determine which artifacts are most relevant for implementation.\n\nYour goal is to maximize the effectiveness of the final prompt by selecting only the most relevant artifacts that directly contribute to implementing this feature. Be selective - too much context can reduce prompt effectiveness.\n\nConsider:\n- Which components are directly involved in implementing this feature?\n- Which infrastructure sections are relevant to deployment/configuration?\n- Which business context documents contain domain knowledge needed for this feature?\n- Which guidelines and constraints are most important for this specific feature?\n\nFeature Description:\n"

  const PromptTail := "Return a JSON object with:\n{\n  \"relevant_component_names\": [\"component1\", \"component2\", ...],\n  \"relevant_infrastructure_sections\": [\"section_title1\", \"section_title2\", ...],\n  \"relevant_business_context_filenames\": [\"filename1.pdf\", \"filename2.csv\", ...],\n  \"include_business_goals\": true/false,\n  \"include_agent_guidelines\": true/false,\n  \"include_system_io_examples\": true/false,\n  \"reasoning\": \"Brief explanation of why these artifacts were selected and how they maximize prompt effectiveness\",\n  \"feature_category\": \"api|database|ui|infrastructure|integration|other\",\n  \"complexity\": \"low|medium|high\",\n  \"relevance_scores\": {\n    \"components\": {\"component1\": 0.9, \"component2\": 0.7},\n    \"infrastructure\": {\"section1\": 0.8},\n    \"business_context\": {\"filename1.pdf\": 0.9, \"filename2.csv\": 0.5}\n  }\n}\n"

  function ComponentLine(c: ComponentSummary): string {
    "- " + c.name + ": " + c.description
  }

  function SectionLine(s: SectionSummary): string {
    "- " + s.title + " (" + s.sectionType + "): Keywords: " + Join(PyPrefix(s.keywords, MaxPromptKeywords), ", ")
  }

  function DocumentLine(d: DocumentSummary): string {
    "- " + d.filename + " (" + d.fileType + "): " + d.summary
  }

  function ComponentsBlock(cs: seq<ComponentSummary>): string {
    if |cs| == 0 then ""
    else "\nAvailable Components:\n" + Join(MapSeq(PyPrefix(cs, MaxPromptComponents), ComponentLine), "\n") + "\n"
  }

  function SectionsBlock(ss: seq<SectionSummary>): string {
    if |ss| == 0 then ""
    else "\nAvailable Infrastructure Sections:\n" + Join(MapSeq(ss, SectionLine), "\n") + "\n"
  }

  function GoalsBlock(g: Option<BusinessGoals>): string {
    match g
    case None => ""
    case Some(goals) =>
      "\nBusiness Goals:\n- Purpose: " + goals.purpose + "\n- Constraints: "
      + Join(PyPrefix(goals.externalConstraints, MaxPromptConstraints), ", ") + "\n"
  }

  function GuidelinesBlock(g: Option<AgentGuidelines>): string {
    match g
    case None => ""
    case Some(gl) =>
      "\nDevelopment Guidelines:\n- Guardrails: " + NatToString(|gl.guardrails|) + " rules\n- Best Practices: "
      + NatToString(|gl.bestPractices|) + " practices\n- Coding Standards: "
      + NatToString(|gl.codingStandards|) + " standards\n"
  }

  function DocumentsBlock(ds: seq<DocumentSummary>): string {
    if |ds| == 0 then ""
    else "\nAvailable Business Context Documents:\n" + Join(MapSeq(ds, DocumentLine), "\n") + "\n"
  }

  /** `_build_classification_prompt`. */
  function ClassificationPrompt(description: string, ctx: ClassificationContext): (r: string)
    ensures Contains(r, description)
  {
    var rest := "\n\nAvailable Artifacts:\n" + ComponentsBlock(ctx.components) + "\n" + SectionsBlock(ctx.sections)
      + "\n" + GoalsBlock(ctx.goals) + "\n" + GuidelinesBlock(ctx.guidelines) + "\n"
      + DocumentsBlock(ctx.documents) + "\n\n" + PromptTail;
    var r := PromptHead + description + rest;
    ContainsSelf(description);
    ContainsInMiddle(PromptHead, description, rest, description);
    r
  }

  /* ---------------------------------------------------------------- fallback */

  const FallbackComponentCap := 5
  const FallbackSectionCap := 3
  const FallbackDocumentCap := 3
  const FallbackReasoning := "Fallback classification using keyword matching"

  /** The labels of the items `hit` accepts, in order, at most `cap` of them. */
  function Picks<T>(items: seq<T>, hit: T -> bool, nameOf: T -> string, cap: nat): (r: seq<string>)
    ensures |r| <= cap
    ensures forall i :: 0 <= i < |r| ==> exists j :: 0 <= j < |items| && hit(items[j]) && nameOf(items[j]) == r[i]
    ensures |r| < cap ==> forall x :: x in items && hit(x) ==> nameOf(x) in r
  {
    var hits := Filter(items, hit);
    var labels := MapSeq(hits, nameOf);
    var r := PyPrefix(labels, cap);
    assert r == labels[..|r|];
    assert forall i :: 0 <= i < |r| ==> r[i] == nameOf(hits[i]) && hits[i] in items && hit(hits[i]);
    assert forall i :: 0 <= i < |r| ==> exists j :: 0 <= j < |items| && items[j] == hits[i];
    assert |r| < cap ==> r == labels;
    r
  }

  function ComponentHit(keywords: seq<string>): ComponentSummary -> bool {
    (c: ComponentSummary) => MatchesKeywords(c.name + " " + c.description, keywords, false)
  }

  function SectionHit(keywords: seq<string>): SectionSummary -> bool {
    (s: SectionSummary) => MatchesKeywords(s.title + " " + Join(s.keywords, " "), keywords, false)
  }

  function DocumentHit(keywords: seq<string>): DocumentSummary -> bool {
    (d: DocumentSummary) => MatchesKeywords(d.filename + " " + d.summary, keywords, false)
  }

  function FallbackKeywords(description: string): seq<string> {
    ExtractKeywords(description, DefaultMinLength, DefaultMaxKeywords)
  }

  function FallbackComponents(description: string, ctx: ClassificationContext): seq<string> {
    Picks(ctx.components, ComponentHit(FallbackKeywords(description)), (c: ComponentSummary) => c.name, FallbackComponentCap)
  }

  function FallbackSections(description: string, ctx: ClassificationContext): seq<string> {
    Picks(ctx.sections, SectionHit(FallbackKeywords(description)), (s: SectionSummary) => s.title, FallbackSectionCap)
  }

  function FallbackDocuments(description: string, ctx: ClassificationContext): seq<string> {
    Picks(ctx.documents, DocumentHit(FallbackKeywords(description)), (d: DocumentSummary) => d.filename, FallbackDocumentCap)
  }

  /** `_fallback_classification`, as the JSON object it returns. */
  function FallbackClassification(description: string, ctx: ClassificationContext): Json
  {
    FallbackObject(StrList(FallbackComponents(description, ctx)), StrList(FallbackSections(description, ctx)),
                   StrList(FallbackDocuments(description, ctx)))
  }

  /** The fallback's dict for the given picks. */
  function FallbackObject(names: Json, titles: Json, files: Json): Json
  {
    JObj([
      ("relevant_component_names", names),
      ("relevant_infrastructure_sections", titles),
      ("relevant_business_context_filenames", files),
      ("include_business_goals", JBool(true)),
      ("include_agent_guidelines", JBool(true)),
      ("include_system_io_examples", JBool(false)),
      ("reasoning", JStr(FallbackReasoning)),
      ("feature_category", JStr("other")),
      ("complexity", JStr("medium")),
      ("relevance_scores", JObj([]))])
  }

  /** `_llm_classify`: the decoded reply, or the fallback when the call or the
      decoding fails; an error never escapes. */
  function LlmClassify(chat: LlmClient.ChatRequest -> LlmClient.ChatReply, decode: LlmClient.Decoder, model: string,
                       description: string, ctx: ClassificationContext): (r: Json)
    ensures var call := LlmClient.MakeJsonLlmCall(chat, decode, model, SystemMessage,
                                                   ClassificationPrompt(description, ctx), ClassifierTemperature);
      (call.Ok? ==> r == call.value) && (call.Err? ==> r == FallbackClassification(description, ctx))
  {
    match LlmClient.MakeJsonLlmCall(chat, decode, model, SystemMessage, ClassificationPrompt(description, ctx), ClassifierTemperature)
    case Ok(v) => v
    case Err(_) => FallbackClassification(description, ctx)
  }

  /* ---------------------------------------------------------------- resolution */

  const MinRelevance: real := 0.5

  /** The artifacts a classification selects, with the three inclusion values as the
      classification gives them (they are only tested for truth later). */
  datatype Selection = Selection(
    components: seq<Component>,
    sections: seq<InfrastructureSection>,
    documents: seq<BusinessContextArtifact>,
    includeGoals: Json,
    includeGuidelines: Json,
    includeIoExamples: Json)

  /** The test `test` accepts `x`. */
  function Passes<T>(test: T -> Result<bool>): T -> bool {
    x => test(x) == Ok(true)
  }

  /** A list comprehension whose condition may raise: the accepted items in order, or
      an error when the condition raises on any item. */
  function FilterOk<T>(s: seq<T>, test: T -> Result<bool>): (r: Result<seq<T>>)
    ensures r.Ok? <==> forall i :: 0 <= i < |s| ==> test(s[i]).Ok?
    ensures r.Ok? ==> r.value == Filter(s, Passes(test))
  {
    if |s| == 0 then Ok([])
    else
      match test(s[0])
      case Err(e) => Err(e)
      case Ok(b) =>
        match FilterOk(s[1..], test)
        case Err(e) => Err(e)
        case Ok(rest) => Ok(if b then [s[0]] + rest else rest)
  }

  function NameListed(names: Json): Component -> Result<bool> {
    (c: Component) => PyIn(c.name, names)
  }

  function TitleListed(titles: Json): InfrastructureSection -> Result<bool> {
    (s: InfrastructureSection) => PyIn(s.title, titles)
  }

  /** `filename in relevant_filenames or relevance_scores.get(filename, 0) >= 0.5`. */
  function DocumentChosen(names: Json, scores: Json, a: BusinessContextArtifact): (r: Result<bool>)
    ensures r == Ok(true) <==>
      PyIn(a.filename, names) == Ok(true)
      || (PyIn(a.filename, names) == Ok(false) && scores.JObj?
          && AtLeast(Get(scores, a.filename, JNum(0.0)).value, MinRelevance) == Ok(true))
    ensures r.Ok? <==>
      PyIn(a.filename, names).Ok?
      && (PyIn(a.filename, names) == Ok(false) ==>
            scores.JObj? && AtLeast(Get(scores, a.filename, JNum(0.0)).value, MinRelevance).Ok?)
  {
    var listed :- PyIn(a.filename, names);
    if listed then Ok(true)
    else
      var score :- Get(scores, a.filename, JNum(0.0));
      AtLeast(score, MinRelevance)
  }

  function DocumentTest(names: Json, scores: Json): BusinessContextArtifact -> Result<bool> {
    a => DocumentChosen(names, scores, a)
  }

  function IndexComponents(res: Resources): seq<Component> {
    if res.componentIndex.Some? then res.componentIndex.value.components else []
  }

  function IndexSections(res: Resources): seq<InfrastructureSection> {
    if res.systemDescription.Some? then res.systemDescription.value.infrastructure.sections else []
  }

  function IndexDocuments(res: Resources): seq<BusinessContextArtifact> {
    if res.businessContext.Some? then res.businessContext.value.artifacts else []
  }

  function ChooseComponents(cls: Json, comps: seq<Component>): (r: Result<seq<Component>>)
    requires cls.JObj?
    ensures r.Ok? ==> IsSubsequence(r.value, comps)
    ensures r.Ok? ==> forall c :: c in comps ==>
      (c in r.value <==> PyIn(c.name, Get(cls, "relevant_component_names", JArr([])).value) == Ok(true))
  {
    FilterIsSubsequence(comps, Passes(NameListed(Get(cls, "relevant_component_names", JArr([])).value)));
    if |comps| == 0 then Ok([])
    else FilterOk(comps, NameListed(Get(cls, "relevant_component_names", JArr([])).value))
  }

  function ChooseSections(cls: Json, secs: seq<InfrastructureSection>): (r: Result<seq<InfrastructureSection>>)
    requires cls.JObj?
    ensures r.Ok? ==> IsSubsequence(r.value, secs)
    ensures r.Ok? ==> forall s :: s in secs ==>
      (s in r.value <==> PyIn(s.title, Get(cls, "relevant_infrastructure_sections", JArr([])).value) == Ok(true))
  {
    FilterIsSubsequence(secs, Passes(TitleListed(Get(cls, "relevant_infrastructure_sections", JArr([])).value)));
    if |secs| == 0 then Ok([])
    else FilterOk(secs, TitleListed(Get(cls, "relevant_infrastructure_sections", JArr([])).value))
  }

  /** The `business_context` score table, read (and checked to be a dict) before any
      artifact is tested. */
  function ScoreTable(cls: Json): (r: Result<Json>)
    requires cls.JObj?
  {
    Get(Get(cls, "relevance_scores", JObj([])).value, "business_context", JObj([]))
  }

  function ChooseDocuments(cls: Json, arts: seq<BusinessContextArtifact>): (r: Result<seq<BusinessContextArtifact>>)
    requires cls.JObj?
    ensures r.Ok? ==> IsSubsequence(r.value, arts)
    ensures r.Ok? && |arts| > 0 ==> ScoreTable(cls).Ok?
    ensures r.Ok? && |arts| > 0 ==> forall a :: a in arts ==>
      (a in r.value <==>
         DocumentChosen(Get(cls, "relevant_business_context_filenames", JArr([])).value, ScoreTable(cls).value, a) == Ok(true))
  {
    if |arts| == 0 then Ok([])
    else
      var names := Get(cls, "relevant_business_context_filenames", JArr([])).value;
      var scores :- ScoreTable(cls);
      FilterIsSubsequence(arts, Passes(DocumentTest(names, scores)));
      FilterOk(arts, DocumentTest(names, scores))
  }

  /** `_extract_selected_artifacts`. */
  function ExtractSelectedArtifacts(cls: Json, res: Resources): (r: Result<Selection>)
    ensures r.Ok? ==> cls.JObj?
    ensures r.Ok? ==> Lookup(cls.fields, "include_business_goals").None? ==> r.value.includeGoals == JBool(true)
    ensures r.Ok? ==> Lookup(cls.fields, "include_agent_guidelines").None? ==> r.value.includeGuidelines == JBool(true)
    ensures r.Ok? ==> Lookup(cls.fields, "include_system_io_examples").None? ==> r.value.includeIoExamples == JBool(false)
    ensures r.Ok? ==> IsSubsequence(r.value.components, IndexComponents(res))
    ensures r.Ok? ==> forall c :: c in IndexComponents(res) ==>
      (c in r.value.components <==> PyIn(c.name, Get(cls, "relevant_component_names", JArr([])).value) == Ok(true))
    ensures r.Ok? ==> IsSubsequence(r.value.sections, IndexSections(res))
    ensures r.Ok? ==> forall s :: s in IndexSections(res) ==>
      (s in r.value.sections <==> PyIn(s.title, Get(cls, "relevant_infrastructure_sections", JArr([])).value) == Ok(true))
    ensures r.Ok? ==> IsSubsequence(r.value.documents, IndexDocuments(res))
    ensures r.Ok? && |IndexDocuments(res)| > 0 ==> ScoreTable(cls).Ok?
    ensures r.Ok? && |IndexDocuments(res)| > 0 ==> forall a :: a in IndexDocuments(res) ==>
      (a in r.value.documents <==>
         DocumentChosen(Get(cls, "relevant_business_context_filenames", JArr([])).value, ScoreTable(cls).value, a) == Ok(true))
  {
    if !cls.JObj? then Err(Invalid("object has no attribute 'get'"))
    else
      var comps :- ChooseComponents(cls, IndexComponents(res));
      var secs :- ChooseSections(cls, IndexSections(res));
      var docs :- ChooseDocuments(cls, IndexDocuments(res));
      Ok(Selection(comps, secs, docs,
                   Get(cls, "include_business_goals", JBool(true)).value,
                   Get(cls, "include_agent_guidelines", JBool(true)).value,
                   Get(cls, "include_system_io_examples", JBool(false)).value))
  }

  /** What `classify_and_select` returns. */
  datatype Classified = Classified(selected: Selection, classification: Json, reasoning: Json)

  /** `classify_and_select`: the selection follows the LLM's classification (or the
      keyword fallback's), and a classification that is not a JSON object makes it raise. */
  function ClassifyAndSelect(chat: LlmClient.ChatRequest -> LlmClient.ChatReply, decode: LlmClient.Decoder,
                             model: string, description: string, res: Resources, fs: string -> FileRead): (r: Result<Classified>)
    ensures r.Ok? <==> ExtractSelectedArtifacts(LlmClassify(chat, decode, model, description, PrepareContext(res, fs)), res).Ok?
    ensures r.Ok? ==> r.value.classification == LlmClassify(chat, decode, model, description, PrepareContext(res, fs))
    ensures r.Ok? ==> ExtractSelectedArtifacts(r.value.classification, res) == Ok(r.value.selected)
    ensures r.Ok? ==> r.value.classification.JObj?
                      && (Lookup(r.value.classification.fields, "reasoning").None? ==> r.value.reasoning == JStr(""))
  {
    var cls := LlmClassify(chat, decode, model, description, PrepareContext(res, fs));
    var selected :- ExtractSelectedArtifacts(cls, res);
    Ok(Classified(selected, cls, Get(cls, "reasoning", JStr("")).value))
  }

  /** The selection holds exactly the components and sections the classification
      names, whether the LLM or the keyword fallback produced it. */
  lemma SelectionFollowsClassification(chat: LlmClient.ChatRequest -> LlmClient.ChatReply, decode: LlmClient.Decoder,
                                       model: string, description: string, res: Resources, fs: string -> FileRead)
    requires ClassifyAndSelect(chat, decode, model, description, res, fs).Ok?
    ensures var c := ClassifyAndSelect(chat, decode, model, description, res, fs).value;
      forall comp :: comp in IndexComponents(res) ==>
        (comp in c.selected.components <==>
           PyIn(comp.name, Get(c.classification, "relevant_component_names", JArr([])).value) == Ok(true))
    ensures var c := ClassifyAndSelect(chat, decode, model, description, res, fs).value;
      forall s :: s in IndexSections(res) ==>
        (s in c.selected.sections <==>
           PyIn(s.title, Get(c.classification, "relevant_infrastructure_sections", JArr([])).value) == Ok(true))
  {
    var c := ClassifyAndSelect(chat, decode, model, description, res, fs).value;
    assert ExtractSelectedArtifacts(c.classification, res) == Ok(c.selected);
  }

  /** When the LLM call fails, classification still succeeds, on the fallback. */
  lemma FailedCallFallsBack(chat: LlmClient.ChatRequest -> LlmClient.ChatReply, decode: LlmClient.Decoder,
                            model: string, description: string, res: Resources, fs: string -> FileRead)
    requires LlmClient.MakeJsonLlmCall(chat, decode, model, SystemMessage,
                                       ClassificationPrompt(description, PrepareContext(res, fs)), ClassifierTemperature).Err?
    ensures var r := ClassifyAndSelect(chat, decode, model, description, res, fs);
      r.Ok? && r.value.classification == FallbackClassification(description, PrepareContext(res, fs))
      && r.value.reasoning == JStr(FallbackReasoning)
      && r.value.selected.includeGoals == JBool(true) && r.value.selected.includeGuidelines == JBool(true)
      && r.value.selected.includeIoExamples == JBool(false)
  {
    FallbackResolves(description, PrepareContext(res, fs), res);
  }

  /* ---------------------------------------------------------------- properties */

  /** The fallback object binds `key` to `value`, as written: the `i`-th entry carries
      that key and no later entry repeats it. */
  lemma FallbackBinding(names: Json, titles: Json, files: Json, i: nat, key: string, value: Json)
    requires i < 10
    requires FallbackObject(names, titles, files).fields[i] == (key, value)
    requires forall j :: i < j < 10 ==> FallbackObject(names, titles, files).fields[j].0 != key
    ensures Lookup(FallbackObject(names, titles, files).fields, key) == Some(value)
  {
    LookupLastBinding(FallbackObject(names, titles, files).fields, i);
  }

  lemma FallbackComponentNamesKey(names: Json, titles: Json, files: Json)
    ensures Lookup(FallbackObject(names, titles, files).fields, "relevant_component_names") == Some(names)
  {
    var f := FallbackObject(names, titles, files).fields;
    assert f[1].0 != "relevant_component_names" && f[2].0 != "relevant_component_names" && f[3].0 != "relevant_component_names" && f[4].0 != "relevant_component_names" && f[5].0 != "relevant_component_names" && f[6].0 != "relevant_component_names" && f[7].0 != "relevant_component_names" && f[8].0 != "relevant_component_names" && f[9].0 != "relevant_component_names";
    FallbackBinding(names, titles, files, 0, "relevant_component_names", names);
  }

  lemma FallbackSectionTitlesKey(names: Json, titles: Json, files: Json)
    ensures Lookup(FallbackObject(names, titles, files).fields, "relevant_infrastructure_sections") == Some(titles)
  {
    var f := FallbackObject(names, titles, files).fields;
    assert f[2].0 != "relevant_infrastructure_sections" && f[3].0 != "relevant_infrastructure_sections" && f[4].0 != "relevant_infrastructure_sections" && f[5].0 != "relevant_infrastructure_sections" && f[6].0 != "relevant_infrastructure_sections" && f[7].0 != "relevant_infrastructure_sections" && f[8].0 != "relevant_infrastructure_sections" && f[9].0 != "relevant_infrastructure_sections";
    FallbackBinding(names, titles, files, 1, "relevant_infrastructure_sections", titles);
  }

  lemma FallbackDocumentNamesKey(names: Json, titles: Json, files: Json)
    ensures Lookup(FallbackObject(names, titles, files).fields, "relevant_business_context_filenames") == Some(files)
  {
    var f := FallbackObject(names, titles, files).fields;
    assert f[3].0 != "relevant_business_context_filenames" && f[4].0 != "relevant_business_context_filenames" && f[5].0 != "relevant_business_context_filenames" && f[6].0 != "relevant_business_context_filenames" && f[7].0 != "relevant_business_context_filenames" && f[8].0 != "relevant_business_context_filenames" && f[9].0 != "relevant_business_context_filenames";
    FallbackBinding(names, titles, files, 2, "relevant_business_context_filenames", files);
  }

  lemma FallbackGoalsFlagKey(names: Json, titles: Json, files: Json)
    ensures Lookup(FallbackObject(names, titles, files).fields, "include_business_goals") == Some(JBool(true))
  {
    var f := FallbackObject(names, titles, files).fields;
    assert f[4].0 != "include_business_goals" && f[5].0 != "include_business_goals" && f[6].0 != "include_business_goals" && f[7].0 != "include_business_goals" && f[8].0 != "include_business_goals" && f[9].0 != "include_business_goals";
    FallbackBinding(names, titles, files, 3, "include_business_goals", JBool(true));
  }

  lemma FallbackGuidelinesFlagKey(names: Json, titles: Json, files: Json)
    ensures Lookup(FallbackObject(names, titles, files).fields, "include_agent_guidelines") == Some(JBool(true))
  {
    var f := FallbackObject(names, titles, files).fields;
    assert f[5].0 != "include_agent_guidelines" && f[6].0 != "include_agent_guidelines" && f[7].0 != "include_agent_guidelines" && f[8].0 != "include_agent_guidelines" && f[9].0 != "include_agent_guidelines";
    FallbackBinding(names, titles, files, 4, "include_agent_guidelines", JBool(true));
  }

  lemma FallbackIoFlagKey(names: Json, titles: Json, files: Json)
    ensures Lookup(FallbackObject(names, titles, files).fields, "include_system_io_examples") == Some(JBool(false))
  {
    var f := FallbackObject(names, titles, files).fields;
    assert f[6].0 != "include_system_io_examples" && f[7].0 != "include_system_io_examples" && f[8].0 != "include_system_io_examples" && f[9].0 != "include_system_io_examples";
    FallbackBinding(names, titles, files, 5, "include_system_io_examples", JBool(false));
  }

  lemma FallbackReasoningKey(names: Json, titles: Json, files: Json)
    ensures Lookup(FallbackObject(names, titles, files).fields, "reasoning") == Some(JStr(FallbackReasoning))
  {
    var f := FallbackObject(names, titles, files).fields;
    assert f[7].0 != "reasoning" && f[8].0 != "reasoning" && f[9].0 != "reasoning";
    FallbackBinding(names, titles, files, 6, "reasoning", JStr(FallbackReasoning));
  }

  lemma FallbackScoresKey(names: Json, titles: Json, files: Json)
    ensures Lookup(FallbackObject(names, titles, files).fields, "relevance_scores") == Some(JObj([]))
  {
    var f := FallbackObject(names, titles, files).fields;
    FallbackBinding(names, titles, files, 9, "relevance_scores", JObj([]));
  }

  /** Components chosen against a list of names are those whose name is listed. */
  lemma ChooseListedComponents(cls: Json, names: seq<string>, comps: seq<Component>)
    requires cls.JObj? && Get(cls, "relevant_component_names", JArr([])) == Ok(StrList(names))
    ensures ChooseComponents(cls, comps).Ok?
    ensures forall c :: c in comps ==> (c in ChooseComponents(cls, comps).value <==> c.name in names)
  {
    forall c: Component ensures NameListed(StrList(names))(c) == Ok(c.name in names) {
      InStrList(c.name, names);
    }
  }

  /** Sections chosen against a list of titles are those whose title is listed. */
  lemma ChooseListedSections(cls: Json, titles: seq<string>, secs: seq<InfrastructureSection>)
    requires cls.JObj? && Get(cls, "relevant_infrastructure_sections", JArr([])) == Ok(StrList(titles))
    ensures ChooseSections(cls, secs).Ok?
    ensures forall s :: s in secs ==> (s in ChooseSections(cls, secs).value <==> s.title in titles)
  {
    forall s: InfrastructureSection ensures TitleListed(StrList(titles))(s) == Ok(s.title in titles) {
      InStrList(s.title, titles);
    }
  }

  /** With an empty score table, documents are chosen by the filename list alone. */
  lemma ChooseListedDocuments(cls: Json, files: seq<string>, arts: seq<BusinessContextArtifact>)
    requires cls.JObj? && Get(cls, "relevant_business_context_filenames", JArr([])) == Ok(StrList(files))
    requires ScoreTable(cls) == Ok(JObj([]))
    ensures ChooseDocuments(cls, arts).Ok?
    ensures forall a :: a in arts ==> (a in ChooseDocuments(cls, arts).value <==> a.filename in files)
  {
    forall a: BusinessContextArtifact ensures DocumentChosen(StrList(files), JObj([]), a) == Ok(a.filename in files) {
      InStrList(a.filename, files);
      assert Get(JObj([]), a.filename, JNum(0.0)) == Ok(JNum(0.0));
    }
  }

  /** When every choice succeeds, resolution returns the three choices and the three
      flags as read. */
  lemma ExtractOfChoices(cls: Json, res: Resources)
    requires cls.JObj?
    requires ChooseComponents(cls, IndexComponents(res)).Ok? && ChooseSections(cls, IndexSections(res)).Ok?
    requires ChooseDocuments(cls, IndexDocuments(res)).Ok?
    ensures ExtractSelectedArtifacts(cls, res)
         == Ok(Selection(ChooseComponents(cls, IndexComponents(res)).value, ChooseSections(cls, IndexSections(res)).value,
                         ChooseDocuments(cls, IndexDocuments(res)).value,
                         Get(cls, "include_business_goals", JBool(true)).value,
                         Get(cls, "include_agent_guidelines", JBool(true)).value,
                         Get(cls, "include_system_io_examples", JBool(false)).value))
  {
  }

  /** Resolving a fallback-shaped classification never fails; it selects exactly the
      listed items, and both inclusion defaults. */
  lemma FallbackObjectResolves(names: seq<string>, titles: seq<string>, files: seq<string>, res: Resources)
    ensures var r := ExtractSelectedArtifacts(FallbackObject(StrList(names), StrList(titles), StrList(files)), res);
      r.Ok?
      && r.value.includeGoals == JBool(true) && r.value.includeGuidelines == JBool(true)
      && r.value.includeIoExamples == JBool(false)
      && (forall c :: c in IndexComponents(res) ==> (c in r.value.components <==> c.name in names))
      && (forall s :: s in IndexSections(res) ==> (s in r.value.sections <==> s.title in titles))
      && (forall a :: a in IndexDocuments(res) ==> (a in r.value.documents <==> a.filename in files))
    ensures Get(FallbackObject(StrList(names), StrList(titles), StrList(files)), "reasoning", JStr(""))
         == Ok(JStr(FallbackReasoning))
  {
    var cls := FallbackObject(StrList(names), StrList(titles), StrList(files));
    var n, t, f := StrList(names), StrList(titles), StrList(files);
    FallbackComponentNamesKey(n, t, f);
    FallbackSectionTitlesKey(n, t, f);
    FallbackDocumentNamesKey(n, t, f);
    FallbackGoalsFlagKey(n, t, f);
    FallbackGuidelinesFlagKey(n, t, f);
    FallbackIoFlagKey(n, t, f);
    FallbackReasoningKey(n, t, f);
    FallbackScoresKey(n, t, f);
    assert ScoreTable(cls) == Ok(JObj([]));
    ChooseListedComponents(cls, names, IndexComponents(res));
    ChooseListedSections(cls, titles, IndexSections(res));
    ChooseListedDocuments(cls, files, IndexDocuments(res));
    ExtractOfChoices(cls, res);
  }

  /** Resolving the fallback classification never fails; it selects exactly the items
      the fallback picked by keyword, and both inclusion defaults. */
  lemma FallbackResolves(description: string, ctx: ClassificationContext, res: Resources)
    ensures var r := ExtractSelectedArtifacts(FallbackClassification(description, ctx), res);
      r.Ok?
      && r.value.includeGoals == JBool(true) && r.value.includeGuidelines == JBool(true)
      && r.value.includeIoExamples == JBool(false)
      && (forall c :: c in IndexComponents(res) ==>
            (c in r.value.components <==> c.name in FallbackComponents(description, ctx)))
      && (forall s :: s in IndexSections(res) ==>
            (s in r.value.sections <==> s.title in FallbackSections(description, ctx)))
      && (forall a :: a in IndexDocuments(res) ==>
            (a in r.value.documents <==> a.filename in FallbackDocuments(description, ctx)))
    ensures Get(FallbackClassification(description, ctx), "reasoning", JStr("")) == Ok(JStr(FallbackReasoning))
  {
    FallbackObjectResolves(FallbackComponents(description, ctx), FallbackSections(description, ctx),
                           FallbackDocuments(description, ctx), res);
  }

  /** The request shows only the first twenty components. */
  lemma PromptShowsTwentyComponents(description: string, ctx: ClassificationContext, extra: seq<ComponentSummary>)
    requires |ctx.components| >= MaxPromptComponents
    ensures ClassificationPrompt(description, ctx.(components := ctx.components + extra))
         == ClassificationPrompt(description, ctx)
  {
    assert PyPrefix(ctx.components + extra, MaxPromptComponents) == PyPrefix(ctx.components, MaxPromptComponents);
  }

  /** A section's line shows only its first five keywords. */
  lemma SectionLineShowsFiveKeywords(s: SectionSummary, extra: seq<string>)
    requires |s.keywords| >= MaxPromptKeywords
    ensures SectionLine(s.(keywords := s.keywords + extra)) == SectionLine(s)
  {
    assert PyPrefix(s.keywords + extra, MaxPromptKeywords) == PyPrefix(s.keywords, MaxPromptKeywords);
  }

  /** The goals block shows only the first five constraints. */
  lemma GoalsShowFiveConstraints(g: BusinessGoals, extra: seq<string>)
    requires |g.externalConstraints| >= MaxPromptConstraints
    ensures GoalsBlock(Some(g.(externalConstraints := g.externalConstraints + extra))) == GoalsBlock(Some(g))
  {
    assert PyPrefix(g.externalConstraints + extra, MaxPromptConstraints)
        == PyPrefix(g.externalConstraints, MaxPromptConstraints);
  }
}
