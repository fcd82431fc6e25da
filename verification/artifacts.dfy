/** The record types of prompt assembly (prompt artifacts, components, the component
    index) with pydantic's construction rules: required fields, defaults, and
    rejection of a value of the wrong JSON type. */
module Artifacts {
  import opened Base
  import opened Json

  /* ---------------------------------------------------------------- records */

  datatype BusinessGoals = BusinessGoals(purpose: string, externalConstraints: seq<string>)

  /** `BaseIOExample`; `SystemIOExample` and `FeatureExample` add nothing to it. */
  datatype IoExample = IoExample(inputDescription: string, outputDescription: string, example: Option<string>)

  /** `sectionType` is free text: the table of known types lives in the selectors. */
  datatype InfrastructureSection =
    InfrastructureSection(title: string, content: string, sectionType: string, keywords: seq<string>)

  datatype InfrastructureDescription = InfrastructureDescription(
    deployment: Option<string>,
    databases: seq<string>,
    services: seq<string>,
    configuration: Option<string>,
    sections: seq<InfrastructureSection>,
    markdownDocument: Option<string>)

  /** `dependencies` are bare component names; nothing checks that they exist. */
  datatype Component = Component(
    name: string,
    description: string,
    filePaths: seq<string>,
    dependencies: seq<string>,
    responsibilities: seq<string>,
    metadata: seq<(string, Json)>)

  datatype ComponentIndex =
    ComponentIndex(components: seq<Component>, indexedAt: Option<string>, projectRoot: Option<string>)

  datatype SystemDescription = SystemDescription(
    ioExamples: seq<IoExample>,
    components: seq<Component>,
    infrastructure: InfrastructureDescription)

  datatype AgentGuidelines =
    AgentGuidelines(guardrails: seq<string>, bestPractices: seq<string>, codingStandards: seq<string>)

  datatype FeaturePrompt = FeaturePrompt(description: string, featureType: string, examples: seq<IoExample>)

  datatype BusinessContextArtifact = BusinessContextArtifact(
    filename: string,
    fileType: string,
    sourcePath: string,
    artifactPath: string,
    indexedAt: string)

  datatype BusinessContext = BusinessContext(artifacts: seq<BusinessContextArtifact>, indexedAt: string)

  datatype PromptArtifacts = PromptArtifacts(
    businessGoals: BusinessGoals,
    systemDescription: SystemDescription,
    agentGuidelines: AgentGuidelines,
    featurePrompt: FeaturePrompt,
    businessContext: Option<BusinessContext>)

  /** What the resource store holds for a project; every part may be absent. */
  datatype Resources = Resources(
    businessGoals: Option<BusinessGoals>,
    systemDescription: Option<SystemDescription>,
    agentGuidelines: Option<AgentGuidelines>,
    componentIndex: Option<ComponentIndex>,
    businessContext: Option<BusinessContext>)

  /** The selection handed from a selector to a formatter. An empty artifact list
      means "no key", which the formatter treats the same way. */
  datatype SelectedContext = SelectedContext(
    components: seq<Component>,
    includeInfrastructure: bool,
    includeAllIoExamples: bool,
    infrastructureSections: seq<InfrastructureSection>,
    businessContextArtifacts: seq<BusinessContextArtifact>)

  /* ---------------------------------------------------------------- defaults */

  const EmptyInfrastructure := InfrastructureDescription(None, [], [], None, [], None)

  const EmptySystemDescription := SystemDescription([], [], EmptyInfrastructure)

  const EmptyGuidelines := AgentGuidelines([], [], [])

  const EmptyComponentIndex := ComponentIndex([], None, None)

  /** The selection a selector starts from. */
  const NoSelection := SelectedContext([], false, false, [], [])

  /* ---------------------------------------------------------------- field validation */

  /** A required `str` field. */
  function ReqStr(fields: seq<(string, Json)>, key: string): (r: Result<string>)
    ensures r.Ok? <==> Lookup(fields, key).Some? && Lookup(fields, key).value.JStr?
    ensures r.Ok? ==> r.value == Lookup(fields, key).value.s
  {
    match Lookup(fields, key)
    case Some(JStr(s)) => Ok(s)
    case Some(_) => Err(Invalid(key + ": input should be a valid string"))
    case None => Err(Invalid(key + ": field required"))
  }

  /** A `str` field with a default. */
  function DefStr(fields: seq<(string, Json)>, key: string, default: string): (r: Result<string>)
    ensures Lookup(fields, key).None? ==> r == Ok(default)
    ensures r.Ok? <==> Lookup(fields, key).None? || Lookup(fields, key).value.JStr?
  {
    if Lookup(fields, key).None? then Ok(default) else ReqStr(fields, key)
  }

  /** An `Optional[str]` field defaulting to `None`. */
  function OptStr(fields: seq<(string, Json)>, key: string): (r: Result<Option<string>>)
    ensures Lookup(fields, key).None? ==> r == Ok(None)
    ensures r.Ok? <==> Lookup(fields, key).None? || Lookup(fields, key).value.JStr?
                       || Lookup(fields, key).value.JNull?
  {
    match Lookup(fields, key)
    case None => Ok(None)
    case Some(JNull) => Ok(None)
    case Some(JStr(s)) => Ok(Some(s))
    case Some(_) => Err(Invalid(key + ": input should be a valid string"))
  }

  predicate AllStr(items: seq<Json>) { forall i :: 0 <= i < |items| ==> items[i].JStr? }

  /** A `List[str]` field defaulting to the empty list. */
  function StrListField(fields: seq<(string, Json)>, key: string): (r: Result<seq<string>>)
    ensures Lookup(fields, key).None? ==> r == Ok([])
    ensures r.Ok? <==> Lookup(fields, key).None?
                       || (Lookup(fields, key).value.JArr? && AllStr(Lookup(fields, key).value.items))
    ensures r.Ok? && Lookup(fields, key).Some? ==> StrList(r.value) == Lookup(fields, key).value
  {
    match Lookup(fields, key)
    case None => Ok([])
    case Some(JArr(items)) =>
      if AllStr(items) then
        var xs := seq(|items|, i requires 0 <= i < |items| => items[i].s);
        assert StrList(xs).items == items;
        Ok(xs)
      else Err(Invalid(key + ": input should be a list of strings"))
    case Some(_) => Err(Invalid(key + ": input should be a valid list"))
  }

  /** A `Dict[str, Any]` field defaulting to the empty dict. */
  function DictField(fields: seq<(string, Json)>, key: string): (r: Result<seq<(string, Json)>>)
    ensures Lookup(fields, key).None? ==> r == Ok([])
    ensures r.Ok? <==> Lookup(fields, key).None? || Lookup(fields, key).value.JObj?
  {
    match Lookup(fields, key)
    case None => Ok([])
    case Some(JObj(m)) => Ok(m)
    case Some(_) => Err(Invalid(key + ": input should be a valid dictionary"))
  }

  /** Pydantic accepts only a mapping as the source of a model. */
  function FieldsOf(v: Json): (r: Result<seq<(string, Json)>>)
    ensures r.Ok? <==> v.JObj?
  {
    if v.JObj? then Ok(v.fields) else Err(Invalid("input should be a valid dictionary"))
  }

  /** Validate every element of a list field, stopping at the first failure. */
  function ValidateEach<T>(items: seq<Json>, validate: Json -> Result<T>): (r: Result<seq<T>>)
    ensures r.Ok? <==> forall i :: 0 <= i < |items| ==> validate(items[i]).Ok?
    ensures r.Ok? ==> |r.value| == |items|
    ensures r.Ok? ==> forall i :: 0 <= i < |items| ==> r.value[i] == validate(items[i]).value
  {
    if |items| == 0 then Ok([])
    else match validate(items[0])
      case Err(e) => Err(e)
      case Ok(x) =>
        match ValidateEach(items[1..], validate)
        case Err(e) => Err(e)
        case Ok(xs) => Ok([x] + xs)
  }

  /** A `List[Model]` field defaulting to the empty list. */
  function ModelListField<T>(fields: seq<(string, Json)>, key: string, validate: Json -> Result<T>): (r: Result<seq<T>>)
    ensures Lookup(fields, key).None? ==> r == Ok([])
  {
    match Lookup(fields, key)
    case None => Ok([])
    case Some(JArr(items)) => ValidateEach(items, validate)
    case Some(_) => Err(Invalid(key + ": input should be a valid list"))
  }

  /* ---------------------------------------------------------------- models */

  /** What pydantic accepts for a required string, an optional string and a string list. */
  predicate StrAt(f: seq<(string, Json)>, key: string) {
    Lookup(f, key).Some? && Lookup(f, key).value.JStr?
  }

  predicate OptStrAt(f: seq<(string, Json)>, key: string) {
    Lookup(f, key).None? || Lookup(f, key).value.JStr? || Lookup(f, key).value.JNull?
  }

  predicate StrListAt(f: seq<(string, Json)>, key: string) {
    Lookup(f, key).None? || (Lookup(f, key).value.JArr? && AllStr(Lookup(f, key).value.items))
  }

  /** The string under `key`, or `d` when it is absent. */
  function StrOr(f: seq<(string, Json)>, key: string, d: string): string {
    match Lookup(f, key)
    case Some(JStr(s)) => s
    case _ => d
  }

  function ValidateBusinessGoals(v: Json): (r: Result<BusinessGoals>)
    ensures r.Ok? <==> v.JObj? && StrAt(v.fields, "purpose") && StrListAt(v.fields, "external_constraints")
    ensures r.Ok? ==> r.value.purpose == Lookup(v.fields, "purpose").value.s
    ensures r.Ok? && Lookup(v.fields, "external_constraints").None? ==> r.value.externalConstraints == []
  {
    var f :- FieldsOf(v);
    var purpose :- ReqStr(f, "purpose");
    var constraints :- StrListField(f, "external_constraints");
    Ok(BusinessGoals(purpose, constraints))
  }

  /** Builds both `SystemIOExample` and `FeatureExample`. */
  function ValidateIoExample(v: Json): (r: Result<IoExample>)
    ensures r.Ok? <==> v.JObj? && StrAt(v.fields, "input_description")
                       && StrAt(v.fields, "output_description") && OptStrAt(v.fields, "example")
    ensures r.Ok? ==> (r.value.inputDescription == Lookup(v.fields, "input_description").value.s
                       && r.value.outputDescription == Lookup(v.fields, "output_description").value.s)
    ensures r.Ok? && Lookup(v.fields, "example").None? ==> r.value.example.None?
  {
    var f :- FieldsOf(v);
    var input :- ReqStr(f, "input_description");
    var output :- ReqStr(f, "output_description");
    var example :- OptStr(f, "example");
    Ok(IoExample(input, output, example))
  }

  function ValidateSection(v: Json): (r: Result<InfrastructureSection>)
    ensures r.Ok? <==> v.JObj? && StrAt(v.fields, "title") && StrAt(v.fields, "content")
                       && StrAt(v.fields, "section_type") && StrListAt(v.fields, "keywords")
    ensures r.Ok? ==> r.value.sectionType == Lookup(v.fields, "section_type").value.s
    ensures r.Ok? && Lookup(v.fields, "keywords").None? ==> r.value.keywords == []
  {
    var f :- FieldsOf(v);
    var title :- ReqStr(f, "title");
    var content :- ReqStr(f, "content");
    var sectionType :- ReqStr(f, "section_type");
    var keywords :- StrListField(f, "keywords");
    Ok(InfrastructureSection(title, content, sectionType, keywords))
  }

  /** `InfrastructureDescription(**fields)` */
  function ValidateInfrastructure(v: Json): (r: Result<InfrastructureDescription>)
    ensures v == JObj([]) ==> r == Ok(EmptyInfrastructure)
  {
    var f :- FieldsOf(v);
    var deployment :- OptStr(f, "deployment");
    var databases :- StrListField(f, "databases");
    var services :- StrListField(f, "services");
    var configuration :- OptStr(f, "configuration");
    var sections :- ModelListField(f, "sections", ValidateSection);
    var markdown :- OptStr(f, "markdown_document");
    Ok(InfrastructureDescription(deployment, databases, services, configuration, sections, markdown))
  }

  /** `SystemDescription(**fields)`: a missing infrastructure is an empty description,
      never an absent one. */
  function ValidateSystemDescription(v: Json): (r: Result<SystemDescription>)
    ensures r.Ok? ==> v.JObj?
    ensures v.JObj? && Lookup(v.fields, "infrastructure").None? && r.Ok?
            ==> r.value.infrastructure == EmptyInfrastructure
    ensures v == JObj([]) ==> r == Ok(EmptySystemDescription)
  {
    var f :- FieldsOf(v);
    var io :- ModelListField(f, "io_examples", ValidateIoExample);
    var components :- ModelListField(f, "components", ValidateComponent);
    var infrastructure :- match Lookup(f, "infrastructure")
      case None => Ok(EmptyInfrastructure)
      case Some(x) => ValidateInfrastructure(x);
    Ok(SystemDescription(io, components, infrastructure))
  }

  function ValidateGuidelines(v: Json): (r: Result<AgentGuidelines>)
    ensures v == JObj([]) ==> r == Ok(EmptyGuidelines)
  {
    var f :- FieldsOf(v);
    var guardrails :- StrListField(f, "guardrails");
    var practices :- StrListField(f, "best_practices");
    var standards :- StrListField(f, "coding_standards");
    Ok(AgentGuidelines(guardrails, practices, standards))
  }

  /** `feature_type` is any text and defaults to "feature". */
  function ValidateFeaturePrompt(v: Json): (r: Result<FeaturePrompt>)
    ensures r.Ok? ==> v.JObj?
    ensures v.JObj? && StrAt(v.fields, "description") && Lookup(v.fields, "examples").None?
            ==> (r.Ok? <==> (Lookup(v.fields, "feature_type").None? || StrAt(v.fields, "feature_type")))
    ensures r.Ok? ==> StrAt(v.fields, "description")
    ensures r.Ok? ==> r.value.featureType == StrOr(v.fields, "feature_type", "feature")
    ensures r.Ok? && Lookup(v.fields, "examples").None? ==> r.value.examples == []
  {
    var f :- FieldsOf(v);
    var description :- ReqStr(f, "description");
    var featureType :- DefStr(f, "feature_type", "feature");
    var examples :- ModelListField(f, "examples", ValidateIoExample);
    Ok(FeaturePrompt(description, featureType, examples))
  }

  /** All five artifact fields are required. */
  function ValidateBusinessContextArtifact(v: Json): (r: Result<BusinessContextArtifact>)
    ensures r.Ok? <==> v.JObj? && StrAt(v.fields, "filename") && StrAt(v.fields, "file_type")
                       && StrAt(v.fields, "source_path") && StrAt(v.fields, "artifact_path")
                       && StrAt(v.fields, "indexed_at")
  {
    var f :- FieldsOf(v);
    var filename :- ReqStr(f, "filename");
    var fileType :- ReqStr(f, "file_type");
    var sourcePath :- ReqStr(f, "source_path");
    var artifactPath :- ReqStr(f, "artifact_path");
    var indexedAt :- ReqStr(f, "indexed_at");
    Ok(BusinessContextArtifact(filename, fileType, sourcePath, artifactPath, indexedAt))
  }

  function ValidateBusinessContext(v: Json): (r: Result<BusinessContext>)
    ensures r.Ok? ==> v.JObj?
    ensures r.Ok? ==> StrAt(v.fields, "indexed_at")
    ensures v.JObj? && Lookup(v.fields, "artifacts").None?
            ==> (r.Ok? <==> StrAt(v.fields, "indexed_at"))
    ensures r.Ok? && Lookup(v.fields, "artifacts").None? ==> r.value.artifacts == []
  {
    var f :- FieldsOf(v);
    var artifacts :- ModelListField(f, "artifacts", ValidateBusinessContextArtifact);
    var indexedAt :- ReqStr(f, "indexed_at");
    Ok(BusinessContext(artifacts, indexedAt))
  }

  /** `PromptArtifacts(**fields)`: the four parts are required, business context is
      optional and absent by default. */
  function ValidatePromptArtifacts(v: Json): (r: Result<PromptArtifacts>)
    ensures r.Ok? ==> v.JObj?
    ensures r.Ok? ==> (Lookup(v.fields, "business_goals").Some?
                       && Lookup(v.fields, "system_description").Some?
                       && Lookup(v.fields, "agent_guidelines").Some?
                       && Lookup(v.fields, "feature_prompt").Some?)
    ensures r.Ok? && Lookup(v.fields, "business_context").None? ==> r.value.businessContext.None?
  {
    var f :- FieldsOf(v);
    var goals :- Required(f, "business_goals", ValidateBusinessGoals);
    var sd :- Required(f, "system_description", ValidateSystemDescription);
    var guidelines :- Required(f, "agent_guidelines", ValidateGuidelines);
    var feature :- Required(f, "feature_prompt", ValidateFeaturePrompt);
    var bc :- OptionalModel(f, "business_context", ValidateBusinessContext);
    Ok(PromptArtifacts(goals, sd, guidelines, feature, bc))
  }

  /** An `Optional[Model]` field defaulting to `None`. */
  function OptionalModel<T>(f: seq<(string, Json)>, key: string, validate: Json -> Result<T>): (r: Result<Option<T>>)
    ensures Lookup(f, key).None? ==> r == Ok(None)
  {
    match Lookup(f, key)
    case None => Ok(None)
    case Some(x) =>
      if x.JNull? then Ok(None)
      else match validate(x)
        case Ok(c) => Ok(Some(c))
        case Err(e) => Err(e)
  }

  /** A required nested model. */
  function Required<T>(f: seq<(string, Json)>, key: string, validate: Json -> Result<T>): (r: Result<T>)
    ensures r.Ok? ==> Lookup(f, key).Some?
  {
    match Lookup(f, key)
    case None => Err(Invalid(key + ": field required"))
    case Some(x) => validate(x)
  }

  /** Name and description are required; the lists default to empty, metadata to an
      empty dict. */
  function ValidateComponent(v: Json): (r: Result<Component>)
    ensures r.Ok? ==> v.JObj?
    ensures r.Ok? ==> StrAt(v.fields, "name") && StrAt(v.fields, "description")
    ensures r.Ok? ==> (r.value.name == Lookup(v.fields, "name").value.s
                       && r.value.description == Lookup(v.fields, "description").value.s)
    ensures r.Ok? && Lookup(v.fields, "file_paths").None? ==> r.value.filePaths == []
    ensures r.Ok? && Lookup(v.fields, "dependencies").None? ==> r.value.dependencies == []
    ensures r.Ok? && Lookup(v.fields, "responsibilities").None? ==> r.value.responsibilities == []
    ensures r.Ok? && Lookup(v.fields, "metadata").None? ==> r.value.metadata == []
  {
    var f :- FieldsOf(v);
    var name :- ReqStr(f, "name");
    var description :- ReqStr(f, "description");
    var filePaths :- StrListField(f, "file_paths");
    var dependencies :- StrListField(f, "dependencies");
    var responsibilities :- StrListField(f, "responsibilities");
    var metadata :- DictField(f, "metadata");
    Ok(Component(name, description, filePaths, dependencies, responsibilities, metadata))
  }

  function ValidateComponentIndex(v: Json): (r: Result<ComponentIndex>)
    ensures r.Ok? ==> v.JObj?
    ensures v == JObj([]) ==> r == Ok(EmptyComponentIndex)
    ensures r.Ok? && Lookup(v.fields, "indexed_at").None? ==> r.value.indexedAt.None?
    ensures r.Ok? && Lookup(v.fields, "project_root").None? ==> r.value.projectRoot.None?
  {
    var f :- FieldsOf(v);
    var components :- ModelListField(f, "components", ValidateComponent);
    var indexedAt :- OptStr(f, "indexed_at");
    var projectRoot :- OptStr(f, "project_root");
    Ok(ComponentIndex(components, indexedAt, projectRoot))
  }

  /* ---------------------------------------------------------------- properties */

  /** A purpose alone makes business goals with no constraints. */
  lemma GoalsFromPurpose(purpose: string)
    ensures ValidateBusinessGoals(JObj([("purpose", JStr(purpose))])) == Ok(BusinessGoals(purpose, []))
  {
  }

  /** A component may depend on names that no component has: the dependency list is
      taken as it is. */
  lemma DanglingDependenciesAccepted(name: string, description: string, deps: seq<string>)
    ensures ValidateComponent(JObj([("name", JStr(name)), ("description", JStr(description)),
                                    ("dependencies", StrList(deps))]))
         == Ok(Component(name, description, [], deps, [], []))
  {
    var v := JObj([("name", JStr(name)), ("description", JStr(description)), ("dependencies", StrList(deps))]);
    assert Lookup(v.fields, "dependencies") == Some(StrList(deps));
    assert v.fields[..2] == [("name", JStr(name)), ("description", JStr(description))];
    assert v.fields[..2][..1] == [("name", JStr(name))];
    assert Lookup(v.fields[..2][..1], "name") == Some(JStr(name));
    assert Lookup(v.fields[..2], "name") == Some(JStr(name));
    assert Lookup(v.fields, "name") == Some(JStr(name));
    assert Lookup(v.fields, "description") == Some(JStr(description));
    assert Lookup(v.fields, "file_paths").None?;
    assert Lookup(v.fields, "responsibilities").None?;
    assert Lookup(v.fields, "metadata").None?;
    var r := StrListField(v.fields, "dependencies");
    assert r.Ok?;
    assert StrList(r.value) == StrList(deps);
    assert |r.value| == |deps| && forall i :: 0 <= i < |deps| ==> r.value[i] == deps[i] by {
      forall i | 0 <= i < |deps| ensures r.value[i] == deps[i] {
        assert StrList(r.value).items[i] == StrList(deps).items[i];
      }
    }
    assert r.value == deps;
  }
}
