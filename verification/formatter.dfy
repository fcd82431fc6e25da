/** The model-specific prompt formatters: `GPT4Formatter.format` renders the prompt
    artifacts, narrowed by an optional selection, as one markdown document with a
    fixed section order; `ClaudeFormatter.format` delegates to it. Reading a business
    context artifact file is the one impure step and is an oracle `read`. */
module Formatter {
  import opened Base
  import opened Text
  import opened Collections
  import opened Artifacts

  const Header := "# Software Development Task\n"
  const Closing := "Please implement this feature following the guidelines and using the system context provided above.\n"
  const Rule := "---\n"
  const ArtifactSeparator := "\n\n---\n\n"
  /** At most this many file paths are listed per component. */
  const MaxFilePaths := 5

  /** Python truthiness of an optional text field. */
  predicate Filled(s: Option<string>) { s.Some? && |s.value| > 0 }

  /** The concatenation of one rendered piece per item. */
  function Each<T>(xs: seq<T>, f: T -> string): string
  {
    Flatten(MapSeq(xs, f))
  }

  function Bullet(s: string): string { "- " + s + "\n" }

  /* ---------------------------------------------------------------- blocks */

  function GoalsBlock(g: BusinessGoals): string
  {
    "## Business Context\n" + "**Purpose:** " + g.purpose + "\n"
    + (if |g.externalConstraints| > 0 then "\n**External Constraints:**\n" + Each(g.externalConstraints, Bullet) else "")
    + "\n"
  }

  /** One business context document: its file's text, nothing when the file does not
      exist, and its metadata when reading it raises. */
  function ArtifactEntry(a: BusinessContextArtifact, read: string -> FileRead): (r: string)
    ensures read(a.artifactPath).FileText? ==> r == read(a.artifactPath).text + ArtifactSeparator
    ensures read(a.artifactPath).FileMissing? <==> r == ""
    ensures read(a.artifactPath).FileFailed? ==> StartsWith(r, "### " + a.filename + "\n")
  {
    match read(a.artifactPath)
    case FileText(t) => t + ArtifactSeparator
    case FileMissing => ""
    case FileFailed(_) =>
      var r := "### " + a.filename + "\n" + "*Source: " + a.sourcePath + "*\n" + "*Type: " + Upper(a.fileType) + "*\n\n";
      assert r[..|"### " + a.filename + "\n"|] == "### " + a.filename + "\n";
      r
  }

  /** The documents rendered: a non-empty selected list, else those of the artifacts. */
  function ShownArtifacts(a: PromptArtifacts, sel: Option<SelectedContext>): seq<BusinessContextArtifact>
  {
    if sel.Some? && |sel.value.businessContextArtifacts| > 0 then sel.value.businessContextArtifacts
    else if a.businessContext.Some? then a.businessContext.value.artifacts
    else []
  }

  function BusinessContextBlock(arts: seq<BusinessContextArtifact>, read: string -> FileRead): string
  {
    if |arts| == 0 then ""
    else
      "## Business Context Documentation\n"
      + "The following business context documents provide additional domain knowledge:\n\n"
      + Each(arts, (x: BusinessContextArtifact) => ArtifactEntry(x, read))
      + "\n"
  }

  function IoEntry(e: IoExample): string
  {
    "**Input:** " + e.inputDescription + "\n" + "**Output:** " + e.outputDescription + "\n"
    + (if Filled(e.example) then "**Example:**\n```\n" + e.example.value + "\n```\n" else "")
  }

  function ComponentEntry(c: Component): string
  {
    "#### " + c.name + "\n" + c.description + "\n"
    + (if |c.responsibilities| > 0 then "**Responsibilities:**\n" + Each(c.responsibilities, Bullet) else "")
    + (if |c.dependencies| > 0 then "**Dependencies:** " + Join(c.dependencies, ", ") + "\n" else "")
    + (if |c.filePaths| > 0 then "**Files:** " + Join(PyPrefix(c.filePaths, MaxFilePaths), ", ") + "\n" else "")
    + "\n"
  }

  /** The components rendered: a non-empty selected list, else every system component. */
  function ShownComponents(sd: SystemDescription, sel: Option<SelectedContext>): seq<Component>
  {
    if sel.Some? && |sel.value.components| > 0 then sel.value.components else sd.components
  }

  function ComponentsBlock(cs: seq<Component>): string
  {
    if |cs| == 0 then "" else "### Components\n" + Each(cs, ComponentEntry)
  }

  function SectionEntry(s: InfrastructureSection): string
  {
    "#### " + s.title + "\n" + s.content + "\n\n"
  }

  /** The deployment, databases, services and configuration lines followed by every
      section: what is shown when no section was selected. */
  function LegacyInfrastructure(infra: InfrastructureDescription): string
  {
    (if Filled(infra.deployment) then "**Deployment:** " + infra.deployment.value + "\n" else "")
    + (if |infra.databases| > 0 then "**Databases:** " + Join(infra.databases, ", ") + "\n" else "")
    + (if |infra.services| > 0 then "**Services:** " + Join(infra.services, ", ") + "\n" else "")
    + (if Filled(infra.configuration) then "**Configuration:** " + infra.configuration.value + "\n" else "")
    + Each(infra.sections, SectionEntry)
  }

  /** Without a selection the infrastructure is shown; a selection decides by its flag. */
  predicate IncludesInfrastructure(sel: Option<SelectedContext>) {
    sel.None? || sel.value.includeInfrastructure
  }

  function SelectedSections(sel: Option<SelectedContext>): seq<InfrastructureSection>
  {
    if sel.None? then [] else sel.value.infrastructureSections
  }

  function InfrastructureBlock(infra: InfrastructureDescription, sel: Option<SelectedContext>): (r: string)
    ensures r == "" <==> !IncludesInfrastructure(sel)
    ensures r != "" ==> StartsWith(r, "### Infrastructure\n")
  {
    if !IncludesInfrastructure(sel) then ""
    else
      var chosen := SelectedSections(sel);
      var body := if |chosen| > 0 then Each(chosen, SectionEntry) else LegacyInfrastructure(infra);
      var r := "### Infrastructure\n" + body + "\n";
      assert r[..|"### Infrastructure\n"|] == "### Infrastructure\n";
      r
  }

  function SystemBlock(sd: SystemDescription, sel: Option<SelectedContext>): string
  {
    "## System Description\n"
    + (if |sd.ioExamples| > 0 then "### System Input/Output Examples\n" + Each(sd.ioExamples, IoEntry) + "\n" else "")
    + ComponentsBlock(ShownComponents(sd, sel))
    + InfrastructureBlock(sd.infrastructure, sel)
  }

  function GuidelineList(heading: string, items: seq<string>): string
  {
    if |items| == 0 then "" else heading + Each(items, Bullet) + "\n"
  }

  function GuidelinesBlock(g: AgentGuidelines): string
  {
    "## Development Guidelines\n"
    + GuidelineList("### Guardrails\n", g.guardrails)
    + GuidelineList("### Best Practices\n", g.bestPractices)
    + GuidelineList("### Coding Standards\n", g.codingStandards)
  }

  /** The task statement that opens the last block. */
  function TaskLines(f: FeaturePrompt): string
  {
    "## Task\n" + "**Type:** " + f.featureType + "\n" + "**Description:** " + f.description + "\n\n"
  }

  function TaskBlock(f: FeaturePrompt): string
  {
    TaskLines(f)
    + (if |f.examples| > 0 then "### Feature Examples\n" + Each(f.examples, IoEntry) + "\n" else "")
    + Rule + Closing
  }

  /** The rendered document before its task block. */
  function Context(a: PromptArtifacts, sel: Option<SelectedContext>, read: string -> FileRead): string
  {
    GoalsBlock(a.businessGoals)
    + BusinessContextBlock(ShownArtifacts(a, sel), read)
    + SystemBlock(a.systemDescription, sel)
    + GuidelinesBlock(a.agentGuidelines)
  }

  /** `GPT4Formatter.format(artifacts, selected_context)`. The goals, system description
      and guidelines are records and so always present; each block is emitted. */
  function Format(a: PromptArtifacts, sel: Option<SelectedContext>, read: string -> FileRead): (r: string)
    ensures StartsWith(r, Header)
    ensures EndsWith(r, Rule + Closing)
  {
    var m := Context(a, sel, read);
    var t := TaskBlock(a.featurePrompt);
    TaskBlockEnds(a.featurePrompt);
    FramedBy(Header, m, t, Rule + Closing);
    Header + m + t
  }

  lemma TaskBlockEnds(f: FeaturePrompt)
    ensures EndsWith(TaskBlock(f), Rule + Closing)
  {
    var x := TaskLines(f) + (if |f.examples| > 0 then "### Feature Examples\n" + Each(f.examples, IoEntry) + "\n" else "");
    assert TaskBlock(f) == x + (Rule + Closing);
    assert (x + (Rule + Closing))[|x|..] == Rule + Closing;
  }

  lemma FramedBy(h: string, m: string, t: string, e: string)
    requires EndsWith(t, e)
    ensures StartsWith(h + m + t, h) && EndsWith(h + m + t, e)
  {
    assert (h + m + t)[..|h|] == h;
    assert (h + m + t)[|h + m + t| - |e|..] == t[|t| - |e|..];
  }

  /* ---------------------------------------------------------------- formatter table */

  datatype Formatter = Gpt4Formatter | ClaudeFormatter

  /** `formatter.format(...)`: every formatter renders exactly what GPT-4's does. */
  function Render(f: Formatter, a: PromptArtifacts, sel: Option<SelectedContext>, read: string -> FileRead): (r: string)
    ensures r == Format(a, sel, read)
  {
    match f
    case Gpt4Formatter => Format(a, sel, read)
    case ClaudeFormatter => Format(a, sel, read)
  }

  /* ---------------------------------------------------------------- properties */

  lemma EachContains<T>(xs: seq<T>, f: T -> string, i: int, t: string)
    requires 0 <= i < |xs|
    requires Contains(f(xs[i]), t)
    ensures Contains(Each(xs, f), t)
  {
    FlattenContains(MapSeq(xs, f), i, t);
  }

  /** The document is its header, the context blocks and the task block. */
  lemma FormatParts(a: PromptArtifacts, sel: Option<SelectedContext>, read: string -> FileRead)
    ensures Format(a, sel, read) == Header + Context(a, sel, read) + TaskBlock(a.featurePrompt)
  {
  }

  lemma TaskLinesShow(f: FeaturePrompt)
    ensures Contains(TaskLines(f), "**Type:** " + f.featureType)
    ensures Contains(TaskLines(f), "**Description:** " + f.description)
  {
    var ty := "**Type:** " + f.featureType;
    var de := "**Description:** " + f.description;
    assert TaskLines(f) == "## Task\n" + ty + ("\n" + de + "\n\n");
    assert TaskLines(f) == ("## Task\n" + ty + "\n") + de + "\n\n";
    ContainsSelf(ty);
    ContainsInMiddle("## Task\n", ty, "\n" + de + "\n\n", ty);
    ContainsSelf(de);
    ContainsInMiddle("## Task\n" + ty + "\n", de, "\n\n", de);
  }

  lemma TaskBlockShows(pre: string, f: FeaturePrompt)
    ensures Contains(pre + TaskBlock(f), TaskLines(f))
    ensures Contains(pre + TaskBlock(f), "**Type:** " + f.featureType)
    ensures Contains(pre + TaskBlock(f), "**Description:** " + f.description)
  {
    var tl := TaskLines(f);
    var rest := TaskBlock(f)[|tl|..];
    assert TaskBlock(f) == tl + rest;
    assert pre + TaskBlock(f) == pre + tl + rest;
    ContainsSelf(tl);
    ContainsInMiddle(pre, tl, rest, tl);
    TaskLinesShow(f);
    ContainsTransitive(pre + TaskBlock(f), tl, "**Type:** " + f.featureType);
    ContainsTransitive(pre + TaskBlock(f), tl, "**Description:** " + f.description);
  }

  /** The task statement always appears, with the feature's type and description. */
  lemma TaskAlwaysShown(a: PromptArtifacts, sel: Option<SelectedContext>, read: string -> FileRead)
    ensures Contains(Format(a, sel, read), TaskLines(a.featurePrompt))
    ensures Contains(Format(a, sel, read), "**Type:** " + a.featurePrompt.featureType)
    ensures Contains(Format(a, sel, read), "**Description:** " + a.featurePrompt.description)
  {
    FormatParts(a, sel, read);
    TaskBlockShows(Header + Context(a, sel, read), a.featurePrompt);
  }


  /** The system block renders every system component when the selection names none:
      an empty selection does not suppress them. */
  lemma EmptySelectionShowsAllComponents(sd: SystemDescription, sel: Option<SelectedContext>, i: int)
    requires sel.None? || |sel.value.components| == 0
    requires 0 <= i < |sd.components|
    ensures Contains(SystemBlock(sd, sel), "#### " + sd.components[i].name + "\n")
  {
    var c := sd.components[i];
    var h := "#### " + c.name + "\n";
    var e := ComponentEntry(c);
    assert e == h + e[|h|..];
    ContainsSelf(h);
    ContainsPrefixPart(h, e[|h|..], h);
    EachContains(sd.components, ComponentEntry, i, h);
    var cs := ShownComponents(sd, sel);
    assert cs == sd.components;
    ContainsSuffixPart("### Components\n", Each(cs, ComponentEntry), h);
    var io := if |sd.ioExamples| > 0 then "### System Input/Output Examples\n" + Each(sd.ioExamples, IoEntry) + "\n" else "";
    ContainsInMiddle("## System Description\n" + io, ComponentsBlock(cs), InfrastructureBlock(sd.infrastructure, sel), h);
  }

  /** A non-empty selection replaces the system's components. */
  lemma SelectedComponentsShown(sd: SystemDescription, s: SelectedContext)
    requires |s.components| > 0
    ensures ShownComponents(sd, Some(s)) == s.components
    ensures SystemBlock(sd, Some(s)) == SystemBlock(sd.(components := s.components), Some(s))
  {
  }

  /** Only the first five file paths of a component matter. */
  lemma FirstFiveFilePaths(c: Component)
    requires |c.filePaths| > MaxFilePaths
    ensures ComponentEntry(c) == ComponentEntry(c.(filePaths := c.filePaths[..MaxFilePaths]))
  {
    assert PyPrefix(c.filePaths[..MaxFilePaths], MaxFilePaths) == c.filePaths[..MaxFilePaths];
  }

  /** With selected sections, the infrastructure record itself is not consulted. */
  lemma SelectedSectionsReplaceLegacy(i1: InfrastructureDescription, i2: InfrastructureDescription, s: SelectedContext)
    requires |s.infrastructureSections| > 0
    ensures InfrastructureBlock(i1, Some(s)) == InfrastructureBlock(i2, Some(s))
  {
  }

  /** The selection's io-examples flag never changes the document. */
  lemma IoExamplesIgnoreFlag(a: PromptArtifacts, s: SelectedContext, read: string -> FileRead, flag: bool)
    ensures Format(a, Some(s), read) == Format(a, Some(s.(includeAllIoExamples := flag)), read)
  {
    var s2 := s.(includeAllIoExamples := flag);
    assert ShownArtifacts(a, Some(s)) == ShownArtifacts(a, Some(s2));
    assert ShownComponents(a.systemDescription, Some(s)) == ShownComponents(a.systemDescription, Some(s2));
    assert InfrastructureBlock(a.systemDescription.infrastructure, Some(s))
        == InfrastructureBlock(a.systemDescription.infrastructure, Some(s2));
    assert Context(a, Some(s), read) == Context(a, Some(s2), read);
    FormatParts(a, Some(s), read);
    FormatParts(a, Some(s2), read);
  }

  /** A document whose file reads is rendered in full. */
  lemma ReadableArtifactShown(arts: seq<BusinessContextArtifact>, read: string -> FileRead, i: int)
    requires 0 <= i < |arts|
    requires read(arts[i].artifactPath).FileText?
    ensures Contains(BusinessContextBlock(arts, read), read(arts[i].artifactPath).text)
  {
    var t := read(arts[i].artifactPath).text;
    var f := (x: BusinessContextArtifact) => ArtifactEntry(x, read);
    ContainsSelf(t);
    ContainsPrefixPart(t, ArtifactSeparator, t);
    assert f(arts[i]) == t + ArtifactSeparator;
    EachContains(arts, f, i, t);
    ContainsInMiddle("## Business Context Documentation\n"
      + "The following business context documents provide additional domain knowledge:\n\n", Each(arts, f), "\n", t);
  }

  lemma {:induction false} EachEmpty<T>(xs: seq<T>, f: T -> string)
    requires forall i :: 0 <= i < |xs| ==> f(xs[i]) == ""
    ensures Each(xs, f) == ""
    decreases |xs|
  {
    if |xs| > 0 {
      var ss := MapSeq(xs, f);
      assert MapSeq(xs[1..], f) == ss[1..];
      EachEmpty(xs[1..], f);
    }
  }

  /** Documents whose files do not exist contribute nothing but the block's frame. */
  lemma MissingArtifactsRenderNothing(arts: seq<BusinessContextArtifact>, read: string -> FileRead)
    requires |arts| > 0
    requires forall i :: 0 <= i < |arts| ==> read(arts[i].artifactPath).FileMissing?
    ensures BusinessContextBlock(arts, read) ==
      "## Business Context Documentation\n"
      + "The following business context documents provide additional domain knowledge:\n\n" + "\n"
  {
    EachEmpty(arts, (x: BusinessContextArtifact) => ArtifactEntry(x, read));
  }
}
