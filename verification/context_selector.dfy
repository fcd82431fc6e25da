/** The keyword-only context selector: picks components, infrastructure sections and
    the two inclusion flags for a feature description. */
module ContextSelector {
  import opened Text
  import opened Collections
  import opened Keywords
  import opened Base
  import opened Artifacts

  /** Trigger words for the five known section types, looked up by the lowercased type;
      any other type has none. */
  function SectionTriggers(sectionType: string): seq<string>
  {
    var t := Lower(sectionType);
    if t == "cicd" then ["ci", "cd", "pipeline", "deploy", "build", "test", "gitlab", "runner"]
    else if t == "deployment" then ["deploy", "container", "docker", "ecs", "fargate", "task"]
    else if t == "storage" then ["storage", "s3", "database", "rds", "dynamodb", "data", "persist"]
    else if t == "networking" then ["network", "vpc", "subnet", "security", "load", "balancer", "alb"]
    else if t == "compute" then ["compute", "instance", "ec2", "lambda", "server", "resource"]
    else []
  }

  /** `_matches_section_type`: a raw substring test of each trigger against the
      (already lowercased) description. */
  predicate MatchesSectionType(description: string, sectionType: string) {
    AnyIn(description, SectionTriggers(sectionType))
  }

  const InfraVocabulary := [
    "deploy", "infrastructure", "docker", "kubernetes", "aws", "gcp",
    "azure", "database", "db", "service", "api", "endpoint", "server",
    "config", "environment", "production", "staging"
  ]

  /** The vocabulary without the words of three letters or fewer. */
  const LongInfraVocabulary := [
    "deploy", "infrastructure", "docker", "kubernetes",
    "azure", "database", "service", "endpoint", "server",
    "config", "environment", "production", "staging"
  ]

  /** `_is_infrastructure_relevant`, which goes through `matches_keywords`. */
  predicate IsInfraRelevant(description: string) {
    MatchesKeywords(description, InfraVocabulary, false)
  }

  function DescriptionKeywords(description: string): seq<string>
  {
    ExtractKeywords(description, DefaultMinLength, DefaultMaxKeywords)
  }

  /* ---------------------------------------------------------------- components */

  function DepCount(c: Component): nat { |c.dependencies| }

  predicate ComponentMatches(keywords: seq<string>, c: Component) {
    MatchesKeywords(c.name + " " + c.description, keywords, false)
    || MatchesKeywords(Join(c.responsibilities, " "), keywords, false)
  }

  /** `sorted(components, key=lambda c: len(c.dependencies))[:3]`: three components (or
      all, if fewer) with the fewest dependencies, ascending; among components with the
      same count, the earliest in the index are taken, in index order. */
  function FewestDependencies(components: seq<Component>): (r: seq<Component>)
    ensures |r| == if |components| < 3 then |components| else 3
    ensures multiset(r) <= multiset(components)
    ensures forall i, c :: 0 <= i < |r| && c in multiset(components) - multiset(r)
                           ==> DepCount(r[i]) <= DepCount(c)
    ensures SortedBy(r, DepCount)
    ensures forall n :: Filter(r, HasKey(DepCount, n)) <= Filter(components, HasKey(DepCount, n))
  {
    TakeSmallest(components, DepCount, 3);
    TakeEarliest(components, DepCount, 3);
    PyPrefix(SortByKey(components, DepCount), 3)
  }

  /** When every component has the same number of dependencies, the fallback is the
      first three components of the index. */
  lemma EqualCountsKeepFirstThree(components: seq<Component>)
    requires |components| >= 3
    requires forall i :: 0 <= i < |components| ==> DepCount(components[i]) == DepCount(components[0])
    ensures FewestDependencies(components) == components[..3]
  {
    var r := FewestDependencies(components);
    var p := HasKey(DepCount, DepCount(components[0]));
    FilterAll(components, p);
    SameCountTaken(components, r);
    FilterAll(r, p);
    PrefixIsSlice(r, components, 3);
  }

  /** Components drawn from an index whose counts are all equal have that count too. */
  lemma SameCountTaken(components: seq<Component>, r: seq<Component>)
    requires |components| > 0
    requires forall i :: 0 <= i < |components| ==> DepCount(components[i]) == DepCount(components[0])
    requires multiset(r) <= multiset(components)
    ensures forall i :: 0 <= i < |r| ==> DepCount(r[i]) == DepCount(components[0])
  {
    forall i | 0 <= i < |r| ensures DepCount(r[i]) == DepCount(components[0]) {
      assert r[i] in multiset(r);
      assert r[i] in components;
    }
  }

  /** The components a keyword list selects, a subsequence of the index in which a
      component occurs exactly when it matches. */
  function MatchedBy<T>(items: seq<T>, p: T -> bool): (r: seq<T>)
    ensures IsSubsequence(r, items)
    ensures forall i :: 0 <= i < |items| ==> (items[i] in r <==> p(items[i]))
    ensures |r| == 0 <==> forall i :: 0 <= i < |items| ==> !p(items[i])
  {
    FilterIsSubsequence(items, p);
    Filter(items, p)
  }

  /** `_select_relevant_components`: the matching components in index order, or, when
      none matches, the fallback; never empty for a non-empty index. */
  function SelectComponents(description: string, components: seq<Component>): (r: seq<Component>)
    ensures |components| > 0 ==> |r| > 0
    ensures var kws := DescriptionKeywords(description);
      (exists i :: 0 <= i < |components| && ComponentMatches(kws, components[i]))
      ==> (IsSubsequence(r, components)
           && forall i :: 0 <= i < |components| ==> (components[i] in r <==> ComponentMatches(kws, components[i])))
    ensures var kws := DescriptionKeywords(description);
      (forall i :: 0 <= i < |components| ==> !ComponentMatches(kws, components[i]))
      ==> r == FewestDependencies(components)
  {
    var kws := DescriptionKeywords(description);
    var matched := MatchedBy(components, (c: Component) => ComponentMatches(kws, c));
    if |matched| > 0 then matched else FewestDependencies(components)
  }

  /* ---------------------------------------------------------------- sections */

  predicate SectionMatches(description: string, keywords: seq<string>, s: InfrastructureSection) {
    MatchesKeywords(s.title + " " + Join(s.keywords, " ") + " " + s.sectionType, keywords, false)
    || MatchesSectionType(Lower(description), s.sectionType)
  }

  /** `_select_relevant_infrastructure_sections` */
  function SelectSections(description: string, sections: seq<InfrastructureSection>): (r: seq<InfrastructureSection>)
    ensures IsSubsequence(r, sections)
    ensures forall i :: 0 <= i < |sections| ==>
      (sections[i] in r <==> SectionMatches(description, DescriptionKeywords(description), sections[i]))
  {
    var kws := DescriptionKeywords(description);
    MatchedBy(sections, (s: InfrastructureSection) => SectionMatches(description, kws, s))
  }

  /* ---------------------------------------------------------------- selection */

  /** `select_relevant_context(description, resources)` */
  function SelectRelevantContext(description: string, resources: Resources): (r: SelectedContext)
    ensures r.businessContextArtifacts == []
    ensures |r.components| == 0 <==>
      resources.componentIndex.None? || |resources.componentIndex.value.components| == 0
    ensures resources.componentIndex.Some? ==>
      r.components == (if |resources.componentIndex.value.components| == 0 then []
                       else SelectComponents(description, resources.componentIndex.value.components))
    ensures r.infrastructureSections ==
      (if resources.systemDescription.None? then []
       else SelectSections(description, resources.systemDescription.value.infrastructure.sections))
    ensures r.includeInfrastructure <==> |r.infrastructureSections| > 0 || IsInfraRelevant(description)
    ensures r.includeAllIoExamples <==>
      resources.systemDescription.Some? && |resources.systemDescription.value.ioExamples| > 0
  {
    var components :=
      match resources.componentIndex
      case Some(ix) => if |ix.components| > 0 then SelectComponents(description, ix.components) else []
      case None => [];
    var sections :=
      match resources.systemDescription
      case Some(sd) =>
        if |sd.infrastructure.sections| > 0 then SelectSections(description, sd.infrastructure.sections) else []
      case None => [];
    var infra := |sections| > 0 || IsInfraRelevant(description);
    var io := resources.systemDescription.Some? && |resources.systemDescription.value.ioExamples| > 0;
    NoSelection.(components := components, includeInfrastructure := infra,
                 includeAllIoExamples := io, infrastructureSections := sections)
  }

  /* ---------------------------------------------------------------- properties */

  /** "aws", "gcp", "db" and "api" are in the vocabulary but can never fire: the
      outcome is the same as with the long words alone. */
  lemma ShortInfraWordsNeverFire(description: string)
    ensures IsInfraRelevant(description) == MatchesKeywords(description, LongInfraVocabulary, false)
  {
    var t := Lower(description);
    forall i | 0 <= i < |InfraVocabulary| && |InfraVocabulary[i]| > 3
      ensures InfraVocabulary[i] in LongInfraVocabulary
    {
    }
    forall j | 0 <= j < |LongInfraVocabulary|
      ensures LongInfraVocabulary[j] in InfraVocabulary && |LongInfraVocabulary[j]| > 3
    {
    }
    if IsInfraRelevant(description) {
      var i :| 0 <= i < |InfraVocabulary| && |InfraVocabulary[i]| > 3
               && Contains(t, Lower(InfraVocabulary[i]));
      var j :| 0 <= j < |LongInfraVocabulary| && LongInfraVocabulary[j] == InfraVocabulary[i];
    }
    if MatchesKeywords(description, LongInfraVocabulary, false) {
      var j :| 0 <= j < |LongInfraVocabulary| && |LongInfraVocabulary[j]| > 3
               && Contains(t, Lower(LongInfraVocabulary[j]));
      var i :| 0 <= i < |InfraVocabulary| && InfraVocabulary[i] == LongInfraVocabulary[j];
    }
  }

  /** A string longer than the text cannot occur in it. */
  lemma TooLongNeverOccurs(s: string, t: string)
    requires |t| > |s|
    ensures !Contains(s, t)
  {
  }

  lemma LongWordsAreLong(i: int)
    requires 0 <= i < |LongInfraVocabulary|
    ensures |LongInfraVocabulary[i]| > 3
  {
  }

  /** A description saying only "aws" is not infrastructure-relevant. */
  lemma AwsAloneIsNotInfra()
    ensures !IsInfraRelevant("aws")
  {
    ShortInfraWordsNeverFire("aws");
    var t := Lower("aws");
    assert |t| == 3;
    forall i | 0 <= i < |LongInfraVocabulary|
      ensures !Contains(t, Lower(LongInfraVocabulary[i]))
    {
      var w := LongInfraVocabulary[i];
      assert |w| > 3 by { LongWordsAreLong(i); }
      TooLongNeverOccurs(t, Lower(w));
    }
  }

  /** Triggers are raw substrings: any description containing "ci" or "cd" anywhere,
      even inside another word, selects every section of type "cicd". */
  lemma CiInsideAnyWordSelectsCicd(description: string, keywords: seq<string>, s: InfrastructureSection)
    requires Lower(s.sectionType) == "cicd"
    requires Contains(Lower(description), "ci") || Contains(Lower(description), "cd")
    ensures SectionMatches(description, keywords, s)
  {
    assert SectionTriggers(s.sectionType)[0] == "ci";
    assert SectionTriggers(s.sectionType)[1] == "cd";
  }

  /** A section whose type is outside the table is selected only through keywords. */
  lemma UnknownTypeHasNoTriggers(description: string, keywords: seq<string>, s: InfrastructureSection)
    requires Lower(s.sectionType) !in {"cicd", "deployment", "storage", "networking", "compute"}
    ensures SectionMatches(description, keywords, s)
         <==> MatchesKeywords(s.title + " " + Join(s.keywords, " ") + " " + s.sectionType, keywords, false)
  {
  }
}
