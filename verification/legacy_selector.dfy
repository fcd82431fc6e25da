/** The older keyword selector that the prompt builder uses. It differs from the
    `ContextSelector` module in its keywords (a set, so deduplicated in set order and
    limited to words longer than three letters), in matching keywords as raw
    substrings, in matching section keywords by exact membership, and in honouring
    every infrastructure word. The trigger table and vocabulary are identical. */
module LegacySelector {
  import opened Text
  import opened Collections
  import opened Keywords
  import opened Base
  import opened Artifacts
  import CS = ContextSelector

  /* ---------------------------------------------------------------- keywords */

  predicate IsLegacyCandidate(w: string) { w !in StopWords && |w| > 3 }

  /** The lowercased tokens kept by the legacy filter, in text order. */
  function LegacyCandidates(text: string): (r: seq<string>)
    ensures forall i :: 0 <= i < |r| ==> r[i] in Tokens(Lower(text)) && IsLegacyCandidate(r[i])
  {
    Filter(Tokens(Lower(text)), IsLegacyCandidate)
  }

  /** `_extract_keywords(text)`: at most ten distinct candidate words. */
  function LegacyKeywords(text: string, order: seq<string>): (r: seq<string>)
    ensures Distinct(r)
    ensures forall i :: 0 <= i < |r| ==> r[i] in Tokens(Lower(text)) && IsLegacyCandidate(r[i])
    ensures |r| == Min(10, |set w | w in LegacyCandidates(text)|)
    ensures |set w | w in LegacyCandidates(text)| <= 10 ==> forall w :: w in LegacyCandidates(text) ==> w in r
  {
    var c := LegacyCandidates(text);
    var l := SetToList(c, order);
    SameElementsSameSize(l, c);
    var r := PyPrefix(l, 10);
    assert forall i :: 0 <= i < |r| ==> r[i] == l[i];
    r
  }

  function Min(a: int, b: int): int { if a <= b then a else b }

  /** A list without repetitions has as many elements as its set. */
  lemma {:induction false} DistinctSize(s: seq<string>)
    requires Distinct(s)
    ensures |set w | w in s| == |s|
    decreases |s|
  {
    if |s| > 0 {
      DistinctSize(s[1..]);
      assert (set w | w in s) == (set w | w in s[1..]) + {s[0]};
      assert s[0] !in s[1..];
    }
  }

  lemma SameElementsSameSize(l: seq<string>, c: seq<string>)
    requires Distinct(l)
    requires forall i :: 0 <= i < |l| ==> l[i] in c
    requires forall i :: 0 <= i < |c| ==> c[i] in l
    ensures |l| == |set w | w in c|
  {
    DistinctSize(l);
    assert (set w | w in l) == (set w | w in c);
  }

  /** When `order` is the set's actual listing, the keywords are its first ten. */
  lemma KeywordsFollowSetOrder(text: string, order: seq<string>)
    requires Distinct(order)
    requires forall i :: 0 <= i < |order| ==> order[i] in LegacyCandidates(text)
    requires forall w :: w in LegacyCandidates(text) ==> w in order
    ensures LegacyKeywords(text, order) == PyPrefix(order, 10)
  {
    var c := LegacyCandidates(text);
    FilterAll(order, (w: string) => w in c);
    DedupAppendCovered(order, c);
  }

  /** De-duplicating a list followed by words it already holds gives the list. */
  lemma DedupAppendCovered(s: seq<string>, extra: seq<string>)
    requires Distinct(s)
    requires forall i :: 0 <= i < |extra| ==> extra[i] in s
    ensures Dedup(s + extra) == s
  {
    var r := Dedup(s + extra);
    DedupAfterSplit(s, extra, []);
    DedupDistinct(s);
    DedupAfterSeen(extra, s);
    assert [] + s == s;
  }

  /** Dedup of a concatenation splits: the second part is deduplicated against the first. */
  lemma {:induction false} DedupAfterSplit<T>(a: seq<T>, b: seq<T>, seen: seq<T>)
    requires Distinct(seen)
    ensures DedupAfter(a + b, seen) == DedupAfter(a, seen) + DedupAfter(b, seen + DedupAfter(a, seen))
    decreases |a|, 1
  {
    if |a| == 0 {
      assert a + b == b;
      assert seen + [] == seen;
    } else {
      var x, t := a[0], a[1..];
      assert (a + b)[0] == x;
      assert (a + b)[1..] == t + b;
      if x in seen {
        DedupAfterSplit(t, b, seen);
      } else {
        SplitFreshStep(a, b, seen);
      }
    }
  }

  /** The step of `DedupAfterSplit` where the first element is new. */
  lemma {:induction false} SplitFreshStep<T>(a: seq<T>, b: seq<T>, seen: seq<T>)
    requires Distinct(seen) && |a| > 0 && a[0] !in seen
    ensures DedupAfter(a + b, seen) == DedupAfter(a, seen) + DedupAfter(b, seen + DedupAfter(a, seen))
    decreases |a|, 0
  {
    var x, t := a[0], a[1..];
    var seen' := seen + [x];
    assert (a + b)[0] == x;
    assert (a + b)[1..] == t + b;
    DedupAfterFresh(a, seen);
    DedupAfterFresh(a + b, seen);
    var rest := DedupAfter(t, seen');
    DedupAfterSplit(t, b, seen');
    var tail := DedupAfter(b, seen' + rest);
    assert seen' + rest == seen + ([x] + rest);
    calc {
      DedupAfter(a + b, seen);
      [x] + DedupAfter(t + b, seen');
      [x] + (rest + tail);
      ([x] + rest) + tail;
    }
  }

  /** Nothing is kept when every element was already seen. */
  lemma {:induction false} DedupAfterSeen<T>(s: seq<T>, seen: seq<T>)
    requires Distinct(seen)
    requires forall i :: 0 <= i < |s| ==> s[i] in seen
    ensures DedupAfter(s, seen) == []
    decreases |s|
  {
    if |s| > 0 {
      DedupAfterSeen(s[1..], seen);
    }
  }

  /* ---------------------------------------------------------------- matching */

  /** Some keyword equals one of the words exactly. */
  predicate AnyMember(keywords: seq<string>, words: seq<string>) {
    exists i :: 0 <= i < |keywords| && keywords[i] in words
  }

  /** Keywords are raw substrings of the lowercased text; no length filter. */
  predicate LegacyComponentMatches(keywords: seq<string>, c: Component) {
    AnyIn(Lower(c.name + " " + c.description), keywords)
    || AnyIn(Lower(Join(c.responsibilities, " ")), keywords)
  }

  predicate LegacySectionMatches(description: string, keywords: seq<string>, s: InfrastructureSection) {
    AnyMember(keywords, MapSeq(s.keywords, Lower))
    || AnyIn(Lower(s.title), keywords)
    || AnyIn(Lower(s.sectionType), keywords)
    || CS.MatchesSectionType(Lower(description), s.sectionType)
  }

  /** Raw substring over the whole vocabulary. */
  predicate LegacyInfraRelevant(description: string) {
    AnyIn(Lower(description), CS.InfraVocabulary)
  }

  /** `_select_relevant_components` */
  function LegacySelectComponents(description: string, order: seq<string>, components: seq<Component>): (r: seq<Component>)
    ensures |components| > 0 ==> |r| > 0
    ensures var kws := LegacyKeywords(description, order);
      (exists i :: 0 <= i < |components| && LegacyComponentMatches(kws, components[i]))
      ==> (IsSubsequence(r, components)
           && forall i :: 0 <= i < |components| ==> (components[i] in r <==> LegacyComponentMatches(kws, components[i])))
    ensures var kws := LegacyKeywords(description, order);
      (forall i :: 0 <= i < |components| ==> !LegacyComponentMatches(kws, components[i]))
      ==> r == CS.FewestDependencies(components)
  {
    var kws := LegacyKeywords(description, order);
    var matched := CS.MatchedBy(components, (c: Component) => LegacyComponentMatches(kws, c));
    if |matched| > 0 then matched else CS.FewestDependencies(components)
  }

  /** `_select_relevant_infrastructure_sections` */
  function LegacySelectSections(description: string, order: seq<string>, sections: seq<InfrastructureSection>): (r: seq<InfrastructureSection>)
    ensures IsSubsequence(r, sections)
    ensures forall i :: 0 <= i < |sections| ==>
      (sections[i] in r <==> LegacySectionMatches(description, LegacyKeywords(description, order), sections[i]))
  {
    var kws := LegacyKeywords(description, order);
    CS.MatchedBy(sections, (s: InfrastructureSection) => LegacySectionMatches(description, kws, s))
  }

  /** `select_relevant_context(description, resources)`; `order` is the listing order
      of the description's keyword set. */
  function LegacySelectRelevantContext(description: string, order: seq<string>, resources: Resources): (r: SelectedContext)
    ensures r.businessContextArtifacts == []
    ensures |r.components| == 0 <==>
      resources.componentIndex.None? || |resources.componentIndex.value.components| == 0
    ensures resources.componentIndex.Some? && |resources.componentIndex.value.components| > 0 ==>
      r.components == LegacySelectComponents(description, order, resources.componentIndex.value.components)
    ensures r.infrastructureSections ==
      (if resources.systemDescription.None? then []
       else LegacySelectSections(description, order, resources.systemDescription.value.infrastructure.sections))
    ensures r.includeInfrastructure <==> |r.infrastructureSections| > 0 || LegacyInfraRelevant(description)
    ensures r.includeAllIoExamples <==>
      resources.systemDescription.Some? && |resources.systemDescription.value.ioExamples| > 0
  {
    var components :=
      match resources.componentIndex
      case Some(ix) => if |ix.components| > 0 then LegacySelectComponents(description, order, ix.components) else []
      case None => [];
    var sections :=
      match resources.systemDescription
      case Some(sd) =>
        if |sd.infrastructure.sections| > 0 then LegacySelectSections(description, order, sd.infrastructure.sections)
        else []
      case None => [];
    var infra := |sections| > 0 || LegacyInfraRelevant(description);
    var io := resources.systemDescription.Some? && |resources.systemDescription.value.ioExamples| > 0;
    NoSelection.(components := components, includeInfrastructure := infra,
                 includeAllIoExamples := io, infrastructureSections := sections)
  }

  /* ---------------------------------------------------------------- properties */

  /** Unlike the other selector, the short words do fire here. */
  lemma ShortInfraWordsFire(description: string)
    requires Contains(Lower(description), "aws") || Contains(Lower(description), "gcp")
          || Contains(Lower(description), "db") || Contains(Lower(description), "api")
    ensures LegacyInfraRelevant(description)
  {
    assert CS.InfraVocabulary[4] == "aws" && CS.InfraVocabulary[5] == "gcp";
    assert CS.InfraVocabulary[8] == "db" && CS.InfraVocabulary[10] == "api";
  }

  /** The two selectors disagree on "aws". */
  lemma SelectorsDisagreeOnAws()
    ensures LegacyInfraRelevant("aws") && !CS.IsInfraRelevant("aws")
  {
    ContainsSelf("aws");
    assert Lower("aws") == "aws";
    ShortInfraWordsFire("aws");
    CS.AwsAloneIsNotInfra();
  }
}
