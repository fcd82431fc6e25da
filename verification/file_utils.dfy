/** Reading business-context artifacts and summarising them. The file system is an
    oracle from a path to what reading it gives. */
module FileUtils {
  import opened Base
  import opened Text
  import opened Artifacts

  const DefaultSummaryLength := 800
  const OverviewHeading := "## Overview"
  const OverviewBold := "**Overview**"

  /** `read_business_context_artifact`: the artifact file's text, or `None` when it
      does not exist or cannot be read. */
  function ReadArtifact(a: BusinessContextArtifact, fs: string -> FileRead): (r: Option<string>)
    ensures r.Some? <==> fs(a.artifactPath).FileText?
    ensures r.Some? ==> r.value == fs(a.artifactPath).text
  {
    match fs(a.artifactPath)
    case FileText(t) => Some(t)
    case FileMissing => None
    case FileFailed(_) => None
  }

  /** Where the overview starts: the first "## Overview", else the first "**Overview**". */
  function OverviewStart(content: string): (r: int)
    ensures r == -1 <==> !Contains(content, OverviewHeading) && !Contains(content, OverviewBold)
    ensures Contains(content, OverviewHeading) ==> r == Find(content, OverviewHeading, 0)
    ensures !Contains(content, OverviewHeading) ==> r == Find(content, OverviewBold, 0)
  {
    var i := Find(content, OverviewHeading, 0);
    if i == -1 then Find(content, OverviewBold, 0) else i
  }

  /** The overview section, when one can be delimited: from its start up to the first
      "\n##" at least ten characters later, else the first "\n**". */
  function OverviewSlice(content: string): (r: Option<string>)
    ensures r.Some? ==> StartsWith(r.value, OverviewHeading) || StartsWith(r.value, OverviewBold)
    ensures r.Some? ==> OccursAt(content, r.value, OverviewStart(content))
    ensures r.Some? ==> |r.value| >= 10
    ensures r.Some? ==> EndsAtBreak(content, OverviewStart(content) + |r.value|)
    ensures r.None? <==> OverviewStart(content) == -1 || !HasBreakAfter(content, OverviewStart(content) + 10)
  {
    var start := OverviewStart(content);
    if start == -1 then None
    else
      var e := Find(content, "\n##", start + 10);
      var end := if e == -1 then Find(content, "\n**", start + 10) else e;
      if end > start then
        var m := if Contains(content, OverviewHeading) then OverviewHeading else OverviewBold;
        assert content[end] == content[end..end + 3][0];
        MarkerBeforeBreak(content, m, start, end);
        Some(content[start..end])
      else None
  }

  /** A break found at least ten characters after a marker lies beyond the marker, so
      the text between them starts with the marker. */
  lemma MarkerBeforeBreak(content: string, m: string, start: int, end: int)
    requires m == OverviewHeading || m == OverviewBold
    requires OccursAt(content, m, start)
    requires start + 10 <= end < |content| && content[end] == '\n'
    ensures start + |m| <= end
    ensures StartsWith(content[start..end], m) && OccursAt(content, content[start..end], start)
  {
    assert forall k :: start + 10 <= k < start + |m| ==> content[k] == m[k - start] != '\n';
    assert content[start..end][..|m|] == m;
  }

  /** A section break ("\n##" or "\n**") begins at index `i`. */
  predicate EndsAtBreak(content: string, i: int) {
    OccursAt(content, "\n##", i) || OccursAt(content, "\n**", i)
  }

  /** Some section break begins at or after `from`. */
  predicate HasBreakAfter(content: string, from: nat) {
    Find(content, "\n##", from) != -1 || Find(content, "\n**", from) != -1
  }

  /** `get_artifact_summary`. */
  function ArtifactSummary(a: BusinessContextArtifact, maxLength: int, fs: string -> FileRead): (r: string)
    ensures !HasText(ReadArtifact(a, fs)) ==> r == "Business context document: " + a.filename
    ensures HasText(ReadArtifact(a, fs)) ==> SummaryOf(ReadArtifact(a, fs).value, maxLength, r)
    ensures HasText(ReadArtifact(a, fs)) && maxLength >= 0 ==> |r| <= maxLength + 3
    ensures var c := ReadArtifact(a, fs);
      HasText(c) && maxLength >= 0 && !Contains(c.value, OverviewHeading) && !Contains(c.value, OverviewBold)
      ==> r == Ellipsize(c.value, maxLength)
  {
    match ReadArtifact(a, fs)
    case None => "Business context document: " + a.filename
    case Some(content) =>
      if |content| == 0 then "Business context document: " + a.filename
      else
        var o := OverviewSlice(content);
        if o.Some? && |o.value| <= maxLength then o.value
        else if |content| > maxLength then PyPrefix(content, maxLength) + "..."
        else content
  }

  /** What a summary of non-empty `content` is: the overview when it can be delimited
      and fits, else the content itself when it fits, else its first `maxLength`
      characters and "...". */
  predicate SummaryOf(content: string, maxLength: int, r: string) {
    var o := OverviewSlice(content);
    if o.Some? && |o.value| <= maxLength then r == o.value
    else if |content| <= maxLength then r == content
    else StartsWith(r, PyPrefix(content, maxLength)) && |r| == |PyPrefix(content, maxLength)| + 3
         && EndsWith(r, "...")
  }
}
