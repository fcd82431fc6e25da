/** Keyword extraction and keyword matching, the two utilities every selection path
    depends on. */
module Keywords {
  import opened Text
  import opened Collections

  const StopWords: set<string> := {
    "the", "a", "an", "and", "or", "but", "in", "on", "at", "to", "for",
    "of", "with", "by", "from", "as", "is", "are", "was", "were", "be",
    "been", "have", "has", "had", "do", "does", "did", "will", "would",
    "should", "could", "may", "might", "must", "can", "this", "that",
    "these", "those", "i", "you", "he", "she", "it", "we", "they"
  }

  const DefaultMinLength := 3
  const DefaultMaxKeywords := 10

  /** `re.findall(r'\b\w+\b', s)`: the maximal runs of word characters. */
  function Tokens(s: string): seq<string>
  {
    Runs(s, IsWordChar)
  }

  predicate IsCandidate(w: string, minLength: int) {
    w !in StopWords && |w| >= minLength
  }

  /** The lowercased tokens that survive the stop-word and length filter, in order. */
  function Candidates(text: string, minLength: int): (r: seq<string>)
    ensures forall i :: 0 <= i < |r| ==> r[i] in Tokens(Lower(text)) && IsCandidate(r[i], minLength)
  {
    Filter(Tokens(Lower(text)), (w: string) => IsCandidate(w, minLength))
  }

  /** `extract_keywords(text, min_length, max_keywords)` */
  function ExtractKeywords(text: string, minLength: int, maxKeywords: int): (r: seq<string>)
    ensures forall i :: 0 <= i < |r| ==> r[i] in Tokens(Lower(text)) && IsCandidate(r[i], minLength)
    ensures Distinct(r)
    ensures |r| <= |Dedup(Candidates(text, minLength))| && r == Dedup(Candidates(text, minLength))[..|r|]
    ensures maxKeywords >= 0 ==> |r| <= maxKeywords
    ensures 0 <= maxKeywords && |r| < maxKeywords ==> forall w :: w in Candidates(text, minLength) ==> w in r
  {
    var u := Dedup(Candidates(text, minLength));
    var r := PyPrefix(u, maxKeywords);
    assert forall i :: 0 <= i < |r| ==> r[i] == u[i];
    r
  }

  /** `any(kw in text for kw in keywords if len(kw) > 3)` */
  function AnyLongIn(text: string, keywords: seq<string>): (r: bool)
    ensures r <==> exists i :: 0 <= i < |keywords| && |keywords[i]| > 3 && Contains(text, keywords[i])
  {
    if |keywords| == 0 then false
    else
      var rest := AnyLongIn(text, keywords[1..]);
      assert rest <==> exists i :: 1 <= i < |keywords| && |keywords[i]| > 3 && Contains(text, keywords[i]) by {
        if rest {
          var j :| 0 <= j < |keywords[1..]| && |keywords[1..][j]| > 3 && Contains(text, keywords[1..][j]);
          assert keywords[1..][j] == keywords[j + 1];
        }
      }
      (|keywords[0]| > 3 && Contains(text, keywords[0])) || rest
  }

  /** `any(k in text for k in keywords)` with no length filter. */
  function AnyIn(text: string, keywords: seq<string>): (r: bool)
    ensures r <==> exists i :: 0 <= i < |keywords| && Contains(text, keywords[i])
  {
    if |keywords| == 0 then false
    else
      var rest := AnyIn(text, keywords[1..]);
      assert rest <==> exists i :: 1 <= i < |keywords| && Contains(text, keywords[i]) by {
        if rest {
          var j :| 0 <= j < |keywords[1..]| && Contains(text, keywords[1..][j]);
          assert keywords[1..][j] == keywords[j + 1];
        }
      }
      Contains(text, keywords[0]) || rest
  }

  /** Lowercase unless matching is case sensitive. */
  function Fold(s: string, caseSensitive: bool): string
  {
    if caseSensitive then s else Lower(s)
  }

  /** `matches_keywords(text, keywords, case_sensitive)`: some keyword longer than three
      characters occurs in the text. */
  function MatchesKeywords(text: string, keywords: seq<string>, caseSensitive: bool): (r: bool)
    ensures r <==> exists i :: 0 <= i < |keywords| && |keywords[i]| > 3
                               && Contains(Fold(text, caseSensitive), Fold(keywords[i], caseSensitive))
  {
    var ks := MapSeq(keywords, (k: string) => Fold(k, caseSensitive));
    assert forall i :: 0 <= i < |keywords| ==> |ks[i]| == |keywords[i]|;
    AnyLongIn(Fold(text, caseSensitive), ks)
  }

  /* ---------------------------------------------------------------- properties */

  /** Keywords of three characters or fewer never match, so neither does an empty list. */
  lemma ShortKeywordsNeverMatch(text: string, keywords: seq<string>, caseSensitive: bool)
    requires forall i :: 0 <= i < |keywords| ==> |keywords[i]| <= 3
    ensures !MatchesKeywords(text, keywords, caseSensitive)
  {
  }

  predicate IsLong(k: string) { |k| > 3 }

  /** Dropping the short keywords does not change the outcome. */
  lemma DropShortKeywords(text: string, keywords: seq<string>, caseSensitive: bool)
    ensures MatchesKeywords(text, keywords, caseSensitive)
         == MatchesKeywords(text, Filter(keywords, IsLong), caseSensitive)
  {
    var long := Filter(keywords, IsLong);
    MatchCarriesOver(text, keywords, long, caseSensitive);
    MatchCarriesOver(text, long, keywords, caseSensitive);
  }

  /** A match through `a` is a match through `b` when every long keyword of `a` is in `b`. */
  lemma MatchCarriesOver(text: string, a: seq<string>, b: seq<string>, caseSensitive: bool)
    requires forall i :: 0 <= i < |a| && |a[i]| > 3 ==> a[i] in b
    ensures MatchesKeywords(text, a, caseSensitive) ==> MatchesKeywords(text, b, caseSensitive)
  {
    if MatchesKeywords(text, a, caseSensitive) {
      var i :| 0 <= i < |a| && |a[i]| > 3
               && Contains(Fold(text, caseSensitive), Fold(a[i], caseSensitive));
      var j :| 0 <= j < |b| && b[j] == a[i];
    }
  }

  /** Without case sensitivity only the lowercased text and keywords matter: any change
      of case in either leaves the outcome unchanged. */
  lemma MatchIgnoresCase(t1: string, t2: string, k1: seq<string>, k2: seq<string>)
    requires Lower(t1) == Lower(t2)
    requires |k1| == |k2| && forall i :: 0 <= i < |k1| ==> Lower(k1[i]) == Lower(k2[i])
    ensures MatchesKeywords(t1, k1, false) == MatchesKeywords(t2, k2, false)
  {
    assert forall i :: 0 <= i < |k1| ==> |k1[i]| == |Lower(k1[i])| == |k2[i]|;
  }

  lemma MatchUpperText(text: string, keywords: seq<string>)
    ensures MatchesKeywords(Upper(text), keywords, false) == MatchesKeywords(text, keywords, false)
  {
    LowerOfUpper(text);
    MatchIgnoresCase(Upper(text), text, keywords, keywords);
  }

  /* ---------------------------------------------------------------- idempotence */

  lemma {:induction false} RunsLowered(s: string, p: char -> bool)
    requires IsLowered(s)
    ensures forall k :: 0 <= k < |Runs(s, p)| ==> IsLowered(Runs(s, p)[k])
    decreases |s|
  {
    if |s| > 0 {
      if !p(s[0]) {
        RunsLowered(s[1..], p);
      } else {
        var n := RunLength(s, p);
        RunsLowered(s[n..], p);
        assert Runs(s, p) == [s[..n]] + Runs(s[n..], p);
      }
    }
  }

  lemma {:induction false} JoinLowered(ws: seq<string>, sep: string)
    requires IsLowered(sep)
    requires forall k :: 0 <= k < |ws| ==> IsLowered(ws[k])
    ensures IsLowered(Join(ws, sep))
    decreases |ws|
  {
    if |ws| > 1 {
      JoinLowered(ws[1..], sep);
    }
  }

  /** A word made only of `p` characters is one whole run. */
  lemma RunOfWord(w: string, p: char -> bool, rest: string)
    requires |w| > 0 && forall i :: 0 <= i < |w| ==> p(w[i])
    requires |rest| == 0 || !p(rest[0])
    ensures RunLength(w + rest, p) == |w|
  {
    var s := w + rest;
    assert forall i :: 0 <= i < |w| ==> s[i] == w[i];
    assert |rest| > 0 ==> s[|w|] == rest[0];
  }

  /** A run followed by a non-matching character or the end is the first run. */
  lemma RunsOfWord(w: string, p: char -> bool, rest: string)
    requires |w| > 0 && forall i :: 0 <= i < |w| ==> p(w[i])
    requires |rest| == 0 || !p(rest[0])
    ensures Runs(w + rest, p) == [w] + Runs(rest, p)
  {
    RunOfWord(w, p, rest);
    var s := w + rest;
    assert s[..|w|] == w && s[|w|..] == rest;
  }

  /** Runs of a separator-joined list of runs give the list back. */
  lemma {:induction false} RunsOfJoin(ws: seq<string>, p: char -> bool, c: char)
    requires !p(c)
    requires forall k :: 0 <= k < |ws| ==> |ws[k]| > 0 && forall i :: 0 <= i < |ws[k]| ==> p(ws[k][i])
    ensures Runs(Join(ws, [c]), p) == ws
    decreases |ws|
  {
    if |ws| == 1 {
      var w := ws[0];
      RunsOfWord(w, p, "");
      assert w + "" == w;
    } else if |ws| > 1 {
      var w, j := ws[0], Join(ws[1..], [c]);
      assert Join(ws, [c]) == w + ([c] + j);
      RunsOfWord(w, p, [c] + j);
      assert Runs([c] + j, p) == Runs(j, p) by {
        assert ([c] + j)[1..] == j;
      }
      RunsOfJoin(ws[1..], p, c);
      assert ws == [w] + ws[1..];
    }
  }

  /** Extracting keywords from the space-joined keywords gives the same keywords. */
  lemma ExtractIdempotent(text: string, minLength: int, maxKeywords: int)
    requires maxKeywords >= 0
    ensures var r := ExtractKeywords(text, minLength, maxKeywords);
            ExtractKeywords(Join(r, " "), minLength, maxKeywords) == r
  {
    var r := ExtractKeywords(text, minLength, maxKeywords);
    var toks := Tokens(Lower(text));
    LowerIsLowered(text);
    RunsLowered(Lower(text), IsWordChar);
    forall k | 0 <= k < |r|
      ensures IsLowered(r[k]) && |r[k]| > 0 && forall i :: 0 <= i < |r[k]| ==> IsWordChar(r[k][i])
    {
      var m :| 0 <= m < |toks| && toks[m] == r[k];
    }
    var joined := Join(r, " ");
    JoinLowered(r, " ");
    LoweredFixed(joined);
    RunsOfJoin(r, IsWordChar, ' ');
    assert Tokens(Lower(joined)) == r;
    FilterAll(r, (w: string) => IsCandidate(w, minLength));
    assert Candidates(joined, minLength) == r;
    DedupDistinct(r);
  }
}
