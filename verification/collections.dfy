/** Generic sequence operations with Python list semantics: de-duplication in
    first-occurrence order, filtering, stable sorting by a key and grouping. */
module Collections {
  import Text


  /** No element occurs twice. */
  ghost predicate Distinct<T>(s: seq<T>) {
    forall i, j :: 0 <= i < j < |s| ==> s[i] != s[j]
  }

  /** `list(dict.fromkeys(s))`: drop later repetitions, keep first-occurrence order. */
  function Dedup<T(==)>(s: seq<T>): (r: seq<T>)
    ensures Distinct(r)
    ensures forall i :: 0 <= i < |r| ==> r[i] in s
    ensures forall i :: 0 <= i < |s| ==> s[i] in r
    ensures |r| <= |s|
  {
    var r := DedupAfter(s, []);
    assert [] + r == r;
    r
  }

  /** Dedup of `s`, skipping anything already in `seen`, appended to nothing. */
  function DedupAfter<T(==)>(s: seq<T>, seen: seq<T>): (r: seq<T>)
    requires Distinct(seen)
    ensures Distinct(seen + r)
    ensures forall i :: 0 <= i < |r| ==> r[i] in s && r[i] !in seen
    ensures forall i :: 0 <= i < |s| ==> s[i] in seen || s[i] in r
    ensures |r| <= |s|
    decreases |s|
  {
    if |s| == 0 then []
    else if s[0] in seen then DedupAfter(s[1..], seen)
    else
      var rest := DedupAfter(s[1..], seen + [s[0]]);
      assert seen + ([s[0]] + rest) == (seen + [s[0]]) + rest;
      [s[0]] + rest
  }

  /** Appending a new element keeps a list free of repetitions. */
  lemma DistinctSnoc<T>(s: seq<T>, x: T)
    requires Distinct(s) && x !in s
    ensures Distinct(s + [x])
  {
    forall i, j | 0 <= i < j < |s + [x]|
      ensures (s + [x])[i] != (s + [x])[j]
    {
      if j < |s| {
        assert (s + [x])[i] == s[i] && (s + [x])[j] == s[j];
      } else {
        assert (s + [x])[i] == s[i] && (s + [x])[j] == x;
      }
    }
  }

  /** One step of `DedupAfter` on a first element not yet seen. */
  lemma DedupAfterFresh<T>(s: seq<T>, seen: seq<T>)
    requires Distinct(seen) && |s| > 0 && s[0] !in seen
    ensures Distinct(seen + [s[0]])
    ensures DedupAfter(s, seen) == [s[0]] + DedupAfter(s[1..], seen + [s[0]])
  {
    DistinctSnoc(seen, s[0]);
  }

  /** Dedup keeps a list that is already free of repetitions unchanged. */
  lemma {:induction false} DedupDistinct<T>(s: seq<T>)
    requires Distinct(s)
    ensures Dedup(s) == s
    decreases |s|
  {
    if |s| > 0 {
      var init, x := s[..|s| - 1], s[|s| - 1];
      assert s == init + [x];
      assert x !in init by {
        forall i | 0 <= i < |init|
          ensures init[i] != x
        {
          assert init[i] == s[i];
        }
      }
      assert Distinct(init) by {
        forall i, j | 0 <= i < j < |init|
          ensures init[i] != init[j]
        {
          assert init[i] == s[i] && init[j] == s[j];
        }
      }
      DedupDistinct(init);
      DedupSnoc(init, x);
    }
  }

  /** The elements of `s` satisfying `p`, in order. */
  function Filter<T>(s: seq<T>, p: T -> bool): (r: seq<T>)
    ensures |r| <= |s|
    ensures forall i :: 0 <= i < |r| ==> r[i] in s && p(r[i])
    ensures forall i :: 0 <= i < |s| ==> p(s[i]) ==> s[i] in r
  {
    if |s| == 0 then []
    else (if p(s[0]) then [s[0]] else []) + Filter(s[1..], p)
  }

  /** `r` is obtained from `s` by deleting elements. */
  predicate IsSubsequence<T(==)>(r: seq<T>, s: seq<T>)
    decreases |s|
  {
    if |r| == 0 then true
    else if |s| == 0 then false
    else if r[0] == s[0] then IsSubsequence(r[1..], s[1..])
    else IsSubsequence(r, s[1..])
  }

  lemma {:induction false} FilterIsSubsequence<T>(s: seq<T>, p: T -> bool)
    ensures IsSubsequence(Filter(s, p), s)
    decreases |s|
  {
    if |s| > 0 {
      FilterIsSubsequence(s[1..], p);
      var rest := Filter(s[1..], p);
      if p(s[0]) {
        assert Filter(s, p) == [s[0]] + rest;
        assert ([s[0]] + rest)[1..] == rest;
      } else {
        assert Filter(s, p) == rest;
        if |rest| > 0 {
          assert p(rest[0]);
          assert rest[0] != s[0];
        }
      }
    }
  }

  /** Keeping everything that satisfies `p` keeps everything. */
  lemma {:induction false} FilterAll<T>(s: seq<T>, p: T -> bool)
    requires forall i :: 0 <= i < |s| ==> p(s[i])
    ensures Filter(s, p) == s
    decreases |s|
  {
    if |s| > 0 {
      FilterAll(s[1..], p);
      assert [s[0]] + s[1..] == s;
    }
  }

  lemma FilterNone<T>(s: seq<T>, p: T -> bool)
    requires forall i :: 0 <= i < |s| ==> !p(s[i])
    ensures Filter(s, p) == []
  {
  }

  lemma {:induction false} FilterConcat<T>(a: seq<T>, b: seq<T>, p: T -> bool)
    ensures Filter(a + b, p) == Filter(a, p) + Filter(b, p)
    decreases |a|
  {
    if |a| == 0 {
      assert a + b == b;
    } else {
      assert (a + b)[1..] == a[1..] + b;
      FilterConcat(a[1..], b, p);
    }
  }

  /** Filtering a prefix gives a prefix of the filtered list. */
  lemma FilterPrefix<T>(s: seq<T>, m: nat, p: T -> bool)
    requires m <= |s|
    ensures Filter(s[..m], p) <= Filter(s, p)
  {
    assert s == s[..m] + s[m..];
    FilterConcat(s[..m], s[m..], p);
  }

  /** A prefix of length `n` is the first `n` elements. */
  lemma PrefixIsSlice<T>(r: seq<T>, s: seq<T>, n: nat)
    requires r <= s && |r| == n
    ensures r == s[..n]
  {
  }

  /** `[f(x) for x in s]` */
  function MapSeq<A, B>(s: seq<A>, f: A -> B): (r: seq<B>)
    ensures |r| == |s|
    ensures forall i :: 0 <= i < |s| ==> r[i] == f(s[i])
  {
    seq(|s|, i requires 0 <= i < |s| => f(s[i]))
  }

  /** `list(set(xs))`. Python does not fix the order in which a set is listed;
      `order` supplies it, and whatever it is, the result lists each distinct element once. */
  function SetToList<T(==)>(xs: seq<T>, order: seq<T>): (r: seq<T>)
    ensures Distinct(r)
    ensures forall i :: 0 <= i < |r| ==> r[i] in xs
    ensures forall i :: 0 <= i < |xs| ==> xs[i] in r
  {
    var pre := Filter(order, (x: T) => x in xs);
    var all := pre + xs;
    assert forall i :: 0 <= i < |xs| ==> xs[i] == all[|pre| + i];
    Dedup(all)
  }

  /** Concatenation of a list of lists. */
  function Flatten<T>(ss: seq<seq<T>>): seq<T>
  {
    if |ss| == 0 then [] else ss[0] + Flatten(ss[1..])
  }

  /** A string found in one piece is found in the concatenation of all pieces. */
  lemma {:induction false} FlattenContains(ss: seq<string>, i: int, t: string)
    requires 0 <= i < |ss|
    requires Text.Contains(ss[i], t)
    ensures Text.Contains(Flatten(ss), t)
    decreases |ss|
  {
    if i == 0 {
      Text.ContainsPrefixPart(ss[0], Flatten(ss[1..]), t);
    } else {
      FlattenContains(ss[1..], i - 1, t);
      Text.ContainsSuffixPart(ss[0], Flatten(ss[1..]), t);
    }
  }

  /* ---------------------------------------------------------------- stable sort */

  predicate SortedBy<T>(s: seq<T>, key: T -> nat) {
    forall i, j :: 0 <= i < j < |s| ==> key(s[i]) <= key(s[j])
  }

  function HasKey<T>(key: T -> nat, k: nat): T -> bool { x => key(x) == k }

  function KeyFrom<T>(key: T -> nat, k: nat): T -> bool { x => key(x) >= k }

  function MaxKey<T>(s: seq<T>, key: T -> nat): (m: nat)
    ensures forall i :: 0 <= i < |s| ==> key(s[i]) <= m
  {
    if |s| == 0 then 0
    else
      var m := MaxKey(s[1..], key);
      if key(s[0]) > m then key(s[0]) else m
  }

  /** The elements with key `k`, then those with key `k + 1`, and so on up to `top`,
      each group in input order. */
  function Buckets<T>(s: seq<T>, key: T -> nat, k: nat, top: nat): (r: seq<T>)
    ensures forall i :: 0 <= i < |r| ==> k <= key(r[i]) <= top
    ensures SortedBy(r, key)
    decreases top + 1 - k
  {
    if k > top then []
    else
      var here := Filter(s, HasKey(key, k));
      var rest := Buckets(s, key, k + 1, top);
      assert forall i :: 0 <= i < |here| ==> key(here[i]) == k;
      here + rest
  }

  /** Python's `sorted(s, key=key)` for a natural-number key: ascending and stable. */
  function SortByKey<T>(s: seq<T>, key: T -> nat): (r: seq<T>)
    ensures SortedBy(r, key)
  {
    Buckets(s, key, 0, MaxKey(s, key))
  }

  lemma {:induction false} SplitAtKey<T>(s: seq<T>, key: T -> nat, k: nat)
    ensures multiset(Filter(s, KeyFrom(key, k)))
         == multiset(Filter(s, HasKey(key, k))) + multiset(Filter(s, KeyFrom(key, k + 1)))
    decreases |s|
  {
    if |s| > 0 {
      SplitAtKey(s[1..], key, k);
    }
  }

  lemma {:induction false} BucketsPermute<T>(s: seq<T>, key: T -> nat, k: nat, top: nat)
    requires forall i :: 0 <= i < |s| ==> key(s[i]) <= top
    ensures multiset(Buckets(s, key, k, top)) == multiset(Filter(s, KeyFrom(key, k)))
    decreases top + 1 - k
  {
    if k > top {
      FilterNone(s, KeyFrom(key, k));
    } else {
      BucketsPermute(s, key, k + 1, top);
      SplitAtKey(s, key, k);
    }
  }

  /** Sorting rearranges: the result holds exactly the input's elements. */
  lemma SortByKeyPermutes<T>(s: seq<T>, key: T -> nat)
    ensures multiset(SortByKey(s, key)) == multiset(s)
  {
    BucketsPermute(s, key, 0, MaxKey(s, key));
    FilterAll(s, KeyFrom(key, 0));
  }

  lemma {:induction false} BucketsKeepOrder<T>(s: seq<T>, key: T -> nat, k: nat, top: nat, j: nat)
    ensures Filter(Buckets(s, key, k, top), HasKey(key, j))
         == if k <= j <= top then Filter(s, HasKey(key, j)) else []
    decreases top + 1 - k
  {
    if k <= top {
      BucketsKeepOrder(s, key, k + 1, top, j);
      BucketKeepsOrder(s, key, k, top, j);
    } else {
      NoBucketsAboveTop(s, key, k, top, j);
    }
  }

  /** The base case of `BucketsKeepOrder`: an empty range of buckets holds nothing. */
  lemma NoBucketsAboveTop<T>(s: seq<T>, key: T -> nat, k: nat, top: nat, j: nat)
    requires k > top
    ensures Filter(Buckets(s, key, k, top), HasKey(key, j))
         == if k <= j <= top then Filter(s, HasKey(key, j)) else []
  {
  }

  /** The step of `BucketsKeepOrder`: from the buckets above `k` to the buckets from `k`. */
  lemma BucketKeepsOrder<T>(s: seq<T>, key: T -> nat, k: nat, top: nat, j: nat)
    requires k <= top
    requires Filter(Buckets(s, key, k + 1, top), HasKey(key, j))
          == if k + 1 <= j <= top then Filter(s, HasKey(key, j)) else []
    ensures Filter(Buckets(s, key, k, top), HasKey(key, j))
         == if k <= j <= top then Filter(s, HasKey(key, j)) else []
  {
    var p := HasKey(key, j);
    var here, rest := Filter(s, HasKey(key, k)), Buckets(s, key, k + 1, top);
    BucketsStep(s, key, k, top);
    FilterConcat(here, rest, p);
    HereKeepOrder(s, key, k, j);
    var fh, fr := Filter(here, p), Filter(rest, p);
    if j == k {
      assert fh + fr == fh + [];
    } else {
      assert fh + fr == [] + fr;
    }
  }

  /** A non-empty range of buckets is its lowest bucket followed by the others. */
  lemma BucketsStep<T>(s: seq<T>, key: T -> nat, k: nat, top: nat)
    requires k <= top
    ensures Buckets(s, key, k, top) == Filter(s, HasKey(key, k)) + Buckets(s, key, k + 1, top)
  {
  }

  lemma HereKeepOrder<T>(s: seq<T>, key: T -> nat, k: nat, j: nat)
    ensures Filter(Filter(s, HasKey(key, k)), HasKey(key, j))
         == if j == k then Filter(s, HasKey(key, j)) else []
  {
    var here := Filter(s, HasKey(key, k));
    if j == k {
      FilterAll(here, HasKey(key, j));
    } else {
      assert forall i :: 0 <= i < |here| ==> key(here[i]) == k;
      FilterNone(here, HasKey(key, j));
    }
  }

  /** Sorting is stable: elements with equal keys keep their input order. */
  lemma SortByKeyStable<T>(s: seq<T>, key: T -> nat, j: nat)
    ensures Filter(SortByKey(s, key), HasKey(key, j)) == Filter(s, HasKey(key, j))
  {
    BucketsKeepOrder(s, key, 0, MaxKey(s, key), j);
    if j > MaxKey(s, key) {
      FilterNone(s, HasKey(key, j));
    }
  }

  /** Taking the first `k` of a stable sort takes `k` elements (or all) with the
      smallest keys: nothing left behind has a smaller key than anything taken. */
  lemma TakeSmallest<T>(s: seq<T>, key: T -> nat, k: nat)
    ensures var r := Text.PyPrefix(SortByKey(s, key), k);
      && |r| == (if k <= |s| then k else |s|)
      && multiset(r) <= multiset(s)
      && forall i, x :: 0 <= i < |r| && x in multiset(s) - multiset(r) ==> key(r[i]) <= key(x)
  {
    var sorted := SortByKey(s, key);
    SortByKeyPermutes(s, key);
    assert |sorted| == |multiset(sorted)| == |multiset(s)| == |s|;
    var m := if k <= |s| then k else |s|;
    assert sorted[..m] == Text.PyPrefix(sorted, k);
    PrefixOfSorted(sorted, key, m);
  }

  /** Among elements with equal keys, the first `k` of a stable sort take the earliest
      in the input, in input order. */
  lemma TakeEarliest<T>(s: seq<T>, key: T -> nat, k: nat)
    ensures forall j :: Filter(Text.PyPrefix(SortByKey(s, key), k), HasKey(key, j)) <= Filter(s, HasKey(key, j))
  {
    var sorted := SortByKey(s, key);
    var r := Text.PyPrefix(sorted, k);
    assert r == sorted[..|r|];
    forall j ensures Filter(r, HasKey(key, j)) <= Filter(s, HasKey(key, j)) {
      SortByKeyStable(s, key, j);
      FilterPrefix(sorted, |r|, HasKey(key, j));
    }
  }

  /** A prefix of a sorted list is a sub-multiset, and every element left behind has a
      key no smaller than any element taken. */
  lemma PrefixOfSorted<T>(sorted: seq<T>, key: T -> nat, m: nat)
    requires SortedBy(sorted, key) && m <= |sorted|
    ensures var r := sorted[..m];
      && multiset(r) <= multiset(sorted)
      && forall i, x :: 0 <= i < |r| && x in multiset(sorted) - multiset(r) ==> key(r[i]) <= key(x)
  {
    var r, rest := sorted[..m], sorted[m..];
    assert sorted == r + rest;
    assert multiset(sorted) == multiset(r) + multiset(rest);
    forall i, x | 0 <= i < |r| && x in multiset(sorted) - multiset(r)
      ensures key(r[i]) <= key(x)
    {
      assert x in multiset(rest);
      var j :| 0 <= j < |rest| && rest[j] == x;
      assert sorted[m + j] == x;
      assert sorted[i] == r[i];
    }
  }

  /* ---------------------------------------------------------------- grouping */

  function KeyIs<T>(key: T -> string, k: string): T -> bool { x => key(x) == k }

  /** Position of the group labelled `k`, or -1. */
  function GroupIndex<T>(g: seq<(string, seq<T>)>, k: string): (r: int)
    ensures -1 <= r < |g|
    ensures r >= 0 ==> g[r].0 == k
    ensures r == -1 ==> forall i :: 0 <= i < |g| ==> g[i].0 != k
  {
    if |g| == 0 then -1
    else if g[0].0 == k then 0
    else
      var r := GroupIndex(g[1..], k);
      if r < 0 then -1 else r + 1
  }

  /** One step of `groups.setdefault(k, []).append(x)` on an insertion-ordered dict. */
  function AddToGroup<T>(g: seq<(string, seq<T>)>, k: string, x: T): seq<(string, seq<T>)>
  {
    var i := GroupIndex(g, k);
    if i < 0 then g + [(k, [x])] else g[i := (k, g[i].1 + [x])]
  }

  /** The grouping loop over `xs`, in order: labels in order of first appearance. */
  function GroupBy<T>(xs: seq<T>, key: T -> string): seq<(string, seq<T>)>
    decreases |xs|
  {
    if |xs| == 0 then []
    else AddToGroup(GroupBy(xs[..|xs| - 1], key), key(xs[|xs| - 1]), xs[|xs| - 1])
  }

  ghost predicate LabelsDistinct<T>(g: seq<(string, seq<T>)>) {
    forall i, j :: 0 <= i < j < |g| ==> g[i].0 != g[j].0
  }

  /** Each group holds exactly the elements of `xs` with its label, in order. */
  ghost predicate GroupsHold<T>(g: seq<(string, seq<T>)>, xs: seq<T>, key: T -> string) {
    forall i :: 0 <= i < |g| ==> g[i].1 == Filter(xs, KeyIs(key, g[i].0)) && |g[i].1| > 0
  }

  /** Every element of `xs` has a group. */
  ghost predicate GroupsCover<T>(g: seq<(string, seq<T>)>, xs: seq<T>, key: T -> string) {
    forall n :: 0 <= n < |xs| ==> GroupIndex(g, key(xs[n])) >= 0
  }

  lemma AddKeepsDistinct<T>(g: seq<(string, seq<T>)>, k: string, x: T)
    requires LabelsDistinct(g)
    ensures LabelsDistinct(AddToGroup(g, k, x))
  {
  }

  lemma AddKeepsCover<T>(g: seq<(string, seq<T>)>, init: seq<T>, key: T -> string, x: T)
    requires GroupsCover(g, init, key)
    ensures GroupsCover(AddToGroup(g, key(x), x), init + [x], key)
  {
    var g1 := AddToGroup(g, key(x), x);
    var xs := init + [x];
    var ix := GroupIndex(g, key(x));
    forall n | 0 <= n < |xs|
      ensures GroupIndex(g1, key(xs[n])) >= 0
    {
      if n < |init| {
        assert xs[n] == init[n];
        var m := GroupIndex(g, key(init[n]));
        assert g1[m].0 == key(xs[n]);
      } else if ix < 0 {
        assert g1[|g|].0 == key(xs[n]);
      } else {
        assert g1[ix].0 == key(xs[n]);
      }
    }
  }

  lemma AddKeepsContents<T>(g: seq<(string, seq<T>)>, init: seq<T>, key: T -> string, x: T)
    requires LabelsDistinct(g)
    requires GroupsHold(g, init, key)
    requires GroupsCover(g, init, key)
    ensures GroupsHold(AddToGroup(g, key(x), x), init + [x], key)
  {
    var xs := init + [x];
    var g1 := AddToGroup(g, key(x), x);
    var ix := GroupIndex(g, key(x));
    forall k: string
      ensures Filter(xs, KeyIs(key, k)) == Filter(init, KeyIs(key, k)) + (if key(x) == k then [x] else [])
    {
      FilterConcat(init, [x], KeyIs(key, k));
    }
    if ix < 0 {
      forall n | 0 <= n < |init|
        ensures key(init[n]) != key(x)
      {
        assert GroupIndex(g, key(init[n])) >= 0;
      }
      FilterNone(init, KeyIs(key, key(x)));
      assert g1 == g + [(key(x), [x])];
      forall i | 0 <= i < |g1|
        ensures g1[i].1 == Filter(xs, KeyIs(key, g1[i].0)) && |g1[i].1| > 0
      {
        if i < |g| {
          assert g1[i] == g[i];
        }
      }
    } else {
      forall i | 0 <= i < |g1|
        ensures g1[i].1 == Filter(xs, KeyIs(key, g1[i].0)) && |g1[i].1| > 0
      {
        var lab := g1[i].0;
        assert Filter(xs, KeyIs(key, lab)) == Filter(init, KeyIs(key, lab)) + (if key(x) == lab then [x] else []);
        if i != ix {
          assert g1[i] == g[i];
          assert g[i].0 != g[ix].0;
        } else {
          assert g1[i] == (key(x), g[ix].1 + [x]);
        }
      }
    }
  }

  /** Grouping is a partition: labels are distinct, every element has a group, and each
      group holds exactly the elements with its label, in input order. */
  lemma {:induction false} GroupByPartitions<T>(xs: seq<T>, key: T -> string)
    ensures LabelsDistinct(GroupBy(xs, key))
    ensures GroupsHold(GroupBy(xs, key), xs, key)
    ensures GroupsCover(GroupBy(xs, key), xs, key)
    decreases |xs|
  {
    if |xs| > 0 {
      var init := xs[..|xs| - 1];
      var x := xs[|xs| - 1];
      assert xs == init + [x];
      GroupByPartitions(init, key);
      var g0 := GroupBy(init, key);
      AddKeepsDistinct(g0, key(x), x);
      AddKeepsCover(g0, init, key, x);
      AddKeepsContents(g0, init, key, x);
    }
  }

  /** The labels of a grouping (or the keys of a dict), in order. */
  function Labels<V>(g: seq<(string, V)>): (r: seq<string>)
    ensures |r| == |g|
    ensures forall i :: 0 <= i < |g| ==> r[i] == g[i].0
  {
    MapSeq(g, (p: (string, V)) => p.0)
  }

  /** Each key paired with its value under `f`, in key order. */
  function Keyed<V>(ks: seq<string>, f: string -> V): (r: seq<(string, V)>)
    ensures |r| == |ks|
    ensures forall i :: 0 <= i < |ks| ==> r[i] == (ks[i], f(ks[i]))
    ensures Labels(r) == ks
  {
    seq(|ks|, i requires 0 <= i < |ks| => (ks[i], f(ks[i])))
  }

  /** De-duplicating one more element adds it exactly when it is new. */
  lemma {:induction false} DedupAfterSnoc<T>(s: seq<T>, x: T, seen: seq<T>)
    requires Distinct(seen)
    ensures DedupAfter(s + [x], seen) == DedupAfter(s, seen) + (if x in seen || x in s then [] else [x])
    decreases |s|
  {
    if |s| == 0 {
      assert s + [x] == [x];
      if x !in seen {
        assert DedupAfter([x], seen) == [x] + DedupAfter([x][1..], seen + [x]);
      }
    } else {
      assert (s + [x])[0] == s[0];
      assert (s + [x])[1..] == s[1..] + [x];
      assert x in s <==> x == s[0] || x in s[1..];
      if s[0] in seen {
        DedupAfterSnoc(s[1..], x, seen);
      } else {
        DedupAfterSnoc(s[1..], x, seen + [s[0]]);
        var tail := if x in seen + [s[0]] || x in s[1..] then [] else [x];
        assert [s[0]] + (DedupAfter(s[1..], seen + [s[0]]) + tail)
            == ([s[0]] + DedupAfter(s[1..], seen + [s[0]])) + tail;
      }
    }
  }

  lemma DedupSnoc<T>(s: seq<T>, x: T)
    ensures Dedup(s + [x]) == Dedup(s) + (if x in s then [] else [x])
  {
    DedupAfterSnoc(s, x, []);
  }

  lemma AddToGroupLabels<T>(g: seq<(string, seq<T>)>, k: string, x: T)
    ensures Labels(AddToGroup(g, k, x)) == Labels(g) + (if k in Labels(g) then [] else [k])
  {
    var i := GroupIndex(g, k);
    if i < 0 {
      assert k !in Labels(g);
    } else {
      assert Labels(g)[i] == k;
    }
  }

  /** Groups come in the order in which their labels first occur in the input. */
  /** A key labels a group exactly when some element has that key. */
  lemma GroupedKeys<T>(xs: seq<T>, key: T -> string, k: string)
    ensures k in Labels(GroupBy(xs, key)) <==> k in MapSeq(xs, key)
  {
    var g, keys := GroupBy(xs, key), MapSeq(xs, key);
    GroupByPartitions(xs, key);
    if k in keys {
      var n :| 0 <= n < |keys| && keys[n] == k;
      var i := GroupIndex(g, key(xs[n]));
      assert Labels(g)[i] == k;
    }
    if k in Labels(g) {
      var i :| 0 <= i < |g| && Labels(g)[i] == k;
      var y := g[i].1[0];
      assert y in xs && key(y) == k;
      var n :| 0 <= n < |xs| && xs[n] == y;
      assert keys[n] == k;
    }
  }

  lemma {:induction false} GroupByFirstSeen<T>(xs: seq<T>, key: T -> string)
    ensures Labels(GroupBy(xs, key)) == Dedup(MapSeq(xs, key))
    decreases |xs|
  {
    if |xs| == 0 {
      assert MapSeq(xs, key) == [];
      assert Labels<seq<T>>([]) == [];
    } else {
      var init := xs[..|xs| - 1];
      var x := xs[|xs| - 1];
      var g0 := GroupBy(init, key);
      var keys := MapSeq(init, key);
      assert MapSeq(xs, key) == keys + [key(x)];
      GroupByFirstSeen(init, key);
      GroupedKeys(init, key, key(x));
      AddToGroupLabels(g0, key(x), x);
      DedupSnoc(keys, key(x));
    }
  }

  /** Grouping never makes more groups than elements, and makes one for any input. */
  lemma {:induction false} GroupByCount<T>(xs: seq<T>, key: T -> string)
    ensures |GroupBy(xs, key)| <= |xs|
    ensures |xs| > 0 ==> |GroupBy(xs, key)| > 0
    decreases |xs|
  {
    if |xs| > 0 {
      GroupByCount(xs[..|xs| - 1], key);
    }
  }

  /* ---------------------------------------------------------------- dictionaries */

  /** `d[k] = v` on an insertion-ordered dict: an existing key keeps its place and takes
      the new value; a new key goes last; every other entry is unchanged. */
  function Assign<V>(d: seq<(string, V)>, k: string, v: V): (r: seq<(string, V)>)
    ensures |r| == if k in Labels(d) then |d| else |d| + 1
    ensures forall i :: 0 <= i < |d| ==> r[i] == if d[i].0 == k then (k, v) else d[i]
    ensures k !in Labels(d) ==> r[|d|] == (k, v)
  {
    if k in Labels(d) then seq(|d|, i requires 0 <= i < |d| => if d[i].0 == k then (k, v) else d[i])
    else
      assert forall i :: 0 <= i < |d| ==> d[i].0 != k by {
        forall i | 0 <= i < |d|
          ensures d[i].0 != k
        {
          assert Labels(d)[i] == d[i].0;
        }
      }
      d + [(k, v)]
  }

  /** Every entry after an assignment is an old entry or the new one. */
  lemma AssignDrawsFrom<V>(d: seq<(string, V)>, k: string, v: V, pool: seq<(string, V)>)
    requires forall i :: 0 <= i < |d| ==> d[i] in pool
    requires (k, v) in pool
    ensures forall i :: 0 <= i < |Assign(d, k, v)| ==> Assign(d, k, v)[i] in pool
  {
  }

  /** Assigning adds the key at the end exactly when it is new, and keeps keys distinct. */
  lemma AssignKeys<V>(d: seq<(string, V)>, k: string, v: V)
    requires Distinct(Labels(d))
    ensures Labels(Assign(d, k, v)) == Labels(d) + (if k in Labels(d) then [] else [k])
    ensures Distinct(Labels(Assign(d, k, v)))
  {
    var r := Assign(d, k, v);
    var keys := Labels(d) + (if k in Labels(d) then [] else [k]);
    assert |Labels(r)| == |keys|;
    forall i | 0 <= i < |r| ensures Labels(r)[i] == keys[i] {
      if i < |d| {
        assert r[i].0 == d[i].0;
      }
    }
  }

  /** The dict built by `for x in xs: if keep(x): d[key(x)] = value(key(x))`. */
  function DictOf<T, V>(xs: seq<T>, keep: T -> bool, key: T -> string, value: string -> V): (r: seq<(string, V)>)
    ensures Distinct(Labels(r))
    ensures forall i :: 0 <= i < |r| ==> r[i].1 == value(r[i].0)
    decreases |xs|
  {
    if |xs| == 0 then []
    else
      var d := DictOf(xs[..|xs| - 1], keep, key, value);
      var x := xs[|xs| - 1];
      if !keep(x) then d
      else
        AssignKeys(d, key(x), value(key(x)));
        Assign(d, key(x), value(key(x)))
  }

  /** The dict's keys are those of the kept elements, in first-seen order. */
  lemma {:induction false} DictOfKeys<T, V>(xs: seq<T>, keep: T -> bool, key: T -> string, value: string -> V)
    ensures Labels(DictOf(xs, keep, key, value)) == Dedup(MapSeq(Filter(xs, keep), key))
    decreases |xs|
  {
    if |xs| == 0 {
      assert Labels<V>([]) == [];
      assert MapSeq<T, string>([], key) == [];
    } else {
      var init := xs[..|xs| - 1];
      var x := xs[|xs| - 1];
      assert xs == init + [x];
      DictOfKeys(init, keep, key, value);
      FilterConcat(init, [x], keep);
      var kept := Filter(init, keep);
      var keys := MapSeq(kept, key);
      if keep(x) {
        assert Filter([x], keep) == [x];
        assert MapSeq(kept + [x], key) == keys + [key(x)];
        AssignKeys(DictOf(init, keep, key, value), key(x), value(key(x)));
        DedupSnoc(keys, key(x));
      } else {
        assert Filter([x], keep) == [];
        assert kept + [] == kept;
      }
    }
  }
}
