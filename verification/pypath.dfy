/** `pathlib.PurePosixPath`: a path is an anchor plus its non-empty components; the
    textual form, `name`, `suffix`, `stem`, `parent` and `/` follow pathlib. */
module PyPath {
  import opened Text
  import opened Collections

  /** `root` is "", "/" or "//" (POSIX keeps exactly two leading slashes); `parts` are
      the components, none of them empty or ".". */
  datatype Path = Path(root: string, parts: seq<string>)

  predicate IsPart(x: string) { x != "" && x != "." && '/' !in x }

  predicate Valid(p: Path) {
    (p.root == "" || p.root == "/" || p.root == "//")
    && forall i :: 0 <= i < |p.parts| ==> IsPart(p.parts[i])
  }

  function RootOf(s: string): string
  {
    if StartsWith(s, "//") && !StartsWith(s, "///") then "//"
    else if StartsWith(s, "/") then "/"
    else ""
  }

  /** `PurePosixPath(s)`: empty components and "." components disappear. */
  function Parse(s: string): (p: Path)
    ensures Valid(p)
  {
    Path(RootOf(s), Filter(SplitChar(s, '/'), IsPart))
  }

  /** `str(path)` */
  function ToString(p: Path): string
  {
    if p.root == "" && |p.parts| == 0 then "." else p.root + Join(p.parts, "/")
  }

  /** `path.name`: the last component, or "" for a bare anchor. */
  function Name(p: Path): (r: string)
    ensures Valid(p) ==> '/' !in r
  {
    if |p.parts| == 0 then "" else p.parts[|p.parts| - 1]
  }

  /** `path.parent`: the anchor is its own parent. */
  function Parent(p: Path): (r: Path)
    ensures Valid(p) ==> Valid(r)
    ensures r.root == p.root
  {
    if |p.parts| == 0 then p else Path(p.root, p.parts[..|p.parts| - 1])
  }

  /** `i` is the last dot of `name`, neither its first nor its last character. */
  predicate FinalDotAt(name: string, i: int) {
    0 < i < |name| - 1 && name[i] == '.' && forall k :: i < k < |name| ==> name[k] != '.'
  }

  /** `name` has no suffix: it is empty, ends with a dot, or has no dot past its first
      character. */
  predicate NoSuffixName(name: string) {
    |name| == 0 || name[|name| - 1] == '.' || forall j :: 0 < j < |name| - 1 ==> name[j] != '.'
  }

  /** Position of the dot that starts the final suffix of `name`, or -1. pathlib
      ignores a leading dot and a trailing dot. */
  function SuffixDot(name: string): (i: int)
    ensures i == -1 || FinalDotAt(name, i)
    ensures forall j :: FinalDotAt(name, j) ==> i == j
    ensures i == -1 <==> NoSuffixName(name)
  {
    var i := RFind(name, ".");
    DotsOccur(name);
    if 0 < i < |name| - 1 then i else -1
  }

  /** A one-character occurrence of "." is a dot character. */
  lemma DotsOccur(name: string)
    ensures forall j :: 0 <= j < |name| ==> (OccursAt(name, ".", j) <==> name[j] == '.')
  {
    forall j | 0 <= j < |name| ensures OccursAt(name, ".", j) <==> name[j] == '.' {
      assert name[j..j + 1] == [name[j]];
    }
  }

  /** `path.suffix`: "" or a dot followed by at least one character and no further dot;
      it is the name from its final dot on, and "" when the name has no suffix. */
  function Suffix(p: Path): (r: string)
    ensures r == "" || (|r| >= 2 && r[0] == '.' && forall j :: 0 < j < |r| ==> r[j] != '.')
    ensures forall i :: FinalDotAt(Name(p), i) ==> r == Name(p)[i..]
    ensures NoSuffixName(Name(p)) ==> r == ""
  {
    var name := Name(p);
    var i := SuffixDot(name);
    if i < 0 then "" else name[i..]
  }

  /** `path.stem` */
  function Stem(p: Path): string
  {
    var name := Name(p);
    var i := SuffixDot(name);
    if i < 0 then name else name[..i]
  }

  /** The stem and the suffix make up the name. */
  lemma StemSuffix(p: Path)
    ensures Stem(p) + Suffix(p) == Name(p)
  {
  }

  /** A relative file name `base.ext` (no slash, `ext` without a dot) parses to one
      component whose stem is `base` and whose suffix is `.ext`. */
  lemma NameParts(base: string, ext: string)
    requires |base| > 0 && base[0] != '/' && '/' !in base
    requires |ext| > 0 && '.' !in ext && '/' !in ext
    ensures Parse(base + "." + ext) == Path("", [base + "." + ext])
    ensures Suffix(Parse(base + "." + ext)) == "." + ext
    ensures Stem(Parse(base + "." + ext)) == base
  {
    var n := base + "." + ext;
    assert n[0] == base[0];
    assert '/' !in n by {
      forall i | 0 <= i < |n| ensures n[i] != '/' {
        if i < |base| { assert n[i] == base[i]; }
        else if i > |base| { assert n[i] == ext[i - |base| - 1]; }
      }
    }
    ParseOnePart(n);
    LastDot(base, ext);
    assert n[..|base|] == base;
    assert n[|base|..] == "." + ext;
  }

  /** In a name `base.ext` with a non-empty base and a dot-free extension, the dot
      before `ext` is the final dot. */
  lemma FinalDotOfName(base: string, ext: string)
    requires |base| > 0 && |ext| > 0 && '.' !in ext
    ensures FinalDotAt(base + "." + ext, |base|)
    ensures (base + "." + ext)[|base|..] == "." + ext
  {
    var n := base + "." + ext;
    forall k | |base| < k < |n| ensures n[k] != '.' {
      assert n[k] == ext[k - |base| - 1];
    }
  }

  /** A slash-free name that is neither empty nor "." parses to itself alone. */
  lemma ParseOnePart(n: string)
    requires IsPart(n)
    ensures Parse(n) == Path("", [n])
  {
    SplitNoSep(n, '/');
    assert Filter([n], IsPart) == [n];
    RootOfRelative(n);
  }

  /** In `base.ext`, with `ext` free of dots, the last dot is the one before `ext`. */
  lemma LastDot(base: string, ext: string)
    requires |ext| > 0 && '.' !in ext
    ensures RFind(base + "." + ext, ".") == |base|
  {
    var n := base + "." + ext;
    var i := RFind(n, ".");
    assert OccursAt(n, ".", |base|) by { assert n[|base|..|base| + 1] == "."; }
    forall j | |base| < j
      ensures !OccursAt(n, ".", j)
    {
      if j < |n| {
        assert n[j] == ext[j - |base| - 1];
        assert n[j..j + 1] == [n[j]];
      }
    }
  }

  /** A string that does not start with a slash has no anchor. */
  lemma RootOfRelative(s: string)
    requires |s| == 0 || s[0] != '/'
    ensures RootOf(s) == ""
  {
    if |s| > 0 {
      assert s[..1][0] == s[0];
      assert |s| >= 2 ==> s[..2][0] == s[0];
    }
  }

  /** `p / child` */
  function Div(p: Path, child: string): (r: Path)
    ensures Valid(p) ==> Valid(r)
  {
    var c := Parse(child);
    if c.root != "" then c else Path(p.root, p.parts + c.parts)
  }

  /** A path is its parent joined with its name. */
  lemma ParentDivName(p: Path)
    requires Valid(p)
    requires |p.parts| > 0
    ensures Div(Parent(p), Name(p)) == p
  {
    var n := Name(p);
    assert SplitChar(n, '/') == [n] by { SplitNoSep(n, '/'); }
    assert Filter([n], IsPart) == [n];
    assert p.parts[..|p.parts| - 1] + [n] == p.parts;
  }

  /** A string without the separator splits into itself. */
  lemma {:induction false} SplitNoSep(s: string, c: char)
    requires c !in s
    ensures SplitChar(s, c) == [s]
    decreases |s|
  {
    if |s| > 0 {
      SplitNoSep(s[1..], c);
      assert [s[0]] + s[1..] == s;
    }
  }

  /** Splitting at the first separator. */
  lemma {:induction false} SplitAtSep(a: string, c: char, b: string)
    requires c !in a
    ensures SplitChar(a + [c] + b, c) == [a] + SplitChar(b, c)
    decreases |a|
  {
    if |a| == 0 {
      assert a + [c] + b == [c] + b;
      assert ([c] + b)[1..] == b;
    } else {
      SplitAtSep(a[1..], c, b);
      assert (a + [c] + b)[1..] == a[1..] + [c] + b;
      assert [a[0]] + a[1..] == a;
    }
  }

  /** Splitting undoes joining when no piece holds the separator. */
  lemma {:induction false} SplitJoin(xs: seq<string>, c: char)
    requires |xs| >= 1
    requires forall i :: 0 <= i < |xs| ==> c !in xs[i]
    ensures SplitChar(Join(xs, [c]), c) == xs
    decreases |xs|
  {
    if |xs| == 1 {
      SplitNoSep(xs[0], c);
    } else {
      SplitJoin(xs[1..], c);
      SplitAtSep(xs[0], c, Join(xs[1..], [c]));
      assert [xs[0]] + xs[1..] == xs;
    }
  }

  /** The components survive a round trip through their joined text. */
  lemma PartsRoundTrip(parts: seq<string>)
    requires forall i :: 0 <= i < |parts| ==> IsPart(parts[i])
    ensures Filter(SplitChar(Join(parts, "/"), '/'), IsPart) == parts
  {
    if |parts| == 0 {
      assert SplitChar("", '/') == [""];
    } else {
      SplitJoin(parts, '/');
      FilterAll(parts, IsPart);
    }
  }

  /** Printing a path and parsing it back gives the same path. */
  lemma ParseToString(p: Path)
    requires Valid(p)
    ensures Parse(ToString(p)) == p
  {
    if p.root == "" && |p.parts| == 0 {
      SplitNoSep(".", '/');
    } else if p.root == "" {
      assert ToString(p) == Join(p.parts, "/");
      ParseRelative(p.parts);
    } else if p.root == "/" {
      ParseRooted(p.parts);
    } else {
      ParseDoubleRooted(p.parts);
    }
  }

  lemma ParseRelative(parts: seq<string>)
    requires |parts| > 0 && forall i :: 0 <= i < |parts| ==> IsPart(parts[i])
    ensures Parse(Join(parts, "/")) == Path("", parts)
  {
    var j := Join(parts, "/");
    JoinHead(parts, "/");
    RootOfRelative(j);
    PartsRoundTrip(parts);
  }

  lemma ParseRooted(parts: seq<string>)
    requires forall i :: 0 <= i < |parts| ==> IsPart(parts[i])
    ensures Parse("/" + Join(parts, "/")) == Path("/", parts)
  {
    var j := Join(parts, "/");
    if |parts| > 0 { JoinHead(parts, "/"); }
    RootsOf(j);
    SlashPieces(j);
    PartsRoundTrip(parts);
    DropEmptyPiece(SplitChar(j, '/'));
  }

  lemma ParseDoubleRooted(parts: seq<string>)
    requires forall i :: 0 <= i < |parts| ==> IsPart(parts[i])
    ensures Parse("//" + Join(parts, "/")) == Path("//", parts)
  {
    var j := Join(parts, "/");
    if |parts| > 0 { JoinHead(parts, "/"); }
    RootsOf(j);
    SlashPieces(j);
    SlashPieces("/" + j);
    assert "/" + ("/" + j) == "//" + j;
    PartsRoundTrip(parts);
    DropEmptyPiece([""] + SplitChar(j, '/'));
    DropEmptyPiece(SplitChar(j, '/'));
  }

  lemma RootsOf(j: string)
    requires |j| == 0 || j[0] != '/'
    ensures RootOf("/" + j) == "/"
    ensures RootOf("//" + j) == "//"
  {
    var s1 := "/" + j;
    var s2 := "//" + j;
    assert s1[..1] == "/";
    assert |s1| >= 2 ==> s1[1] == j[0];
    assert s2[..2] == "//";
    assert |s2| >= 3 ==> s2[2] == j[0];
  }

  lemma SlashPieces(j: string)
    ensures SplitChar("/" + j, '/') == [""] + SplitChar(j, '/')
  {
    SplitAtSep("", '/', j);
    assert "" + "/" + j == "/" + j;
  }

  lemma DropEmptyPiece(xs: seq<string>)
    ensures Filter([""] + xs, IsPart) == Filter(xs, IsPart)
  {
    assert ([""] + xs)[1..] == xs;
  }

  /** A join of non-empty, slash-free parts starts with the first part's first character. */
  lemma JoinHead(xs: seq<string>, sep: string)
    requires |xs| > 0 && |xs[0]| > 0
    ensures |Join(xs, sep)| > 0 && Join(xs, sep)[0] == xs[0][0]
  {
  }
}
