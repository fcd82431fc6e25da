/** The repository crawler: parsing a GitLab URL, building the clone URL and the `git
    clone` command, discovering infrastructure files in the checked-out tree, the
    factory and cleanup. `git`, the temporary directory and the file system are
    parameters; the checked-out repository is a directory tree. */
module RepoCrawler {
  import opened Base
  import opened Text
  import opened Collections
  import PyPath

  /* ================================================================ URLs */

  /** The parts of `urllib.parse.urlparse(url)` the crawler reads. */
  datatype UrlParts = UrlParts(scheme: string, netloc: string, path: string)

  predicate IsAsciiLetter(c: char) { IsAsciiUpper(c) || IsAsciiLower(c) }

  predicate IsSchemeChar(c: char) { IsAsciiLetter(c) || IsDigit(c) || c == '+' || c == '-' || c == '.' }

  predicate NotNetlocEnd(c: char) { c != '/' && c != '?' && c != '#' }

  predicate NotHash(c: char) { c != '#' }

  predicate NotQuery(c: char) { c != '?' }

  /** The text before the first character failing `keep`: `s.split(c, 1)[0]`. */
  function Before(s: string, keep: char -> bool): (r: string)
    ensures |r| <= |s| && r == s[..|r|]
    ensures forall i :: 0 <= i < |r| ==> keep(r[i])
    ensures |r| < |s| ==> !keep(s[|r|])
  {
    s[..RunLength(s, keep)]
  }

  /** `Before` stops exactly at the first character failing `keep`. */
  lemma BeforeExact(a: string, b: string, keep: char -> bool)
    requires forall i :: 0 <= i < |a| ==> keep(a[i])
    requires |b| > 0 ==> !keep(b[0])
    ensures Before(a + b, keep) == a
  {
    RunLengthExact(a + b, keep, |a|);
    assert (a + b)[..|a|] == a;
  }

  /** Scheme and remainder: the text before the first ":" is a scheme when it starts
      with a letter and has only scheme characters; it is lower-cased. */
  function SchemeOf(url: string): (r: (string, string))
    ensures |r.1| <= |url|
    ensures r.0 == "" ==> r.1 == url
  {
    var i := Find(url, ":", 0);
    if i > 0 && IsAsciiLetter(url[0]) && forall k :: 0 <= k < i ==> IsSchemeChar(url[k]) then
      (Lower(url[..i]), url[i + 1..])
    else ("", url)
  }

  lemma SchemeOfExact(scheme: string, tail: string)
    requires |scheme| > 0 && IsAsciiLetter(scheme[0])
    requires forall k :: 0 <= k < |scheme| ==> IsSchemeChar(scheme[k]) && !IsAsciiUpper(scheme[k])
    ensures SchemeOf(scheme + ":" + tail) == (scheme, tail)
  {
    var url := scheme + ":" + tail;
    var n := |scheme|;
    assert OccursAt(url, ":", n);
    forall k | 0 <= k < n ensures !OccursAt(url, ":", k) {
      assert url[k] == scheme[k];
    }
    assert Find(url, ":", 0) == n;
    assert url[..n] == scheme;
    assert url[n + 1..] == tail;
    LoweredFixed(scheme);
  }

  /** Network location and the rest: present only after "//", up to "/", "?" or "#". */
  function NetlocOf(rest: string): (r: (string, string))
    ensures forall i :: 0 <= i < |r.0| ==> NotNetlocEnd(r.0[i])
  {
    if StartsWith(rest, "//") then
      var netloc := Before(rest[2..], NotNetlocEnd);
      (netloc, rest[2 + |netloc|..])
    else ("", rest)
  }

  lemma NetlocOfExact(host: string, path: string)
    requires forall k :: 0 <= k < |host| ==> NotNetlocEnd(host[k])
    requires path == [] || path[0] == '/'
    ensures NetlocOf("//" + host + path) == (host, path)
  {
    var rest := "//" + host + path;
    assert rest[..2] == "//";
    assert rest[2..] == host + path;
    BeforeExact(host, path, NotNetlocEnd);
    assert rest[2 + |host|..] == path;
  }

  /** The path: the text before the fragment, then before the query. */
  function PathOf(after: string): (r: string)
    ensures forall i :: 0 <= i < |r| ==> r[i] != '?' && r[i] != '#'
  {
    var noFragment := Before(after, NotHash);
    var r := Before(noFragment, NotQuery);
    assert forall k :: 0 <= k < |r| ==> r[k] == noFragment[k];
    r
  }

  lemma PathOfExact(path: string)
    requires forall k :: 0 <= k < |path| ==> path[k] != '?' && path[k] != '#'
    ensures PathOf(path) == path
  {
    BeforeExact(path, [], NotHash);
    BeforeExact(path, [], NotQuery);
    assert path + [] == path;
  }

  /** `urlsplit`, as far as scheme, network location and path go. */
  function SplitUrl(url: string): (u: UrlParts)
    ensures forall i :: 0 <= i < |u.netloc| ==> NotNetlocEnd(u.netloc[i])
    ensures forall i :: 0 <= i < |u.path| ==> u.path[i] != '?' && u.path[i] != '#'
  {
    var (scheme, rest) := SchemeOf(url);
    var (netloc, after) := NetlocOf(rest);
    UrlParts(scheme, netloc, PathOf(after))
  }

  /** A URL written from a lower-case scheme, a host and a path splits back into them. */
  lemma SplitUrlRoundTrip(scheme: string, host: string, path: string)
    requires |scheme| > 0 && IsAsciiLetter(scheme[0])
    requires forall k :: 0 <= k < |scheme| ==> IsSchemeChar(scheme[k]) && !IsAsciiUpper(scheme[k])
    requires forall k :: 0 <= k < |host| ==> NotNetlocEnd(host[k])
    requires path == [] || path[0] == '/'
    requires forall k :: 0 <= k < |path| ==> path[k] != '?' && path[k] != '#'
    ensures SplitUrl(scheme + "://" + host + path) == UrlParts(scheme, host, path)
  {
    var tail := "//" + host + path;
    assert scheme + "://" + host + path == scheme + ":" + tail;
    SchemeOfExact(scheme, tail);
    NetlocOfExact(host, path);
    PathOfExact(path);
  }

  /** What the crawler keeps of a repository URL. */
  datatype RepoUrl = RepoUrl(host: string, path: string, fullUrl: string)

  predicate IsSlash(c: char) { c == '/' }

  /** `_parse_gitlab_url`. An SSH URL loses every "git@" and ".git" (one left-to-right
      pass each) and is split at ":"; any other URL takes the network location as host
      and the path without surrounding "/" and without ".git". */
  function ParseGitLabUrl(url: string): (r: RepoUrl)
    ensures r.fullUrl == url
    ensures StartsWith(url, "git@") ==> ':' !in r.host && ':' !in r.path
    ensures !StartsWith(url, "git@") ==> r.host == SplitUrl(url).netloc
    ensures !StartsWith(url, "git@") ==> |r.path| <= |SplitUrl(url).path|
  {
    if StartsWith(url, "git@") then
      var parts := SplitChar(ReplaceAll(ReplaceAll(url, "git@", ""), ".git", ""), ':');
      RepoUrl(parts[0], if |parts| > 1 then parts[1] else "", url)
    else
      var u := SplitUrl(url);
      var trimmed := StripBy(u.path, IsSlash);
      ReplaceByEmptyShrinks(trimmed, ".git");
      RepoUrl(u.netloc, ReplaceAll(trimmed, ".git", ""), url)
  }

  /** A string absent from both sides of a separator it does not contain is absent
      from the joined text. */
  lemma AbsentAcross(a: string, c: char, b: string, t: string)
    requires |t| > 0 && c !in t
    requires !Contains(a, t) && !Contains(b, t)
    ensures !Contains(a + [c] + b, t)
  {
    var s := a + [c] + b;
    ContainsIff(a, t);
    ContainsIff(b, t);
    forall i | 0 <= i && i + |t| <= |s| ensures !OccursAt(s, t, i) {
      if i + |t| <= |a| {
        assert s[i..i + |t|] == a[i..i + |t|];
        assert !OccursAt(a, t, i);
      } else if i > |a| {
        assert s[i..i + |t|] == b[i - |a| - 1..i - |a| - 1 + |t|];
        assert !OccursAt(b, t, i - |a| - 1);
      } else {
        assert s[i..i + |t|][|a| - i] == c;
        assert t[|a| - i] != c;
      }
    }
    ContainsIff(s, t);
  }

  /** A string whose last character `tail` lacks cannot start inside `x` and run into
      `tail`, so it is absent from `x + tail` when absent from `x`. */
  lemma AbsentBeforeTail(x: string, tail: string, t: string)
    requires |t| > 0 && t[|t| - 1] !in tail
    requires !Contains(x, t)
    ensures !Contains(x + tail, t)
  {
    var s := x + tail;
    ContainsIff(x, t);
    forall i | 0 <= i && i + |t| <= |s| ensures !OccursAt(s, t, i) {
      if i + |t| <= |x| {
        assert s[i..i + |t|] == x[i..i + |t|];
        assert !OccursAt(x, t, i);
      } else {
        var e := i + |t| - 1;
        assert s[i..i + |t|][|t| - 1] == tail[e - |x|];
      }
    }
    ContainsIff(s, t);
  }

  /** Removing ".git" from `y + ".git"` gives `y` when `y` holds no ".git": the
      pattern cannot overlap itself, so no match straddles the boundary. */
  lemma {:induction false} DropGitSuffix(y: string)
    requires !Contains(y, ".git")
    ensures ReplaceAll(y + ".git", ".git", "") == y
    decreases |y|
  {
    var s := y + ".git";
    if |y| == 0 {
      assert s == ".git";
      assert s[4..] == [];
    } else {
      if |y| >= 4 {
        assert s[..4] == y[..4];
        ContainsIff(y, ".git");
        assert !OccursAt(y, ".git", 0);
      } else {
        assert s[3] == ".git"[3 - |y|];
        assert s[..4][3] != 't';
      }
      ContainsTail(y, ".git");
      DropGitSuffix(y[1..]);
      assert s[1..] == y[1..] + ".git";
      assert [y[0]] + y[1..] == y;
    }
  }

  /** An SSH URL written from a host and a project path parses back into them. */
  lemma SshRoundTrip(host: string, path: string)
    requires ':' !in host && ':' !in path
    requires !Contains(host, "git@") && !Contains(path, "git@")
    requires !Contains(host, ".git") && !Contains(path, ".git")
    ensures var url := "git@" + host + ":" + path + ".git";
            ParseGitLabUrl(url) == RepoUrl(host, path, url)
  {
    var url := "git@" + host + ":" + path + ".git";
    var body := host + ":" + path;
    assert url == "git@" + (body + ".git");
    assert url[..4] == "git@";
    assert url[4..] == body + ".git";
    AbsentAcross(host, ':', path, "git@");
    assert host + [':'] + path == body;
    AbsentBeforeTail(body, ".git", "git@");
    ReplaceAbsent(body + ".git", "git@", "");
    assert ReplaceAll(url, "git@", "") == body + ".git";
    AbsentAcross(host, ':', path, ".git");
    DropGitSuffix(body);
    PyPath.SplitAtSep(host, ':', path);
    PyPath.SplitNoSep(path, ':');
  }

  /** "https" is a lower-case scheme. */
  lemma HttpsIsScheme()
    ensures |"https"| > 0 && IsAsciiLetter("https"[0])
    ensures forall k :: 0 <= k < |"https"| ==> IsSchemeChar("https"[k]) && !IsAsciiUpper("https"[k])
  {
    var h := "https";
    assert h[0] == 'h' && h[1] == 't' && h[2] == 't' && h[3] == 'p' && h[4] == 's';
  }

  /** An "https://" URL is not an SSH URL. */
  lemma HttpsPrefix(rest: string)
    ensures StartsWith("https://" + rest, "https://") && !StartsWith("https://" + rest, "git@")
  {
    var url := "https://" + rest;
    assert url[..8] == "https://";
    assert url[0] == 'h';
  }

  /** An "https://" URL splits into its host and path. */
  lemma HttpsSplit(host: string, path: string)
    requires forall k :: 0 <= k < |host| ==> NotNetlocEnd(host[k])
    requires path == [] || path[0] == '/'
    requires forall k :: 0 <= k < |path| ==> path[k] != '?' && path[k] != '#'
    ensures SplitUrl("https://" + host + path) == UrlParts("https", host, path)
  {
    HttpsIsScheme();
    SplitUrlRoundTrip("https", host, path);
    HttpsSchemeSeparator();
  }

  lemma HttpsSchemeSeparator()
    ensures "https" + "://" == "https://"
  {
  }

  /** An HTTPS URL written from a host and a project path parses back into them. */
  lemma HttpsRoundTrip(host: string, path: string)
    requires forall k :: 0 <= k < |host| ==> NotNetlocEnd(host[k])
    requires forall k :: 0 <= k < |path| ==> path[k] != '?' && path[k] != '#'
    requires path == [] || (path[0] != '/' && path[|path| - 1] != '/')
    requires !Contains(path, ".git")
    ensures var url := "https://" + host + "/" + path;
            ParseGitLabUrl(url) == RepoUrl(host, path, url)
  {
    var url := "https://" + host + "/" + path;
    var rest := host + "/" + path;
    assert url == "https://" + rest;
    HttpsPrefix(rest);
    assert url == "https://" + host + ("/" + path);
    HttpsSplit(host, "/" + path);
    ParseOtherUrl(url);
    StripLeadingSlash(path);
    ReplaceAbsent(path, ".git", "");
  }

  /** A URL that is not an SSH URL is parsed from its split parts alone. */
  lemma ParseOtherUrl(url: string)
    requires !StartsWith(url, "git@")
    ensures ParseGitLabUrl(url)
         == RepoUrl(SplitUrl(url).netloc, ReplaceAll(StripBy(SplitUrl(url).path, IsSlash), ".git", ""), url)
  {
  }

  lemma StripLeadingSlash(path: string)
    requires path == [] || (path[0] != '/' && path[|path| - 1] != '/')
    ensures StripBy("/" + path, IsSlash) == path
  {
    assert ("/" + path)[1..] == path;
    assert LStrip("/" + path, IsSlash) == path;
  }

  /** The URL handed to git: with a token and an HTTPS URL, `oauth2:<token>@` is put in
      front of the network location, and query and fragment are dropped. */
  function CloneUrl(repoUrl: string, token: Option<string>): (r: string)
    ensures !(HasText(token) && StartsWith(repoUrl, "https://")) ==> r == repoUrl
  {
    if HasText(token) && StartsWith(repoUrl, "https://") then
      var u := SplitUrl(repoUrl);
      u.scheme + "://oauth2:" + token.value + "@" + u.netloc + u.path
    else repoUrl
  }

  /** The token lands between the scheme and the host; the rest of the URL is kept. */
  lemma TokenInjected(host: string, path: string, token: string)
    requires |token| > 0
    requires forall k :: 0 <= k < |host| ==> NotNetlocEnd(host[k])
    requires path == [] || path[0] == '/'
    requires forall k :: 0 <= k < |path| ==> path[k] != '?' && path[k] != '#'
    ensures CloneUrl("https://" + host + path, Some(token)) == "https" + "://oauth2:" + token + "@" + host + path
  {
    var url := "https://" + host + path;
    assert url == "https://" + (host + path);
    HttpsPrefix(host + path);
    HttpsSplit(host, path);
    CloneUrlWithToken(url, token);
  }

  /** With a token, an HTTPS URL is rebuilt from its split parts. */
  lemma CloneUrlWithToken(url: string, token: string)
    requires |token| > 0 && StartsWith(url, "https://")
    ensures CloneUrl(url, Some(token))
         == SplitUrl(url).scheme + "://oauth2:" + token + "@" + SplitUrl(url).netloc + SplitUrl(url).path
  {
  }

  /** The `git clone` command line. */
  function CloneCommand(url: string, branch: Option<string>, tempDir: string): (r: seq<string>)
    ensures |r| >= 6 && r[..4] == ["git", "clone", "--depth", "1"]
    ensures r[|r| - 2..] == [url, tempDir]
    ensures HasText(branch) ==> |r| == 8 && r[4..6] == ["-b", branch.value]
    ensures !HasText(branch) ==> |r| == 6
  {
    ["git", "clone", "--depth", "1"] + (if HasText(branch) then ["-b", branch.value] else []) + [url, tempDir]
  }

  /* ================================================================ the crawler */

  datatype Crawler = Crawler(repoUrl: string, token: Option<string>, branch: Option<string>,
                             parsedUrl: RepoUrl, tempDir: Option<string>)

  /** `urlparse` raises ValueError ("Invalid IPv6 URL") when the network location holds
      one square bracket without the other. */
  predicate UnbalancedBrackets(netloc: string) {
    ('[' in netloc) != (']' in netloc)
  }

  /** `GitLabCrawler(repo_url, token, branch)`: the constructor parses the URL, so a URL
      that `urlparse` rejects makes no crawler. */
  function NewCrawler(repoUrl: string, token: Option<string>, branch: Option<string>): (c: Result<Crawler>)
    ensures c.Err? <==> UnbalancedBrackets(SplitUrl(repoUrl).netloc)
    ensures c.Ok? ==> c.value.tempDir.None? && c.value.parsedUrl == ParseGitLabUrl(repoUrl)
                      && c.value.parsedUrl.fullUrl == repoUrl
                      && c.value.repoUrl == repoUrl && c.value.token == token && c.value.branch == branch
  {
    if UnbalancedBrackets(SplitUrl(repoUrl).netloc) then Err(Invalid("Invalid IPv6 URL"))
    else Ok(Crawler(repoUrl, token, branch, ParseGitLabUrl(repoUrl), None))
  }

  /** A URL with only an opening bracket in its host makes no crawler. */
  lemma OpenBracketRejected(host: string, path: string)
    requires '[' in host && ']' !in host
    requires forall k :: 0 <= k < |host| ==> NotNetlocEnd(host[k])
    requires path == [] || path[0] == '/'
    requires forall k :: 0 <= k < |path| ==> path[k] != '?' && path[k] != '#'
    ensures NewCrawler("https://" + host + path, None, None).Err?
  {
    HttpsSplit(host, path);
  }

  /** `RepositoryCrawlerFactory.create_crawler`: both branches build a GitLab crawler. */
  function CreateCrawler(repoUrl: string, token: Option<string>, branch: Option<string>): (c: Result<Crawler>)
    ensures c == NewCrawler(repoUrl, token, branch)
  {
    var lower := Lower(repoUrl);
    if Contains(lower, "gitlab.com") || Contains(lower, "gitlab") then NewCrawler(repoUrl, token, branch)
    else NewCrawler(repoUrl, token, branch)
  }

  /** `cleanup()`: remove the temporary directory if it is set and exists. */
  function Cleanup(c: Crawler, present: string -> bool): (r: Crawler)
    ensures c.tempDir.None? ==> r == c
    ensures c.tempDir.Some? && present(c.tempDir.value) ==> r == c.(tempDir := None)
    ensures r.tempDir.None? || r == c
  {
    if c.tempDir.Some? && present(c.tempDir.value) then c.(tempDir := None) else c
  }

  /** Cleaning up twice is cleaning up once. */
  lemma CleanupIdempotent(c: Crawler, present: string -> bool)
    ensures Cleanup(Cleanup(c, present), present) == Cleanup(c, present)
  {}

  /** The outcome of running `git`. */
  datatype GitOutcome = GitOk | GitFailed(stderr: string) | GitRaised(message: string)

  /** `clone()`: the fresh directory `tempDir` is recorded, git runs, and on failure the
      directory is cleaned up and a `ValueError` raised. */
  function Clone(c: Crawler, tempDir: string, git: seq<string> -> GitOutcome, present: string -> bool): (r: (Crawler, Result<string>))
    ensures var cmd := CloneCommand(CloneUrl(c.repoUrl, c.token), c.branch, tempDir);
            r.1.Ok? <==> git(cmd).GitOk?
    ensures r.1.Ok? ==> r.1.value == tempDir && r.0 == c.(tempDir := Some(tempDir))
    ensures r.1.Err? ==> r.1.error.Invalid? && r.0 == Cleanup(c.(tempDir := Some(tempDir)), present)
  {
    var c1 := c.(tempDir := Some(tempDir));
    match git(CloneCommand(CloneUrl(c.repoUrl, c.token), c.branch, tempDir))
    case GitOk => (c1, Ok(tempDir))
    case GitFailed(err) => (Cleanup(c1, present), Err(Invalid("Failed to clone repository: " + err)))
    case GitRaised(m) => (Cleanup(c1, present), Err(Invalid("Error cloning repository: " + m)))
  }

  /* ================================================================ discovery */

  /** A directory: its files and its sub-directories, in listing order. */
  datatype Tree = Tree(files: seq<string>, dirs: seq<(string, Tree)>)

  /** There is a file at the relative path `parts` (any directories on the way). */
  predicate FileAt(t: Tree, parts: seq<string>)
    decreases |parts|
  {
    if |parts| == 0 then false
    else if |parts| == 1 then parts[0] in t.files
    else exists i :: 0 <= i < |t.dirs| && t.dirs[i].0 == parts[0] && FileAt(t.dirs[i].1, parts[1..])
  }

  /** `str(Path(root) / rel)` for relative components `rel`. */
  function Under(root: string, rel: seq<string>): string {
    var p := PyPath.Parse(root);
    PyPath.ToString(PyPath.Path(p.root, p.parts + rel))
  }

  /** The components of a relative pattern. */
  function PartsOf(pattern: string): seq<string> { PyPath.Parse(pattern).parts }

  const GitlabCiPatterns: seq<string> := [".gitlab-ci.yml", ".gitlab-ci.yaml", "gitlab-ci.yml", "gitlab-ci.yaml"]
  const DockerfilePatterns: seq<string> := ["Dockerfile", "Dockerfile.prod", "Dockerfile.dev", "docker/Dockerfile"]
  const ComposePatterns: seq<string> := ["docker-compose.yml", "docker-compose.yaml", "docker-compose.prod.yml", "docker-compose.dev.yml"]
  const EcsPatterns: seq<string> := ["ecs-task-definition.json", "aws/ecs-task-definition.json", "infra/ecs-task-definition.json"]
  const CloudFormationPatterns: seq<string> := [
    "cloudformation.yaml", "cloudformation.yml", "cloudformation.json",
    "aws/cloudformation.yaml", "infra/cloudformation.yaml",
    "template.yaml", "template.yml", "template.json"]

  /** Directories the recursive search never enters. */
  const IgnoreDirs: set<string> := {".git", "__pycache__", "node_modules", ".venv", "venv", "env", ".terraform"}

  /** The index of the first pattern naming an existing file, or |patterns|. */
  function FirstPattern(t: Tree, patterns: seq<string>): (k: nat)
    ensures k <= |patterns|
    ensures k < |patterns| ==> FileAt(t, PartsOf(patterns[k]))
    ensures forall j :: 0 <= j < k ==> !FileAt(t, PartsOf(patterns[j]))
  {
    if |patterns| == 0 then 0
    else if FileAt(t, PartsOf(patterns[0])) then 0
    else
      var rest := patterns[1..];
      var k := FirstPattern(t, rest);
      assert forall j :: 0 <= j < k ==> !FileAt(t, PartsOf(rest[j]));
      assert forall j :: 1 <= j < |patterns| ==> patterns[j] == rest[j - 1];
      1 + k
  }

  /** The first listed pattern that exists as a file wins. */
  function FirstExisting(t: Tree, root: string, patterns: seq<string>): (r: Option<string>)
    ensures r.None? <==> forall j :: 0 <= j < |patterns| ==> !FileAt(t, PartsOf(patterns[j]))
    ensures r.Some? ==> exists k :: 0 <= k < |patterns| && r.value == Under(root, PartsOf(patterns[k]))
                                    && FileAt(t, PartsOf(patterns[k]))
                                    && forall j :: 0 <= j < k ==> !FileAt(t, PartsOf(patterns[j]))
    ensures r.Some? ==> |r.value| > 0
  {
    var k := FirstPattern(t, patterns);
    if k == |patterns| then None
    else
      var p := PyPath.Parse(root);
      PartsNonEmpty(p.root, p.parts + PartsOf(patterns[k]));
      Some(Under(root, PartsOf(patterns[k])))
  }

  /** The file `name` is reachable through the directories `dirs`, none of them ignored. */
  predicate FoundVia(t: Tree, dirs: seq<string>, name: string)
    decreases |dirs|
  {
    if |dirs| == 0 then name in t.files
    else dirs[0] !in IgnoreDirs
         && exists i :: 0 <= i < |t.dirs| && t.dirs[i].0 == dirs[0] && FoundVia(t.dirs[i].1, dirs[1..], name)
  }

  /** `os.walk` top-down: the directories leading to the first directory, in walk order,
      that holds `name`. */
  function Walk(t: Tree, name: string): (r: Option<seq<string>>)
    ensures r.Some? ==> FoundVia(t, r.value, name)
    ensures name in t.files ==> r == Some([])
    decreases t, |t.dirs| + 1
  {
    if name in t.files then Some([]) else WalkFrom(t, 0, name)
  }

  /** The walk over the sub-directories from index `i` on, skipping ignored ones. */
  function WalkFrom(t: Tree, i: nat, name: string): (r: Option<seq<string>>)
    requires i <= |t.dirs|
    ensures r.Some? ==> |r.value| > 0 && r.value[0] !in IgnoreDirs
                        && exists j :: i <= j < |t.dirs| && t.dirs[j].0 == r.value[0]
                                       && FoundVia(t.dirs[j].1, r.value[1..], name)
    decreases t, |t.dirs| - i
  {
    if i == |t.dirs| then None
    else if t.dirs[i].0 in IgnoreDirs then WalkFrom(t, i + 1, name)
    else match Walk(t.dirs[i].1, name)
      case Some(p) =>
        var r := [t.dirs[i].0] + p;
        assert r[1..] == p;
        Some(r)
      case None => WalkFrom(t, i + 1, name)
  }

  /** The walk descends into the first sub-directory, from index `i` on, that is not
      ignored and holds the file somewhere below it; the earlier ones hold it nowhere. */
  lemma {:induction false} WalkFromFirst(t: Tree, i: nat, name: string) returns (j: nat)
    requires i <= |t.dirs| && WalkFrom(t, i, name).Some?
    ensures i <= j < |t.dirs| && t.dirs[j].0 !in IgnoreDirs && Walk(t.dirs[j].1, name).Some?
    ensures WalkFrom(t, i, name) == Some([t.dirs[j].0] + Walk(t.dirs[j].1, name).value)
    ensures forall k :: i <= k < j && t.dirs[k].0 !in IgnoreDirs ==> Walk(t.dirs[k].1, name).None?
    decreases |t.dirs| - i
  {
    if t.dirs[i].0 in IgnoreDirs || Walk(t.dirs[i].1, name).None? {
      j := WalkFromFirst(t, i + 1, name);
    } else {
      j := i;
    }
  }

  /** Whenever the file is reachable without entering an ignored directory, the walk
      finds it (perhaps somewhere earlier in walk order). */
  lemma {:induction false} WalkComplete(t: Tree, dirs: seq<string>, name: string)
    requires FoundVia(t, dirs, name)
    ensures Walk(t, name).Some?
    decreases |dirs|
  {
    if name !in t.files {
      var i :| 0 <= i < |t.dirs| && t.dirs[i].0 == dirs[0] && FoundVia(t.dirs[i].1, dirs[1..], name);
      WalkComplete(t.dirs[i].1, dirs[1..], name);
      WalkFromReaches(t, 0, i, name);
    }
  }

  lemma {:induction false} WalkFromReaches(t: Tree, j: nat, i: nat, name: string)
    requires j <= i < |t.dirs|
    requires t.dirs[i].0 !in IgnoreDirs && Walk(t.dirs[i].1, name).Some?
    ensures WalkFrom(t, j, name).Some?
    decreases i - j
  {
    if j < i {
      WalkFromReaches(t, j + 1, i, name);
    }
  }

  /** `_find_file_recursive(root, name)` */
  function FindRecursive(t: Tree, root: string, name: string): (r: Option<string>)
    ensures r.Some? <==> exists dirs :: FoundVia(t, dirs, name)
    ensures r.Some? ==> exists dirs :: FoundVia(t, dirs, name) && r.value == Under(root, dirs + [name])
    ensures r.Some? ==> Walk(t, name).Some? && r.value == Under(root, Walk(t, name).value + [name])
    ensures name in t.files ==> r == Some(Under(root, [name]))
  {
    var w := Walk(t, name);
    if w.None? then
      assert forall dirs :: !FoundVia(t, dirs, name) by {
        forall dirs | FoundVia(t, dirs, name) ensures false {
          WalkComplete(t, dirs, name);
        }
      }
      None
    else
      assert FoundVia(t, w.value, name);
      assert name in t.files ==> w.value + [name] == [name];
      Some(Under(root, w.value + [name]))
  }

  /** File type to path; terraform state is never looked for (it is remote). */
  datatype Discovered = Discovered(
    gitlabCi: Option<string>, dockerfile: Option<string>, dockerCompose: Option<string>,
    ecsTaskDef: Option<string>, cloudformation: Option<string>, terraform: Option<string>)

  /** The listed locations first, then the recursive search. */
  function WithFallback(t: Tree, root: string, patterns: seq<string>, name: string): (r: Option<string>)
    ensures FirstExisting(t, root, patterns).Some? ==> r == FirstExisting(t, root, patterns)
    ensures FirstExisting(t, root, patterns).None? ==> r == FindRecursive(t, root, name)
  {
    var found := FirstExisting(t, root, patterns);
    if HasText(found) then found else FindRecursive(t, root, name)
  }

  /** A path with components is not the empty string. */
  lemma PartsNonEmpty(anchor: string, parts: seq<string>)
    requires |parts| > 0
    requires forall i :: 0 <= i < |parts| ==> PyPath.IsPart(parts[i])
    ensures |PyPath.ToString(PyPath.Path(anchor, parts))| > 0
  {
    assert |parts[0]| > 0;
    if |parts| > 1 {
      assert Join(parts, "/") == parts[0] + "/" + Join(parts[1..], "/");
    }
  }

  /** `discover_files(repo_path)`: the given path, else the cloned directory, must exist;
      `fs` gives the directory tree at a path. */
  function DiscoverFiles(c: Crawler, repoPath: Option<string>, fs: string -> Option<Tree>): (r: Result<Discovered>)
    ensures var root := if repoPath.Some? then repoPath else c.tempDir;
            r.Ok? <==> root.Some? && fs(root.value).Some?
    ensures r.Ok? ==> r.value.terraform.None?
    ensures var root := if repoPath.Some? then repoPath else c.tempDir;
            r.Ok? ==>
              var t := fs(root.value).value;
              r.value.gitlabCi == WithFallback(t, root.value, GitlabCiPatterns, ".gitlab-ci.yml")
              && r.value.dockerfile == WithFallback(t, root.value, DockerfilePatterns, "Dockerfile")
              && r.value.dockerCompose == WithFallback(t, root.value, ComposePatterns, "docker-compose.yml")
              && r.value.ecsTaskDef == FirstExisting(t, root.value, EcsPatterns)
              && r.value.cloudformation == FirstExisting(t, root.value, CloudFormationPatterns)
  {
    var root := if repoPath.Some? then repoPath else c.tempDir;
    if root.None? || fs(root.value).None? then
      Err(Invalid("Repository path does not exist. Clone repository first."))
    else
      var t := fs(root.value).value;
      Ok(Discovered(
        WithFallback(t, root.value, GitlabCiPatterns, ".gitlab-ci.yml"),
        WithFallback(t, root.value, DockerfilePatterns, "Dockerfile"),
        WithFallback(t, root.value, ComposePatterns, "docker-compose.yml"),
        FirstExisting(t, root.value, EcsPatterns),
        FirstExisting(t, root.value, CloudFormationPatterns),
        None))
  }

  /** `get_file_content(path)`: the text of an existing readable file, else nothing. */
  function GetFileContent(path: Option<string>, read: string -> FileRead): (r: Option<string>)
    ensures r.Some? <==> HasText(path) && read(path.value).FileText?
    ensures r.Some? ==> r.value == read(path.value).text
  {
    if !HasText(path) then None
    else match read(path.value)
      case FileText(t) => Some(t)
      case _ => None
  }
}
