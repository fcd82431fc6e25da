/** The LLM-driven project indexer: it groups source files into components (falling
    back to one component per parent directory when the model's answer cannot be
    used), and summarises infrastructure files and documents, falling back to
    truncated text when the chat service fails. The file system, the clock and the
    chat service are parameters. */
module ProjectIndexer {
  import opened Base
  import opened Text
  import opened Collections
  import opened PyPath
  import opened Json
  import LlmClient
  import Artifacts

  const DefaultModel := "gpt-4-turbo-preview"
  const DefaultExcludes := ["__pycache__", "*.pyc", ".git", "node_modules", "venv", "env"]

  /** At most this many files are read for one analysis. */
  const MaxFiles := 100
  /** File contents above this many characters are cut... */
  const MaxFileChars := 10000
  /** ...and end with this marker. */
  const TruncatedMarker := "\n... [truncated]"
  /** The analysis request shows at most this many files, each cut to `PromptChars`. */
  const PromptFiles := 20
  const PromptChars := 500
  /** Summary requests send at most this many characters of their input. */
  const RequestChars := 5000
  /** Fallback lengths when a summary request fails. */
  const InfraFallbackChars := 500
  const DocumentFallbackChars := 200
  const Temperature := 0.3

  /** The fixed text of the requests the indexer sends (`SourceWording` below holds the literal texts). */
  datatype Wording = Wording(
    analysisSystem: string,
    analysisHead: string,
    analysisTail: string,
    infraRole: string,
    readmeSystem: string,
    documentSystem: string)

  const SourceWording := Wording(
    "You are a codebase analyzer. Analyze files and group them into logical components. "
      + "Return a JSON array of components with name, description, file_paths, dependencies, "
      + "and responsibilities.",
    "Analyze the following codebase files and group them into logical components.\n\n"
      + "For each component, provide:\n"
      + "- name: A descriptive name\n"
      + "- description: What this component does and how it fits into the system\n"
      + "- file_paths: List of file paths in this component\n"
      + "- dependencies: Other component names this depends on\n"
      + "- responsibilities: Key responsibilities of this component\n\n"
      + "Files to analyze:\n",
    "\n\nReturn JSON in format:\n{\n  \"components\": [\n    {\n"
      + "      \"name\": \"component_name\",\n"
      + "      \"description\": \"...\",\n"
      + "      \"file_paths\": [\"path1\", \"path2\"],\n"
      + "      \"dependencies\": [\"other_component\"],\n"
      + "      \"responsibilities\": [\"responsibility1\", \"responsibility2\"]\n"
      + "    }\n  ]\n}\n",
    "You are an infrastructure analyst. Summarize the ",
    "Extract deployment and infrastructure information from README.",
    "Summarize this document in 2-3 sentences, focusing on key information relevant to software development.")

  /** What a path names on disk, as `is_file()` / `is_dir()` see it. */
  datatype Kind = IsFile | IsDir | Neither

  /** The file system as the indexer sees it: `is_file`/`is_dir`, the directory walk with
      its exclusion patterns, `exists`, and `read_text`, which gives `None` when it raises. */
  datatype Disk = Disk(
    kind: string -> Kind,
    collect: (string, seq<string>) -> seq<Path>,
    present: string -> bool,
    read: string -> Option<string>)

  /** A constructed `ProjectIndexer`. */
  datatype Indexer = Indexer(
    apiKey: string,
    model: string,
    projectRoot: Path,
    chat: LlmClient.ChatRequest -> LlmClient.ChatReply,
    decode: LlmClient.Decoder,
    wording: Wording)

  /** `ProjectIndexer.__init__`: the key comes from the argument or the environment and
      is required; the project root is the given path when non-empty, else `cwd`. */
  function NewIndexer(apiKey: Option<string>, env: Option<string>, model: string, projectRoot: Option<string>,
                      cwd: Path, chat: LlmClient.ChatRequest -> LlmClient.ChatReply,
                      decode: LlmClient.Decoder, wording: Wording): (r: Result<Indexer>)
    ensures r.Ok? <==> HasText(apiKey) || HasText(env)
    ensures r.Err? ==> r.error == Invalid("OpenAI API key is required. Set OPENAI_API_KEY env var or pass api_key.")
    ensures r.Ok? && HasText(apiKey) ==> r.value.apiKey == apiKey.value
    ensures r.Ok? && !HasText(apiKey) ==> r.value.apiKey == env.value
    ensures r.Ok? ==> r.value.model == model && r.value.wording == wording
    ensures r.Ok? && HasText(projectRoot) ==> r.value.projectRoot == Parse(projectRoot.value)
    ensures r.Ok? && !HasText(projectRoot) ==> r.value.projectRoot == cwd
  {
    match LlmClient.ResolveApiKey(apiKey, env)
    case Err(_) => Err(Invalid("OpenAI API key is required. Set OPENAI_API_KEY env var or pass api_key."))
    case Ok(key) =>
      var root := if HasText(projectRoot) then Parse(projectRoot.value) else cwd;
      Ok(Indexer(key, model, root, chat, decode, wording))
  }

  /* ---------------------------------------------------------------- reading files */

  /** A file's content as the analysis uses it: cut to `MaxFileChars` with a marker. */
  function Capped(content: string): (r: string)
    ensures StartsWith(r, PyPrefix(content, MaxFileChars))
    ensures |r| <= MaxFileChars + |TruncatedMarker|
    ensures |content| <= MaxFileChars ==> r == content
    ensures |content| > MaxFileChars ==> EndsWith(r, TruncatedMarker)
  {
    var r := TruncateWith(content, MaxFileChars, TruncatedMarker);
    assert |content| > MaxFileChars ==>
      r[..MaxFileChars] == content[..MaxFileChars] && r[|r| - |TruncatedMarker|..] == TruncatedMarker;
    r
  }

  /** Whether a file reads without raising. */
  function ReadsOk(read: string -> Option<string>): Path -> bool
  {
    p => read(ToString(p)).Some?
  }

  /** The capped content of the file whose text form is `key` ("" when it cannot be read). */
  function CappedText(read: string -> Option<string>): string -> string
  {
    key => match read(key) case Some(c) => Capped(c) case None => ""
  }

  /** The `file_contents` dict built from `files`: each file that reads without raising,
      keyed by its text form, with its capped content. */
  function ReadContents(files: seq<Path>, read: string -> Option<string>): (r: seq<(string, string)>)
    ensures Distinct(Labels(r))
    ensures forall i :: 0 <= i < |r| ==> r[i].1 == CappedText(read)(r[i].0)
  {
    DictOf(files, ReadsOk(read), ToString, CappedText(read))
  }

  /** The dict's keys are the readable files' text forms, in first-seen order, and each
      holds the file's capped content. */
  lemma ReadContentsKeys(files: seq<Path>, read: string -> Option<string>)
    ensures Labels(ReadContents(files, read)) == Dedup(MapSeq(Filter(files, ReadsOk(read)), ToString))
    ensures var r := ReadContents(files, read);
      forall i :: 0 <= i < |r| ==> read(r[i].0).Some? && r[i].1 == Capped(read(r[i].0).value)
  {
    var r := ReadContents(files, read);
    DictOfKeys(files, ReadsOk(read), ToString, CappedText(read));
    forall i | 0 <= i < |r| ensures read(r[i].0).Some? {
      var kept := Filter(files, ReadsOk(read));
      assert Labels(r)[i] in MapSeq(kept, ToString);
      var n :| 0 <= n < |kept| && MapSeq(kept, ToString)[n] == r[i].0;
      assert ReadsOk(read)(kept[n]);
    }
  }

  /* ---------------------------------------------------------------- the analysis request */

  /** One file in the request: its path, then its content cut to `PromptChars` with "...". */
  function Entry(f: (string, string)): string
  {
    "File: " + f.0 + "\n" + Ellipsize(f.1, PromptChars)
  }

  /** The files shown in the request: the first `PromptFiles` entries, blank-line separated. */
  function FilesSummary(contents: seq<(string, string)>): string
  {
    Join(MapSeq(PyPrefix(contents, PromptFiles), Entry), "\n\n")
  }

  function AnalysisPrompt(w: Wording, contents: seq<(string, string)>): string
  {
    w.analysisHead + FilesSummary(contents) + w.analysisTail
  }

  /** Each of the first twenty files appears in the request with its path and at most
      500 characters of its content. */
  lemma PromptShowsFile(w: Wording, contents: seq<(string, string)>, i: int)
    requires 0 <= i < |contents| && i < PromptFiles
    ensures Contains(AnalysisPrompt(w, contents), "File: " + contents[i].0 + "\n" + PyPrefix(contents[i].1, PromptChars))
    ensures |Entry(contents[i])| <= 7 + |contents[i].0| + PromptChars + 3
  {
    var shown := MapSeq(PyPrefix(contents, PromptFiles), Entry);
    var e := Entry(contents[i]);
    var head := "File: " + contents[i].0 + "\n" + PyPrefix(contents[i].1, PromptChars);
    assert shown[i] == e;
    JoinContains(shown, "\n\n", i);
    ContainsInMiddle(w.analysisHead, FilesSummary(contents), w.analysisTail, e);
    assert e[..|head|] == head;
    ContainsWitness(e, head, 0);
    ContainsTransitive(AnalysisPrompt(w, contents), e, head);
  }

  /** The request depends only on the first twenty files. */
  lemma PromptIgnoresLaterFiles(w: Wording, contents: seq<(string, string)>, more: seq<(string, string)>)
    requires |contents| >= PromptFiles
    ensures AnalysisPrompt(w, contents + more) == AnalysisPrompt(w, contents)
  {
    assert PyPrefix(contents + more, PromptFiles) == PyPrefix(contents, PromptFiles);
  }

  /* ---------------------------------------------------------------- reading the answer */

  /** The components in the model's JSON answer: no "components" member means none;
      otherwise each item must validate as a `Component`. Anything else raises. */
  function ParseComponents(result: Json): (r: Result<seq<Artifacts.Component>>)
    ensures r.Ok? ==> result.JObj? || result.JArr? || result.JStr?
    ensures result.JObj? && Lookup(result.fields, "components").None? ==> r == Ok([])
    ensures result.JObj? && Lookup(result.fields, "components").Some? && Lookup(result.fields, "components").value.JArr?
            ==> r == Artifacts.ValidateEach(Lookup(result.fields, "components").value.items, Artifacts.ValidateComponent)
    ensures (result.JArr? || result.JStr?) ==> (r.Ok? <==> r == Ok([]))
  {
    var has :- PyIn("components", result);
    if !has then Ok([])
    else match result
      case JObj(fields) =>
        var items :- Iterate(Lookup(fields, "components").value);
        Artifacts.ValidateEach(items, Artifacts.ValidateComponent)
      case _ => Err(Invalid("indices must be integers"))
  }

  /* ---------------------------------------------------------------- fallback grouping */

  /** The group a file falls back to: its parent directory's name, or "root". */
  function ParentLabel(p: Path): (r: string)
    ensures r != ""
    ensures Name(Parent(p)) != "" ==> r == Name(Parent(p))
  {
    var n := Name(Parent(p));
    if n == "" then "root" else n
  }

  function FallbackComponent(g: (string, seq<Path>)): Artifacts.Component
  {
    Artifacts.Component(g.0, "Component in " + g.0 + " directory", MapSeq(g.1, ToString), [], [], [])
  }

  /** `_fallback_component_grouping` */
  function FallbackGrouping(files: seq<Path>): (r: seq<Artifacts.Component>)
    ensures |r| <= |files|
    ensures |files| > 0 ==> |r| > 0
  {
    GroupByCount(files, ParentLabel);
    MapSeq(GroupBy(files, ParentLabel), FallbackComponent)
  }

  function ComponentName(c: Artifacts.Component): string { c.name }

  /** The fallback makes one component per parent-directory name, in order of first
      appearance, so no two components share a name. */
  lemma FallbackNames(files: seq<Path>)
    ensures MapSeq(FallbackGrouping(files), ComponentName) == Dedup(MapSeq(files, ParentLabel))
    ensures var r := FallbackGrouping(files);
      forall i, j :: 0 <= i < j < |r| ==> r[i].name != r[j].name
  {
    var g := GroupBy(files, ParentLabel);
    GroupByFirstSeen(files, ParentLabel);
    assert MapSeq(FallbackGrouping(files), ComponentName) == Labels(g);
  }

  /** Each fallback component holds exactly the files under its name, in input order. */
  lemma FallbackHoldsFiles(files: seq<Path>)
    ensures var r := FallbackGrouping(files);
      forall i :: 0 <= i < |r| ==>
        r[i].filePaths == MapSeq(Filter(files, KeyIs(ParentLabel, r[i].name)), ToString) && |r[i].filePaths| > 0
  {
    var g := GroupBy(files, ParentLabel);
    var r := FallbackGrouping(files);
    GroupByPartitions(files, ParentLabel);
    forall i | 0 <= i < |r|
      ensures r[i].filePaths == MapSeq(Filter(files, KeyIs(ParentLabel, r[i].name)), ToString)
    {
      assert r[i] == FallbackComponent(g[i]);
      assert g[i].1 == Filter(files, KeyIs(ParentLabel, g[i].0));
    }
  }

  /** Every file has a component; with the names distinct, every file lands in exactly
      one component. */
  lemma FallbackCoversFiles(files: seq<Path>)
    ensures var r := FallbackGrouping(files);
      forall n :: 0 <= n < |files| ==> exists i :: 0 <= i < |r| && r[i].name == ParentLabel(files[n])
  {
    var g := GroupBy(files, ParentLabel);
    var r := FallbackGrouping(files);
    GroupByPartitions(files, ParentLabel);
    forall n | 0 <= n < |files|
      ensures exists i :: 0 <= i < |r| && r[i].name == ParentLabel(files[n])
    {
      var i := GroupIndex(g, ParentLabel(files[n]));
      assert r[i].name == g[i].0;
    }
  }

  /** Fallback components carry a fixed description and no dependencies,
      responsibilities or metadata. */
  lemma FallbackShape(files: seq<Path>)
    ensures var r := FallbackGrouping(files);
      forall i :: 0 <= i < |r| ==>
        r[i].description == "Component in " + r[i].name + " directory"
        && r[i].dependencies == [] && r[i].responsibilities == [] && r[i].metadata == []
  {
  }

  /** A file at the top of a relative tree falls into the "root" component. */
  lemma TopLevelFileIsRoot(name: string)
    requires IsPart(name)
    ensures ParentLabel(Path("", [name])) == "root"
  {
  }

  /* ---------------------------------------------------------------- analysis */

  /** `_analyze_and_group_files`: no files gives no components; otherwise the first
      hundred files are read into the request, and when the request, the decoding or
      the validation of the answer fails, every file goes through the fallback grouping. */
  function AnalyseAndGroup(ix: Indexer, files: seq<Path>, read: string -> Option<string>): (r: seq<Artifacts.Component>)
    ensures |files| == 0 ==> r == []
    ensures var call := LlmClient.MakeJsonLlmCall(ix.chat, ix.decode, ix.model, ix.wording.analysisSystem,
                                                  AnalysisPrompt(ix.wording, ReadContents(PyPrefix(files, MaxFiles), read)),
                                                  Temperature);
      |files| > 0 ==>
        (if call.Ok? && ParseComponents(call.value).Ok? then r == ParseComponents(call.value).value
         else r == FallbackGrouping(files))
  {
    if |files| == 0 then []
    else
      var contents := ReadContents(PyPrefix(files, MaxFiles), read);
      var prompt := AnalysisPrompt(ix.wording, contents);
      match LlmClient.MakeJsonLlmCall(ix.chat, ix.decode, ix.model, ix.wording.analysisSystem, prompt, Temperature)
      case Err(_) => FallbackGrouping(files)
      case Ok(result) =>
        match ParseComponents(result)
        case Ok(components) => components
        case Err(_) => FallbackGrouping(files)
  }

  /** Files past the hundredth never reach the request. */
  lemma OnlyFirstHundredRead(files: seq<Path>, more: seq<Path>, read: string -> Option<string>)
    requires |files| >= MaxFiles
    ensures ReadContents(PyPrefix(files + more, MaxFiles), read) == ReadContents(PyPrefix(files, MaxFiles), read)
  {
    assert PyPrefix(files + more, MaxFiles) == PyPrefix(files, MaxFiles);
  }

  /** A chat service that raises yields the fallback grouping over all files. */
  lemma FailedAnalysisFallsBack(ix: Indexer, files: seq<Path>, read: string -> Option<string>)
    requires |files| > 0
    requires forall q :: ix.chat(q).Raised?
    ensures AnalyseAndGroup(ix, files, read) == FallbackGrouping(files)
  {
    var contents := ReadContents(PyPrefix(files, MaxFiles), read);
    var q := LlmClient.Request(ix.model, ix.wording.analysisSystem, AnalysisPrompt(ix.wording, contents),
                               Some(LlmClient.JsonObjectFormat), Temperature);
    assert ix.chat(q).Raised?;
  }

  /* ---------------------------------------------------------------- codebase */

  /** A path argument, taken relative to the project root unless absolute. */
  function Resolve(root: Path, s: string): (r: Path)
    ensures Valid(root) ==> Valid(r)
    ensures Parse(s).root != "" ==> r == Parse(s)
    ensures Parse(s).root == "" ==> r.root == root.root && r.parts == root.parts + Parse(s).parts
  {
    var p := Parse(s);
    if p.root != "" then p else Div(root, s)
  }

  /** The files one path argument contributes: itself when it is a file, the walk's
      files when it is a directory, nothing otherwise. */
  function Found(root: Path, disk: Disk, excludes: seq<string>, s: string): (r: seq<Path>)
    ensures disk.kind(ToString(Resolve(root, s))) == IsFile ==> r == [Resolve(root, s)]
    ensures disk.kind(ToString(Resolve(root, s))) == IsDir ==> r == disk.collect(ToString(Resolve(root, s)), excludes)
    ensures disk.kind(ToString(Resolve(root, s))) == Neither ==> r == []
  {
    var path := Resolve(root, s);
    match disk.kind(ToString(path))
    case IsFile => [path]
    case IsDir => disk.collect(ToString(path), excludes)
    case Neither => []
  }

  function Finder(root: Path, disk: Disk, excludes: seq<string>): string -> seq<Path>
  {
    s => Found(root, disk, excludes, s)
  }

  /** `exclude_patterns or [...]`: an empty list also means the defaults. */
  function Excludes(given: Option<seq<string>>): (r: seq<string>)
    ensures given.Some? && |given.value| > 0 ==> r == given.value
    ensures !(given.Some? && |given.value| > 0) ==> r == DefaultExcludes
  {
    if given.Some? && |given.value| > 0 then given.value else DefaultExcludes
  }

  /** `index_codebase`: the files found under each path argument, in argument order,
      grouped into components, stamped with the time and the project root. */
  function IndexCodebase(ix: Indexer, disk: Disk, paths: seq<string>, exclude: Option<seq<string>>, now: string)
    : (r: Artifacts.ComponentIndex)
    ensures r.indexedAt == Some(now) && r.projectRoot == Some(ToString(ix.projectRoot))
    ensures r.components == AnalyseAndGroup(ix, Flatten(MapSeq(paths, Finder(ix.projectRoot, disk, Excludes(exclude)))), disk.read)
  {
    var files := Flatten(MapSeq(paths, Finder(ix.projectRoot, disk, Excludes(exclude))));
    Artifacts.ComponentIndex(AnalyseAndGroup(ix, files, disk.read), Some(now), Some(ToString(ix.projectRoot)))
  }

  /** Path arguments that name nothing give an empty index. */
  lemma {:induction false} NothingFoundNoComponents(ix: Indexer, disk: Disk, paths: seq<string>, exclude: Option<seq<string>>, now: string)
    requires forall i :: 0 <= i < |paths| ==> disk.kind(ToString(Resolve(ix.projectRoot, paths[i]))) == Neither
    ensures IndexCodebase(ix, disk, paths, exclude, now).components == []
  {
    var find := Finder(ix.projectRoot, disk, Excludes(exclude));
    FlattenEmpty(MapSeq(paths, find));
  }

  lemma {:induction false} FlattenEmpty<T>(ss: seq<seq<T>>)
    requires forall i :: 0 <= i < |ss| ==> ss[i] == []
    ensures Flatten(ss) == []
  {
    if |ss| > 0 {
      FlattenEmpty(ss[1..]);
    }
  }

  /* ---------------------------------------------------------------- summaries */

  /** The request for a plain chat call: system message, then user message, no format. */
  function Ask(ix: Indexer, system: string, user: string): LlmClient.ChatRequest
  {
    LlmClient.Request(ix.model, system, user, None, Temperature)
  }

  /** `_summarize_infrastructure`: the reply's content (which may be null), or the
      content cut to 500 characters with "..." when the call raises. */
  function SummarizeInfrastructure(ix: Indexer, content: string, context: string): (r: Option<string>)
    ensures var q := Ask(ix, ix.wording.infraRole + context + " in natural language.",
                         "Summarize this " + context + ":\n\n" + PyPrefix(content, RequestChars));
      (ix.chat(q).Replied? ==> r == ix.chat(q).content)
      && (ix.chat(q).Raised? ==> r.Some? && |r.value| <= InfraFallbackChars + 3
                                 && StartsWith(r.value, PyPrefix(content, InfraFallbackChars))
                                 && (|content| <= InfraFallbackChars ==> r.value == content))
  {
    var q := Ask(ix, ix.wording.infraRole + context + " in natural language.",
                 "Summarize this " + context + ":\n\n" + PyPrefix(content, RequestChars));
    match ix.chat(q)
    case Replied(c) => c
    case Raised(_) => Some(Ellipsize(content, InfraFallbackChars))
  }

  /** `_extract_infrastructure_from_readme`: the reply's content, or "" when the call raises. */
  function ExtractFromReadme(ix: Indexer, readme: string): (r: Option<string>)
    ensures var q := Ask(ix, ix.wording.readmeSystem,
                         "Extract infrastructure details from:\n\n" + PyPrefix(readme, RequestChars));
      (ix.chat(q).Replied? ==> r == ix.chat(q).content) && (ix.chat(q).Raised? ==> r == Some(""))
  {
    var q := Ask(ix, ix.wording.readmeSystem, "Extract infrastructure details from:\n\n" + PyPrefix(readme, RequestChars));
    match ix.chat(q)
    case Replied(c) => c
    case Raised(_) => Some("")
  }

  /** `_summarize_document`: the reply's content, or the content cut to 200 characters
      with "..." when the call raises. */
  function SummarizeDocument(ix: Indexer, content: string, filename: string): (r: Option<string>)
    ensures var q := Ask(ix, ix.wording.documentSystem,
                         "Document: " + filename + "\n\n" + PyPrefix(content, RequestChars));
      (ix.chat(q).Replied? ==> r == ix.chat(q).content)
      && (ix.chat(q).Raised? ==> r.Some? && |r.value| <= DocumentFallbackChars + 3
                                 && StartsWith(r.value, PyPrefix(content, DocumentFallbackChars))
                                 && (|content| <= DocumentFallbackChars ==> r.value == content))
  {
    var q := Ask(ix, ix.wording.documentSystem, "Document: " + filename + "\n\n" + PyPrefix(content, RequestChars));
    match ix.chat(q)
    case Replied(c) => c
    case Raised(_) => Some(Ellipsize(content, DocumentFallbackChars))
  }

  /** Every summary request carries at most 5000 characters of its input. */
  lemma RequestsCarryBoundedInput(content: string)
    ensures |PyPrefix(content, RequestChars)| <= RequestChars
    ensures |content| <= RequestChars ==> PyPrefix(content, RequestChars) == content
  {
  }

  /* ---------------------------------------------------------------- infrastructure */

  /** The dict `index_infrastructure` returns; databases and services stay empty. */
  datatype InfrastructureInfo = InfrastructureInfo(
    deployment: Option<string>,
    databases: seq<string>,
    services: seq<string>,
    configuration: Option<string>)

  /** The text `pathlib` hands to the OS for a path argument: `str(Path(s))`. */
  function PathText(s: string): string { ToString(Parse(s)) }

  /** `Path(s).exists()` */
  function Exists(disk: Disk): string -> bool
  {
    s => disk.present(PathText(s))
  }

  /** `Path(s).read_text()`, whose failure propagates. */
  function ReadText(disk: Disk, s: string): (r: Result<string>)
    ensures r.Ok? <==> disk.read(PathText(s)).Some?
    ensures r.Ok? ==> r.value == disk.read(PathText(s)).value
  {
    match disk.read(PathText(s))
    case Some(t) => Ok(t)
    case None => Err(Invalid("could not read " + PathText(s)))
  }

  /** Every path that exists can be read. */
  predicate AllReadable(disk: Disk, paths: seq<string>)
  {
    forall i :: 0 <= i < |paths| && disk.present(PathText(paths[i])) ==> disk.read(PathText(paths[i])).Some?
  }

  /** The contents of the paths that exist, in order; a failing read propagates. */
  function ExistingContents(disk: Disk, paths: seq<string>): (r: Result<seq<string>>)
    ensures r.Ok? <==> AllReadable(disk, paths)
    ensures r.Ok? ==> |r.value| <= |paths|
  {
    if |paths| == 0 then Ok([])
    else if !disk.present(PathText(paths[0])) then ExistingContents(disk, paths[1..])
    else
      var first :- ReadText(disk, paths[0]);
      var rest :- ExistingContents(disk, paths[1..]);
      Ok([first] + rest)
  }

  /** The texts are those of the existing paths, one each, in order. */
  lemma {:induction false} ExistingContentsInOrder(disk: Disk, paths: seq<string>)
    requires ExistingContents(disk, paths).Ok?
    ensures var r := ExistingContents(disk, paths).value;
      |r| == |Filter(paths, Exists(disk))|
      && forall i :: 0 <= i < |r| ==> Some(r[i]) == disk.read(PathText(Filter(paths, Exists(disk))[i]))
  {
    if |paths| > 0 {
      ExistingContentsInOrder(disk, paths[1..]);
      assert paths == [paths[0]] + paths[1..];
      FilterConcat([paths[0]], paths[1..], Exists(disk));
      if disk.present(PathText(paths[0])) {
        assert Filter([paths[0]], Exists(disk)) == [paths[0]];
      } else {
        assert Filter([paths[0]], Exists(disk)) == [];
        assert [] + Filter(paths[1..], Exists(disk)) == Filter(paths[1..], Exists(disk));
      }
    }
  }

  /** The Dockerfile's summary, when a path is given and exists. */
  function DockerDeployment(ix: Indexer, disk: Disk, path: Option<string>): (r: Result<Option<string>>)
    ensures !(HasText(path) && disk.present(PathText(path.value))) ==> r == Ok(None)
    ensures HasText(path) && disk.present(PathText(path.value)) ==>
      (r.Ok? <==> disk.read(PathText(path.value)).Some?)
      && (r.Ok? ==> r.value == SummarizeInfrastructure(ix, disk.read(PathText(path.value)).value, "deployment configuration"))
  {
    if HasText(path) && disk.present(PathText(path.value)) then
      var content :- ReadText(disk, path.value);
      Ok(SummarizeInfrastructure(ix, content, "deployment configuration"))
    else Ok(None)
  }

  /** The joined configuration files' summary, when any of them exists. */
  function Configuration(ix: Indexer, disk: Disk, paths: Option<seq<string>>): (r: Result<Option<string>>)
    ensures !(paths.Some? && |paths.value| > 0) ==> r == Ok(None)
    ensures paths.Some? && |paths.value| > 0 ==>
      (r.Ok? <==> ExistingContents(disk, paths.value).Ok?)
      && (r.Ok? && |ExistingContents(disk, paths.value).value| == 0 ==> r.value.None?)
      && (r.Ok? && |ExistingContents(disk, paths.value).value| > 0 ==>
            r.value == SummarizeInfrastructure(ix, Join(ExistingContents(disk, paths.value).value, "\n\n"), "configuration"))
  {
    if paths.Some? && |paths.value| > 0 then
      var contents :- ExistingContents(disk, paths.value);
      if |contents| == 0 then Ok(None)
      else Ok(SummarizeInfrastructure(ix, Join(contents, "\n\n"), "configuration"))
    else Ok(None)
  }

  /** The README's extraction, when a path is given and exists. */
  function ReadmeDeployment(ix: Indexer, disk: Disk, path: Option<string>): (r: Result<Option<Option<string>>>)
    ensures !(HasText(path) && disk.present(PathText(path.value))) ==> r == Ok(None)
    ensures HasText(path) && disk.present(PathText(path.value)) ==>
      (r.Ok? <==> disk.read(PathText(path.value)).Some?)
      && (r.Ok? ==> r.value == Some(ExtractFromReadme(ix, disk.read(PathText(path.value)).value)))
  {
    if HasText(path) && disk.present(PathText(path.value)) then
      var content :- ReadText(disk, path.value);
      Ok(Some(ExtractFromReadme(ix, content)))
    else Ok(None)
  }

  /** `index_infrastructure`: the Dockerfile, then the configuration files, then the
      README; a README that exists replaces the Dockerfile's deployment text. */
  function IndexInfrastructure(ix: Indexer, disk: Disk, configPaths: Option<seq<string>>,
                               dockerfilePath: Option<string>, readmePath: Option<string>)
    : (r: Result<InfrastructureInfo>)
    ensures r.Ok? <==> DockerDeployment(ix, disk, dockerfilePath).Ok?
                       && Configuration(ix, disk, configPaths).Ok?
                       && ReadmeDeployment(ix, disk, readmePath).Ok?
    ensures r.Ok? ==> r.value.databases == [] && r.value.services == []
    ensures r.Ok? ==> r.value.configuration == Configuration(ix, disk, configPaths).value
    ensures r.Ok? && ReadmeDeployment(ix, disk, readmePath).value.Some? ==>
      r.value.deployment == ReadmeDeployment(ix, disk, readmePath).value.value
    ensures r.Ok? && ReadmeDeployment(ix, disk, readmePath).value.None? ==>
      r.value.deployment == DockerDeployment(ix, disk, dockerfilePath).value
  {
    var docker :- DockerDeployment(ix, disk, dockerfilePath);
    var configuration :- Configuration(ix, disk, configPaths);
    var readme :- ReadmeDeployment(ix, disk, readmePath);
    var deployment := match readme case Some(d) => d case None => docker;
    Ok(InfrastructureInfo(deployment, [], [], configuration))
  }

  /** Even when the README extraction fails, an existing README wins: the deployment
      text becomes "", whatever the Dockerfile gave. */
  lemma ReadmeOverridesDockerfile(ix: Indexer, disk: Disk, configPaths: Option<seq<string>>,
                                  dockerfilePath: Option<string>, readme: string)
    requires |readme| > 0 && disk.present(PathText(readme))
    requires IndexInfrastructure(ix, disk, configPaths, dockerfilePath, Some(readme)).Ok?
    requires forall q :: ix.chat(q).Raised?
    ensures IndexInfrastructure(ix, disk, configPaths, dockerfilePath, Some(readme)).value.deployment == Some("")
  {
    var text := disk.read(PathText(readme)).value;
    var q := Ask(ix, ix.wording.readmeSystem, "Extract infrastructure details from:\n\n" + PyPrefix(text, RequestChars));
    assert ix.chat(q).Raised?;
  }

  /* ---------------------------------------------------------------- documents */

  /** The summary stored under a path text: the document's summary under its name. */
  function DocumentSummary(ix: Indexer, disk: Disk): string -> Option<string>
  {
    key => match disk.read(key)
      case Some(content) => SummarizeDocument(ix, content, Name(Parse(key)))
      case None => None
  }

  /** The first existing path that cannot be read, if any. */
  function FirstUnreadable(disk: Disk, paths: seq<string>): (r: Option<string>)
    ensures r.None? <==> AllReadable(disk, paths)
    ensures r.Some? ==> r.value in paths && disk.present(PathText(r.value)) && disk.read(PathText(r.value)).None?
  {
    if |paths| == 0 then None
    else if disk.present(PathText(paths[0])) && disk.read(PathText(paths[0])).None? then Some(paths[0])
    else
      var r := FirstUnreadable(disk, paths[1..]);
      assert AllReadable(disk, paths) <==> AllReadable(disk, paths[1..]) by {
        assert forall i :: 1 <= i < |paths| ==> paths[i] == paths[1..][i - 1];
      }
      r
  }

  /** `index_documents`: each existing document's summary, keyed by its path text; a
      later document with the same path replaces the summary in place; a failing read
      propagates. */
  function IndexDocuments(ix: Indexer, disk: Disk, paths: seq<string>): (r: Result<seq<(string, Option<string>)>>)
    ensures r.Ok? <==> AllReadable(disk, paths)
    ensures r.Ok? ==> Distinct(Labels(r.value))
    ensures r.Ok? ==> forall i :: 0 <= i < |r.value| ==> r.value[i].1 == DocumentSummary(ix, disk)(r.value[i].0)
  {
    match FirstUnreadable(disk, paths)
    case Some(p) => Err(Invalid("could not read " + PathText(p)))
    case None => Ok(DictOf(paths, Exists(disk), PathText, DocumentSummary(ix, disk)))
  }

  /** The summaries are keyed by the existing documents' path texts, in first-seen order. */
  lemma DocumentKeysInOrder(ix: Indexer, disk: Disk, paths: seq<string>)
    requires IndexDocuments(ix, disk, paths).Ok?
    ensures Labels(IndexDocuments(ix, disk, paths).value) == Dedup(MapSeq(Filter(paths, Exists(disk)), PathText))
  {
    DictOfKeys(paths, Exists(disk), PathText, DocumentSummary(ix, disk));
  }

  /** The name the summary request uses is the document's own file name. */
  lemma DocumentNamedByPath(s: string)
    ensures Name(Parse(PathText(s))) == Name(Parse(s))
  {
    ParseToString(Parse(s));
  }
}
