/** The LLM-free structure analysis: a language per file extension, the imports of a
    Python file, the import table of the Python files, and a grouping of files by their
    parent directory. Reading files and parsing Python are parameters. */
module CodebaseAnalyzer {
  import opened Base
  import opened Text
  import opened Collections
  import opened PyPath

  const Unknown := "unknown"

  /** The extension table of `detect_language`. */
  function Language(ext: string): (r: string)
    ensures r != Unknown <==> ext in {".py", ".js", ".ts", ".java", ".go", ".rs", ".cpp", ".c", ".rb", ".php"}
  {
    if ext == ".py" then "python"
    else if ext == ".js" then "javascript"
    else if ext == ".ts" then "typescript"
    else if ext == ".java" then "java"
    else if ext == ".go" then "go"
    else if ext == ".rs" then "rust"
    else if ext == ".cpp" then "cpp"
    else if ext == ".c" then "c"
    else if ext == ".rb" then "ruby"
    else if ext == ".php" then "php"
    else Unknown
  }

  /** The table read backwards: the extension of a language. */
  function Extension(language: string): (r: Option<string>)
  {
    if language == "python" then Some(".py")
    else if language == "javascript" then Some(".js")
    else if language == "typescript" then Some(".ts")
    else if language == "java" then Some(".java")
    else if language == "go" then Some(".go")
    else if language == "rust" then Some(".rs")
    else if language == "cpp" then Some(".cpp")
    else if language == "c" then Some(".c")
    else if language == "ruby" then Some(".rb")
    else if language == "php" then Some(".php")
    else None
  }

  /** The table is one-to-one: a known extension's language leads back to it, and a
      language's extension leads back to the language. */
  lemma LanguageRoundTrip(ext: string, language: string)
    ensures Language(ext) != Unknown ==> Extension(Language(ext)) == Some(ext)
    ensures Extension(language).Some? ==> Language(Extension(language).value) == language
  {
  }

  /** `detect_language`: the table entry of the lower-cased final suffix, that is, of
      the last component's text from its final dot on; a name without a suffix is
      "unknown". */
  function DetectLanguage(p: Path): (r: string)
    ensures r == Unknown || Extension(r) == Some(Lower(Suffix(p)))
    ensures forall i :: FinalDotAt(Name(p), i) ==> r == Language(Lower(Name(p)[i..]))
    ensures NoSuffixName(Name(p)) ==> r == Unknown
  {
    LanguageRoundTrip(Lower(Suffix(p)), "");
    assert Lower("") == "";
    Language(Lower(Suffix(p)))
  }

  /** A file whose name is `base.ext`, in any directory, gets the language of ".ext"
      lower-cased. */
  lemma LanguageOfName(p: Path, base: string, ext: string)
    requires Name(p) == base + "." + ext
    requires |base| > 0 && |ext| > 0 && '.' !in ext
    ensures DetectLanguage(p) == Language("." + Lower(ext))
  {
    FinalDotOfName(base, ext);
    LowerConcat(".", ext);
    assert Lower(".") == ".";
  }

  /* ---------------------------------------------------------------- imports */

  /** The import statements of a parsed module, as `ast.walk` yields them; every other
      node is `Other`. */
  datatype ImportNode = Import(names: seq<string>) | ImportFrom(moduleName: Option<string>) | Other

  /** What one node contributes: every imported name, or the module of a
      `from ... import` when it has one. */
  function NodeImports(n: ImportNode): seq<string>
  {
    match n
    case Import(names) => names
    case ImportFrom(m) => if HasText(m) then [m.value] else []
    case Other => []
  }

  function ImportsOf(nodes: seq<ImportNode>): (r: seq<string>)
    ensures forall x :: x in r ==> exists i :: 0 <= i < |nodes| && x in NodeImports(nodes[i])
    ensures forall i :: 0 <= i < |nodes| ==> forall x :: x in NodeImports(nodes[i]) ==> x in r
  {
    if |nodes| == 0 then []
    else
      var rest := ImportsOf(nodes[1..]);
      assert forall i :: 1 <= i < |nodes| ==> nodes[i] == nodes[1..][i - 1];
      NodeImports(nodes[0]) + rest
  }

  /** Imports are collected node by node, in walk order. */
  lemma {:induction false} ImportsConcat(a: seq<ImportNode>, b: seq<ImportNode>)
    ensures ImportsOf(a + b) == ImportsOf(a) + ImportsOf(b)
    decreases |a|
  {
    if |a| == 0 {
      assert a + b == b;
    } else {
      assert (a + b)[1..] == a[1..] + b;
      ImportsConcat(a[1..], b);
    }
  }

  /** Parsing Python source: the walked nodes, or `None` on a syntax error. */
  type PythonParser = string -> Option<seq<ImportNode>>

  /** `extract_python_imports`: any failure to read or to parse gives no imports. */
  function ExtractPythonImports(content: Option<string>, parse: PythonParser): (r: seq<string>)
    ensures content.None? ==> r == []
    ensures content.Some? && parse(content.value).None? ==> r == []
    ensures content.Some? && parse(content.value).Some? ==> r == ImportsOf(parse(content.value).value)
  {
    match content
    case None => []
    case Some(text) =>
      match parse(text)
      case None => []
      case Some(nodes) => ImportsOf(nodes)
  }

  /** Nodes that are not import statements contribute nothing. */
  lemma {:induction false} NoImportNodes(nodes: seq<ImportNode>)
    requires forall i :: 0 <= i < |nodes| ==> nodes[i].Other?
    ensures ImportsOf(nodes) == []
    decreases |nodes|
  {
    if |nodes| > 0 {
      NoImportNodes(nodes[1..]);
    }
  }

  /* ---------------------------------------------------------------- dependencies */

  /** The `.py` test, which is case-sensitive. */
  predicate IsPython(p: Path) { Suffix(p) == ".py" }

  function ToSet(s: seq<string>): (r: set<string>)
    ensures forall x :: x in r <==> x in s
  {
    set x | x in s
  }

  /** `set(extract_python_imports(path))` for the file whose text form is `key`. */
  function Imports(key: string, read: string -> Option<string>, parse: PythonParser): (r: set<string>)
    ensures forall x :: x in r <==> x in ExtractPythonImports(read(key), parse)
  {
    ToSet(ExtractPythonImports(read(key), parse))
  }

  function ImportsOfKey(read: string -> Option<string>, parse: PythonParser): string -> set<string>
  {
    key => Imports(key, read, parse)
  }

  /** `find_dependencies`: for each Python file, keyed by its text form, the set of its
      imports. `read` gives a file's text, or `None` when reading raises. */
  function FindDependencies(files: seq<Path>, read: string -> Option<string>, parse: PythonParser)
    : (r: seq<(string, set<string>)>)
    ensures Distinct(Labels(r))
    ensures forall i :: 0 <= i < |r| ==> r[i].1 == Imports(r[i].0, read, parse)
  {
    DictOf(files, IsPython, ToString, ImportsOfKey(read, parse))
  }

  /** The table has keys exactly for the Python files, in first-seen order. */
  lemma DependencyKeys(files: seq<Path>, read: string -> Option<string>, parse: PythonParser)
    ensures Labels(FindDependencies(files, read, parse)) == Dedup(MapSeq(Filter(files, IsPython), ToString))
  {
    DictOfKeys(files, IsPython, ToString, ImportsOfKey(read, parse));
  }

  /** A file named `base.ext` is a Python file only when `ext` is exactly "py": ".PY"
      and ".Py" do not count. */
  lemma PythonOnlyForLowerPy(base: string, ext: string)
    requires |base| > 0 && base[0] != '/' && '/' !in base
    requires |ext| > 0 && '.' !in ext && '/' !in ext
    ensures IsPython(Parse(base + "." + ext)) <==> ext == "py"
  {
    NameParts(base, ext);
    if "." + ext == ".py" {
      assert ext == ("." + ext)[1..];
    }
  }

  /* ---------------------------------------------------------------- directories */

  /** The text form of a file's parent directory. */
  function ParentText(p: Path): string { ToString(Parent(p)) }

  /** `group_by_directory` */
  function GroupByDirectory(files: seq<Path>): (r: seq<(string, seq<Path>)>)
    ensures |r| <= |files|
    ensures |files| > 0 ==> |r| > 0
  {
    GroupByCount(files, ParentText);
    GroupBy(files, ParentText)
  }

  /** The groups are keyed by the parent directories in first-seen order; each holds
      exactly the files in that directory, in input order; every file has a group. */
  lemma DirectoryGroups(files: seq<Path>)
    ensures Labels(GroupByDirectory(files)) == Dedup(MapSeq(files, ParentText))
    ensures LabelsDistinct(GroupByDirectory(files))
    ensures GroupsHold(GroupByDirectory(files), files, ParentText)
    ensures GroupsCover(GroupByDirectory(files), files, ParentText)
  {
    GroupByFirstSeen(files, ParentText);
    GroupByPartitions(files, ParentText);
  }

  /** A file at the top of a relative tree is grouped under ".". */
  lemma TopLevelFileUnderDot(name: string)
    requires IsPart(name)
    ensures ParentText(Path("", [name])) == "."
  {
  }
}
