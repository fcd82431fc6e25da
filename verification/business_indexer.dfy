/** The business-context indexer: each listed file (a local path or an `s3://bucket/key`
    location) is read, summarised by the LLM into a markdown artifact with a metadata
    header, and saved as `<sanitised name>.md` in the output directory. A file that cannot
    be read, is empty, or cannot be saved is skipped. The chat service, the clock, the S3
    client, the document readers and the file system are parameters. */
module BusinessIndexer {
  import opened Base
  import opened Text
  import opened Collections
  import opened PyPath
  import LlmClient
  import RepoCrawler

  /* ================================================================ file types */

  /** The type table of `_detect_file_type`, on a lower-cased suffix: anything unknown
      is text. */
  function FileTypeOfSuffix(ext: string): (r: string)
    ensures r == "pdf" || r == "csv" || r == "markdown" || r == "text"
    ensures r == "pdf" <==> ext == ".pdf"
    ensures r == "csv" <==> ext == ".csv"
    ensures r == "markdown" <==> ext == ".md" || ext == ".markdown"
  {
    if ext == ".pdf" then "pdf"
    else if ext == ".csv" then "csv"
    else if ext in [".md", ".markdown"] then "markdown"
    else "text"
  }

  /** `_detect_file_type`: the table entry of the lower-cased final suffix, that is, of
      the last component's text from its final dot on; a component without a suffix
      is text. */
  function DetectFileType(path: string): (r: string)
    ensures r == "pdf" || r == "csv" || r == "markdown" || r == "text"
    ensures var n := Name(Parse(path));
      forall i :: FinalDotAt(n, i) ==> r == FileTypeOfSuffix(Lower(n[i..]))
    ensures NoSuffixName(Name(Parse(path))) ==> r == "text"
  {
    FileTypeOfSuffix(Lower(Suffix(Parse(path))))
  }

  /** Any path whose last component is `base.ext` gets the table entry of ".ext",
      whatever the directories before it and the case of `ext`. */
  lemma TypeOfName(path: string, base: string, ext: string)
    requires Name(Parse(path)) == base + "." + ext
    requires |base| > 0 && |ext| > 0 && '.' !in ext
    ensures DetectFileType(path) == FileTypeOfSuffix("." + Lower(ext))
  {
    FinalDotOfName(base, ext);
    LowerConcat(".", ext);
    assert Lower(".") == ".";
  }

  /** Any path ending in "Spec.PDF", such as "docs/Spec.PDF", is a PDF. */
  lemma UpperCasePdf(path: string)
    requires Name(Parse(path)) == "Spec.PDF"
    ensures DetectFileType(path) == "pdf"
  {
    assert "Spec.PDF" == "Spec" + "." + "PDF";
    TypeOfName(path, "Spec", "PDF");
    UpperPdfSuffix();
  }

  lemma UpperPdfSuffix()
    ensures FileTypeOfSuffix("." + Lower("PDF")) == "pdf"
  {
    var l := Lower("PDF");
    assert l[0] == 'p' && l[1] == 'd' && l[2] == 'f';
    assert "." + l == ".pdf";
  }

  /* ================================================================ artifact file names */

  /** The characters `_sanitize_filename` replaces by an underscore. */
  predicate IsInvalidChar(c: char) {
    c == '<' || c == '>' || c == ':' || c == '"' || c == '/' || c == '\\' || c == '|' || c == '?' || c == '*'
  }

  const MaxNameLength := 100

  /** The character replacement and the length cut of `_sanitize_filename`. (The
      replacement loop runs once per invalid character; "_" is not one of them, so the
      order of the replacements does not matter.) */
  function SanitizeStem(stem: string): (r: string)
    ensures |r| <= MaxNameLength
    ensures |r| == (if |stem| <= MaxNameLength then |stem| else MaxNameLength)
    ensures forall i :: 0 <= i < |r| ==> !IsInvalidChar(r[i])
    ensures forall i :: 0 <= i < |r| ==> (if IsInvalidChar(stem[i]) then r[i] == '_' else r[i] == stem[i])
  {
    PyPrefix(MapChars(stem, IsInvalidChar, '_'), MaxNameLength)
  }

  /** `_sanitize_filename`: the file name without its final extension, with every
      invalid character replaced by "_", cut to 100 characters. */
  function SanitizeFilename(filename: string): (r: string)
    ensures |r| <= MaxNameLength
    ensures forall i :: 0 <= i < |r| ==> !IsInvalidChar(r[i])
  {
    SanitizeStem(Stem(Parse(filename)))
  }

  /** A file named `base.ext` whose base is short and free of invalid characters keeps
      its base as the artifact name. */
  lemma SanitizeKeepsCleanBase(base: string, ext: string)
    requires |base| > 0 && base[0] != '/' && '/' !in base
    requires |ext| > 0 && '.' !in ext && '/' !in ext
    requires |base| <= MaxNameLength
    requires forall i :: 0 <= i < |base| ==> !IsInvalidChar(base[i])
    ensures SanitizeFilename(base + "." + ext) == base
  {
    NameParts(base, ext);
  }

  /** A name free of invalid characters, followed by ".md", is one relative path
      component. */
  lemma MarkdownFileParses(s: string)
    requires forall i :: 0 <= i < |s| ==> !IsInvalidChar(s[i])
    ensures Parse(s + ".md") == Path("", [s + ".md"])
  {
    var file := s + ".md";
    assert '/' !in file by {
      forall i | 0 <= i < |file| ensures file[i] != '/' {
        if i < |s| { assert file[i] == s[i]; assert !IsInvalidChar(s[i]); }
        else { assert file[i] == ".md"[i - |s|]; }
      }
    }
    SplitNoSep(file, '/');
    assert IsPart(file) by { assert |file| >= 3; }
    assert Filter([file], IsPart) == [file];
    assert RootOf(file) == "" by {
      if |s| > 0 { assert file[0] == s[0]; assert !IsInvalidChar(s[0]); } else { assert file[0] == '.'; }
    }
  }

  /** The artifact file `<sanitised>.md` is a single path component, so it lands
      directly inside the output directory. */
  lemma ArtifactInOutputDir(out: Path, filename: string)
    requires Valid(out)
    ensures var file := SanitizeFilename(filename) + ".md";
      Div(out, file) == Path(out.root, out.parts + [file])
      && Parent(Div(out, file)) == out && Name(Div(out, file)) == file
  {
    var file := SanitizeFilename(filename) + ".md";
    MarkdownFileParses(SanitizeFilename(filename));
    assert (out.parts + [file])[..|out.parts|] == out.parts;
  }

  /* ================================================================ output directory */

  const DefaultOutputParts: seq<string> := [".project-resources", "business-context"]

  /** The output directory: the given one when it is a non-empty string, otherwise
      `.project-resources/business-context` relative to the working directory (see
      `DefaultOutputIsJoin`). */
  function OutputPath(outputDir: Option<string>): (r: Path)
    ensures Valid(r)
    ensures HasText(outputDir) ==> r == Parse(outputDir.value)
    ensures !HasText(outputDir) ==> Parent(r) == Path("", [".project-resources"]) && Name(r) == "business-context"
  {
    if HasText(outputDir) then Parse(outputDir.value) else Path("", DefaultOutputParts)
  }

  /** A relative path of two plain components is the first joined with the second. */
  lemma JoinTwo(a: string, b: string)
    requires IsPart(a) && IsPart(b)
    ensures Div(Parse(a), b) == Path("", [a, b])
  {
    SplitNoSep(a, '/');
    SplitNoSep(b, '/');
    assert Filter([a], IsPart) == [a];
    assert Filter([b], IsPart) == [b];
    assert RootOf(a) == "" && RootOf(b) == "" by {
      assert a[0] != '/' && b[0] != '/';
    }
  }

  /** The default output directory is `Path(".project-resources") / "business-context"`. */
  lemma DefaultOutputIsJoin()
    ensures OutputPath(None) == Div(Parse(".project-resources"), "business-context")
  {
    var a := ".project-resources";
    var b := "business-context";
    assert IsPart(a) by { assert a[0] == '.' && a[1] == 'p'; assert forall k :: 0 <= k < |a| ==> a[k] != '/'; }
    assert IsPart(b) by { assert b[0] == 'b'; assert forall k :: 0 <= k < |b| ==> b[k] != '/'; }
    JoinTwo(a, b);
  }

  /* ================================================================ reading */

  /** What a reader gives back: the text (absent when reading failed), the file type
      (absent likewise, except for S3, which reports the type it detected), and the file
      name. */
  datatype ReadOutcome = ReadOutcome(content: Option<string>, fileType: Option<string>, filename: string)

  /** The document readers: the text extracted from the file at a path for a given
      type (PDF text, CSV summary, or plain text), or `None` when the reader raised. */
  type Reader = (string, string) -> Option<string>

  /** One S3 download of `(bucket, key)` into a temporary file. */
  datatype Download = Downloaded(tmpPath: string) | ClientError(message: string) | DownloadRaised(message: string)

  /** `_read_local_file`: a missing path raises `FileNotFoundError`; otherwise the given
      type (or the detected one) selects the reader, and a failing reader gives no content. */
  function ReadLocalFile(path: string, fileType: Option<string>, present: string -> bool, read: Reader): (r: Result<ReadOutcome>)
    ensures r.Err? <==> !present(path)
    ensures r.Err? ==> r.error == NotFound(path)
    ensures r.Ok? ==> r.value.filename == Name(Parse(path))
    ensures r.Ok? ==> r.value.content.Some? == r.value.fileType.Some?
    ensures r.Ok? ==> var t := if fileType.Some? then fileType.value else DetectFileType(path);
      r.value.content == read(path, t) && (r.value.fileType.Some? ==> r.value.fileType.value == t)
  {
    if !present(path) then Err(NotFound(path))
    else
      var t := if fileType.None? then DetectFileType(path) else fileType.value;
      var filename := Name(Parse(path));
      match read(path, t)
      case Some(text) => Ok(ReadOutcome(Some(text), Some(t), filename))
      case None => Ok(ReadOutcome(None, None, filename))
  }

  /** The bucket (the URL authority) and the key (the URL path without leading slashes)
      of an S3 location. */
  function S3Location(s3Path: string): (r: (string, string))
    ensures |r.1| == 0 || r.1[0] != '/'
  {
    var u := RepoCrawler.SplitUrl(s3Path);
    (u.netloc, LStrip(u.path, RepoCrawler.IsSlash))
  }

  /** "s3" is a lower-case scheme. */
  lemma S3IsScheme()
    ensures |"s3"| > 0 && RepoCrawler.IsAsciiLetter("s3"[0])
    ensures forall k :: 0 <= k < |"s3"| ==> RepoCrawler.IsSchemeChar("s3"[k]) && !IsAsciiUpper("s3"[k])
  {
    var h := "s3";
    assert h[0] == 's' && h[1] == '3';
  }

  /** An "s3://" URL splits into its authority and path. */
  lemma S3Split(bucket: string, path: string)
    requires forall k :: 0 <= k < |bucket| ==> RepoCrawler.NotNetlocEnd(bucket[k])
    requires path == [] || path[0] == '/'
    requires forall k :: 0 <= k < |path| ==> path[k] != '?' && path[k] != '#'
    ensures RepoCrawler.SplitUrl("s3://" + bucket + path) == RepoCrawler.UrlParts("s3", bucket, path)
  {
    S3IsScheme();
    RepoCrawler.SplitUrlRoundTrip("s3", bucket, path);
    assert "s3://" == "s3" + "://";
  }

  /** Stripping leading slashes from "/key" gives back a key that does not start with one. */
  lemma StripOneSlash(key: string)
    requires |key| > 0 && key[0] != '/'
    ensures LStrip("/" + key, RepoCrawler.IsSlash) == key
  {
    var path := "/" + key;
    assert path[1..] == key;
    assert RepoCrawler.IsSlash(path[0]);
    assert LStrip(path, RepoCrawler.IsSlash) == LStrip(key, RepoCrawler.IsSlash);
  }

  /** `s3://bucket/key` splits back into its bucket and key. */
  lemma S3LocationRoundTrip(bucket: string, key: string)
    requires forall k :: 0 <= k < |bucket| ==> RepoCrawler.NotNetlocEnd(bucket[k])
    requires |key| > 0 && key[0] != '/'
    requires forall k :: 0 <= k < |key| ==> key[k] != '?' && key[k] != '#'
    ensures S3Location("s3://" + bucket + "/" + key) == (bucket, key)
  {
    var path := "/" + key;
    var url := "s3://" + bucket + "/" + key;
    assert url == "s3://" + bucket + path;
    assert RepoCrawler.SplitUrl(url) == RepoCrawler.UrlParts("s3", bucket, path) by {
      SlashKeyHasNoQuery(key);
      S3Split(bucket, path);
    }
    StripOneSlash(key);
  }

  lemma SlashKeyHasNoQuery(key: string)
    requires forall k :: 0 <= k < |key| ==> key[k] != '?' && key[k] != '#'
    ensures forall k :: 0 <= k < |"/" + key| ==> ("/" + key)[k] != '?' && ("/" + key)[k] != '#'
  {
    var path := "/" + key;
    forall k | 0 <= k < |path| ensures path[k] != '?' && path[k] != '#' {
      if k > 0 { assert path[k] == key[k - 1]; }
    }
  }

  /** `_read_from_s3`: without a client it raises; `urlparse` raises on a location whose
      authority holds one square bracket without the other; a location missing its
      bucket or key raises; a client error gives no content; otherwise the downloaded
      copy is read with the type detected from the key, and the file name is the key's
      last part. */
  function ReadFromS3(s3Path: string, s3: Option<(string, string) -> Download>, present: string -> bool, read: Reader): (r: Result<ReadOutcome>)
    ensures r.Ok? ==> s3.Some? && !RepoCrawler.UnbalancedBrackets(RepoCrawler.SplitUrl(s3Path).netloc)
                      && S3Location(s3Path).0 != "" && S3Location(s3Path).1 != ""
    ensures r.Ok? ==> r.value.filename == Name(Parse(S3Location(s3Path).1))
    ensures r.Ok? ==> r.value.content.Some? ==> r.value.fileType == Some(DetectFileType(S3Location(s3Path).1))
    ensures r.Ok? && r.value.content.Some? ==>
      var loc := S3Location(s3Path);
      s3.value(loc.0, loc.1).Downloaded? && r.value.content == read(s3.value(loc.0, loc.1).tmpPath, DetectFileType(loc.1))
    ensures s3.Some? && !RepoCrawler.UnbalancedBrackets(RepoCrawler.SplitUrl(s3Path).netloc)
            && S3Location(s3Path).0 != "" && S3Location(s3Path).1 != "" ==>
      (r.Ok? <==> match s3.value(S3Location(s3Path).0, S3Location(s3Path).1)
                   case Downloaded(tmp) => present(tmp)
                   case ClientError(_) => true
                   case DownloadRaised(_) => false)
  {
    if s3.None? then Err(Invalid("S3 client not initialized. Provide AWS credentials."))
    else if RepoCrawler.UnbalancedBrackets(RepoCrawler.SplitUrl(s3Path).netloc) then Err(Invalid("Invalid IPv6 URL"))
    else
      var loc := S3Location(s3Path);
      if loc.0 == "" || loc.1 == "" then Err(Invalid("Invalid S3 path format: " + s3Path + ". Expected s3://bucket/key"))
      else FromDownload(s3.value(loc.0, loc.1), loc.1, present, read)
  }

  /** The outcome of downloading `key`: the temporary copy is read with the type detected
      from the key, a client error gives no content, and any other failure raises. The
      file name is always the key's last part. */
  function FromDownload(d: Download, key: string, present: string -> bool, read: Reader): (r: Result<ReadOutcome>)
    ensures r.Ok? ==> r.value.filename == Name(Parse(key))
    ensures r.Ok? ==> r.value.content.Some? ==> r.value.fileType == Some(DetectFileType(key))
    ensures r.Ok? && r.value.content.Some? ==> d.Downloaded? && r.value.content == read(d.tmpPath, DetectFileType(key))
    ensures r.Ok? <==> match d
                       case Downloaded(tmp) => present(tmp)
                       case ClientError(_) => true
                       case DownloadRaised(_) => false
  {
    var t := DetectFileType(key);
    var name := Name(Parse(key));
    match d
    case Downloaded(tmp) =>
      var local :- ReadLocalFile(tmp, Some(t), present, read);
      Ok(ReadOutcome(local.content, Some(t), name))
    case ClientError(_) => Ok(ReadOutcome(None, None, name))
    case DownloadRaised(message) => Err(Invalid(message))
  }

  /* ================================================================ the markdown artifact */

  const PreviewLength := 15000
  const TruncationMarker := "\n\n[Content truncated for processing...]"

  /** The part of the document sent to the LLM: its first 15000 characters, followed by
      a truncation marker exactly when something was cut. */
  function Preview(content: string): (r: string)
    ensures |content| <= PreviewLength ==> r == content
    ensures |content| > PreviewLength ==> |r| == PreviewLength + |TruncationMarker|
    ensures StartsWith(r, PyPrefix(content, PreviewLength))
    ensures |content| > PreviewLength ==> EndsWith(r, TruncationMarker)
  {
    TruncateWith(content, PreviewLength, TruncationMarker)
  }

  const SystemPrompt := "You are a business context analyst. Create clear, structured markdown documentation from business documents that will be used to provide context for software development."

  const PromptOpening := "Analyze the following business context document and create a comprehensive markdown index artifact.\n\nThe document is a "
  const PromptFocus := "\" that contains business context information.\n\nFocus on extracting:\n- Key business concepts and terminology\n- Business rules and constraints\n- Domain-specific information\n- Important data structures or entities\n- Business processes or workflows mentioned\n- Key metrics or KPIs\n- Any technical requirements or constraints\n\nDocument Content:\n"
  const PromptInstructions := "\n\nCreate a well-structured markdown document with:\n1. **Overview**: Brief summary of the document's purpose and key topics\n2. **Key Concepts**: Important business concepts and terminology\n3. **Business Rules**: Any rules, constraints, or requirements mentioned\n4. **Data Structures**: Important data entities, fields, or structures\n5. **Processes**: Business processes or workflows described\n6. **Metrics**: Key metrics, KPIs, or measurements mentioned\n7. **Technical Context**: Any technical requirements or constraints\n\nFormat the output as clean markdown without code blocks. Use headers, lists, and tables as appropriate.\nBe concise but comprehensive. Focus on information that would be useful for software development context."

  /** The fixed text of the analysis request: the system message and the three parts of
      the user message around the file type, the file name and the preview. */
  datatype Wording = Wording(system: string, opening: string, focus: string, instructions: string)

  /** The wording the indexer sends. The models below take the wording as a parameter
      so that their proofs do not carry these long texts. */
  const SourceWording := Wording(SystemPrompt, PromptOpening, PromptFocus, PromptInstructions)

  /** The pieces of the analysis request, in order. */
  function PromptPieces(w: Wording, fileType: string, filename: string, preview: string): seq<string>
  {
    [w.opening, Upper(fileType), " file named \"", filename, w.focus, preview, w.instructions]
  }

  /** The analysis request: the upper-cased type, the quoted file name and the preview
      inside the fixed instructions. */
  function Prompt(w: Wording, fileType: string, filename: string, preview: string): (r: string)
  {
    Flatten(PromptPieces(w, fileType, filename, preview))
  }

  /** The request names the file and its type and carries the whole preview. */
  lemma PromptShowsDocument(w: Wording, fileType: string, filename: string, content: string)
    ensures var r := Prompt(w, fileType, filename, Preview(content));
      Contains(r, Upper(fileType)) && Contains(r, filename) && Contains(r, Preview(content))
    ensures |content| <= PreviewLength ==> Contains(Prompt(w, fileType, filename, Preview(content)), content)
  {
    var ps := PromptPieces(w, fileType, filename, Preview(content));
    ContainsSelf(Upper(fileType));
    ContainsSelf(filename);
    ContainsSelf(Preview(content));
    FlattenContains(ps, 1, Upper(fileType));
    FlattenContains(ps, 3, filename);
    FlattenContains(ps, 5, Preview(content));
  }

  /** The metadata lines both kinds of artifact start with. */
  function Metadata(filename: string, sourcePath: string, fileType: string, now: string): (r: string)
  {
    Flatten(["# Business Context: ", filename, "\n\n**Source**: ", sourcePath, "  \n**File Type**: ",
             Upper(fileType), "  \n**Indexed**: ", now, "\n\n"])
  }

  /** The metadata names the file, its source, its upper-cased type and the time. */
  lemma MetadataNamesSource(filename: string, sourcePath: string, fileType: string, now: string)
    ensures var m := Metadata(filename, sourcePath, fileType, now);
      StartsWith(m, "# Business Context: " + filename)
      && Contains(m, sourcePath) && Contains(m, Upper(fileType)) && Contains(m, now)
  {
    var ps := ["# Business Context: ", filename, "\n\n**Source**: ", sourcePath, "  \n**File Type**: ",
               Upper(fileType), "  \n**Indexed**: ", now, "\n\n"];
    ContainsSelf(sourcePath);
    ContainsSelf(Upper(fileType));
    ContainsSelf(now);
    FlattenContains(ps, 3, sourcePath);
    FlattenContains(ps, 5, Upper(fileType));
    FlattenContains(ps, 7, now);
    assert Flatten(ps) == "# Business Context: " + (filename + Flatten(ps[2..]));
    assert Flatten(ps)[..|"# Business Context: " + filename|] == "# Business Context: " + filename;
  }

  const SummaryHeading := "## Content Summary\n\n"
  const FallbackLength := 2000

  /** The chat service, the model, and the request wording (the indexer sends `SourceWording`). */
  datatype Llm = Llm(chat: LlmClient.ChatRequest -> LlmClient.ChatReply, model: string, wording: Wording)

  /** The analysis call for one document: temperature 0.3, no response format, and the
      reply stripped and freed of code fences. */
  function Analyse(llm: Llm, content: string, fileType: string, filename: string): (r: Result<string>)
    ensures var reply := llm.chat(LlmClient.Request(llm.model, llm.wording.system,
                                                    Prompt(llm.wording, fileType, filename, Preview(content)), None, 0.3));
            (r.Ok? <==> reply.Replied? && reply.content.Some?)
            && (r.Ok? ==> r.value == LlmClient.CleanContent(reply.content.value))
  {
    LlmClient.MakeLlmCall(llm.chat, llm.model, llm.wording.system, Prompt(llm.wording, fileType, filename, Preview(content)), None, 0.3)
  }

  /** The artifact written from the LLM's answer: the metadata, a rule line, the answer. */
  function Described(metadata: string, answer: string): (r: string)
    ensures |r| == |metadata| + |Rule| + |answer|
    ensures r[..|metadata|] == metadata
    ensures r[|metadata|..|metadata| + |Rule|] == Rule
    ensures r[|metadata| + |Rule|..] == answer
  {
    metadata + Rule + answer
  }

  const Rule := "---\n\n"

  /** The artifact written when the LLM call fails: the metadata and a summary heading
      over the first 2000 characters of the document, then "..." exactly when the
      document is longer, then a newline. */
  function Summarised(metadata: string, content: string): (r: string)
    ensures var head := metadata + SummaryHeading + PyPrefix(content, FallbackLength);
      |r| > |head| && r[..|head|] == head
      && r[|head|..] == (if |content| > FallbackLength then "...\n" else "\n")
    ensures |r| <= |metadata| + |SummaryHeading| + FallbackLength + 4
    ensures |content| <= FallbackLength ==> Contains(r, content)
  {
    var e := Ellipsize(content, FallbackLength);
    var r := metadata + SummaryHeading + e + "\n";
    var head := metadata + SummaryHeading + PyPrefix(content, FallbackLength);
    assert |content| > FallbackLength ==> r == head + "...\n";
    assert |content| <= FallbackLength ==> r == head + "\n";
    assert |content| <= FallbackLength ==> Contains(r, content) by {
      if |content| <= FallbackLength {
        ContainsSelf(content);
        ContainsInMiddle(metadata + SummaryHeading, e, "\n", content);
      }
    }
    r
  }

  /** `_create_markdown_artifact`: the LLM's reply (stripped and freed of code fences)
      under the metadata and a rule line; when the call fails, the metadata, the summary
      heading and the first 2000 characters of the document, with "..." exactly when it
      is longer. It never fails. */
  function CreateArtifact(llm: Llm, content: string, fileType: string, filename: string, sourcePath: string, now: string): (r: string)
    ensures var m := Metadata(filename, sourcePath, fileType, now);
      var reply := Analyse(llm, content, fileType, filename);
      (reply.Ok? ==> r == m + "---\n\n" + reply.value)
      && (reply.Err? ==> r == m + "## Content Summary\n\n" + PyPrefix(content, 2000)
                              + (if |content| > 2000 then "..." else "") + "\n")
  {
    var m := Metadata(filename, sourcePath, fileType, now);
    match Analyse(llm, content, fileType, filename)
    case Ok(answer) => Described(m, answer)
    case Err(_) =>
      var r := Summarised(m, content);
      var head := m + SummaryHeading + PyPrefix(content, FallbackLength);
      assert r == head + r[|head|..];
      r
  }

  /* ================================================================ indexing */

  /** One entry of the result's `artifacts` list. */
  datatype ArtifactRecord = ArtifactRecord(filename: string, fileType: string, sourcePath: string, artifactPath: string, artifactSize: nat)

  /** Everything outside the indexer: the LLM, the clock's ISO timestamp, the S3 client
      (absent without credentials), which paths exist, the readers, and whether writing
      to a path succeeds. */
  datatype Env = Env(llm: Llm, now: string, s3: Option<(string, string) -> Download>,
                     present: string -> bool, read: Reader, write: string -> bool)

  /** Where the artifact for `filename` is written. */
  function ArtifactPath(out: Path, filename: string): string
  {
    ToString(Div(out, SanitizeFilename(filename) + ".md"))
  }

  /** Reading one listed path: S3 locations through the S3 client, anything else from
      the local file system. */
  function ReadSource(path: string, env: Env): Result<ReadOutcome>
  {
    if StartsWith(path, "s3://") then ReadFromS3(path, env.s3, env.present, env.read)
    else ReadLocalFile(path, None, env.present, env.read)
  }

  /** One iteration of the indexing loop: the record of the saved artifact, or `None`
      when the file was skipped (an exception, no content, or a failed write). */
  function IndexOne(path: string, out: Path, env: Env): (r: Option<ArtifactRecord>)
    ensures r.Some? ==> r.value.sourcePath == path
                        && r.value.artifactPath == ArtifactPath(out, r.value.filename)
                        && r.value.artifactSize > 0
                        && r.value.fileType in ["pdf", "csv", "markdown", "text"]
    ensures r.Some? <==> ReadSource(path, env).Ok? && HasText(ReadSource(path, env).value.content)
                         && env.write(ArtifactPath(out, ReadSource(path, env).value.filename))
  {
    var read := ReadSource(path, env);
    if read.Err? || !HasText(read.value.content) then None
    else
      var o := read.value;
      var fileType := o.fileType.value;
      var artifact := CreateArtifact(env.llm, o.content.value, fileType, o.filename, path, env.now);
      var target := ArtifactPath(out, o.filename);
      if !env.write(target) then None
      else
        MetadataNamesSource(o.filename, path, fileType, env.now);
        Some(ArtifactRecord(o.filename, fileType, path, target, |artifact|))
  }

  /** The record of an indexed file carries the name and type the read reported, and
      the length of the artifact text written for it. */
  lemma IndexedRecord(path: string, out: Path, env: Env)
    requires IndexOne(path, out, env).Some?
    ensures ReadSource(path, env).Ok? && HasText(ReadSource(path, env).value.content)
    ensures var o := ReadSource(path, env).value;
      var rec := IndexOne(path, out, env).value;
      rec.filename == o.filename && o.fileType == Some(rec.fileType)
      && rec.artifactSize == |CreateArtifact(env.llm, o.content.value, rec.fileType, o.filename, path, env.now)|
  {
  }

  /** An S3 location is skipped without a client or without a bucket or key. */
  lemma UnusableS3Skipped(path: string, out: Path, env: Env)
    requires StartsWith(path, "s3://")
    requires env.s3.None? || S3Location(path).0 == "" || S3Location(path).1 == ""
    ensures IndexOne(path, out, env).None?
  {
    assert ReadSource(path, env).Err?;
  }

  /** An S3 location whose bucket holds "[" but no "]" is rejected by `urlparse` and
      so skipped, whatever the client would download. */
  lemma OpenBracketBucketSkipped(bucket: string, key: string, out: Path, env: Env)
    requires '[' in bucket && ']' !in bucket
    requires forall k :: 0 <= k < |bucket| ==> RepoCrawler.NotNetlocEnd(bucket[k])
    requires |key| > 0 && key[0] != '/'
    requires forall k :: 0 <= k < |key| ==> key[k] != '?' && key[k] != '#'
    ensures IndexOne("s3://" + bucket + "/" + key, out, env).None?
  {
    var url := "s3://" + bucket + "/" + key;
    S3LocationRoundTrip(bucket, key);
    assert RepoCrawler.SplitUrl(url).netloc == bucket;
    assert StartsWith(url, "s3://") by { assert url[..5] == "s3://"; }
    assert ReadFromS3(url, env.s3, env.present, env.read).Err?;
  }

  /** A local path is indexed exactly when it exists, its reader yields non-empty text,
      and the artifact can be written. */
  lemma LocalIndexed(path: string, out: Path, env: Env)
    requires !StartsWith(path, "s3://")
    ensures IndexOne(path, out, env).Some? <==>
      env.present(path) && HasText(env.read(path, DetectFileType(path)))
      && env.write(ArtifactPath(out, Name(Parse(path))))
  {
    var r := ReadLocalFile(path, None, env.present, env.read);
    assert ReadSource(path, env) == r;
    if r.Ok? {
      assert r.value.filename == Name(Parse(path));
      assert r.value.content == env.read(path, DetectFileType(path));
    }
  }

  /** One loop iteration as a function of the path alone. */
  function Indexer(out: Path, env: Env): string -> Option<ArtifactRecord> {
    (p: string) => IndexOne(p, out, env)
  }

  function Succeeds(index: string -> Option<ArtifactRecord>): string -> bool {
    (p: string) => index(p).Some?
  }

  /** The loop over the listed paths, for any per-path step `index`: the records the
      step produced and the paths they came from. */
  function IndexLoop(paths: seq<string>, index: string -> Option<ArtifactRecord>): (r: (seq<ArtifactRecord>, seq<string>))
    ensures |r.0| == |r.1|
    ensures forall i :: 0 <= i < |r.0| ==> Some(r.0[i]) == index(r.1[i])
  {
    if |paths| == 0 then ([], [])
    else
      var rest := IndexLoop(paths[1..], index);
      match index(paths[0])
      case Some(a) => ([a] + rest.0, [paths[0]] + rest.1)
      case None => rest
  }

  /** The recorded paths are the listed paths whose step succeeds, in order. */
  lemma {:induction false} IndexLoopFilters(paths: seq<string>, index: string -> Option<ArtifactRecord>)
    ensures IndexLoop(paths, index).1 == Filter(paths, Succeeds(index))
    decreases |paths|
  {
    if |paths| > 0 {
      IndexLoopFilters(paths[1..], index);
      var p := Succeeds(index);
      assert p(paths[0]) == index(paths[0]).Some?;
      assert Filter(paths, p) == (if p(paths[0]) then [paths[0]] else []) + Filter(paths[1..], p);
    }
  }

  /** Files are indexed independently: indexing two lists one after the other gives the
      same artifacts as indexing their concatenation. */
  lemma {:induction false} IndexLoopConcat(a: seq<string>, b: seq<string>, index: string -> Option<ArtifactRecord>)
    ensures IndexLoop(a + b, index) == (IndexLoop(a, index).0 + IndexLoop(b, index).0,
                                        IndexLoop(a, index).1 + IndexLoop(b, index).1)
    decreases |a|
  {
    if |a| == 0 {
      assert a + b == b;
      assert IndexLoop(a, index) == ([], []);
      assert [] + IndexLoop(b, index).0 == IndexLoop(b, index).0;
      assert [] + IndexLoop(b, index).1 == IndexLoop(b, index).1;
    } else {
      assert (a + b)[1..] == a[1..] + b;
      assert (a + b)[0] == a[0];
      IndexLoopConcat(a[1..], b, index);
      var ra := IndexLoop(a[1..], index);
      var rb := IndexLoop(b, index);
      match index(a[0])
      case Some(x) =>
        assert [x] + (ra.0 + rb.0) == ([x] + ra.0) + rb.0;
        assert [a[0]] + (ra.1 + rb.1) == ([a[0]] + ra.1) + rb.1;
      case None =>
    }
  }

  /** The record `index_business_context` returns. */
  datatype Indexing = Indexing(artifacts: seq<ArtifactRecord>, indexedFiles: seq<string>, outputDirectory: string,
                               indexedAt: string, totalFiles: nat, successful: nat)

  /** `index_business_context`: every listed path is tried in order and the counts
      compare the indexed paths with all listed paths. */
  function IndexBusinessContext(paths: seq<string>, outputDir: Option<string>, env: Env): (r: Indexing)
    ensures r.totalFiles == |paths| && r.successful == |r.indexedFiles| && r.successful <= r.totalFiles
    ensures IsSubsequence(r.indexedFiles, paths)
    ensures |r.artifacts| == |r.indexedFiles|
    ensures r.outputDirectory == ToString(OutputPath(outputDir)) && r.indexedAt == env.now
  {
    var out := OutputPath(outputDir);
    var index := Indexer(out, env);
    var (artifacts, indexed) := IndexLoop(paths, index);
    IndexLoopFilters(paths, index);
    FilterIsSubsequence(paths, Succeeds(index));
    Indexing(artifacts, indexed, ToString(out), env.now, |paths|, |indexed|)
  }

  /** A listed path is among the indexed files exactly when its artifact was produced
      and saved. */
  lemma IndexedExactly(paths: seq<string>, outputDir: Option<string>, env: Env)
    ensures var r := IndexBusinessContext(paths, outputDir, env);
      forall i :: 0 <= i < |paths| ==>
        (paths[i] in r.indexedFiles <==> IndexOne(paths[i], OutputPath(outputDir), env).Some?)
  {
    IndexLoopFilters(paths, Indexer(OutputPath(outputDir), env));
  }

  /** Each artifact record is the one its indexed path produced, and names that path as
      its source. */
  lemma ArtifactsMatchIndexed(paths: seq<string>, outputDir: Option<string>, env: Env)
    ensures var r := IndexBusinessContext(paths, outputDir, env);
      forall i :: 0 <= i < |r.artifacts| ==> Some(r.artifacts[i]) == IndexOne(r.indexedFiles[i], OutputPath(outputDir), env)
    ensures var r := IndexBusinessContext(paths, outputDir, env);
      forall i :: 0 <= i < |r.artifacts| ==> r.artifacts[i].sourcePath == r.indexedFiles[i]
  {
    var r := IndexBusinessContext(paths, outputDir, env);
    forall i | 0 <= i < |r.artifacts|
      ensures Some(r.artifacts[i]) == IndexOne(r.indexedFiles[i], OutputPath(outputDir), env)
    {
      assert Some(r.artifacts[i]) == Indexer(OutputPath(outputDir), env)(r.indexedFiles[i]);
    }
  }
}
