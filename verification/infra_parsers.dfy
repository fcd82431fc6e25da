/** The infrastructure file parsers: the Dockerfile line parser, GitLab CI job extraction,
    the shaping of Terraform state, docker-compose, ECS task definitions and CloudFormation
    templates, and `parse_all`, which routes each parser's failure. File contents and the
    YAML/JSON decoders are parameters. */
module InfraParsers {
  import opened Base
  import opened Text
  import opened Collections
  import opened Json
  import Artifacts
  import LlmClient

  /* ================================================================ Dockerfile */

  datatype DockerInfo = DockerInfo(
    baseImage: Option<string>,
    exposedPorts: seq<string>,
    environmentVars: seq<(string, string)>,
    volumes: seq<string>,
    workdir: Option<string>,
    user: Option<string>,
    runCommands: seq<string>,
    content: string)

  /** The record before any line is read. */
  function NoInstructions(content: string): DockerInfo {
    DockerInfo(None, [], [], [], None, None, [], content)
  }

  /** What a stripped line is to the parser. */
  datatype LineKind = Skipped | From | Expose | Env | Volume | Workdir | User | Run | Other

  /** The instruction keywords in the order the parser tests them, and their kinds. */
  const Instructions: seq<string> := ["FROM", "EXPOSE", "ENV", "VOLUME", "WORKDIR", "USER", "RUN"]
  const InstructionKinds: seq<LineKind> := [From, Expose, Env, Volume, Workdir, User, Run]

  /** The first keyword, from index `i` on, that the upper-cased line starts with. */
  function FirstKeyword(u: string, i: nat): (r: nat)
    requires i <= |Instructions|
    ensures i <= r <= |Instructions|
    ensures r < |Instructions| ==> StartsWith(u, Instructions[r])
    ensures forall j :: i <= j < r ==> !StartsWith(u, Instructions[j])
    decreases |Instructions| - i
  {
    if i == |Instructions| then i
    else if StartsWith(u, Instructions[i]) then i
    else FirstKeyword(u, i + 1)
  }

  /** Blank and comment lines are skipped; otherwise the first keyword that the
      upper-cased line starts with decides, so a line feeds at most one field. */
  function Kind(line: string): (k: LineKind)
    ensures k == Skipped <==> line == "" || StartsWith(line, "#")
    ensures k != Skipped ==>
      (k == Other <==> forall j :: 0 <= j < |Instructions| ==> !StartsWith(Upper(line), Instructions[j]))
    ensures k != Skipped && k != Other ==>
      exists i :: 0 <= i < |Instructions| && k == InstructionKinds[i]
        && StartsWith(Upper(line), Instructions[i])
        && forall j :: 0 <= j < i ==> !StartsWith(Upper(line), Instructions[j])
  {
    if line == "" || StartsWith(line, "#") then Skipped
    else
      var i := FirstKeyword(Upper(line), 0);
      if i == |Instructions| then Other else InstructionKinds[i]
  }

  /** `line.split()[1:]` */
  function Args(line: string): seq<string> {
    var words := SplitWs(line);
    if |words| == 0 then [] else words[1..]
  }

  /** `' '.join(line.split()[1:])` */
  function Rest(line: string): string { Join(Args(line), " ") }

  predicate NotSpace(c: char) { !IsSpace(c) }

  predicate IsEnvName(x: string) { |x| > 0 && forall i :: 0 <= i < |x| ==> IsWordChar(x[i]) }

  predicate IsEnvValue(x: string) { |x| > 0 && forall i :: 0 <= i < |x| ==> !IsSpace(x[i]) }

  /** `re.findall(r'(\w+)=([^\s]+)', s)`. Scanning left to right, a match starts at the
      first position whose maximal word run is followed by "=" and at least one
      non-space character; the value is the maximal non-space run after the "=", and
      the scan resumes after it. Elsewhere the scan moves on by one character. */
  function EnvPairs(s: string): (r: seq<(string, string)>)
    ensures forall k :: 0 <= k < |r| ==> IsEnvName(r[k].0) && IsEnvValue(r[k].1)
    decreases |s|
  {
    if |s| == 0 then []
    else
      var n := RunLength(s, IsWordChar);
      var m := if n < |s| then RunLength(s[n + 1..], NotSpace) else 0;
      if 0 < n < |s| && s[n] == '=' && m > 0 then
        [(s[..n], s[n + 1..n + 1 + m])] + EnvPairs(s[n + 1 + m..])
      else EnvPairs(s[1..])
  }

  /** One stripped line applied to the record, as the `if`/`elif` chain does it. */
  function Apply(info: DockerInfo, line: string): DockerInfo
  {
    var words := SplitWs(line);
    var rest := Rest(line);
    match Kind(line)
    case From => info.(baseImage := if |words| > 1 then Some(words[1]) else None)
    case Expose => info.(exposedPorts := info.exposedPorts + Args(line))
    case Env => info.(environmentVars := info.environmentVars + (if '=' in rest then EnvPairs(rest) else []))
    case Volume => info.(volumes := info.volumes + [rest])
    case Workdir => info.(workdir := Some(rest))
    case User => info.(user := Some(rest))
    case Run => info.(runCommands := info.runCommands + [rest])
    case _ => info
  }

  /** One raw line of the file: stripped first. */
  function Step(info: DockerInfo, raw: string): DockerInfo { Apply(info, Strip(raw)) }

  /** A loop over lines that threads a state through `step`. */
  function FoldLines<S>(s: S, lines: seq<string>, step: (S, string) -> S): S
    decreases |lines|
  {
    if |lines| == 0 then s else FoldLines(step(s, lines[0]), lines[1..], step)
  }

  /** The parser's loop over the lines. */
  function Fold(info: DockerInfo, lines: seq<string>): DockerInfo {
    FoldLines(info, lines, Step)
  }

  /* ---- what each line contributes, field by field */

  /** What one raw line adds to each accumulated list. */
  function PortsFrom(raw: string): seq<string> {
    var line := Strip(raw);
    if Kind(line) == Expose then Args(line) else []
  }

  function EnvFrom(raw: string): seq<(string, string)> {
    var line := Strip(raw);
    if Kind(line) == Env && '=' in Rest(line) then EnvPairs(Rest(line)) else []
  }

  function VolumesFrom(raw: string): seq<string> {
    var line := Strip(raw);
    if Kind(line) == Volume then [Rest(line)] else []
  }

  function RunsFrom(raw: string): seq<string> {
    var line := Strip(raw);
    if Kind(line) == Run then [Rest(line)] else []
  }

  /** The single-valued fields, and what one raw line does to each. */
  datatype Scalar = BaseImage | WorkdirField | UserField

  datatype Update = Keep | Assign(value: Option<string>)

  function ScalarOf(info: DockerInfo, f: Scalar): Option<string> {
    match f
    case BaseImage => info.baseImage
    case WorkdirField => info.workdir
    case UserField => info.user
  }

  function SetBy(raw: string, f: Scalar): Update {
    var line := Strip(raw);
    var words := SplitWs(line);
    match (f, Kind(line))
    case (BaseImage, From) => Assign(if |words| > 1 then Some(words[1]) else None)
    case (WorkdirField, Workdir) => Assign(Some(Rest(line)))
    case (UserField, User) => Assign(Some(Rest(line)))
    case _ => Keep
  }

  function Updated(prev: Option<string>, u: Update): Option<string> {
    if u.Assign? then u.value else prev
  }

  /** One line changes at most one field: a list instruction appends to its list, a
      scalar instruction overwrites its scalar, and any other line leaves all alone. */
  lemma StepFields(info: DockerInfo, raw: string)
    ensures Step(info, raw) == DockerInfo(
      Updated(info.baseImage, SetBy(raw, BaseImage)),
      info.exposedPorts + PortsFrom(raw),
      info.environmentVars + EnvFrom(raw),
      info.volumes + VolumesFrom(raw),
      Updated(info.workdir, SetBy(raw, WorkdirField)),
      Updated(info.user, SetBy(raw, UserField)),
      info.runCommands + RunsFrom(raw),
      info.content)
  {
    match Kind(Strip(raw))
    case Expose | Env | Volume | Run => StepAppends(info, raw);
    case From | Workdir | User => StepSets(info, raw);
    case Skipped | Other => StepIgnores(info, raw);
  }

  lemma StepAppends(info: DockerInfo, raw: string)
    requires Kind(Strip(raw)) in {Expose, Env, Volume, Run}
    ensures Step(info, raw) == DockerInfo(
      Updated(info.baseImage, SetBy(raw, BaseImage)),
      info.exposedPorts + PortsFrom(raw),
      info.environmentVars + EnvFrom(raw),
      info.volumes + VolumesFrom(raw),
      Updated(info.workdir, SetBy(raw, WorkdirField)),
      Updated(info.user, SetBy(raw, UserField)),
      info.runCommands + RunsFrom(raw),
      info.content)
  {
  }

  lemma StepSets(info: DockerInfo, raw: string)
    requires Kind(Strip(raw)) in {From, Workdir, User}
    ensures Step(info, raw) == DockerInfo(
      Updated(info.baseImage, SetBy(raw, BaseImage)),
      info.exposedPorts + PortsFrom(raw),
      info.environmentVars + EnvFrom(raw),
      info.volumes + VolumesFrom(raw),
      Updated(info.workdir, SetBy(raw, WorkdirField)),
      Updated(info.user, SetBy(raw, UserField)),
      info.runCommands + RunsFrom(raw),
      info.content)
  {
  }

  lemma StepIgnores(info: DockerInfo, raw: string)
    requires Kind(Strip(raw)) in {Skipped, Other}
    ensures Step(info, raw) == DockerInfo(
      Updated(info.baseImage, SetBy(raw, BaseImage)),
      info.exposedPorts + PortsFrom(raw),
      info.environmentVars + EnvFrom(raw),
      info.volumes + VolumesFrom(raw),
      Updated(info.workdir, SetBy(raw, WorkdirField)),
      Updated(info.user, SetBy(raw, UserField)),
      info.runCommands + RunsFrom(raw),
      info.content)
  {
  }

  lemma StepPorts(info: DockerInfo, raw: string)
    ensures Step(info, raw).exposedPorts == info.exposedPorts + PortsFrom(raw)
  {
    StepFields(info, raw);
  }

  lemma StepEnv(info: DockerInfo, raw: string)
    ensures Step(info, raw).environmentVars == info.environmentVars + EnvFrom(raw)
  {
    StepFields(info, raw);
  }

  lemma StepVolumes(info: DockerInfo, raw: string)
    ensures Step(info, raw).volumes == info.volumes + VolumesFrom(raw)
  {
    StepFields(info, raw);
  }

  lemma StepRuns(info: DockerInfo, raw: string)
    ensures Step(info, raw).runCommands == info.runCommands + RunsFrom(raw)
  {
    StepFields(info, raw);
  }

  lemma StepScalar(info: DockerInfo, raw: string, f: Scalar)
    ensures ScalarOf(Step(info, raw), f) == Updated(ScalarOf(info, f), SetBy(raw, f))
  {
    StepFields(info, raw);
  }

  /** The loop over a concatenation is the loop over the second part continued from
      the loop over the first. */
  lemma {:induction false} FoldAppend(info: DockerInfo, a: seq<string>, b: seq<string>)
    ensures Fold(info, a + b) == Fold(Fold(info, a), b)
    decreases |a|
  {
    if |a| == 0 {
      assert a + b == b;
    } else {
      assert (a + b)[1..] == a[1..] + b;
      FoldAppend(Step(info, a[0]), a[1..], b);
    }
  }

  /** A list field that every line extends by its own contribution ends up as the
      concatenation of all contributions, in line order. */
  lemma {:induction false} FoldAccumulates<S, T>(s: S, lines: seq<string>, step: (S, string) -> S,
                                                  get: S -> seq<T>, add: string -> seq<T>)
    requires forall x: S, raw: string :: get(step(x, raw)) == get(x) + add(raw)
    ensures get(FoldLines(s, lines, step)) == get(s) + Flatten(MapSeq(lines, add))
    decreases |lines|
  {
    if |lines| > 0 {
      var next := step(s, lines[0]);
      FoldAccumulates(next, lines[1..], step, get, add);
      var ms := MapSeq(lines, add);
      assert ms[1..] == MapSeq(lines[1..], add);
      assert Flatten(ms) == add(lines[0]) + Flatten(ms[1..]);
    } else {
      assert Flatten(MapSeq(lines, add)) == [];
    }
  }

  /** Ports, environment pairs, volumes and run commands accumulate in line order:
      each list is the concatenation of what every line contributes. */
  lemma FoldPorts(info: DockerInfo, lines: seq<string>)
    ensures Fold(info, lines).exposedPorts == info.exposedPorts + Flatten(MapSeq(lines, PortsFrom))
  {
    forall i: DockerInfo, raw: string ensures Step(i, raw).exposedPorts == i.exposedPorts + PortsFrom(raw) {
      StepPorts(i, raw);
    }
    FoldAccumulates(info, lines, Step, (i: DockerInfo) => i.exposedPorts, PortsFrom);
  }

  lemma FoldEnv(info: DockerInfo, lines: seq<string>)
    ensures Fold(info, lines).environmentVars == info.environmentVars + Flatten(MapSeq(lines, EnvFrom))
  {
    forall i: DockerInfo, raw: string ensures Step(i, raw).environmentVars == i.environmentVars + EnvFrom(raw) {
      StepEnv(i, raw);
    }
    FoldAccumulates(info, lines, Step, (i: DockerInfo) => i.environmentVars, EnvFrom);
  }

  lemma FoldVolumes(info: DockerInfo, lines: seq<string>)
    ensures Fold(info, lines).volumes == info.volumes + Flatten(MapSeq(lines, VolumesFrom))
  {
    forall i: DockerInfo, raw: string ensures Step(i, raw).volumes == i.volumes + VolumesFrom(raw) {
      StepVolumes(i, raw);
    }
    FoldAccumulates(info, lines, Step, (i: DockerInfo) => i.volumes, VolumesFrom);
  }

  lemma FoldRuns(info: DockerInfo, lines: seq<string>)
    ensures Fold(info, lines).runCommands == info.runCommands + Flatten(MapSeq(lines, RunsFrom))
  {
    forall i: DockerInfo, raw: string ensures Step(i, raw).runCommands == i.runCommands + RunsFrom(raw) {
      StepRuns(i, raw);
    }
    FoldAccumulates(info, lines, Step, (i: DockerInfo) => i.runCommands, RunsFrom);
  }

  /** The file text is carried through unchanged. */
  lemma {:induction false} FoldContent(info: DockerInfo, lines: seq<string>)
    ensures Fold(info, lines).content == info.content
    decreases |lines|
  {
    if |lines| > 0 {
      StepFields(info, lines[0]);
      FoldContent(Step(info, lines[0]), lines[1..]);
    }
  }

  /** Lines that set nothing leave a single-valued field as it was. */
  lemma {:induction false} NothingSetKeeps(info: DockerInfo, lines: seq<string>, f: Scalar)
    requires forall j :: 0 <= j < |lines| ==> SetBy(lines[j], f) == Keep
    ensures ScalarOf(Fold(info, lines), f) == ScalarOf(info, f)
    decreases |lines|
  {
    if |lines| > 0 {
      StepScalar(info, lines[0], f);
      NothingSetKeeps(Step(info, lines[0]), lines[1..], f);
    }
  }

  /** The loop seen from line `i`: everything before it, then line `i`, then the rest. */
  lemma FoldAround(info: DockerInfo, lines: seq<string>, i: int)
    requires 0 <= i < |lines|
    ensures Fold(info, lines) == Fold(Step(Fold(info, lines[..i]), lines[i]), lines[i + 1..])
  {
    assert lines == lines[..i] + ([lines[i]] + lines[i + 1..]);
    FoldAppend(info, lines[..i], [lines[i]] + lines[i + 1..]);
    assert ([lines[i]] + lines[i + 1..])[1..] == lines[i + 1..];
  }

  /** base_image, workdir and user take the value of the last line that sets them. */
  lemma {:induction false} LastSetWins(info: DockerInfo, lines: seq<string>, f: Scalar, i: int)
    requires 0 <= i < |lines| && SetBy(lines[i], f).Assign?
    requires forall j :: i < j < |lines| ==> SetBy(lines[j], f) == Keep
    ensures ScalarOf(Fold(info, lines), f) == SetBy(lines[i], f).value
  {
    FoldAround(info, lines, i);
    var next, after := Step(Fold(info, lines[..i]), lines[i]), lines[i + 1..];
    StepScalar(Fold(info, lines[..i]), lines[i], f);
    assert forall j :: 0 <= j < |after| ==> SetBy(after[j], f) == Keep by {
      assert forall j :: 0 <= j < |after| ==> after[j] == lines[i + 1 + j];
    }
    NothingSetKeeps(next, after, f);
  }

  /** A blank, comment or unrecognised line can be deleted without changing anything. */
  lemma IgnoredLineIrrelevant(info: DockerInfo, lines: seq<string>, i: int)
    requires 0 <= i < |lines|
    requires Kind(Strip(lines[i])) == Skipped || Kind(Strip(lines[i])) == Other
    ensures Fold(info, lines[..i] + lines[i + 1..]) == Fold(info, lines)
  {
    FoldAround(info, lines, i);
    FoldAppend(info, lines[..i], lines[i + 1..]);
  }

  /** `parse_dockerfile` on the text of the file: every line of `content.split('\n')`. */
  function DockerfileInfo(content: string): (r: DockerInfo)
    ensures r.content == content
    ensures r.exposedPorts == Flatten(MapSeq(SplitChar(content, '\n'), PortsFrom))
    ensures r.environmentVars == Flatten(MapSeq(SplitChar(content, '\n'), EnvFrom))
    ensures r.volumes == Flatten(MapSeq(SplitChar(content, '\n'), VolumesFrom))
    ensures r.runCommands == Flatten(MapSeq(SplitChar(content, '\n'), RunsFrom))
  {
    var lines := SplitChar(content, '\n');
    var start := NoInstructions(content);
    FoldPorts(start, lines);
    FoldEnv(start, lines);
    FoldVolumes(start, lines);
    FoldRuns(start, lines);
    FoldContent(start, lines);
    Fold(start, lines)
  }

  /** `parse_dockerfile(path)`: a missing file is `FileNotFoundError`, a read failure
      becomes `ValueError`. */
  function ParseDockerfile(read: FileRead): (r: Result<DockerInfo>)
    ensures read.FileMissing? <==> r.Err? && r.error.NotFound?
    ensures read.FileFailed? <==> r.Err? && r.error.Invalid?
    ensures read.FileText? ==> r == Ok(DockerfileInfo(read.text))
  {
    match read
    case FileMissing => Err(NotFound("Dockerfile"))
    case FileFailed(m) => Err(Invalid("Error parsing Dockerfile: " + m))
    case FileText(t) => Ok(DockerfileInfo(t))
  }

  /* ---- ENV pairs */

  /** `NAME=VALUE` */
  function EnvText(p: (string, string)): string { p.0 + "=" + p.1 }

  /** ENV text written as space-separated `NAME=VALUE` pairs. */
  function RenderEnv(pairs: seq<(string, string)>): string {
    Join(MapSeq(pairs, EnvText), " ")
  }

  /** Text without "=" yields no pair, so the parser's "=" guard changes nothing. */
  lemma {:induction false} EnvPairsNeedEquals(s: string)
    requires '=' !in s
    ensures EnvPairs(s) == []
    decreases |s|
  {
    if |s| > 0 {
      assert '=' !in s[1..];
      EnvPairsNeedEquals(s[1..]);
    }
  }

  /** Leading whitespace is passed over. */
  lemma EnvPairsSkipSpace(rest: string)
    ensures EnvPairs(" " + rest) == EnvPairs(rest)
  {
    assert (" " + rest)[1..] == rest;
  }

  /** One well-formed pair followed by `tail` (empty or starting with a space) is read
      back, and the scan resumes at `tail`. */
  lemma EnvPairsHead(p: (string, string), tail: string)
    requires IsEnvName(p.0) && IsEnvValue(p.1)
    requires tail == [] || tail[0] == ' '
    ensures EnvPairs(EnvText(p) + tail) == [p] + EnvPairs(tail)
  {
    var s := EnvText(p) + tail;
    var n := |p.0|;
    assert s[..n] == p.0;
    assert s[n] == '=';
    RunLengthExact(s, IsWordChar, n);
    var after := s[n + 1..];
    assert after == p.1 + tail;
    RunLengthExact(after, NotSpace, |p.1|);
    assert s[n + 1..n + 1 + |p.1|] == p.1;
    assert s[n + 1 + |p.1|..] == tail;
  }

  /** Rendering well-formed pairs and parsing them back gives the pairs. */
  lemma {:induction false} EnvRoundTrip(pairs: seq<(string, string)>)
    requires forall k :: 0 <= k < |pairs| ==> IsEnvName(pairs[k].0) && IsEnvValue(pairs[k].1)
    ensures EnvPairs(RenderEnv(pairs)) == pairs
    decreases |pairs|
  {
    if |pairs| == 1 {
      EnvPairsHead(pairs[0], []);
      assert EnvText(pairs[0]) + [] == EnvText(pairs[0]);
    } else if |pairs| > 1 {
      var texts := MapSeq(pairs, EnvText);
      assert texts[1..] == MapSeq(pairs[1..], EnvText);
      var tail := Join(texts[1..], " ");
      assert RenderEnv(pairs) == EnvText(pairs[0]) + (" " + tail);
      EnvPairsHead(pairs[0], " " + tail);
      EnvPairsSkipSpace(tail);
      EnvRoundTrip(pairs[1..]);
      assert [pairs[0]] + pairs[1..] == pairs;
    }
  }

  /* ================================================================ GitLab CI */

  datatype CiJob = CiJob(
    stage: Json, script: Json, image: Json, services: Json, tags: Json,
    only: Json, except: Json, when: Json, artifacts: Json, dependencies: Json,
    needs: Json, environment: Json, cache: Json)

  /** An empty document gives `{}`; otherwise the summary record. */
  datatype CiInfo =
    | CiEmpty
    | CiInfo(stages: Json, jobs: seq<(string, CiJob)>, variables: Json, beforeScript: Json,
             afterScript: Json, services: seq<Json>, jobCount: nat)

  /** Top-level keys that are never jobs. */
  const ReservedKeys: seq<string> := ["stages", "variables", "before_script", "after_script", "include"]

  /** `d.get(key, default)` on a dict. */
  function At(fields: seq<(string, Json)>, key: string, default: Json): (r: Json)
    ensures Lookup(fields, key).None? ==> r == default
    ensures Lookup(fields, key).Some? ==> r == Lookup(fields, key).value
  {
    match Lookup(fields, key)
    case Some(x) => x
    case None => default
  }

  /** The job record of a job's mapping. */
  function JobOf(f: seq<(string, Json)>): (j: CiJob)
  {
    CiJob(At(f, "stage", JStr("unknown")), At(f, "script", JArr([])), At(f, "image", JNull),
          At(f, "services", JArr([])), At(f, "tags", JArr([])), At(f, "only", JNull),
          At(f, "except", JNull), At(f, "when", JStr("on_success")),
          At(f, "artifacts", JNull), At(f, "dependencies", JArr([])), At(f, "needs", JArr([])),
          At(f, "environment", JNull), At(f, "cache", JNull))
  }

  /** A job's missing keys take the parser's defaults. */
  lemma JobDefaults(f: seq<(string, Json)>)
    ensures var j := JobOf(f);
      && (Lookup(f, "stage").None? ==> j.stage == JStr("unknown"))
      && (Lookup(f, "when").None? ==> j.when == JStr("on_success"))
      && (Lookup(f, "script").None? ==> j.script == JArr([]))
      && (Lookup(f, "services").None? ==> j.services == JArr([]))
      && (Lookup(f, "tags").None? ==> j.tags == JArr([]))
      && (Lookup(f, "dependencies").None? ==> j.dependencies == JArr([]))
      && (Lookup(f, "needs").None? ==> j.needs == JArr([]))
      && (Lookup(f, "image").None? ==> j.image == JNull)
  {
  }

  /** A top-level key names a job when it is not reserved and its value is a mapping. */
  predicate IsJob(fields: seq<(string, Json)>, key: string) {
    key !in ReservedKeys && Lookup(fields, key).Some? && Lookup(fields, key).value.JObj?
  }

  function JobKey(fields: seq<(string, Json)>): string -> bool {
    (k: string) => IsJob(fields, k)
  }

  /** The job record of the mapping bound to `key`. */
  function JobAt(fields: seq<(string, Json)>): string -> CiJob {
    (k: string) => JobOf(if Lookup(fields, k).Some? && Lookup(fields, k).value.JObj? then Lookup(fields, k).value.fields else [])
  }

  /** The jobs among `keys`, in key order. */
  function JobsOf(fields: seq<(string, Json)>, keys: seq<string>): (r: seq<(string, CiJob)>)
    ensures Labels(r) == Filter(keys, JobKey(fields))
    ensures forall i :: 0 <= i < |r| ==> IsJob(fields, r[i].0)
                                         && r[i].1 == JobOf(Lookup(fields, r[i].0).value.fields)
  {
    var names := Filter(keys, JobKey(fields));
    var r := Keyed(names, JobAt(fields));
    assert forall i :: 0 <= i < |r| ==> JobKey(fields)(names[i]) && r[i] == (names[i], JobAt(fields)(names[i]));
    r
  }

  /** `services.extend(job['services'])` for each job whose services are truthy:
      iterating a number or boolean raises. */
  function CollectServices(jobs: seq<(string, CiJob)>): (r: Result<seq<Json>>)
    ensures r.Ok? <==> forall i :: 0 <= i < |jobs| && Truthy(jobs[i].1.services) ==> Iterate(jobs[i].1.services).Ok?
  {
    if |jobs| == 0 then Ok([])
    else
      var svc := jobs[0].1.services;
      var here := if Truthy(svc) then Iterate(svc) else Ok([]);
      if here.Err? then Err(here.error)
      else
        var rest := CollectServices(jobs[1..]);
        if rest.Err? then rest
        else
          assert forall i :: 1 <= i < |jobs| ==> jobs[i] == jobs[1..][i - 1];
          Ok(here.value + rest.value)
  }

  /** Lists and mappings cannot be put in a set. */
  predicate Hashable(v: Json) { !v.JArr? && !v.JObj? }

  /** `GitLabCIParser.parse` after decoding: a falsy document gives `{}`, anything but a
      mapping raises, and each distinct service is listed once in set order. */
  function CiFromDoc(doc: Json, order: seq<Json>): (r: Result<CiInfo>)
    ensures !Truthy(doc) ==> r == Ok(CiEmpty)
    ensures Truthy(doc) && !doc.JObj? ==> r.Err?
    ensures r.Ok? && r.value.CiInfo? ==>
      doc.JObj?
      && Labels(r.value.jobs) == Filter(Keys(doc.fields), JobKey(doc.fields))
      && r.value.jobCount == |r.value.jobs|
      && r.value.stages == At(doc.fields, "stages", JArr([]))
      && Distinct(r.value.services)
    ensures doc.JObj? && Truthy(doc) ==>
      (r.Ok? <==> CollectServices(JobsOf(doc.fields, Keys(doc.fields))).Ok?
                  && forall v :: v in CollectServices(JobsOf(doc.fields, Keys(doc.fields))).value ==> Hashable(v))
  {
    if !Truthy(doc) then Ok(CiEmpty)
    else if !doc.JObj? then Err(Invalid("object has no attribute 'get'"))
    else
      var f := doc.fields;
      var jobs := JobsOf(f, Keys(f));
      var collected := CollectServices(jobs);
      if collected.Err? then Err(collected.error)
      else if exists v :: v in collected.value && !Hashable(v) then Err(Invalid("unhashable type"))
      else
        Ok(CiInfo(At(f, "stages", JArr([])), jobs, At(f, "variables", JObj([])),
                  At(f, "before_script", JArr([])), At(f, "after_script", JArr([])),
                  SetToList(collected.value, order), |jobs|))
  }

  /** Any failure after the existence check is re-raised as `ValueError`. */
  function Rewrap<T>(prefix: string, r: Result<T>): (w: Result<T>)
    ensures w.Ok? <==> r.Ok?
    ensures r.Ok? ==> w == r
    ensures w.Err? ==> w.error.Invalid?
  {
    if r.Ok? then r else Err(Invalid(prefix + (if r.error.Invalid? then r.error.message else r.error.path)))
  }

  /** Reading then decoding a file: a missing file is `FileNotFoundError`, everything
      else that goes wrong is a `ValueError`. */
  function Load(read: FileRead, decode: LlmClient.Decoder, what: string): (r: Result<Json>)
    ensures read.FileMissing? <==> r.Err? && r.error.NotFound?
    ensures read.FileText? && decode(read.text).Some? ==> r == Ok(decode(read.text).value)
    ensures r.Ok? ==> read.FileText? && decode(read.text).Some?
  {
    match read
    case FileMissing => Err(NotFound(what))
    case FileFailed(m) => Err(Invalid(m))
    case FileText(t) =>
      match decode(t)
      case Some(v) => Ok(v)
      case None => Err(Invalid("invalid document"))
  }

  /** The outcome of one parser after loading: missing file as is, other failures
      wrapped as `ValueError`. */
  function Shape<T>(loaded: Result<Json>, shape: Json -> Result<T>, prefix: string): (r: Result<T>)
    ensures loaded.Err? && loaded.error.NotFound? ==> r == Err(loaded.error)
    ensures loaded.Err? && loaded.error.Invalid? ==> r.Err? && r.error.Invalid?
    ensures loaded.Ok? ==> r == Rewrap(prefix, shape(loaded.value))
  {
    if loaded.Err? then
      (if loaded.error.NotFound? then Err(loaded.error) else Err(Invalid(prefix + loaded.error.message)))
    else Rewrap(prefix, shape(loaded.value))
  }

  function ParseGitLabCi(read: FileRead, yaml: LlmClient.Decoder, order: seq<Json>): (r: Result<CiInfo>)
    ensures read.FileMissing? <==> r.Err? && r.error.NotFound?
    ensures r.Ok? ==> read.FileText? && yaml(read.text).Some? && r == CiFromDoc(yaml(read.text).value, order)
  {
    Shape(Load(read, yaml, "GitLab CI file"), (d: Json) => CiFromDoc(d, order), "Error parsing GitLab CI file: ")
  }

  /* ================================================================ Terraform state */

  datatype TfInstance = TfInstance(attributes: Json, dependencies: Json)

  datatype TfResource = TfResource(resourceType: Json, name: Json, provider: Json, instances: seq<TfInstance>)

  datatype TfState = TfState(version: Json, terraformVersion: Json, resources: seq<TfResource>,
                             outputs: Json, resourceCount: nat)

  function InstanceOf(v: Json): (r: Result<TfInstance>)
    ensures r.Ok? <==> v.JObj?
  {
    if !v.JObj? then Err(Invalid("object has no attribute 'get'"))
    else Ok(TfInstance(At(v.fields, "attributes", JObj([])), At(v.fields, "dependencies", JArr([]))))
  }

  /** One state resource: type, name and provider default to "unknown", and its
      instances are listed only when present. */
  function ResourceOf(v: Json): (r: Result<TfResource>)
    ensures r.Ok? ==> v.JObj?
    ensures r.Ok? ==> r.value.resourceType == At(v.fields, "type", JStr("unknown"))
                      && r.value.name == At(v.fields, "name", JStr("unknown"))
                      && r.value.provider == At(v.fields, "provider", JStr("unknown"))
    ensures v.JObj? && Lookup(v.fields, "instances").None? ==> r.Ok? && r.value.instances == []
  {
    if !v.JObj? then Err(Invalid("object has no attribute 'get'"))
    else
      var f := v.fields;
      var instances :- match Lookup(f, "instances")
        case None => Ok([])
        case Some(x) =>
          if Iterate(x).Err? then Err(Iterate(x).error)
          else Artifacts.ValidateEach(Iterate(x).value, InstanceOf);
      Ok(TfResource(At(f, "type", JStr("unknown")), At(f, "name", JStr("unknown")),
                    At(f, "provider", JStr("unknown")), instances))
  }

  /** `TerraformStateParser.parse` after decoding. A document that is not a mapping
      fails: `in`, indexing or `.get` raises on every other value. */
  function TfFromDoc(doc: Json): (r: Result<TfState>)
    ensures !doc.JObj? ==> r.Err?
    ensures r.Ok? ==> r.value.resourceCount == |r.value.resources|
    ensures r.Ok? ==> r.value.version == At(doc.fields, "version", JStr("unknown"))
                      && r.value.terraformVersion == At(doc.fields, "terraform_version", JStr("unknown"))
    ensures doc.JObj? && Lookup(doc.fields, "resources").None? ==> r.Ok? && r.value.resources == []
    ensures r.Ok? && Lookup(doc.fields, "resources").Some? && Lookup(doc.fields, "resources").value.JArr? ==>
      |r.value.resources| == |Lookup(doc.fields, "resources").value.items|
  {
    if !doc.JObj? then Err(Invalid("object has no attribute 'get'"))
    else
      var f := doc.fields;
      var resources :- match Lookup(f, "resources")
        case None => Ok([])
        case Some(x) =>
          if Iterate(x).Err? then Err(Iterate(x).error)
          else Artifacts.ValidateEach(Iterate(x).value, ResourceOf);
      Ok(TfState(At(f, "version", JStr("unknown")), At(f, "terraform_version", JStr("unknown")),
                 resources, At(f, "outputs", JObj([])), |resources|))
  }

  function ParseTerraform(read: FileRead, json: LlmClient.Decoder): (r: Result<TfState>)
    ensures read.FileMissing? <==> r.Err? && r.error.NotFound?
    ensures r.Ok? ==> read.FileText? && json(read.text).Some? && r == TfFromDoc(json(read.text).value)
  {
    Shape(Load(read, json, "Terraform state file"), TfFromDoc, "Error parsing Terraform state file: ")
  }

  /* ================================================================ docker-compose */

  datatype ComposeService = ComposeService(
    image: Json, build: Json, ports: Json, environment: Json, volumes: Json,
    networks: Json, dependsOn: Json, command: Json, restart: Json)

  datatype ComposeInfo =
    | ComposeEmpty
    | ComposeInfo(version: Json, services: seq<(string, ComposeService)>, networks: Json,
                  volumes: Json, serviceCount: nat)

  function ServiceOf(v: Json): (r: Result<ComposeService>)
    ensures r.Ok? <==> v.JObj?
  {
    if !v.JObj? then Err(Invalid("object has no attribute 'get'"))
    else
      var f := v.fields;
      Ok(ComposeService(At(f, "image", JNull), At(f, "build", JNull), At(f, "ports", JArr([])),
                        At(f, "environment", JObj([])), At(f, "volumes", JArr([])),
                        At(f, "networks", JArr([])), At(f, "depends_on", JArr([])),
                        At(f, "command", JNull), At(f, "restart", JNull)))
  }

  /** The services of a `services` mapping, by name in document order. */
  function ServicesOf(f: seq<(string, Json)>, names: seq<string>): (r: Result<seq<(string, ComposeService)>>)
    ensures r.Ok? ==> MapSeq(r.value, (s: (string, ComposeService)) => s.0) == names
  {
    if |names| == 0 then Ok([])
    else
      var here :- ServiceOf(At(f, names[0], JNull));
      var rest :- ServicesOf(f, names[1..]);
      var r := [(names[0], here)] + rest;
      assert MapSeq(r, (s: (string, ComposeService)) => s.0) == [names[0]] + MapSeq(rest, (s: (string, ComposeService)) => s.0);
      Ok(r)
  }

  /** `DockerParser.parse_docker_compose` after decoding. */
  function ComposeFromDoc(doc: Json): (r: Result<ComposeInfo>)
    ensures !Truthy(doc) ==> r == Ok(ComposeEmpty)
    ensures Truthy(doc) && !doc.JObj? ==> r.Err?
    ensures r.Ok? && r.value.ComposeInfo? ==>
      doc.JObj? && r.value.serviceCount == |r.value.services|
      && (Lookup(doc.fields, "services").None? ==> r.value.services == [])
      && (Lookup(doc.fields, "services").Some? ==>
            Lookup(doc.fields, "services").value.JObj?
            && MapSeq(r.value.services, (s: (string, ComposeService)) => s.0)
               == Keys(Lookup(doc.fields, "services").value.fields))
  {
    if !Truthy(doc) then Ok(ComposeEmpty)
    else if !doc.JObj? then Err(Invalid("object has no attribute 'get'"))
    else
      var f := doc.fields;
      var services :- match Lookup(f, "services")
        case None => Ok([])
        case Some(JObj(sf)) => ServicesOf(sf, Keys(sf))
        case Some(_) => Err(Invalid("object has no attribute 'items'"));
      Ok(ComposeInfo(At(f, "version", JNull), services, At(f, "networks", JObj([])),
                     At(f, "volumes", JObj([])), |services|))
  }

  function ParseCompose(read: FileRead, yaml: LlmClient.Decoder): (r: Result<ComposeInfo>)
    ensures read.FileMissing? <==> r.Err? && r.error.NotFound?
    ensures r.Ok? ==> read.FileText? && yaml(read.text).Some? && r == ComposeFromDoc(yaml(read.text).value)
  {
    Shape(Load(read, yaml, "Docker compose file"), ComposeFromDoc, "Error parsing docker-compose file: ")
  }

  /* ================================================================ AWS */

  datatype EcsInfo = EcsInfo(
    family: Json, networkMode: Json, cpu: Json, memory: Json, containerDefinitions: Json,
    requiresCompatibilities: Json, taskRoleArn: Json, executionRoleArn: Json)

  /** `AWSConfigParser.parse_ecs_task_definition` after decoding. */
  function EcsFromDoc(doc: Json): (r: Result<EcsInfo>)
    ensures r.Ok? <==> doc.JObj?
    ensures r.Ok? ==> r.value.family == At(doc.fields, "family", JNull)
                      && r.value.containerDefinitions == At(doc.fields, "containerDefinitions", JArr([]))
                      && r.value.requiresCompatibilities == At(doc.fields, "requiresCompatibilities", JArr([]))
  {
    if !doc.JObj? then Err(Invalid("object has no attribute 'get'"))
    else
      var f := doc.fields;
      Ok(EcsInfo(At(f, "family", JNull), At(f, "networkMode", JNull), At(f, "cpu", JNull),
                 At(f, "memory", JNull), At(f, "containerDefinitions", JArr([])),
                 At(f, "requiresCompatibilities", JArr([])), At(f, "taskRoleArn", JNull),
                 At(f, "executionRoleArn", JNull)))
  }

  function ParseEcs(read: FileRead, json: LlmClient.Decoder): (r: Result<EcsInfo>)
    ensures read.FileMissing? <==> r.Err? && r.error.NotFound?
    ensures r.Ok? <==> read.FileText? && json(read.text).Some? && json(read.text).value.JObj?
  {
    Shape(Load(read, json, "ECS task definition"), EcsFromDoc, "Error parsing ECS task definition: ")
  }

  datatype CfInfo = CfInfo(description: Json, parameters: Json, resources: Json, outputs: Json, resourceCount: nat)

  /** `AWSConfigParser.parse_cloudformation_template` after decoding: `len` of the
      resources fails on anything but a list, string or mapping. */
  function CfFromDoc(doc: Json): (r: Result<CfInfo>)
    ensures r.Ok? <==> doc.JObj? && Len(At(doc.fields, "Resources", JObj([]))).Ok?
    ensures r.Ok? ==> r.value.resources == At(doc.fields, "Resources", JObj([]))
                      && Ok(r.value.resourceCount) == Len(r.value.resources)
  {
    if !doc.JObj? then Err(Invalid("object has no attribute 'get'"))
    else
      var f := doc.fields;
      var resources := At(f, "Resources", JObj([]));
      var count :- Len(resources);
      Ok(CfInfo(At(f, "Description", JNull), At(f, "Parameters", JObj([])), resources,
                At(f, "Outputs", JObj([])), count))
  }

  /** YAML first; only text YAML rejects is tried as JSON. */
  function YamlOrJson(yaml: LlmClient.Decoder, json: LlmClient.Decoder): (d: LlmClient.Decoder)
    ensures forall t :: yaml(t).Some? ==> d(t) == yaml(t)
    ensures forall t :: yaml(t).None? ==> d(t) == json(t)
  {
    (t: string) => if yaml(t).Some? then yaml(t) else json(t)
  }

  function ParseCloudFormation(read: FileRead, yaml: LlmClient.Decoder, json: LlmClient.Decoder): (r: Result<CfInfo>)
    ensures read.FileMissing? <==> r.Err? && r.error.NotFound?
    ensures read.FileText? && yaml(read.text).Some? ==>
      r == Rewrap("Error parsing CloudFormation template: ", CfFromDoc(yaml(read.text).value))
    ensures read.FileText? && yaml(read.text).None? && json(read.text).Some? ==>
      r == Rewrap("Error parsing CloudFormation template: ", CfFromDoc(json(read.text).value))
  {
    Shape(Load(read, YamlOrJson(yaml, json), "CloudFormation template"), CfFromDoc,
          "Error parsing CloudFormation template: ")
  }

  /* ================================================================ parse_all */

  /** The file system and decoders the parsers use. `serviceOrder` fixes the order in
      which the CI parser's service set is listed. */
  datatype Io = Io(read: string -> FileRead, yaml: LlmClient.Decoder, json: LlmClient.Decoder,
                   serviceOrder: seq<Json>)

  datatype Paths = Paths(
    tfstate: Option<string>, gitlabCi: Option<string>, dockerfile: Option<string>,
    dockerCompose: Option<string>, ecsTaskDef: Option<string>, cloudformation: Option<string>)

  /** One slot of the result: the parsed value, or the message of a failure. */
  datatype Slot<T> = Slot(value: Option<T>, error: Option<string>)

  /** A slot stays empty, without error, when its path is absent or empty or the file
      is missing; any other failure leaves it empty and records the message. */
  function Route<T>(path: Option<string>, parse: string -> Result<T>): (s: Slot<T>)
    ensures !HasText(path) ==> s == Slot(None, None)
    ensures HasText(path) && parse(path.value).Ok? ==> s == Slot(Some(parse(path.value).value), None)
    ensures HasText(path) && parse(path.value).Err? && parse(path.value).error.NotFound? ==> s == Slot(None, None)
    ensures s.error.Some? <==> HasText(path) && parse(path.value).Err? && parse(path.value).error.Invalid?
    ensures s.value.Some? ==> s.error.None?
  {
    if !HasText(path) then Slot(None, None)
    else match parse(path.value)
      case Ok(v) => Slot(Some(v), None)
      case Err(NotFound(_)) => Slot(None, None)
      case Err(Invalid(m)) => Slot(None, Some(m))
  }

  /** `parsed_data`: each slot holds the parsed value under its name and, after a
      failure, the message under `<name>_error`. */
  datatype Parsed = Parsed(
    terraform: Slot<TfState>, gitlabCi: Slot<CiInfo>, dockerfile: Slot<DockerInfo>,
    dockerCompose: Slot<ComposeInfo>, awsEcs: Slot<EcsInfo>, awsCloudformation: Slot<CfInfo>)

  /** `InfrastructureParser.parse_all`: every parser runs on its own path and its
      failure is routed into its own slot only. */
  function ParseAll(io: Io, paths: Paths): (r: Parsed)
    ensures r.terraform == Route(paths.tfstate, (p: string) => ParseTerraform(io.read(p), io.json))
    ensures r.gitlabCi == Route(paths.gitlabCi, (p: string) => ParseGitLabCi(io.read(p), io.yaml, io.serviceOrder))
    ensures r.dockerfile == Route(paths.dockerfile, (p: string) => ParseDockerfile(io.read(p)))
    ensures r.dockerCompose == Route(paths.dockerCompose, (p: string) => ParseCompose(io.read(p), io.yaml))
    ensures r.awsEcs == Route(paths.ecsTaskDef, (p: string) => ParseEcs(io.read(p), io.json))
    ensures r.awsCloudformation == Route(paths.cloudformation, (p: string) => ParseCloudFormation(io.read(p), io.yaml, io.json))
  {
    Parsed(
      Route(paths.tfstate, (p: string) => ParseTerraform(io.read(p), io.json)),
      Route(paths.gitlabCi, (p: string) => ParseGitLabCi(io.read(p), io.yaml, io.serviceOrder)),
      Route(paths.dockerfile, (p: string) => ParseDockerfile(io.read(p))),
      Route(paths.dockerCompose, (p: string) => ParseCompose(io.read(p), io.yaml)),
      Route(paths.ecsTaskDef, (p: string) => ParseEcs(io.read(p), io.json)),
      Route(paths.cloudformation, (p: string) => ParseCloudFormation(io.read(p), io.yaml, io.json)))
  }
}
