/** The infrastructure indexer: it resolves which files to read (explicit paths first,
    then files discovered in a cloned repository), parses them, asks the LLM for one
    markdown section per infrastructure area, and assembles the infrastructure
    description. The chat service, the rendering of each request, git, the temporary
    directory and the file system are parameters. */
module InfraIndexer {
  import opened Base
  import opened Text
  import opened Collections
  import opened Json
  import opened Artifacts
  import LlmClient
  import InfraParsers
  import RepoCrawler

  /* ================================================================ section payloads */

  /** A storage resource: a Terraform resource, or a CloudFormation entry by name. */
  datatype StorageItem = TfStorage(resource: InfraParsers.TfResource) | CfStorage(name: string, definition: Json)

  /** A networking resource: a Terraform resource, or the docker-compose networks. */
  datatype NetworkItem = TfNetwork(resource: InfraParsers.TfResource) | DockerNetworks(networks: Json)

  /** The data each section request describes. */
  datatype Payload =
    | CicdData(ci: InfraParsers.CiInfo)
    | DeploymentData(dockerfile: Option<InfraParsers.DockerInfo>, compose: Option<InfraParsers.ComposeInfo>,
                     ecs: Option<InfraParsers.EcsInfo>, terraform: Option<InfraParsers.TfState>)
    | ComputeData(terraformResources: Option<seq<InfraParsers.TfResource>>, cloudformationResources: Option<Json>)
    | StorageData(storage: seq<StorageItem>)
    | NetworkingData(network: seq<NetworkItem>)

  /** The chat service, the model, and the user message written for each payload (the
      prompt wording and its JSON dump are not modelled). */
  datatype Llm = Llm(chat: LlmClient.ChatRequest -> LlmClient.ChatReply, model: string, render: Payload -> string)

  const SystemPrompt := "You are an infrastructure documentation expert. Create clear, comprehensive markdown documentation."

  /** One section request: the system prompt, the rendered payload, temperature 0.3, and
      the reply stripped and freed of code fences. */
  function Generate(llm: Llm, p: Payload): (r: Result<string>)
    ensures var reply := llm.chat(LlmClient.Request(llm.model, SystemPrompt, llm.render(p), None, 0.3));
            (r.Ok? <==> reply.Replied? && reply.content.Some?)
            && (r.Ok? ==> r.value == LlmClient.CleanContent(reply.content.value))
  {
    LlmClient.MakeLlmCall(llm.chat, llm.model, SystemPrompt, llm.render(p), None, 0.3)
  }

  /* ================================================================ reading parsed data */

  /** Python truthiness of each parsed slot: a parsed record is a non-empty dict, except
      the CI and compose summaries of an empty document, which are `{}`. */
  predicate HasTerraform(p: InfraParsers.Parsed) { p.terraform.value.Some? }
  predicate HasCi(p: InfraParsers.Parsed) { p.gitlabCi.value.Some? && p.gitlabCi.value.value.CiInfo? }
  predicate HasDockerfile(p: InfraParsers.Parsed) { p.dockerfile.value.Some? }
  predicate HasCompose(p: InfraParsers.Parsed) { p.dockerCompose.value.Some? && p.dockerCompose.value.value.ComposeInfo? }
  predicate HasEcs(p: InfraParsers.Parsed) { p.awsEcs.value.Some? }
  predicate HasCloudFormation(p: InfraParsers.Parsed) { p.awsCloudformation.value.Some? }

  /** `s` mentions one of `words`. */
  predicate MentionsAny(s: string, words: seq<string>) {
    exists i :: 0 <= i < |words| && Contains(s, words[i])
  }

  /** A resource whose type is a string mentioning one of `words` once lower-cased. */
  predicate TypeMentions(r: InfraParsers.TfResource, words: seq<string>) {
    r.resourceType.JStr? && MentionsAny(Lower(r.resourceType.s), words)
  }

  function Mentioning(words: seq<string>): InfraParsers.TfResource -> bool {
    (x: InfraParsers.TfResource) => TypeMentions(x, words)
  }

  /** The resources whose lower-cased type mentions one of `words`. `.lower()` raises on
      a type that is not a string, and the loop does not catch it. */
  function SelectByType(rs: seq<InfraParsers.TfResource>, words: seq<string>): (r: Result<seq<InfraParsers.TfResource>>)
    ensures r.Ok? <==> forall i :: 0 <= i < |rs| ==> rs[i].resourceType.JStr?
    ensures r.Ok? ==> r.value == Filter(rs, Mentioning(words))
  {
    if |rs| == 0 then Ok([])
    else if !rs[0].resourceType.JStr? then Err(Invalid("object has no attribute 'lower'"))
    else
      var rest := SelectByType(rs[1..], words);
      if rest.Err? then rest
      else
        assert forall i :: 1 <= i < |rs| ==> rs[i] == rs[1..][i - 1];
        Ok((if TypeMentions(rs[0], words) then [rs[0]] else []) + rest.value)
  }

  const TfStorageWords: seq<string> := ["s3", "rds", "dynamodb", "efs", "ebs", "storage"]
  const CfStorageWords: seq<string> := ["s3", "rds", "dynamodb", "efs", "ebs"]
  const NetworkWords: seq<string> := ["vpc", "subnet", "security_group", "route", "load_balancer", "alb", "nlb"]

  /** A CloudFormation resource counts as storage when its `Type` (default "") mentions
      a storage word once lower-cased. */
  predicate CfIsStorage(def: Json) {
    def.JObj? && At(def.fields, "Type").JStr? && MentionsAny(Lower(At(def.fields, "Type").s), CfStorageWords)
  }

  /** `d.get(key, "")` */
  function At(fields: seq<(string, Json)>, key: string): Json {
    InfraParsers.At(fields, key, JStr(""))
  }

  /** A CloudFormation key whose definition counts as storage. */
  function StorageKey(fields: seq<(string, Json)>): string -> bool {
    (k: string) => CfIsStorage(At(fields, k))
  }

  /** The storage entry for a CloudFormation key: the key and its definition. */
  function CfEntry(fields: seq<(string, Json)>): string -> StorageItem {
    (k: string) => CfStorage(k, At(fields, k))
  }

  /** A definition the storage loop can read: a mapping whose `Type` is a string. */
  predicate CfReadable(d: Json) {
    d.JObj? && At(d.fields, "Type").JStr?
  }

  /** The Terraform resources among storage items, in order. */
  function TfStored(items: seq<StorageItem>): (r: seq<InfraParsers.TfResource>)
    ensures forall x :: x in r <==> TfStorage(x) in items
  {
    if |items| == 0 then []
    else
      var rest := TfStored(items[1..]);
      assert forall x :: TfStorage(x) in items <==> items[0] == TfStorage(x) || TfStorage(x) in items[1..];
      (if items[0].TfStorage? then [items[0].resource] else []) + rest
  }

  /** The CloudFormation names among storage items, in order. */
  function CfStored(items: seq<StorageItem>): (r: seq<string>)
    ensures forall k :: k in r <==> exists i :: 0 <= i < |items| && items[i].CfStorage? && items[i].name == k
  {
    if |items| == 0 then []
    else
      var rest := CfStored(items[1..]);
      assert forall i :: 1 <= i < |items| ==> items[i] == items[1..][i - 1];
      (if items[0].CfStorage? then [items[0].name] else []) + rest
  }

  /** The Terraform resources among networking items, in order. */
  function TfNetworked(items: seq<NetworkItem>): (r: seq<InfraParsers.TfResource>)
    ensures forall x :: x in r <==> TfNetwork(x) in items
  {
    if |items| == 0 then []
    else
      var rest := TfNetworked(items[1..]);
      assert forall x :: TfNetwork(x) in items <==> items[0] == TfNetwork(x) || TfNetwork(x) in items[1..];
      (if items[0].TfNetwork? then [items[0].resource] else []) + rest
  }

  lemma {:induction false} TfStoredConcat(a: seq<StorageItem>, b: seq<StorageItem>)
    ensures TfStored(a + b) == TfStored(a) + TfStored(b)
    ensures CfStored(a + b) == CfStored(a) + CfStored(b)
  {
    TfOnlyConcat(a, b);
    CfOnlyConcat(a, b);
  }

  lemma {:induction false} TfOnlyConcat(a: seq<StorageItem>, b: seq<StorageItem>)
    ensures TfStored(a + b) == TfStored(a) + TfStored(b)
    decreases |a|
  {
    if |a| == 0 {
      assert a + b == b;
    } else {
      assert (a + b)[1..] == a[1..] + b;
      assert (a + b)[0] == a[0];
      TfOnlyConcat(a[1..], b);
    }
  }

  lemma {:induction false} CfOnlyConcat(a: seq<StorageItem>, b: seq<StorageItem>)
    ensures CfStored(a + b) == CfStored(a) + CfStored(b)
    decreases |a|
  {
    if |a| == 0 {
      assert a + b == b;
    } else {
      assert (a + b)[1..] == a[1..] + b;
      assert (a + b)[0] == a[0];
      CfOnlyConcat(a[1..], b);
    }
  }

  lemma {:induction false} TfNetworkedConcat(a: seq<NetworkItem>, b: seq<NetworkItem>)
    ensures TfNetworked(a + b) == TfNetworked(a) + TfNetworked(b)
    decreases |a|
  {
    if |a| == 0 {
      assert a + b == b;
    } else {
      assert (a + b)[1..] == a[1..] + b;
      TfNetworkedConcat(a[1..], b);
    }
  }

  /** Wrapping Terraform resources as storage items and reading them back. */
  lemma TfStoredOfWrapped(xs: seq<InfraParsers.TfResource>)
    ensures TfStored(MapSeq(xs, (x: InfraParsers.TfResource) => TfStorage(x))) == xs
    ensures CfStored(MapSeq(xs, (x: InfraParsers.TfResource) => TfStorage(x))) == []
  {
    TfOnlyOfWrapped(xs);
    NoCfOfWrapped(xs);
  }

  lemma {:induction false} TfOnlyOfWrapped(xs: seq<InfraParsers.TfResource>)
    ensures TfStored(MapSeq(xs, (x: InfraParsers.TfResource) => TfStorage(x))) == xs
    decreases |xs|
  {
    if |xs| > 0 {
      var w := MapSeq(xs, (x: InfraParsers.TfResource) => TfStorage(x));
      assert w[0] == TfStorage(xs[0]);
      assert w[1..] == MapSeq(xs[1..], (x: InfraParsers.TfResource) => TfStorage(x));
      TfOnlyOfWrapped(xs[1..]);
      assert xs == [xs[0]] + xs[1..];
    }
  }

  lemma {:induction false} NoCfOfWrapped(xs: seq<InfraParsers.TfResource>)
    ensures CfStored(MapSeq(xs, (x: InfraParsers.TfResource) => TfStorage(x))) == []
    decreases |xs|
  {
    if |xs| > 0 {
      var w := MapSeq(xs, (x: InfraParsers.TfResource) => TfStorage(x));
      assert w[0] == TfStorage(xs[0]);
      assert w[1..] == MapSeq(xs[1..], (x: InfraParsers.TfResource) => TfStorage(x));
      NoCfOfWrapped(xs[1..]);
    }
  }

  /** Wrapping Terraform resources as networking items and reading them back. */
  lemma {:induction false} TfNetworkedOfWrapped(xs: seq<InfraParsers.TfResource>)
    ensures TfNetworked(MapSeq(xs, (x: InfraParsers.TfResource) => TfNetwork(x))) == xs
    decreases |xs|
  {
    if |xs| > 0 {
      var w := MapSeq(xs, (x: InfraParsers.TfResource) => TfNetwork(x));
      assert w[1..] == MapSeq(xs[1..], (x: InfraParsers.TfResource) => TfNetwork(x));
      TfNetworkedOfWrapped(xs[1..]);
      assert xs == [xs[0]] + xs[1..];
    }
  }

  /** CloudFormation entries read back: their names, and no Terraform resource. */
  lemma {:induction false} CfStoredOfEntries(fields: seq<(string, Json)>, ks: seq<string>)
    ensures CfStored(MapSeq(ks, CfEntry(fields))) == ks
    ensures TfStored(MapSeq(ks, CfEntry(fields))) == []
    decreases |ks|
  {
    if |ks| > 0 {
      var w := MapSeq(ks, CfEntry(fields));
      assert w[1..] == MapSeq(ks[1..], CfEntry(fields));
      CfStoredOfEntries(fields, ks[1..]);
      assert ks == [ks[0]] + ks[1..];
    }
  }

  /** The CloudFormation storage entries among `names`, in order, each with its
      definition. Every definition must be a mapping whose type is a string, or the
      loop raises (the error is the same whichever definition fails first). */
  function CfStorageOf(fields: seq<(string, Json)>, names: seq<string>): (r: Result<seq<StorageItem>>)
    ensures r.Ok? <==> forall i :: 0 <= i < |names| ==> CfReadable(At(fields, names[i]))
    ensures r.Ok? ==> forall i :: 0 <= i < |r.value| ==>
      r.value[i].CfStorage? && r.value[i].name in names
      && r.value[i].definition == At(fields, r.value[i].name) && CfIsStorage(r.value[i].definition)
    ensures r.Ok? ==> forall i :: 0 <= i < |names| && CfIsStorage(At(fields, names[i])) ==>
      CfStorage(names[i], At(fields, names[i])) in r.value
    ensures r.Ok? ==> CfStored(r.value) == Filter(names, StorageKey(fields)) && TfStored(r.value) == []
  {
    if forall i | 0 <= i < |names| :: CfReadable(At(fields, names[i])) then
      var ks := Filter(names, StorageKey(fields));
      CfStoredOfEntries(fields, ks);
      CfEntriesOf(fields, names);
      Ok(MapSeq(ks, CfEntry(fields)))
    else Err(Invalid("object has no attribute 'get' or 'lower'"))
  }

  /** The entries made from the storage names are exactly the storage entries. */
  lemma CfEntriesOf(fields: seq<(string, Json)>, names: seq<string>)
    ensures var w := MapSeq(Filter(names, StorageKey(fields)), CfEntry(fields));
      forall i :: 0 <= i < |w| ==>
        w[i].CfStorage? && w[i].name in names && w[i].definition == At(fields, w[i].name) && CfIsStorage(w[i].definition)
    ensures var w := MapSeq(Filter(names, StorageKey(fields)), CfEntry(fields));
      forall i :: 0 <= i < |names| && CfIsStorage(At(fields, names[i])) ==> CfStorage(names[i], At(fields, names[i])) in w
  {
    var ks := Filter(names, StorageKey(fields));
    var w := MapSeq(ks, CfEntry(fields));
    forall i | 0 <= i < |names| && CfIsStorage(At(fields, names[i]))
      ensures CfStorage(names[i], At(fields, names[i])) in w
    {
      assert StorageKey(fields)(names[i]);
      assert names[i] in ks;
      var j :| 0 <= j < |ks| && ks[j] == names[i];
      assert w[j] == CfEntry(fields)(ks[j]);
    }
  }

  /** The Terraform resources of the parsed data, or none. */
  function TfResources(p: InfraParsers.Parsed): seq<InfraParsers.TfResource> {
    if HasTerraform(p) then p.terraform.value.value.resources else []
  }

  /** The Terraform half of the storage resources: those whose lower-cased type
      mentions a storage word, in order. */
  function TfStorageItems(p: InfraParsers.Parsed): (r: Result<seq<StorageItem>>)
    ensures r.Ok? <==> forall i :: 0 <= i < |TfResources(p)| ==> TfResources(p)[i].resourceType.JStr?
    ensures r.Ok? ==> forall i :: 0 <= i < |r.value| ==>
      r.value[i].TfStorage? && HasTerraform(p) && TypeMentions(r.value[i].resource, TfStorageWords)
    ensures r.Ok? ==> TfStored(r.value) == Filter(TfResources(p), Mentioning(TfStorageWords)) && CfStored(r.value) == []
    ensures !HasTerraform(p) ==> r == Ok([])
  {
    if !HasTerraform(p) then Ok([])
    else
      assert TfResources(p) == p.terraform.value.value.resources;
      var sel := SelectByType(p.terraform.value.value.resources, TfStorageWords);
      if sel.Err? then Err(sel.error)
      else
        TfStoredOfWrapped(sel.value);
        Ok(MapSeq(sel.value, (x: InfraParsers.TfResource) => TfStorage(x)))
  }

  /** The CloudFormation half of the storage resources: the keys whose definition's
      type mentions a storage word, in key order, each with its definition. The
      `resources` must be a mapping for `.items()`, and each definition a mapping
      with a string type. */
  function CfStorageItems(p: InfraParsers.Parsed): (r: Result<seq<StorageItem>>)
    ensures r.Ok? <==>
      (HasCloudFormation(p) ==>
         var res := p.awsCloudformation.value.value.resources;
         res.JObj? && forall i :: 0 <= i < |Keys(res.fields)| ==> CfReadable(At(res.fields, Keys(res.fields)[i])))
    ensures r.Ok? ==> forall i :: 0 <= i < |r.value| ==>
      r.value[i].CfStorage? && HasCloudFormation(p) && CfIsStorage(r.value[i].definition)
    ensures r.Ok? && HasCloudFormation(p) ==>
      var res := p.awsCloudformation.value.value.resources;
      CfStored(r.value) == Filter(Keys(res.fields), StorageKey(res.fields))
      && forall i :: 0 <= i < |r.value| ==> r.value[i].definition == At(res.fields, r.value[i].name)
    ensures r.Ok? ==> TfStored(r.value) == []
    ensures !HasCloudFormation(p) ==> r == Ok([])
  {
    if !HasCloudFormation(p) then Ok([])
    else
      var res := p.awsCloudformation.value.value.resources;
      if !res.JObj? then Err(Invalid("object has no attribute 'items'"))
      else CfStorageOf(res.fields, Keys(res.fields))
  }

  /** `storage_resources` of `_generate_storage_section`: the Terraform half, then the
      CloudFormation half; it fails when either half does. */
  function StorageItems(p: InfraParsers.Parsed): (r: Result<seq<StorageItem>>)
    ensures r.Ok? <==> TfStorageItems(p).Ok? && CfStorageItems(p).Ok?
    ensures r.Ok? ==> r.value == TfStorageItems(p).value + CfStorageItems(p).value
    ensures !HasTerraform(p) && !HasCloudFormation(p) ==> r == Ok([])
  {
    var tf := TfStorageItems(p);
    var cf := CfStorageItems(p);
    if tf.Err? then tf
    else if cf.Err? then cf
    else
      assert tf.value + [] == tf.value;
      Ok(tf.value + cf.value)
  }

  /** The storage resources read back: the Terraform resources among them are exactly
      the Terraform resources whose type mentions a storage word, in order; the
      CloudFormation names among them are exactly the storage keys, in key order; and
      no Terraform item follows a CloudFormation one. */
  lemma StorageItemsExactly(p: InfraParsers.Parsed)
    requires StorageItems(p).Ok?
    ensures TfStored(StorageItems(p).value) == Filter(TfResources(p), Mentioning(TfStorageWords))
    ensures HasCloudFormation(p) ==>
      var res := p.awsCloudformation.value.value.resources;
      CfStored(StorageItems(p).value) == Filter(Keys(res.fields), StorageKey(res.fields))
    ensures !HasCloudFormation(p) ==> CfStored(StorageItems(p).value) == []
    ensures var v := StorageItems(p).value;
      forall i, j :: 0 <= i < j < |v| && v[i].CfStorage? ==> v[j].CfStorage?
  {
    var tf, cf := TfStorageItems(p).value, CfStorageItems(p).value;
    HalvesJoined(tf, cf);
  }

  /** Terraform items followed by CloudFormation items: each kind reads back from its
      own half, and no Terraform item follows a CloudFormation one. */
  lemma HalvesJoined(tf: seq<StorageItem>, cf: seq<StorageItem>)
    requires forall i :: 0 <= i < |tf| ==> tf[i].TfStorage?
    requires CfStored(tf) == [] && TfStored(cf) == []
    requires forall i :: 0 <= i < |cf| ==> cf[i].CfStorage?
    ensures TfStored(tf + cf) == TfStored(tf) && CfStored(tf + cf) == CfStored(cf)
    ensures forall i, j :: 0 <= i < j < |tf + cf| && (tf + cf)[i].CfStorage? ==> (tf + cf)[j].CfStorage?
  {
    TfStoredConcat(tf, cf);
    assert TfStored(tf) + [] == TfStored(tf);
    assert [] + CfStored(cf) == CfStored(cf);
  }

  /** The Terraform half of the networking resources: those whose lower-cased type
      mentions a networking word, in order. */
  function TfNetworkItems(p: InfraParsers.Parsed): (r: Result<seq<NetworkItem>>)
    ensures r.Ok? <==> forall i :: 0 <= i < |TfResources(p)| ==> TfResources(p)[i].resourceType.JStr?
    ensures r.Ok? ==> forall i :: 0 <= i < |r.value| ==>
      r.value[i].TfNetwork? && TypeMentions(r.value[i].resource, NetworkWords)
    ensures r.Ok? ==> TfNetworked(r.value) == Filter(TfResources(p), Mentioning(NetworkWords))
    ensures !HasTerraform(p) ==> r == Ok([])
  {
    if !HasTerraform(p) then Ok([])
    else
      assert TfResources(p) == p.terraform.value.value.resources;
      var sel := SelectByType(p.terraform.value.value.resources, NetworkWords);
      if sel.Err? then Err(sel.error)
      else
        TfNetworkedOfWrapped(sel.value);
        Ok(MapSeq(sel.value, (x: InfraParsers.TfResource) => TfNetwork(x)))
  }

  /** Terraform items with the compose networks appended: the Terraform items read back
      unchanged, and the networks are the one item that is not Terraform, last. */
  lemma NetworksAppended(tf: seq<NetworkItem>, last: NetworkItem)
    requires forall i :: 0 <= i < |tf| ==> tf[i].TfNetwork?
    requires last.DockerNetworks?
    ensures TfNetworked(tf + [last]) == TfNetworked(tf)
    ensures forall i :: 0 <= i < |tf + [last]| && (tf + [last])[i].DockerNetworks? ==> i == |tf|
  {
    TfNetworkedConcat(tf, [last]);
    assert TfNetworked([last]) == [];
    assert TfNetworked(tf) + [] == TfNetworked(tf);
  }

  /** The networking resources: Terraform ones, then the compose networks whenever a
      compose summary is present. The Terraform items are exactly the Terraform
      resources whose type mentions a networking word, in order. */
  function NetworkItems(p: InfraParsers.Parsed): (r: Result<seq<NetworkItem>>)
    ensures r.Ok? <==> !HasTerraform(p) || forall i :: 0 <= i < |p.terraform.value.value.resources| ==> p.terraform.value.value.resources[i].resourceType.JStr?
    ensures r.Ok? && HasCompose(p) ==> |r.value| > 0 && r.value[|r.value| - 1] == DockerNetworks(p.dockerCompose.value.value.networks)
    ensures r.Ok? ==> forall i :: 0 <= i < |r.value| && r.value[i].TfNetwork? ==> TypeMentions(r.value[i].resource, NetworkWords)
    ensures r.Ok? ==> TfNetworked(r.value) == Filter(TfResources(p), Mentioning(NetworkWords))
    ensures r.Ok? ==> forall i :: 0 <= i < |r.value| && r.value[i].DockerNetworks? ==> HasCompose(p) && i == |r.value| - 1
    ensures !HasTerraform(p) && !HasCompose(p) ==> r == Ok([])
  {
    var fromTf := TfNetworkItems(p);
    assert HasTerraform(p) ==> TfResources(p) == p.terraform.value.value.resources;
    if fromTf.Err? then fromTf
    else if HasCompose(p) then
      var last := DockerNetworks(p.dockerCompose.value.value.networks);
      NetworksAppended(fromTf.value, last);
      Ok(fromTf.value + [last])
    else fromTf
  }

  /* ================================================================ the five sections */

  type Section = InfrastructureSection

  const CicdKeywordsBase: seq<string> := ["cicd", "gitlab", "pipeline", "deployment"]

  /** The CI/CD keywords: the base words, the lower-cased stages and job names, listed
      once each in set order. A stage that is not a string fails. */
  function CicdKeywords(ci: InfraParsers.CiInfo, order: seq<string>): (r: Result<seq<string>>)
    requires ci.CiInfo?
    ensures r.Ok? <==> Iterate(ci.stages).Ok? && forall i :: 0 <= i < |Iterate(ci.stages).value| ==> Iterate(ci.stages).value[i].JStr?
    ensures r.Ok? ==> Distinct(r.value)
    ensures r.Ok? ==> forall i :: 0 <= i < |CicdKeywordsBase| ==> CicdKeywordsBase[i] in r.value
    ensures r.Ok? ==> forall i :: 0 <= i < |ci.jobs| ==> Lower(ci.jobs[i].0) in r.value
    ensures r.Ok? ==> forall i :: 0 <= i < |Iterate(ci.stages).value| ==> Lower(Iterate(ci.stages).value[i].s) in r.value
  {
    var items := Iterate(ci.stages);
    if items.Err? then Err(items.error)
    else
      var stages := Artifacts.ValidateEach(items.value, LowerOf);
      if stages.Err? then Err(stages.error)
      else
        var names := MapSeq(ci.jobs, (j: (string, InfraParsers.CiJob)) => Lower(j.0));
        var all := CicdKeywordsBase + stages.value + names;
        assert forall i :: 0 <= i < |CicdKeywordsBase| ==> CicdKeywordsBase[i] == all[i];
        assert forall i :: 0 <= i < |stages.value| ==> stages.value[i] == all[|CicdKeywordsBase| + i];
        assert forall i :: 0 <= i < |names| ==> names[i] == all[|CicdKeywordsBase| + |stages.value| + i];
        Ok(SetToList(all, order))
  }

  /** Nothing else is a CI/CD keyword: each one is a base word, a lower-cased stage or
      a lower-cased job name. */
  lemma CicdKeywordsOnly(ci: InfraParsers.CiInfo, order: seq<string>, k: string)
    requires ci.CiInfo? && CicdKeywords(ci, order).Ok?
    requires k in CicdKeywords(ci, order).value
    ensures k in CicdKeywordsBase
      || (exists i :: 0 <= i < |Iterate(ci.stages).value| && Iterate(ci.stages).value[i].JStr?
                      && Lower(Iterate(ci.stages).value[i].s) == k)
      || (exists i :: 0 <= i < |ci.jobs| && Lower(ci.jobs[i].0) == k)
  {
    var items := Iterate(ci.stages).value;
    var stages := Artifacts.ValidateEach(items, LowerOf).value;
    var names := MapSeq(ci.jobs, (j: (string, InfraParsers.CiJob)) => Lower(j.0));
    var all := CicdKeywordsBase + stages + names;
    assert k in all;
    if k !in CicdKeywordsBase {
      if k in stages {
        var i :| 0 <= i < |stages| && stages[i] == k;
        assert LowerOf(items[i]).Ok?;
      } else {
        assert k in names;
        var i :| 0 <= i < |names| && names[i] == k;
      }
    }
  }

  /** The fallback CI/CD text. */
  function CicdSummary(jobs: nat, stages: nat): string {
    "GitLab CI/CD pipeline with " + NatToString(jobs) + " jobs across " + NatToString(stages) + " stages."
  }

  /** `_generate_cicd_section`: the LLM's text with the CI keywords; if the request or
      the keywords fail, a one-line summary with the base keywords. Counting the stages
      for that summary can itself fail, and nothing catches it there. */
  function CicdSection(llm: Llm, ci: InfraParsers.CiInfo, order: seq<string>): (r: Result<Section>)
    requires ci.CiInfo?
    ensures r.Ok? ==> r.value.title == "CI/CD Pipeline" && r.value.sectionType == "cicd"
    ensures Generate(llm, CicdData(ci)).Ok? && CicdKeywords(ci, order).Ok? ==>
              r == Ok(InfrastructureSection("CI/CD Pipeline", Generate(llm, CicdData(ci)).value, "cicd", CicdKeywords(ci, order).value))
    ensures Generate(llm, CicdData(ci)).Err? || CicdKeywords(ci, order).Err? ==>
              (r.Ok? <==> Len(ci.stages).Ok?)
              && (r.Ok? ==> r.value.content == CicdSummary(ci.jobCount, Len(ci.stages).value)
                            && r.value.keywords == CicdKeywordsBase)
  {
    var text := Generate(llm, CicdData(ci));
    var keywords := CicdKeywords(ci, order);
    if text.Ok? && keywords.Ok? then Ok(InfrastructureSection("CI/CD Pipeline", text.value, "cicd", keywords.value))
    else match Len(ci.stages)
      case Ok(n) => Ok(InfrastructureSection("CI/CD Pipeline", CicdSummary(ci.jobCount, n), "cicd", CicdKeywordsBase))
      case Err(e) => Err(e)
  }

  /** The deployment payload: each truthy slot among Dockerfile, compose, ECS and
      Terraform. */
  function DeploymentInput(p: InfraParsers.Parsed): (d: Payload)
    ensures d.DeploymentData?
    ensures d.dockerfile.Some? <==> HasDockerfile(p)
    ensures d.compose.Some? <==> HasCompose(p)
    ensures d.ecs.Some? <==> HasEcs(p)
    ensures d.terraform.Some? <==> HasTerraform(p)
  {
    DeploymentData(
      if HasDockerfile(p) then p.dockerfile.value else None,
      if HasCompose(p) then p.dockerCompose.value else None,
      if HasEcs(p) then p.awsEcs.value else None,
      if HasTerraform(p) then p.terraform.value else None)
  }

  predicate HasDeploymentInput(p: InfraParsers.Parsed) {
    HasDockerfile(p) || HasCompose(p) || HasEcs(p) || HasTerraform(p)
  }

  const DeploymentFallback := "Deployment infrastructure configured with Docker containers and AWS ECS."

  /** `_generate_deployment_section`: the LLM's text, or a fixed sentence. */
  function DeploymentSection(llm: Llm, d: Payload): (r: Section)
    requires d.DeploymentData?
    ensures r.title == "Deployment Infrastructure" && r.sectionType == "deployment"
    ensures Generate(llm, d).Ok? ==>
      r.content == Generate(llm, d).value
      && r.keywords == ["deployment", "docker", "containers", "aws", "ecs"]
                       + (if d.terraform.Some? then ["terraform"] else [])
                       + (if d.ecs.Some? then ["ecs", "fargate", "task"] else [])
    ensures Generate(llm, d).Err? ==> r.content == DeploymentFallback && r.keywords == ["deployment", "docker", "aws"]
  {
    match Generate(llm, d)
    case Ok(text) =>
      InfrastructureSection("Deployment Infrastructure", text, "deployment",
        ["deployment", "docker", "containers", "aws", "ecs"]
        + (if d.terraform.Some? then ["terraform"] else [])
        + (if d.ecs.Some? then ["ecs", "fargate", "task"] else []))
    case Err(_) =>
      InfrastructureSection("Deployment Infrastructure", DeploymentFallback, "deployment", ["deployment", "docker", "aws"])
  }

  /** The compute payload: Terraform resources and CloudFormation resources, when present. */
  function ComputeInput(p: InfraParsers.Parsed): (d: Payload)
    ensures d.ComputeData?
    ensures d.terraformResources.Some? <==> HasTerraform(p)
    ensures d.cloudformationResources.Some? <==> HasCloudFormation(p)
  {
    ComputeData(
      if HasTerraform(p) then Some(p.terraform.value.value.resources) else None,
      if HasCloudFormation(p) then Some(p.awsCloudformation.value.value.resources) else None)
  }

  const ComputeFallback := "Infrastructure resources managed via Terraform and AWS."

  /** `_generate_compute_section`: the LLM's text, or a fixed sentence. */
  function ComputeSection(llm: Llm, d: Payload): (r: Section)
    requires d.ComputeData?
    ensures r.title == "Compute Resources" && r.sectionType == "compute"
    ensures Generate(llm, d).Ok? ==>
      r.content == Generate(llm, d).value
      && r.keywords == ["compute", "resources", "infrastructure", "aws"] + (if d.terraformResources.Some? then ["terraform"] else [])
    ensures Generate(llm, d).Err? ==> r.content == ComputeFallback && r.keywords == ["compute", "resources"]
  {
    match Generate(llm, d)
    case Ok(text) =>
      InfrastructureSection("Compute Resources", text, "compute",
        ["compute", "resources", "infrastructure", "aws"] + (if d.terraformResources.Some? then ["terraform"] else []))
    case Err(_) => InfrastructureSection("Compute Resources", ComputeFallback, "compute", ["compute", "resources"])
  }

  /** `_generate_storage_section`: no section without storage resources or when the
      request fails. */
  function StorageSection(llm: Llm, items: seq<StorageItem>): (r: Option<Section>)
    ensures r.Some? <==> |items| > 0 && Generate(llm, StorageData(items)).Ok?
    ensures r.Some? ==> r.value == InfrastructureSection("Storage Infrastructure", Generate(llm, StorageData(items)).value,
                                                         "storage", ["storage", "s3", "database", "rds", "aws"])
  {
    if |items| == 0 then None
    else match Generate(llm, StorageData(items))
      case Ok(text) => Some(InfrastructureSection("Storage Infrastructure", text, "storage", ["storage", "s3", "database", "rds", "aws"]))
      case Err(_) => None
  }

  /** `_generate_networking_section`: no section without networking resources or when
      the request fails. */
  function NetworkingSection(llm: Llm, items: seq<NetworkItem>): (r: Option<Section>)
    ensures r.Some? <==> |items| > 0 && Generate(llm, NetworkingData(items)).Ok?
    ensures r.Some? ==> r.value == InfrastructureSection("Networking Infrastructure", Generate(llm, NetworkingData(items)).value,
                                                         "networking", ["networking", "vpc", "security", "load", "balancer", "aws"])
  {
    if |items| == 0 then None
    else match Generate(llm, NetworkingData(items))
      case Ok(text) => Some(InfrastructureSection("Networking Infrastructure", text, "networking",
                                                  ["networking", "vpc", "security", "load", "balancer", "aws"]))
      case Err(_) => None
  }

  /* ================================================================ ordering */

  const SectionOrder: seq<string> := ["cicd", "deployment", "compute", "storage", "networking"]

  /** Position of a section type in the fixed order; 5 for any other type. */
  function Rank(t: string): nat {
    if t == "cicd" then 0 else if t == "deployment" then 1 else if t == "compute" then 2
    else if t == "storage" then 3 else if t == "networking" then 4 else 5
  }

  /** Sections strictly follow the fixed order: each type at most once, in order. */
  predicate InOrder(s: seq<Section>) {
    (forall i :: 0 <= i < |s| ==> Rank(s[i].sectionType) < 5)
    && forall i, j :: 0 <= i < j < |s| ==> Rank(s[i].sectionType) < Rank(s[j].sectionType)
  }

  predicate HasType(s: seq<Section>, t: string) {
    exists i :: 0 <= i < |s| && s[i].sectionType == t
  }

  function Listed(o: Option<Section>): seq<Section> { if o.Some? then [o.value] else [] }

  /** Below rank `k`: every section ranks lower than `k`. */
  predicate RanksBelow(s: seq<Section>, k: nat) {
    forall i :: 0 <= i < |s| ==> Rank(s[i].sectionType) < k
  }

  /** Appending an optional section of rank `k` after sections of lower rank keeps the
      order. */
  lemma PushInOrder(acc: seq<Section>, o: Option<Section>, k: nat)
    requires InOrder(acc) && k < 5 && RanksBelow(acc, k)
    requires o.Some? ==> Rank(o.value.sectionType) == k
    ensures InOrder(acc + Listed(o)) && RanksBelow(acc + Listed(o), k + 1)
  {
  }

  /** A type is present after appending iff it was present or is the appended one. */
  lemma AppendHasType(acc: seq<Section>, o: Option<Section>, t: string)
    ensures HasType(acc + Listed(o), t) <==> HasType(acc, t) || (o.Some? && o.value.sectionType == t)
  {
    var r := acc + Listed(o);
    if HasType(acc, t) {
      var i :| 0 <= i < |acc| && acc[i].sectionType == t;
      assert r[i] == acc[i];
    }
    if o.Some? && o.value.sectionType == t {
      assert r[|acc|] == o.value;
    }
  }

  /** Each known type has its own rank, so the types are pairwise different. */
  lemma RankOfTypes()
    ensures Rank("cicd") == 0 && Rank("deployment") == 1 && Rank("compute") == 2
    ensures Rank("storage") == 3 && Rank("networking") == 4
  {
    assert "deployment"[0] != "cicd"[0];
    assert "compute"[1] != "cicd"[1] && |"compute"| != |"deployment"|;
    assert "storage"[0] != "cicd"[0] && |"storage"| != |"deployment"| && "storage"[0] != "compute"[0];
    assert |"networking"| != |"cicd"| && "networking"[0] != "deployment"[0] && |"networking"| != |"compute"|;
    assert |"networking"| != |"storage"|;
  }

  /** The listed sections in order. */
  function Joined(c: Option<Section>, d: Option<Section>, co: Option<Section>, st: Option<Section>, n: Option<Section>): seq<Section> {
    Listed(c) + Listed(d) + Listed(co) + Listed(st) + Listed(n)
  }

  /** Which types the five optional sections contribute. */
  lemma JoinedHasType(c: Option<Section>, d: Option<Section>, co: Option<Section>, st: Option<Section>, n: Option<Section>, t: string)
    ensures HasType(Joined(c, d, co, st, n), t) <==>
      (c.Some? && c.value.sectionType == t) || (d.Some? && d.value.sectionType == t)
      || (co.Some? && co.value.sectionType == t) || (st.Some? && st.value.sectionType == t)
      || (n.Some? && n.value.sectionType == t)
  {
    var s0: seq<Section> := [];
    assert !HasType(s0, t);
    AppendHasType(s0, c, t);
    assert s0 + Listed(c) == Listed(c);
    AppendHasType(Listed(c), d, t);
    AppendHasType(Listed(c) + Listed(d), co, t);
    AppendHasType(Listed(c) + Listed(d) + Listed(co), st, t);
    AppendHasType(Listed(c) + Listed(d) + Listed(co) + Listed(st), n, t);
  }

  /** The five optional sections in the fixed order. */
  function Assemble(c: Option<Section>, d: Option<Section>, co: Option<Section>, st: Option<Section>, n: Option<Section>): (r: seq<Section>)
    requires c.Some? ==> c.value.sectionType == "cicd"
    requires d.Some? ==> d.value.sectionType == "deployment"
    requires co.Some? ==> co.value.sectionType == "compute"
    requires st.Some? ==> st.value.sectionType == "storage"
    requires n.Some? ==> n.value.sectionType == "networking"
    ensures InOrder(r)
    ensures r == Joined(c, d, co, st, n)
  {
    JoinedInOrder(c, d, co, st, n);
    Joined(c, d, co, st, n)
  }

  lemma JoinedInOrder(c: Option<Section>, d: Option<Section>, co: Option<Section>, st: Option<Section>, n: Option<Section>)
    requires c.Some? ==> c.value.sectionType == "cicd"
    requires d.Some? ==> d.value.sectionType == "deployment"
    requires co.Some? ==> co.value.sectionType == "compute"
    requires st.Some? ==> st.value.sectionType == "storage"
    requires n.Some? ==> n.value.sectionType == "networking"
    ensures InOrder(Joined(c, d, co, st, n))
  {
    RankOfTypes();
    var s0: seq<Section> := [];
    assert s0 + Listed(c) == Listed(c);
    var s1 := Listed(c);
    assert InOrder(s1) && RanksBelow(s1, 1) by { PushInOrder(s0, c, 0); }
    var s2 := s1 + Listed(d);
    assert InOrder(s2) && RanksBelow(s2, 2) by { PushInOrder(s1, d, 1); }
    var s3 := s2 + Listed(co);
    assert InOrder(s3) && RanksBelow(s3, 3) by { PushInOrder(s2, co, 2); }
    var s4 := s3 + Listed(st);
    assert InOrder(s4) && RanksBelow(s4, 4) by { PushInOrder(s3, st, 3); }
    PushInOrder(s4, n, 4);
  }

  /** Each type is present exactly when its optional section is. */
  lemma AssembleTypes(c: Option<Section>, d: Option<Section>, co: Option<Section>, st: Option<Section>, n: Option<Section>)
    requires c.Some? ==> c.value.sectionType == "cicd"
    requires d.Some? ==> d.value.sectionType == "deployment"
    requires co.Some? ==> co.value.sectionType == "compute"
    requires st.Some? ==> st.value.sectionType == "storage"
    requires n.Some? ==> n.value.sectionType == "networking"
    ensures var r := Joined(c, d, co, st, n);
      (HasType(r, "cicd") <==> c.Some?) && (HasType(r, "deployment") <==> d.Some?)
      && (HasType(r, "compute") <==> co.Some?) && (HasType(r, "storage") <==> st.Some?)
      && (HasType(r, "networking") <==> n.Some?)
  {
    RankOfTypes();
    JoinedHasType(c, d, co, st, n, "cicd");
    JoinedHasType(c, d, co, st, n, "deployment");
    JoinedHasType(c, d, co, st, n, "compute");
    JoinedHasType(c, d, co, st, n, "storage");
    JoinedHasType(c, d, co, st, n, "networking");
  }

  /** Everything the indexer needs besides the parsed data. */
  datatype Env = Env(
    llm: Llm, keywordOrder: seq<string>,
    io: InfraParsers.Io, git: seq<string> -> RepoCrawler.GitOutcome, tempDir: string,
    present: string -> bool, fs: string -> Option<RepoCrawler.Tree>)

  /** `_generate_markdown_sections`: CI/CD, deployment, compute, storage and networking,
      each only when its inputs are present (storage and networking also need the
      request to succeed). A resource type that is not a string fails the whole run. */
  function GenerateSections(llm: Llm, order: seq<string>, p: InfraParsers.Parsed): (r: Result<seq<Section>>)
    ensures r.Ok? ==> InOrder(r.value)
    ensures r.Ok? ==> (HasType(r.value, "cicd") <==> HasCi(p))
    ensures r.Ok? ==> (HasType(r.value, "deployment") <==> HasDeploymentInput(p))
    ensures r.Ok? ==> (HasType(r.value, "compute") <==> HasTerraform(p) || HasCloudFormation(p))
    ensures r.Ok? ==> StorageItems(p).Ok? && NetworkItems(p).Ok?
  {
    var deployment := if HasDeploymentInput(p) then Some(DeploymentSection(llm, DeploymentInput(p))) else None;
    var compute := if HasTerraform(p) || HasCloudFormation(p) then Some(ComputeSection(llm, ComputeInput(p))) else None;
    SectionsFrom(CicdPart(llm, order, p), deployment, compute, LaterSections(llm, StorageItems(p), NetworkItems(p)))
  }

  /** The sections in order from the parts, failing with the first failing part. */
  function SectionsFrom(cicd: Result<Option<Section>>, deployment: Option<Section>, compute: Option<Section>,
                        later: Result<(Option<Section>, Option<Section>)>): (r: Result<seq<Section>>)
    requires cicd.Ok? && cicd.value.Some? ==> cicd.value.value.sectionType == "cicd"
    requires deployment.Some? ==> deployment.value.sectionType == "deployment"
    requires compute.Some? ==> compute.value.sectionType == "compute"
    requires later.Ok? && later.value.0.Some? ==> later.value.0.value.sectionType == "storage"
    requires later.Ok? && later.value.1.Some? ==> later.value.1.value.sectionType == "networking"
    ensures r.Ok? <==> cicd.Ok? && later.Ok?
    ensures r.Ok? ==> InOrder(r.value)
    ensures r.Ok? ==> (HasType(r.value, "cicd") <==> cicd.value.Some?)
    ensures r.Ok? ==> (HasType(r.value, "deployment") <==> deployment.Some?)
    ensures r.Ok? ==> (HasType(r.value, "compute") <==> compute.Some?)
    ensures r.Ok? ==> (HasType(r.value, "storage") <==> later.value.0.Some?)
    ensures r.Ok? ==> (HasType(r.value, "networking") <==> later.value.1.Some?)
  {
    if cicd.Err? then Err(cicd.error)
    else if later.Err? then Err(later.error)
    else
      AssembleTypes(cicd.value, deployment, compute, later.value.0, later.value.1);
      Ok(Assemble(cicd.value, deployment, compute, later.value.0, later.value.1))
  }

  /** The storage and networking sections of a successful run: each is present exactly
      when its items exist and the request for it succeeds. */
  lemma GeneratedLaterSections(llm: Llm, order: seq<string>, p: InfraParsers.Parsed)
    requires GenerateSections(llm, order, p).Ok?
    ensures StorageItems(p).Ok? && NetworkItems(p).Ok?
    ensures var r := GenerateSections(llm, order, p).value;
      HasType(r, "storage") <==> StorageSection(llm, StorageItems(p).value).Some?
    ensures var r := GenerateSections(llm, order, p).value;
      HasType(r, "networking") <==> NetworkingSection(llm, NetworkItems(p).value).Some?
    ensures var r := GenerateSections(llm, order, p).value;
      HasType(r, "storage") ==> |StorageItems(p).value| > 0
    ensures var r := GenerateSections(llm, order, p).value;
      HasType(r, "networking") ==> |NetworkItems(p).value| > 0
  {
  }

  /** The CI/CD section, when there is CI data; its failure fails the run. */
  function CicdPart(llm: Llm, order: seq<string>, p: InfraParsers.Parsed): (r: Result<Option<Section>>)
    ensures r.Ok? && r.value.Some? <==> HasCi(p) && CicdSection(llm, p.gitlabCi.value.value, order).Ok?
    ensures r.Err? <==> HasCi(p) && CicdSection(llm, p.gitlabCi.value.value, order).Err?
    ensures r.Ok? && r.value.Some? ==> r.value.value.sectionType == "cicd"
  {
    if HasCi(p) then
      var s := CicdSection(llm, p.gitlabCi.value.value, order);
      if s.Err? then Err(s.error) else Ok(Some(s.value))
    else Ok(None)
  }

  /** The storage and networking sections once both item lists are in hand; the first
      failure among the two lists fails the run. */
  function LaterSections(llm: Llm, storage: Result<seq<StorageItem>>, network: Result<seq<NetworkItem>>)
    : (r: Result<(Option<Section>, Option<Section>)>)
    ensures r.Ok? <==> storage.Ok? && network.Ok?
    ensures storage.Err? ==> r == Err(storage.error)
    ensures storage.Ok? && network.Err? ==> r == Err(network.error)
    ensures r.Ok? ==> r.value.0 == StorageSection(llm, storage.value) && r.value.1 == NetworkingSection(llm, network.value)
    ensures r.Ok? && r.value.0.Some? ==> r.value.0.value.sectionType == "storage" && |storage.value| > 0
    ensures r.Ok? && r.value.1.Some? ==> r.value.1.value.sectionType == "networking" && |network.value| > 0
  {
    if storage.Err? then Err(storage.error)
    else if network.Err? then Err(network.error)
    else Ok((StorageSection(llm, storage.value), NetworkingSection(llm, network.value)))
  }

  /* ================================================================ the document */

  const DocumentHeader := "# Infrastructure Documentation\n"

  /** One section of the document. */
  function Block(s: Section): string { "## " + s.title + "\n" + s.content + "\n\n" }

  /** `_combine_sections_to_markdown` */
  function CombineSections(sections: seq<Section>): (r: string)
    ensures |sections| == 0 ==> r == ""
    ensures |sections| > 0 ==> StartsWith(r, DocumentHeader)
  {
    if |sections| == 0 then "" else DocumentHeader + Flatten(MapSeq(sections, Block))
  }

  /** The document is empty exactly when there are no sections. */
  lemma CombineEmptyIff(sections: seq<Section>)
    ensures CombineSections(sections) == "" <==> |sections| == 0
  {
    if |sections| > 0 {
      assert |CombineSections(sections)| >= |DocumentHeader|;
    }
  }

  /** Every section appears in the document as its own block, with its content. */
  lemma CombineContainsSection(sections: seq<Section>, i: int)
    requires 0 <= i < |sections|
    ensures Contains(CombineSections(sections), Block(sections[i]))
    ensures Contains(CombineSections(sections), sections[i].content)
  {
    var blocks := MapSeq(sections, Block);
    FlattenContains(blocks, i, Block(sections[i]));
    ContainsSuffixPart(DocumentHeader, Flatten(blocks), Block(sections[i]));
    var b := Block(sections[i]);
    ContainsInMiddle("## " + sections[i].title + "\n", sections[i].content, "\n\n", sections[i].content) by {
      ContainsSelf(sections[i].content);
    }
    ContainsTransitive(CombineSections(sections), b, sections[i].content);
  }

  /** Adding a section appends its block. */
  lemma {:induction false} CombineAppend(sections: seq<Section>, s: Section)
    requires |sections| > 0
    ensures CombineSections(sections + [s]) == CombineSections(sections) + Block(s)
  {
    FlattenSnoc(MapSeq(sections, Block), Block(s));
    assert MapSeq(sections + [s], Block) == MapSeq(sections, Block) + [Block(s)];
  }

  lemma {:induction false} FlattenSnoc(ss: seq<string>, x: string)
    ensures Flatten(ss + [x]) == Flatten(ss) + x
    decreases |ss|
  {
    if |ss| == 0 {
      assert ss + [x] == [x];
      assert Flatten([x]) == x + Flatten([]);
    } else {
      assert (ss + [x])[1..] == ss[1..] + [x];
      FlattenSnoc(ss[1..], x);
    }
  }

  /** Index of the first deployment section, or |sections|. */
  function FirstDeployment(sections: seq<Section>): (k: nat)
    ensures k <= |sections|
    ensures k < |sections| ==> sections[k].sectionType == "deployment"
    ensures forall i :: 0 <= i < k ==> sections[i].sectionType != "deployment"
  {
    if |sections| == 0 then 0
    else if sections[0].sectionType == "deployment" then 0
    else 1 + FirstDeployment(sections[1..])
  }

  /** `_extract_deployment_info`: the first deployment section's content, cut to 500
      characters plus "..." when longer. */
  function DeploymentInfo(sections: seq<Section>): (r: Option<string>)
    ensures r.Some? <==> HasType(sections, "deployment")
    ensures r.Some? ==> |r.value| <= 503
    ensures r.Some? ==> exists k :: 0 <= k < |sections| && sections[k].sectionType == "deployment"
                                    && (forall i :: 0 <= i < k ==> sections[i].sectionType != "deployment")
                                    && r.value == Ellipsize(sections[k].content, 500)
  {
    var k := FirstDeployment(sections);
    if k == |sections| then None else Some(Ellipsize(sections[k].content, 500))
  }

  const DatabaseWords: seq<string> := ["rds", "database"]

  /** `_extract_databases`: "<type> database" for each Terraform resource whose
      lower-cased type mentions "rds" or "database", in resource order. */
  function Databases(p: InfraParsers.Parsed): (r: Result<seq<string>>)
    ensures !HasTerraform(p) ==> r == Ok([])
    ensures HasTerraform(p) ==> (r.Ok? <==> SelectByType(p.terraform.value.value.resources, DatabaseWords).Ok?)
    ensures r.Ok? && HasTerraform(p) ==>
      var picked := Filter(p.terraform.value.value.resources, Mentioning(DatabaseWords));
      |r.value| == |picked| && forall i :: 0 <= i < |picked| ==> r.value[i] == picked[i].resourceType.s + " database"
  {
    if !HasTerraform(p) then Ok([])
    else
      var sel := SelectByType(p.terraform.value.value.resources, DatabaseWords);
      if sel.Err? then Err(sel.error)
      else
        Ok(MapSeq(sel.value, (x: InfraParsers.TfResource) => (if x.resourceType.JStr? then x.resourceType.s else "") + " database"))
  }

  /** `_extract_services`: the compose service names, in document order. */
  function Services(p: InfraParsers.Parsed): (r: seq<string>)
    ensures !HasCompose(p) ==> r == []
    ensures HasCompose(p) ==>
      |r| == |p.dockerCompose.value.value.services|
      && forall i :: 0 <= i < |r| ==> r[i] == p.dockerCompose.value.value.services[i].0
  {
    if HasCompose(p) then MapSeq(p.dockerCompose.value.value.services, (s: (string, InfraParsers.ComposeService)) => s.0)
    else []
  }

  /* ================================================================ index_infrastructure */

  /** The arguments of `index_infrastructure` the indexer reads. */
  datatype Request = Request(
    tfstate: Option<string>, gitlabCi: Option<string>, dockerfile: Option<string>,
    dockerCompose: Option<string>, ecsTaskDef: Option<string>, cloudformation: Option<string>,
    gitlabToken: Option<string>, gitlabRepoUrl: Option<string>,
    repoUrl: Option<string>, repoToken: Option<string>, repoBranch: Option<string>)

  function ExplicitPaths(q: Request): InfraParsers.Paths {
    InfraParsers.Paths(q.tfstate, q.gitlabCi, q.dockerfile, q.dockerCompose, q.ecsTaskDef, q.cloudformation)
  }

  /** Explicit paths, each falling back to the discovered one. */
  function Merge(q: Request, d: RepoCrawler.Discovered): (r: InfraParsers.Paths)
    ensures r.tfstate == q.tfstate
    ensures HasText(q.gitlabCi) ==> r.gitlabCi == q.gitlabCi
    ensures HasText(q.dockerfile) ==> r.dockerfile == q.dockerfile
    ensures HasText(q.dockerCompose) ==> r.dockerCompose == q.dockerCompose
    ensures HasText(q.ecsTaskDef) ==> r.ecsTaskDef == q.ecsTaskDef
    ensures HasText(q.cloudformation) ==> r.cloudformation == q.cloudformation
    ensures !HasText(q.gitlabCi) ==> r.gitlabCi == d.gitlabCi
    ensures !HasText(q.dockerfile) ==> r.dockerfile == d.dockerfile
    ensures !HasText(q.dockerCompose) ==> r.dockerCompose == d.dockerCompose
    ensures !HasText(q.ecsTaskDef) ==> r.ecsTaskDef == d.ecsTaskDef
    ensures !HasText(q.cloudformation) ==> r.cloudformation == d.cloudformation
  {
    InfraParsers.Paths(q.tfstate, OrText(q.gitlabCi, d.gitlabCi), OrText(q.dockerfile, d.dockerfile),
      OrText(q.dockerCompose, d.dockerCompose), OrText(q.ecsTaskDef, d.ecsTaskDef),
      OrText(q.cloudformation, d.cloudformation))
  }

  /** The paths to parse and the crawler, if one was made. A crawler is made for any
      repository URL (`repo_url`, else `gitlab_repo_url`) that `urlparse` accepts; if
      that fails there is no crawler, and if cloning or discovery fails the crawler is
      cleaned up; either way only the explicit paths are used. */
  function ResolvePaths(q: Request, env: Env): (r: (InfraParsers.Paths, Option<RepoCrawler.Crawler>))
    ensures !HasText(OrText(q.repoUrl, q.gitlabRepoUrl)) ==> r == (ExplicitPaths(q), None)
    ensures HasText(OrText(q.repoUrl, q.gitlabRepoUrl)) ==>
      var made := RepoCrawler.CreateCrawler(OrText(q.repoUrl, q.gitlabRepoUrl).value, OrText(q.repoToken, q.gitlabToken), q.repoBranch);
      (made.Err? ==> r == (ExplicitPaths(q), None))
      && (made.Ok? ==> r.1.Some? && r.1.value.repoUrl == OrText(q.repoUrl, q.gitlabRepoUrl).value
                       && r.1.value.token == OrText(q.repoToken, q.gitlabToken))
    ensures HasText(OrText(q.repoUrl, q.gitlabRepoUrl)) ==>
      var made := RepoCrawler.CreateCrawler(OrText(q.repoUrl, q.gitlabRepoUrl).value, OrText(q.repoToken, q.gitlabToken), q.repoBranch);
      made.Ok? ==>
      var cloned := RepoCrawler.Clone(made.value, env.tempDir, env.git, env.present);
      var found := if cloned.1.Ok? then RepoCrawler.DiscoverFiles(cloned.0, Some(cloned.1.value), env.fs) else Err(Invalid(""));
      (found.Ok? ==> r.0 == Merge(q, found.value)) && (found.Err? ==> r.0 == ExplicitPaths(q))
    ensures r.0.tfstate == q.tfstate
  {
    var url := OrText(q.repoUrl, q.gitlabRepoUrl);
    if !HasText(url) then (ExplicitPaths(q), None)
    else
      var made := RepoCrawler.CreateCrawler(url.value, OrText(q.repoToken, q.gitlabToken), q.repoBranch);
      if made.Err? then (ExplicitPaths(q), None)
      else
      var (c1, cloned) := RepoCrawler.Clone(made.value, env.tempDir, env.git, env.present);
      if cloned.Err? then (ExplicitPaths(q), Some(RepoCrawler.Cleanup(c1, env.present)))
      else match RepoCrawler.DiscoverFiles(c1, Some(cloned.value), env.fs)
        case Ok(d) => (Merge(q, d), Some(c1))
        case Err(_) => (ExplicitPaths(q), Some(RepoCrawler.Cleanup(c1, env.present)))
  }

  /** The description and the crawler as it is left. */
  datatype Indexed = Indexed(description: InfrastructureDescription, crawler: Option<RepoCrawler.Crawler>)

  /** `index_infrastructure`. */
  function IndexInfrastructure(q: Request, env: Env): (r: Result<Indexed>)
    ensures var (paths, _) := ResolvePaths(q, env);
            var parsed := InfraParsers.ParseAll(env.io, paths);
            r.Ok? <==> GenerateSections(env.llm, env.keywordOrder, parsed).Ok? && Databases(parsed).Ok?
    ensures r.Ok? ==>
      var (paths, _) := ResolvePaths(q, env);
      var parsed := InfraParsers.ParseAll(env.io, paths);
      var d := r.value.description;
      d.sections == GenerateSections(env.llm, env.keywordOrder, parsed).value
      && d.markdownDocument == Some(CombineSections(d.sections))
      && d.deployment == DeploymentInfo(d.sections)
      && d.databases == Databases(parsed).value
      && d.services == Services(parsed)
      && d.configuration.None?
    ensures r.Ok? ==> r.value.crawler.None? || r.value.crawler.value.tempDir.None?
                      || !env.present(r.value.crawler.value.tempDir.value)
  {
    var (paths, crawler) := ResolvePaths(q, env);
    var parsed := InfraParsers.ParseAll(env.io, paths);
    var left := if crawler.Some? then Some(RepoCrawler.Cleanup(crawler.value, env.present)) else None;
    var sections := GenerateSections(env.llm, env.keywordOrder, parsed);
    if sections.Err? then Err(sections.error)
    else
      var databases := Databases(parsed);
      if databases.Err? then Err(databases.error)
      else
        Ok(Indexed(
          InfrastructureDescription(DeploymentInfo(sections.value), databases.value, Services(parsed), None,
                                    sections.value, Some(CombineSections(sections.value))),
          left))
  }

  /** The storage section is dropped, not replaced, when its request fails. */
  lemma StorageDroppedOnFailure(llm: Llm, order: seq<string>, p: InfraParsers.Parsed)
    requires GenerateSections(llm, order, p).Ok?
    requires Generate(llm, StorageData(StorageItems(p).value)).Err?
    ensures !HasType(GenerateSections(llm, order, p).value, "storage")
  {
    GeneratedLaterSections(llm, order, p);
  }
}
