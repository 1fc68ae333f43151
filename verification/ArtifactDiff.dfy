/** The diff of two releases: an artifact as decoded JSON (the tags of internal/gitstate/artifact.go),
    what its flattening holds under each path, and what the diff says of two artifacts. */
module ArtifactDiff {
  import opened Options
  import opened Json
  import opened Artifacts
  import opened ReleaseDiff
  import Flattening

  // ---------------------------------------------------------------- an artifact as JSON

  function StatusText(status: Status): string {
    match status
    case PendingEval => "pending_eval"
    case Active => "active"
    case Rejected => "rejected"
    case Deleted => "deleted"
  }

  function MetadataJson(m: Metadata): map<string, Json> {
    WithText(WithText(HistoryJson(m), "agent_id", m.agentId), "team_id", m.teamId)
  }

  function HistoryJson(m: Metadata): map<string, Json> {
    map["name" := Str(m.name), "version" := Float(m.version as real), "previous" := Float(m.previous as real),
        "author" := Str(m.author), "timestamp" := Str(m.timestamp), "changelog" := Str(m.changelog),
        "checksum" := Str(m.checksum), "status" := Str(StatusText(m.status))]
  }

  function RuntimeJson(r: Runtime): map<string, Json> {
    map["image" := Str(r.image), "channel" := Str(r.channel), "strategy" := Str(r.strategy),
        "replicas" := Float(r.replicas as real)]
  }

  function ModelJson(a: AgentConfig): map<string, Json> {
    map["provider" := Str(a.provider), "id" := Str(a.modelId)]
  }

  function MemoryJson(a: AgentConfig): map<string, Json> { map["backend" := Str(a.memoryBackend)] }

  function AgentJson(a: AgentConfig): map<string, Json> {
    WithText(AgentLeaves(a), "prompt_ref", a.promptRef)["model" := Obj(ModelJson(a))]["memory" := Obj(MemoryJson(a))]
  }

  function AgentLeaves(a: AgentConfig): map<string, Json> {
    map["system_prompt" := Str(a.systemPrompt), "skills" := Strings(a.skills), "tools" := Strings(a.tools),
        "knowledge_bases" := Strings(a.knowledgeBases)]
  }

  function GovernanceJson(g: Governance): map<string, Json> {
    map["guards" := Strings(g.guards), "risk_profile" := Str(g.riskProfile), "policies" := Strings(g.policies),
        "eval_dataset" := Str(g.evalDataset), "min_quality_score" := Float(g.minQualityScore as real)]
  }

  function DeploymentJson(d: Deployment): map<string, Json> {
    map["namespace" := Str(d.namespace), "environment" := Str(d.environment)]
  }

  function KindJson(): map<string, Json> {
    map["apiVersion" := Str("agents.recif.dev/v1"), "kind" := Str("AgentRelease")]
  }

  /** json.Marshal then json.Unmarshal of an artifact: every number becomes a float. */
  function ArtifactJson(a: Artifact): map<string, Json> {
    FirstParts(a)["agent" := Obj(AgentJson(a.agent))]["governance" := Obj(GovernanceJson(a.governance))]
                 ["deployment" := Obj(DeploymentJson(a.deployment))]
  }

  function FirstParts(a: Artifact): map<string, Json> {
    KindJson()["metadata" := Obj(MetadataJson(a.metadata))]["runtime" := Obj(RuntimeJson(a.runtime))]
  }

  // ---------------------------------------------------------------- its keys

  /** Plain keys, and no object below them. */
  ghost predicate Leafy(m: map<string, Json>) {
    m != map[] && forall k :: k in m ==> Flattening.PlainKey(k) && !m[k].Obj?
  }

  /** Plain keys, and below them leaves or non-empty objects that are plain all the way down. */
  ghost predicate Plain(m: map<string, Json>) {
    m != map[] && Flattening.PlainKeys(m) && Flattening.NoEmptyObject(m) && Flattening.PlainRoot(m)
  }

  lemma LeafyIsPlain(m: map<string, Json>)
    requires Leafy(m)
    ensures Plain(m)
  {
  }

  lemma LeafyWithText(m: map<string, Json>, key: string, text: string)
    requires Leafy(m) && Flattening.PlainKey(key)
    ensures Leafy(WithText(m, key, text))
  {
  }

  lemma PlainWithObject(m: map<string, Json>, key: string, sub: map<string, Json>)
    requires Plain(m) && Plain(sub) && key != "" && Flattening.PlainKey(key)
    ensures Plain(m[key := Obj(sub)])
  {
  }

  lemma HistoryIsLeafy(m: Metadata)
    ensures Leafy(HistoryJson(m))
  {
    assert "name" in HistoryJson(m);
  }

  lemma MetadataIsLeafy(m: Metadata)
    ensures Leafy(MetadataJson(m))
  {
    HistoryIsLeafy(m);
    LeafyWithText(HistoryJson(m), "agent_id", m.agentId);
    LeafyWithText(WithText(HistoryJson(m), "agent_id", m.agentId), "team_id", m.teamId);
  }

  lemma RuntimeIsLeafy(r: Runtime)
    ensures Leafy(RuntimeJson(r))
  {
    assert "image" in RuntimeJson(r);
  }

  lemma AgentLeavesAreLeafy(a: AgentConfig)
    ensures Leafy(AgentLeaves(a))
  {
    assert "system_prompt" in AgentLeaves(a);
  }

  lemma ModelIsLeafy(a: AgentConfig)
    ensures Leafy(ModelJson(a)) && Leafy(MemoryJson(a))
  {
    assert "id" in ModelJson(a) && "backend" in MemoryJson(a);
  }

  lemma AgentPartsAreLeafy(a: AgentConfig)
    ensures Leafy(WithText(AgentLeaves(a), "prompt_ref", a.promptRef)) && Leafy(ModelJson(a)) && Leafy(MemoryJson(a))
  {
    AgentLeavesAreLeafy(a);
    LeafyWithText(AgentLeaves(a), "prompt_ref", a.promptRef);
    ModelIsLeafy(a);
  }

  lemma AgentIsPlain(a: AgentConfig)
    ensures Plain(AgentJson(a))
  {
    var leaves := WithText(AgentLeaves(a), "prompt_ref", a.promptRef);
    AgentPartsAreLeafy(a);
    LeafyIsPlain(leaves);
    LeafyIsPlain(ModelJson(a));
    LeafyIsPlain(MemoryJson(a));
    PlainWithObject(leaves, "model", ModelJson(a));
    PlainWithObject(leaves["model" := Obj(ModelJson(a))], "memory", MemoryJson(a));
  }

  lemma GovernanceIsLeafy(g: Governance)
    ensures Leafy(GovernanceJson(g))
  {
    assert "guards" in GovernanceJson(g);
  }

  lemma DeploymentIsLeafy(d: Deployment)
    ensures Leafy(DeploymentJson(d))
  {
    assert "namespace" in DeploymentJson(d);
  }

  lemma PartsArePlain(a: Artifact)
    ensures Plain(MetadataJson(a.metadata)) && Plain(RuntimeJson(a.runtime)) && Plain(AgentJson(a.agent))
              && Plain(GovernanceJson(a.governance)) && Plain(DeploymentJson(a.deployment))
  {
    MetadataIsLeafy(a.metadata);
    RuntimeIsLeafy(a.runtime);
    AgentIsPlain(a.agent);
    GovernanceIsLeafy(a.governance);
    DeploymentIsLeafy(a.deployment);
    LeafyIsPlain(MetadataJson(a.metadata));
    LeafyIsPlain(RuntimeJson(a.runtime));
    LeafyIsPlain(GovernanceJson(a.governance));
    LeafyIsPlain(DeploymentJson(a.deployment));
  }

  lemma KindIsPlain()
    ensures Plain(KindJson())
  {
    assert "kind" in KindJson();
  }

  lemma TwoMoreParts(m: map<string, Json>, key1: string, sub1: map<string, Json>, key2: string,
                     sub2: map<string, Json>)
    requires Plain(m) && Plain(sub1) && Plain(sub2) && key1 != "" && key2 != ""
    requires Flattening.PlainKey(key1) && Flattening.PlainKey(key2)
    ensures Plain(m[key1 := Obj(sub1)][key2 := Obj(sub2)])
  {
    PlainWithObject(m, key1, sub1);
    PlainWithObject(m[key1 := Obj(sub1)], key2, sub2);
  }

  lemma FirstPartsArePlain(a: Artifact)
    ensures Plain(FirstParts(a))
  {
    KindIsPlain();
    PartsArePlain(a);
    TwoMoreParts(KindJson(), "metadata", MetadataJson(a.metadata), "runtime", RuntimeJson(a.runtime));
  }

  lemma ArtifactIsPlain(a: Artifact)
    ensures Plain(ArtifactJson(a))
  {
    FirstPartsArePlain(a);
    PartsArePlain(a);
    LastPartsArePlain(FirstParts(a), AgentJson(a.agent), GovernanceJson(a.governance), DeploymentJson(a.deployment));
  }

  lemma LastPartsArePlain(m: map<string, Json>, agent: map<string, Json>, governance: map<string, Json>,
                          deployment: map<string, Json>)
    requires Plain(m) && Plain(agent) && Plain(governance) && Plain(deployment)
    ensures Plain(m["agent" := Obj(agent)]["governance" := Obj(governance)]["deployment" := Obj(deployment)])
  {
    TwoMoreParts(m, "agent", agent, "governance", governance);
    PlainWithObject(m["agent" := Obj(agent)]["governance" := Obj(governance)], "deployment", deployment);
  }

  /** The keys of an artifact are plain and none of its parts is empty, so it has one flattening, and the
      artifact can be read back from it. */
  lemma ArtifactsFlattenFaithfully(a: Artifact, flat: map<string, Json>)
    requires Flattening.IsFlattening(ArtifactJson(a), flat)
    ensures Flattening.Unflatten(flat) == ArtifactJson(a)
    ensures forall other :: Flattening.IsFlattening(ArtifactJson(a), other) ==> other == flat
  {
    ArtifactIsPlain(a);
    Flattening.UnflattenUndoesFlattenExactlyWhen(ArtifactJson(a), flat);
    forall other | Flattening.IsFlattening(ArtifactJson(a), other) ensures other == flat {
      Flattening.FlatteningIsUnique(ArtifactJson(a), flat, other);
    }
  }

  // ---------------------------------------------------------------- what each path holds

  /** A text that is left out when it is empty. */
  function Shown(text: string): Json { if text == "" then Null else Str(text) }

  function MetadataValue(m: Metadata, field: string): Json {
    match field
    case "name" => Str(m.name)
    case "agent_id" => Shown(m.agentId)
    case "team_id" => Shown(m.teamId)
    case "version" => Float(m.version as real)
    case "previous" => Float(m.previous as real)
    case "author" => Str(m.author)
    case "timestamp" => Str(m.timestamp)
    case "changelog" => Str(m.changelog)
    case "checksum" => Str(m.checksum)
    case "status" =>
      if m.status == PendingEval then Str("pending_eval")
      else if m.status == Active then Str("active")
      else if m.status == Rejected then Str("rejected")
      else Str("deleted")
    case _ => Null
  }

  function RuntimeValue(r: Runtime, field: string): Json {
    match field
    case "image" => Str(r.image)
    case "channel" => Str(r.channel)
    case "strategy" => Str(r.strategy)
    case "replicas" => Float(r.replicas as real)
    case _ => Null
  }

  function ModelValue(a: AgentConfig, field: string): Json {
    match field
    case "provider" => Str(a.provider)
    case "id" => Str(a.modelId)
    case _ => Null
  }

  function AgentValue(a: AgentConfig, field: string): Json {
    match field
    case "system_prompt" => Str(a.systemPrompt)
    case "prompt_ref" => Shown(a.promptRef)
    case "skills" => Strings(a.skills)
    case "tools" => Strings(a.tools)
    case "knowledge_bases" => Strings(a.knowledgeBases)
    case _ =>
      if "model." <= field then ModelValue(a, field[6..])
      else if "memory." <= field && field[7..] == "backend" then Str(a.memoryBackend)
      else Null
  }

  function GovernanceValue(g: Governance, field: string): Json {
    match field
    case "guards" => Strings(g.guards)
    case "risk_profile" => Str(g.riskProfile)
    case "policies" => Strings(g.policies)
    case "eval_dataset" => Str(g.evalDataset)
    case "min_quality_score" => Float(g.minQualityScore as real)
    case _ => Null
  }

  function DeploymentValue(d: Deployment, field: string): Json {
    match field
    case "namespace" => Str(d.namespace)
    case "environment" => Str(d.environment)
    case _ => Null
  }

  /** The artifact's own field behind a dotted path; nothing for any other path. */
  function Value(a: Artifact, path: string): Json {
    if path == "apiVersion" then Str("agents.recif.dev/v1")
    else if path == "kind" then Str("AgentRelease")
    else if "metadata." <= path then MetadataValue(a.metadata, path[9..])
    else if "runtime." <= path then RuntimeValue(a.runtime, path[8..])
    else if "agent." <= path then AgentValue(a.agent, path[6..])
    else if "governance." <= path then GovernanceValue(a.governance, path[11..])
    else if "deployment." <= path then DeploymentValue(a.deployment, path[11..])
    else Null
  }

  lemma MetadataFields(m: Metadata, field: string)
    ensures Field(MetadataJson(m), field) == MetadataValue(m, field)
  {
    AddedField(HistoryJson(m), "agent_id", m.agentId, [], field);
    AddedField(WithText(HistoryJson(m), "agent_id", m.agentId), "team_id", m.teamId, [], field);
  }

  lemma RuntimeFields(r: Runtime, field: string)
    ensures Field(RuntimeJson(r), field) == RuntimeValue(r, field)
  {
  }

  lemma GovernanceFields(g: Governance, field: string)
    ensures Field(GovernanceJson(g), field) == GovernanceValue(g, field)
  {
  }

  lemma DeploymentFields(d: Deployment, field: string)
    ensures Field(DeploymentJson(d), field) == DeploymentValue(d, field)
  {
  }

  function Leaf(m: map<string, Json>, path: string): Json {
    Flattening.LeafAt(m, Flattening.SplitKey(path)).Or(Null)
  }

  /** Below an object under a plain key. */
  lemma LeafUnder(m: map<string, Json>, head: string, rest: string)
    requires Flattening.PlainKey(head)
    ensures Leaf(m, head + "." + rest) ==
              if head in m && m[head].Obj? then Leaf(m[head].fields, rest) else Null
  {
    Flattening.SplitsOff(head, rest);
    Flattening.JoinUndoesSplit(rest);
    assert ([head] + Flattening.SplitKey(rest))[1..] == Flattening.SplitKey(rest);
  }

  lemma LeafOnTop(m: map<string, Json>, path: string)
    requires '.' !in path
    ensures Leaf(m, path) == if path in m && !m[path].Obj? then m[path] else Null
  {
    assert Flattening.SplitKey(path) == [path];
  }

  lemma LeafyLeaf(m: map<string, Json>, path: string)
    requires Leafy(m)
    ensures Leaf(m, path) == Field(m, path)
  {
    if '.' in path {
      var dot := Flattening.FirstDot(path);
      assert path == path[..dot] + "." + path[dot + 1..];
      LeafUnder(m, path[..dot], path[dot + 1..]);
    } else {
      LeafOnTop(m, path);
    }
  }

  /** A path begins with a plain key and a dot exactly when that key is its first segment. */
  lemma BeginsWith(key: string, head: string, rest: string)
    requires Flattening.PlainKey(key) && Flattening.PlainKey(head)
    ensures key + "." <= head + "." + rest <==> key == head
  {
    var path := head + "." + rest;
    Flattening.Parts(head, rest);
    Flattening.FirstDotIs(path, |head|);
    if key + "." <= path {
      assert (key + ".")[|key|] == path[|key|] && path[..|key|] == key;
      Flattening.FirstDotIs(path, |key|);
    }
  }

  lemma AgentLeaf(a: AgentConfig, field: string)
    ensures Leaf(AgentJson(a), field) == AgentValue(a, field)
  {
    if '.' in field {
      var dot := Flattening.FirstDot(field);
      assert field == field[..dot] + "." + field[dot + 1..];
      NestedAgentLeaf(a, field[..dot], field[dot + 1..]);
    } else {
      LeafOnTop(AgentJson(a), field);
      AgentField(a, field);
    }
  }

  lemma NestedAgentLeaf(a: AgentConfig, head: string, rest: string)
    requires Flattening.PlainKey(head)
    ensures Leaf(AgentJson(a), head + "." + rest) == AgentValue(a, head + "." + rest)
  {
    LeafUnder(AgentJson(a), head, rest);
    NestedAgentFields(a, head);
    NestedAgentValue(a, head, rest);
    AgentPartsAreLeafy(a);
    if head == "model" {
      LeafyLeaf(ModelJson(a), rest);
    } else if head == "memory" {
      LeafyLeaf(MemoryJson(a), rest);
    }
  }

  lemma NestedAgentFields(a: AgentConfig, head: string)
    ensures head in AgentJson(a) && AgentJson(a)[head].Obj? <==> head == "model" || head == "memory"
    ensures Field(AgentJson(a), "model") == Obj(ModelJson(a)) && Field(AgentJson(a), "memory") == Obj(MemoryJson(a))
  {
    AgentPartsAreLeafy(a);
  }

  lemma NestedAgentValue(a: AgentConfig, head: string, rest: string)
    requires Flattening.PlainKey(head)
    ensures AgentValue(a, head + "." + rest) ==
              if head == "model" then Field(ModelJson(a), rest)
              else if head == "memory" then Field(MemoryJson(a), rest)
              else Null
  {
    assert "model" + "." == "model." && "memory" + "." == "memory.";
    BeginsWith("model", head, rest);
    BeginsWith("memory", head, rest);
    Flattening.Parts(head, rest);
    DottedAgentValue(a, head + "." + rest);
  }

  lemma DottedAgentValue(a: AgentConfig, field: string)
    requires '.' in field
    ensures AgentValue(a, field) ==
              if "model." <= field then ModelValue(a, field[6..])
              else if "memory." <= field && field[7..] == "backend" then Str(a.memoryBackend)
              else Null
  {
  }

  lemma HasTheDot(prefix: string, path: string)
    requires '.' in prefix && prefix <= path
    ensures '.' in path
  {
    var i :| 0 <= i < |prefix| && prefix[i] == '.';
    assert path[i] == '.';
  }

  lemma AgentField(a: AgentConfig, field: string)
    requires '.' !in field
    ensures AgentValue(a, field) ==
              if field in AgentJson(a) && !AgentJson(a)[field].Obj? then AgentJson(a)[field] else Null
  {
    AddedField(AgentLeaves(a), "prompt_ref", a.promptRef, [], field);
    if "model." <= field { HasTheDot("model.", field); }
    if "memory." <= field { HasTheDot("memory.", field); }
  }

  /** The part behind the first segment of a path, if there is one. */
  function Part(a: Artifact, head: string): Option<map<string, Json>> {
    match head
    case "metadata" => Some(MetadataJson(a.metadata))
    case "runtime" => Some(RuntimeJson(a.runtime))
    case "agent" => Some(AgentJson(a.agent))
    case "governance" => Some(GovernanceJson(a.governance))
    case "deployment" => Some(DeploymentJson(a.deployment))
    case _ => None
  }

  lemma PartAt(a: Artifact, head: string)
    ensures FieldAt(ArtifactJson(a), head) ==
              if Part(a, head).Some? then Some(Obj(Part(a, head).value)) else FieldAt(KindJson(), head)
  {
  }

  function PartValue(a: Artifact, head: string, rest: string): Json {
    match head
    case "metadata" => MetadataValue(a.metadata, rest)
    case "runtime" => RuntimeValue(a.runtime, rest)
    case "agent" => AgentValue(a.agent, rest)
    case "governance" => GovernanceValue(a.governance, rest)
    case "deployment" => DeploymentValue(a.deployment, rest)
    case _ => Null
  }

  lemma PartLeaf(a: Artifact, head: string, rest: string)
    ensures PartValue(a, head, rest) == if Part(a, head).Some? then Leaf(Part(a, head).value, rest) else Null
  {
    match head
    case "metadata" => MetadataIsLeafy(a.metadata); LeafyLeaf(MetadataJson(a.metadata), rest);
                       MetadataFields(a.metadata, rest);
    case "runtime" => RuntimeIsLeafy(a.runtime); LeafyLeaf(RuntimeJson(a.runtime), rest);
                      RuntimeFields(a.runtime, rest);
    case "agent" => AgentLeaf(a.agent, rest);
    case "governance" => GovernanceIsLeafy(a.governance); LeafyLeaf(GovernanceJson(a.governance), rest);
                         GovernanceFields(a.governance, rest);
    case "deployment" => DeploymentIsLeafy(a.deployment); LeafyLeaf(DeploymentJson(a.deployment), rest);
                         DeploymentFields(a.deployment, rest);
    case _ =>
  }

  lemma DottedValue(a: Artifact, head: string, rest: string)
    requires Flattening.PlainKey(head)
    ensures Value(a, head + "." + rest) == PartValue(a, head, rest)
  {
    Flattening.Parts(head, rest);
    assert '.' in head + "." + rest && '.' !in "apiVersion" && '.' !in "kind";
    DottedHeads(head, rest);
  }

  lemma DottedHeads(head: string, rest: string)
    requires Flattening.PlainKey(head)
    ensures "metadata." <= head + "." + rest <==> head == "metadata"
    ensures "runtime." <= head + "." + rest <==> head == "runtime"
    ensures "agent." <= head + "." + rest <==> head == "agent"
    ensures "governance." <= head + "." + rest <==> head == "governance"
    ensures "deployment." <= head + "." + rest <==> head == "deployment"
  {
    assert "metadata" + "." == "metadata." && "runtime" + "." == "runtime." && "agent" + "." == "agent.";
    assert "governance" + "." == "governance." && "deployment" + "." == "deployment.";
    BeginsWith("metadata", head, rest);
    BeginsWith("runtime", head, rest);
    BeginsWith("agent", head, rest);
    BeginsWith("governance", head, rest);
    BeginsWith("deployment", head, rest);
  }

  lemma PlainValue(a: Artifact, path: string)
    requires '.' !in path
    ensures Value(a, path) == Field(KindJson(), path)
  {
    if "metadata." <= path { HasTheDot("metadata.", path); }
    if "runtime." <= path { HasTheDot("runtime.", path); }
    if "agent." <= path { HasTheDot("agent.", path); }
    if "governance." <= path { HasTheDot("governance.", path); }
    if "deployment." <= path { HasTheDot("deployment.", path); }
  }

  lemma DottedLeaf(a: Artifact, head: string, rest: string)
    requires Flattening.PlainKey(head)
    ensures Leaf(ArtifactJson(a), head + "." + rest) == Value(a, head + "." + rest)
  {
    LeafUnder(ArtifactJson(a), head, rest);
    PartAt(a, head);
    PartLeaf(a, head, rest);
    DottedValue(a, head, rest);
  }

  lemma ArtifactLeaf(a: Artifact, path: string)
    ensures Leaf(ArtifactJson(a), path) == Value(a, path)
  {
    if '.' in path {
      var dot := Flattening.FirstDot(path);
      assert path == path[..dot] + "." + path[dot + 1..];
      DottedLeaf(a, path[..dot], path[dot + 1..]);
    } else {
      LeafOnTop(ArtifactJson(a), path);
      PartAt(a, path);
      PlainValue(a, path);
    }
  }

  /** What the flattening of an artifact holds, path by path. */
  lemma FlattenedFields(a: Artifact, flat: map<string, Json>, path: string)
    requires Flattening.IsFlattening(ArtifactJson(a), flat)
    ensures Field(flat, path) == Value(a, path)
  {
    ArtifactIsPlain(a);
    Flattening.FlatValue(ArtifactJson(a), flat, path);
    ArtifactLeaf(a, path);
  }

  /** The paths of an artifact, one by one. */
  lemma MetadataPath(a: Artifact, flat: map<string, Json>, field: string)
    requires Flattening.IsFlattening(ArtifactJson(a), flat)
    ensures Field(flat, "metadata" + "." + field) == MetadataValue(a.metadata, field)
  {
    FlattenedFields(a, flat, "metadata" + "." + field);
    DottedValue(a, "metadata", field);
  }

  lemma StatusValue(m: Metadata)
    ensures MetadataValue(m, "author") == Str(m.author)
    ensures MetadataValue(m, "status") ==
              match m.status
              case PendingEval => Str("pending_eval")
              case Active => Str("active")
              case Rejected => Str("rejected")
              case Deleted => Str("deleted")
  {
  }

  lemma HistoryValues(m: Metadata)
    ensures MetadataValue(m, "timestamp") == Str(m.timestamp) && MetadataValue(m, "changelog") == Str(m.changelog)
    ensures MetadataValue(m, "checksum") == Str(m.checksum)
  {
  }

  lemma NamesOf(a: Artifact, flat: map<string, Json>)
    requires Flattening.IsFlattening(ArtifactJson(a), flat)
    ensures Field(flat, "metadata" + "." + "name") == Str(a.metadata.name)
    ensures Field(flat, "metadata" + "." + "agent_id") ==
              if a.metadata.agentId == "" then Null else Str(a.metadata.agentId)
    ensures Field(flat, "metadata" + "." + "team_id") ==
              if a.metadata.teamId == "" then Null else Str(a.metadata.teamId)
  {
    MetadataPath(a, flat, "name");
    MetadataPath(a, flat, "agent_id");
    MetadataPath(a, flat, "team_id");
  }

  lemma StandingOf(a: Artifact, flat: map<string, Json>)
    requires Flattening.IsFlattening(ArtifactJson(a), flat)
    ensures Field(flat, "metadata" + "." + "author") == Str(a.metadata.author)
    ensures Field(flat, "metadata" + "." + "status") ==
              match a.metadata.status
              case PendingEval => Str("pending_eval")
              case Active => Str("active")
              case Rejected => Str("rejected")
              case Deleted => Str("deleted")
  {
    hide MetadataValue, Flattening.IsFlattening;
    MetadataPath(a, flat, "author");
    MetadataPath(a, flat, "status");
    StatusValue(a.metadata);
  }

  lemma NumbersOf(a: Artifact, flat: map<string, Json>)
    requires Flattening.IsFlattening(ArtifactJson(a), flat)
    ensures Field(flat, "metadata" + "." + "version") == Float(a.metadata.version as real)
    ensures Field(flat, "metadata" + "." + "previous") == Float(a.metadata.previous as real)
  {
    MetadataPath(a, flat, "version");
    MetadataPath(a, flat, "previous");
  }

  lemma HistoryOf(a: Artifact, flat: map<string, Json>)
    requires Flattening.IsFlattening(ArtifactJson(a), flat)
    ensures Field(flat, "metadata" + "." + "timestamp") == Str(a.metadata.timestamp)
    ensures Field(flat, "metadata" + "." + "changelog") == Str(a.metadata.changelog)
    ensures Field(flat, "metadata" + "." + "checksum") == Str(a.metadata.checksum)
  {
    hide MetadataValue, Flattening.IsFlattening;
    MetadataPath(a, flat, "timestamp");
    MetadataPath(a, flat, "changelog");
    MetadataPath(a, flat, "checksum");
    HistoryValues(a.metadata);
  }

  lemma RuntimePath(a: Artifact, flat: map<string, Json>, field: string)
    requires Flattening.IsFlattening(ArtifactJson(a), flat)
    ensures Field(flat, "runtime" + "." + field) == RuntimeValue(a.runtime, field)
  {
    FlattenedFields(a, flat, "runtime" + "." + field);
    DottedValue(a, "runtime", field);
  }

  lemma AgentPath(a: Artifact, flat: map<string, Json>, field: string)
    requires Flattening.IsFlattening(ArtifactJson(a), flat)
    ensures Field(flat, "agent" + "." + field) == AgentValue(a.agent, field)
  {
    FlattenedFields(a, flat, "agent" + "." + field);
    DottedValue(a, "agent", field);
  }

  lemma GovernancePath(a: Artifact, flat: map<string, Json>, field: string)
    requires Flattening.IsFlattening(ArtifactJson(a), flat)
    ensures Field(flat, "governance" + "." + field) == GovernanceValue(a.governance, field)
  {
    FlattenedFields(a, flat, "governance" + "." + field);
    DottedValue(a, "governance", field);
  }

  lemma DeploymentPath(a: Artifact, flat: map<string, Json>, field: string)
    requires Flattening.IsFlattening(ArtifactJson(a), flat)
    ensures Field(flat, "deployment" + "." + field) == DeploymentValue(a.deployment, field)
  {
    FlattenedFields(a, flat, "deployment" + "." + field);
    DottedValue(a, "deployment", field);
  }

  lemma RuntimeOf(a: Artifact, flat: map<string, Json>)
    requires Flattening.IsFlattening(ArtifactJson(a), flat)
    ensures Field(flat, "runtime" + "." + "image") == Str(a.runtime.image)
    ensures Field(flat, "runtime" + "." + "channel") == Str(a.runtime.channel)
    ensures Field(flat, "runtime" + "." + "strategy") == Str(a.runtime.strategy)
    ensures Field(flat, "runtime" + "." + "replicas") == Float(a.runtime.replicas as real)
  {
    RuntimePath(a, flat, "image");
    RuntimePath(a, flat, "channel");
    RuntimePath(a, flat, "strategy");
    RuntimePath(a, flat, "replicas");
  }

  lemma ModelOf(a: Artifact, flat: map<string, Json>)
    requires Flattening.IsFlattening(ArtifactJson(a), flat)
    ensures Field(flat, "agent" + "." + "model.provider") == Str(a.agent.provider)
    ensures Field(flat, "agent" + "." + "model.id") == Str(a.agent.modelId)
    ensures Field(flat, "agent" + "." + "memory.backend") == Str(a.agent.memoryBackend)
  {
    AgentPath(a, flat, "model.provider");
    AgentPath(a, flat, "model.id");
    AgentPath(a, flat, "memory.backend");
    NestedPaths(a.agent);
  }

  lemma PromptsOf(a: Artifact, flat: map<string, Json>)
    requires Flattening.IsFlattening(ArtifactJson(a), flat)
    ensures Field(flat, "agent" + "." + "system_prompt") == Str(a.agent.systemPrompt)
    ensures Field(flat, "agent" + "." + "prompt_ref") ==
              if a.agent.promptRef == "" then Null else Str(a.agent.promptRef)
  {
    AgentPath(a, flat, "system_prompt");
    AgentPath(a, flat, "prompt_ref");
  }

  lemma AgentListsOf(a: Artifact, flat: map<string, Json>)
    requires Flattening.IsFlattening(ArtifactJson(a), flat)
    ensures Field(flat, "agent" + "." + "skills") == Strings(a.agent.skills)
    ensures Field(flat, "agent" + "." + "tools") == Strings(a.agent.tools)
    ensures Field(flat, "agent" + "." + "knowledge_bases") == Strings(a.agent.knowledgeBases)
  {
    AgentPath(a, flat, "skills");
    AgentPath(a, flat, "tools");
    AgentPath(a, flat, "knowledge_bases");
  }

  lemma GovernanceListsOf(a: Artifact, flat: map<string, Json>)
    requires Flattening.IsFlattening(ArtifactJson(a), flat)
    ensures Field(flat, "governance" + "." + "guards") == Strings(a.governance.guards)
    ensures Field(flat, "governance" + "." + "policies") == Strings(a.governance.policies)
  {
    GovernancePath(a, flat, "guards");
    GovernancePath(a, flat, "policies");
  }

  lemma EvaluationOf(a: Artifact, flat: map<string, Json>)
    requires Flattening.IsFlattening(ArtifactJson(a), flat)
    ensures Field(flat, "governance" + "." + "risk_profile") == Str(a.governance.riskProfile)
    ensures Field(flat, "governance" + "." + "eval_dataset") == Str(a.governance.evalDataset)
    ensures Field(flat, "governance" + "." + "min_quality_score") == Float(a.governance.minQualityScore as real)
  {
    GovernancePath(a, flat, "risk_profile");
    GovernancePath(a, flat, "eval_dataset");
    GovernancePath(a, flat, "min_quality_score");
  }

  lemma DeploymentOf(a: Artifact, flat: map<string, Json>)
    requires Flattening.IsFlattening(ArtifactJson(a), flat)
    ensures Field(flat, "deployment" + "." + "namespace") == Str(a.deployment.namespace)
    ensures Field(flat, "deployment" + "." + "environment") == Str(a.deployment.environment)
    ensures Field(flat, "apiVersion") == Str("agents.recif.dev/v1") && Field(flat, "kind") == Str("AgentRelease")
  {
    DeploymentPath(a, flat, "namespace");
    DeploymentPath(a, flat, "environment");
    FlattenedFields(a, flat, "apiVersion");
    FlattenedFields(a, flat, "kind");
  }

  // ---------------------------------------------------------------- the diff of two artifacts

  /** The entries are, in increasing order of their paths, exactly the fields that render differently, each
      with its two values; five fields that differ between any two releases are left out. */
  ghost predicate ShowsChanges(from: Artifact, to: Artifact, render: Json -> string, diffs: seq<DiffEntry>) {
    && Increasing(Paths(diffs))
    && (forall e :: e in diffs ==> e.from == Value(from, e.path) && e.to == Value(to, e.path))
    && (forall path :: path in Paths(diffs) <==>
          && path !in {"metadata.version", "metadata.previous", "metadata.timestamp", "metadata.checksum",
                       "metadata.changelog"}
          && render(Value(from, path)) != render(Value(to, path)))
  }

  lemma DiffersExactlyWhen(from: Artifact, to: Artifact, a: map<string, Json>, b: map<string, Json>,
                           render: Json -> string, path: string)
    requires Flattening.IsFlattening(ArtifactJson(from), a) && Flattening.IsFlattening(ArtifactJson(to), b)
    ensures Differs(a, b, render, path) <==>
              && path !in {"metadata.version", "metadata.previous", "metadata.timestamp", "metadata.checksum",
                           "metadata.changelog"}
              && render(Value(from, path)) != render(Value(to, path))
  {
    FlattenedFields(from, a, path);
    FlattenedFields(to, b, path);
  }

  lemma ShownExactlyWhen(a: map<string, Json>, b: map<string, Json>, render: Json -> string, diffs: seq<DiffEntry>,
                         path: string)
    requires IsDiff(a, b, render, diffs)
    ensures path in Paths(diffs) <==> Differs(a, b, render, path)
  {
    if path in Paths(diffs) {
      var i :| 0 <= i < |diffs| && Paths(diffs)[i] == path;
      assert Differs(a, b, render, diffs[i].path);
    }
  }

  lemma DiffShowsChanges(from: Artifact, to: Artifact, a: map<string, Json>, b: map<string, Json>,
                         render: Json -> string, diffs: seq<DiffEntry>)
    requires Flattening.IsFlattening(ArtifactJson(from), a) && Flattening.IsFlattening(ArtifactJson(to), b)
    requires IsDiff(a, b, render, diffs)
    ensures ShowsChanges(from, to, render, diffs)
  {
    forall e | e in diffs ensures e.from == Value(from, e.path) && e.to == Value(to, e.path) {
      FlattenedFields(from, a, e.path);
      FlattenedFields(to, b, e.path);
    }
    forall path ensures path in Paths(diffs) <==> Differs(a, b, render, path) {
      ShownExactlyWhen(a, b, render, diffs, path);
    }
    forall path
      ensures Differs(a, b, render, path) <==>
                && path !in {"metadata.version", "metadata.previous", "metadata.timestamp", "metadata.checksum",
                             "metadata.changelog"}
                && render(Value(from, path)) != render(Value(to, path))
    {
      DiffersExactlyWhen(from, to, a, b, render, path);
    }
  }

  method ComputeDiff(from: Artifact, to: Artifact, render: Json -> string) returns (diffs: seq<DiffEntry>)
    ensures ShowsChanges(from, to, render, diffs)
    ensures forall a, b ::
              Flattening.IsFlattening(ArtifactJson(from), a) && Flattening.IsFlattening(ArtifactJson(to), b) ==>
                IsDiff(a, b, render, diffs)
  {
    var fromMap := Flattening.Flatten(ArtifactJson(from));
    var toMap := Flattening.Flatten(ArtifactJson(to));
    diffs := ComputeDiffOfMaps(fromMap, toMap, render);
    ArtifactsFlattenFaithfully(from, fromMap);
    ArtifactsFlattenFaithfully(to, toMap);
    DiffShowsChanges(from, to, fromMap, toMap, render, diffs);
  }

  /** Two texts, left out when empty, that render alike. */
  predicate ShownAlike(s: string, t: string, render: Json -> string) {
    s == t || (s == "" && t == render(Null)) || (t == "" && s == render(Null))
  }

  predicate MetadataAgrees(m: Metadata, n: Metadata, render: Json -> string) {
    && m.name == n.name && m.author == n.author && m.status == n.status
    && ShownAlike(m.agentId, n.agentId, render) && ShownAlike(m.teamId, n.teamId, render)
  }

  predicate RuntimeAgrees(r: Runtime, q: Runtime, render: Json -> string) {
    && r.image == q.image && r.channel == q.channel && r.strategy == q.strategy
    && render(Float(r.replicas as real)) == render(Float(q.replicas as real))
  }

  predicate AgentAgrees(a: AgentConfig, b: AgentConfig, render: Json -> string) {
    && a.provider == b.provider && a.modelId == b.modelId && a.systemPrompt == b.systemPrompt
    && ShownAlike(a.promptRef, b.promptRef, render)
    && render(Strings(a.skills)) == render(Strings(b.skills)) && render(Strings(a.tools)) == render(Strings(b.tools))
    && render(Strings(a.knowledgeBases)) == render(Strings(b.knowledgeBases)) && a.memoryBackend == b.memoryBackend
  }

  predicate GovernanceAgrees(g: Governance, h: Governance, render: Json -> string) {
    && render(Strings(g.guards)) == render(Strings(h.guards)) && g.riskProfile == h.riskProfile
    && render(Strings(g.policies)) == render(Strings(h.policies)) && g.evalDataset == h.evalDataset
    && render(Float(g.minQualityScore as real)) == render(Float(h.minQualityScore as real))
  }

  /** Every field agrees, up to rendering, but for the version, the previous version, the timestamp, the
      checksum and the changelog. */
  predicate Agrees(a: Artifact, b: Artifact, render: Json -> string) {
    && MetadataAgrees(a.metadata, b.metadata, render) && RuntimeAgrees(a.runtime, b.runtime, render)
    && AgentAgrees(a.agent, b.agent, render) && GovernanceAgrees(a.governance, b.governance, render)
    && a.deployment.namespace == b.deployment.namespace && a.deployment.environment == b.deployment.environment
  }

  predicate LeftOut(path: string) {
    path in {"metadata.version", "metadata.previous", "metadata.timestamp", "metadata.checksum", "metadata.changelog"}
  }

  lemma LeftOutIsMetadata(head: string, rest: string)
    requires Flattening.PlainKey(head) && LeftOut(head + "." + rest)
    ensures head == "metadata" && rest == (head + "." + rest)[9..]
  {
    var path := head + "." + rest;
    assert path[..9] == "metadata.";
    assert "metadata" + "." == "metadata.";
    BeginsWith("metadata", head, rest);
    Flattening.Parts(head, rest);
  }

  lemma LeftOutExactlyWhen(head: string, rest: string)
    requires Flattening.PlainKey(head)
    ensures LeftOut(head + "." + rest) <==> Skipped(head, rest)
  {
    MetadataPaths();
    if LeftOut(head + "." + rest) {
      LeftOutIsMetadata(head, rest);
      FieldsLeftOut();
    }
  }

  lemma FieldsLeftOut()
    ensures "metadata.version"[9..] == "version" && "metadata.previous"[9..] == "previous"
    ensures "metadata.timestamp"[9..] == "timestamp" && "metadata.checksum"[9..] == "checksum"
    ensures "metadata.changelog"[9..] == "changelog"
  {
  }

  lemma MetadataPaths()
    ensures "metadata" + "." + "version" == "metadata.version" && "metadata" + "." + "previous" == "metadata.previous"
    ensures "metadata" + "." + "timestamp" == "metadata.timestamp"
    ensures "metadata" + "." + "checksum" == "metadata.checksum"
    ensures "metadata" + "." + "changelog" == "metadata.changelog"
  {
  }

  predicate Skipped(head: string, rest: string) {
    head == "metadata" && rest in {"version", "previous", "timestamp", "checksum", "changelog"}
  }

  ghost predicate MetadataAlike(m: Metadata, n: Metadata, render: Json -> string) {
    forall field :: !Skipped("metadata", field) ==> render(MetadataValue(m, field)) == render(MetadataValue(n, field))
  }

  lemma MetadataFieldAlike(m: Metadata, n: Metadata, render: Renderer, field: string)
    requires MetadataAgrees(m, n, render) && !Skipped("metadata", field)
    ensures render(MetadataValue(m, field)) == render(MetadataValue(n, field))
  {
  }

  lemma MetadataAlikeExactlyWhen(m: Metadata, n: Metadata, render: Renderer)
    ensures MetadataAlike(m, n, render) <==> MetadataAgrees(m, n, render)
  {
    if MetadataAlike(m, n, render) {
      assert render(MetadataValue(m, "name")) == render(MetadataValue(n, "name"));
      assert render(MetadataValue(m, "agent_id")) == render(MetadataValue(n, "agent_id"));
      assert render(MetadataValue(m, "team_id")) == render(MetadataValue(n, "team_id"));
      assert render(MetadataValue(m, "author")) == render(MetadataValue(n, "author"));
      assert render(MetadataValue(m, "status")) == render(MetadataValue(n, "status"));
    }
    if MetadataAgrees(m, n, render) {
      forall field | !Skipped("metadata", field)
        ensures render(MetadataValue(m, field)) == render(MetadataValue(n, field))
      {
        MetadataFieldAlike(m, n, render, field);
      }
    }
  }

  ghost predicate RuntimeAlike(r: Runtime, q: Runtime, render: Json -> string) {
    forall field :: render(RuntimeValue(r, field)) == render(RuntimeValue(q, field))
  }

  lemma RuntimeAlikeExactlyWhen(r: Runtime, q: Runtime, render: Renderer)
    ensures RuntimeAlike(r, q, render) <==> RuntimeAgrees(r, q, render)
  {
    if RuntimeAlike(r, q, render) {
      assert render(RuntimeValue(r, "image")) == render(RuntimeValue(q, "image"));
      assert render(RuntimeValue(r, "channel")) == render(RuntimeValue(q, "channel"));
      assert render(RuntimeValue(r, "strategy")) == render(RuntimeValue(q, "strategy"));
      assert render(RuntimeValue(r, "replicas")) == render(RuntimeValue(q, "replicas"));
    }
  }

  lemma NestedPaths(a: AgentConfig)
    ensures AgentValue(a, "model.provider") == Str(a.provider) && AgentValue(a, "model.id") == Str(a.modelId)
    ensures AgentValue(a, "memory.backend") == Str(a.memoryBackend)
  {
    assert "model." + "provider" == "model.provider" && "model." + "id" == "model.id";
    assert "memory." + "backend" == "memory.backend" && "memory.backend"[1] != "model."[1];
    assert "model.provider"[6..] == "provider" && "model.id"[6..] == "id" && "memory.backend"[7..] == "backend";
  }

  ghost predicate AgentAlike(a: AgentConfig, b: AgentConfig, render: Json -> string) {
    forall field :: render(AgentValue(a, field)) == render(AgentValue(b, field))
  }

  lemma AgentFieldAlike(a: AgentConfig, b: AgentConfig, render: Renderer, field: string)
    requires AgentAgrees(a, b, render)
    ensures render(AgentValue(a, field)) == render(AgentValue(b, field))
  {
    assert ModelValue(a, "provider") == ModelValue(b, "provider") && ModelValue(a, "id") == ModelValue(b, "id");
    if "model." <= field { assert ModelValue(a, field[6..]) == ModelValue(b, field[6..]); }
  }

  lemma NestedFieldsAgree(a: AgentConfig, b: AgentConfig, render: Renderer)
    requires AgentAlike(a, b, render)
    ensures a.provider == b.provider && a.modelId == b.modelId && a.memoryBackend == b.memoryBackend
  {
    NestedPaths(a);
    NestedPaths(b);
    assert render(AgentValue(a, "model.provider")) == render(AgentValue(b, "model.provider"));
    assert render(AgentValue(a, "model.id")) == render(AgentValue(b, "model.id"));
    assert render(AgentValue(a, "memory.backend")) == render(AgentValue(b, "memory.backend"));
  }

  lemma PromptsAgree(a: AgentConfig, b: AgentConfig, render: Renderer)
    requires AgentAlike(a, b, render)
    ensures a.systemPrompt == b.systemPrompt && ShownAlike(a.promptRef, b.promptRef, render)
  {
    assert render(AgentValue(a, "system_prompt")) == render(AgentValue(b, "system_prompt"));
    assert render(AgentValue(a, "prompt_ref")) == render(AgentValue(b, "prompt_ref"));
  }

  lemma AgentListsAgree(a: AgentConfig, b: AgentConfig, render: Renderer)
    requires AgentAlike(a, b, render)
    ensures render(Strings(a.skills)) == render(Strings(b.skills))
    ensures render(Strings(a.tools)) == render(Strings(b.tools))
    ensures render(Strings(a.knowledgeBases)) == render(Strings(b.knowledgeBases))
  {
    assert render(AgentValue(a, "skills")) == render(AgentValue(b, "skills"));
    assert render(AgentValue(a, "tools")) == render(AgentValue(b, "tools"));
    assert render(AgentValue(a, "knowledge_bases")) == render(AgentValue(b, "knowledge_bases"));
  }

  lemma AgentAlikeExactlyWhen(a: AgentConfig, b: AgentConfig, render: Renderer)
    ensures AgentAlike(a, b, render) <==> AgentAgrees(a, b, render)
  {
    if AgentAlike(a, b, render) {
      NestedFieldsAgree(a, b, render);
      PromptsAgree(a, b, render);
      AgentListsAgree(a, b, render);
    }
    if AgentAgrees(a, b, render) {
      forall field ensures render(AgentValue(a, field)) == render(AgentValue(b, field)) {
        AgentFieldAlike(a, b, render, field);
      }
    }
  }

  ghost predicate GovernanceAlike(g: Governance, h: Governance, render: Json -> string) {
    forall field :: render(GovernanceValue(g, field)) == render(GovernanceValue(h, field))
  }

  lemma GovernanceAlikeExactlyWhen(g: Governance, h: Governance, render: Renderer)
    ensures GovernanceAlike(g, h, render) <==> GovernanceAgrees(g, h, render)
  {
    if GovernanceAlike(g, h, render) {
      assert render(GovernanceValue(g, "guards")) == render(GovernanceValue(h, "guards"));
      assert render(GovernanceValue(g, "risk_profile")) == render(GovernanceValue(h, "risk_profile"));
      assert render(GovernanceValue(g, "policies")) == render(GovernanceValue(h, "policies"));
      assert render(GovernanceValue(g, "eval_dataset")) == render(GovernanceValue(h, "eval_dataset"));
      assert render(GovernanceValue(g, "min_quality_score")) == render(GovernanceValue(h, "min_quality_score"));
    }
  }

  ghost predicate DeploymentAlike(d: Deployment, e: Deployment, render: Json -> string) {
    forall field :: render(DeploymentValue(d, field)) == render(DeploymentValue(e, field))
  }

  lemma DeploymentAlikeExactlyWhen(d: Deployment, e: Deployment, render: Renderer)
    ensures DeploymentAlike(d, e, render) <==> d.namespace == e.namespace && d.environment == e.environment
  {
    if DeploymentAlike(d, e, render) {
      assert render(DeploymentValue(d, "namespace")) == render(DeploymentValue(e, "namespace"));
      assert render(DeploymentValue(d, "environment")) == render(DeploymentValue(e, "environment"));
    }
  }

  /** The parts render alike, field by field. */
  ghost predicate PartsAlike(a: Artifact, b: Artifact, render: Json -> string) {
    && MetadataAlike(a.metadata, b.metadata, render) && RuntimeAlike(a.runtime, b.runtime, render)
    && AgentAlike(a.agent, b.agent, render) && GovernanceAlike(a.governance, b.governance, render)
    && DeploymentAlike(a.deployment, b.deployment, render)
  }

  ghost predicate AllAlike(a: Artifact, b: Artifact, render: Json -> string) {
    forall path :: !LeftOut(path) ==> render(Value(a, path)) == render(Value(b, path))
  }

  lemma FieldsAlike(a: Artifact, b: Artifact, render: Json -> string, head: string, rest: string)
    requires AllAlike(a, b, render) && Flattening.PlainKey(head) && !Skipped(head, rest)
    ensures render(PartValue(a, head, rest)) == render(PartValue(b, head, rest))
  {
    LeftOutExactlyWhen(head, rest);
    DottedValue(a, head, rest);
    DottedValue(b, head, rest);
  }

  lemma AlikeInParts(a: Artifact, b: Artifact, render: Json -> string)
    requires AllAlike(a, b, render)
    ensures PartsAlike(a, b, render)
  {
    forall field | !Skipped("metadata", field)
      ensures render(MetadataValue(a.metadata, field)) == render(MetadataValue(b.metadata, field))
    {
      FieldsAlike(a, b, render, "metadata", field);
    }
    forall field ensures render(RuntimeValue(a.runtime, field)) == render(RuntimeValue(b.runtime, field)) {
      FieldsAlike(a, b, render, "runtime", field);
    }
    forall field ensures render(AgentValue(a.agent, field)) == render(AgentValue(b.agent, field)) {
      FieldsAlike(a, b, render, "agent", field);
    }
    forall field
      ensures render(GovernanceValue(a.governance, field)) == render(GovernanceValue(b.governance, field))
    {
      FieldsAlike(a, b, render, "governance", field);
    }
    forall field
      ensures render(DeploymentValue(a.deployment, field)) == render(DeploymentValue(b.deployment, field))
    {
      FieldsAlike(a, b, render, "deployment", field);
    }
  }

  lemma PartAlike(a: Artifact, b: Artifact, render: Json -> string, head: string, rest: string)
    requires PartsAlike(a, b, render) && !Skipped(head, rest)
    ensures render(PartValue(a, head, rest)) == render(PartValue(b, head, rest))
  {
  }

  lemma PathAlike(a: Artifact, b: Artifact, render: Json -> string, path: string)
    requires PartsAlike(a, b, render) && !LeftOut(path)
    ensures render(Value(a, path)) == render(Value(b, path))
  {
    if '.' in path {
      var dot := Flattening.FirstDot(path);
      var head, rest := path[..dot], path[dot + 1..];
      assert path == head + "." + rest;
      LeftOutExactlyWhen(head, rest);
      DottedValue(a, head, rest);
      DottedValue(b, head, rest);
      PartAlike(a, b, render, head, rest);
    } else {
      PlainValue(a, path);
      PlainValue(b, path);
    }
  }

  lemma NoEntryExactlyWhen(from: Artifact, to: Artifact, render: Json -> string, diffs: seq<DiffEntry>)
    requires ShowsChanges(from, to, render, diffs)
    ensures diffs == [] <==> AllAlike(from, to, render)
  {
    if diffs != [] { assert Paths(diffs)[0] in Paths(diffs); }
    if diffs == [] {
      forall path | !LeftOut(path) ensures render(Value(from, path)) == render(Value(to, path)) {
        assert path !in Paths(diffs);
      }
    }
  }

  lemma AllAlikeExactlyWhen(a: Artifact, b: Artifact, render: Json -> string)
    ensures AllAlike(a, b, render) <==> PartsAlike(a, b, render)
  {
    if AllAlike(a, b, render) { AlikeInParts(a, b, render); }
    if PartsAlike(a, b, render) {
      forall path | !LeftOut(path) ensures render(Value(a, path)) == render(Value(b, path)) {
        PathAlike(a, b, render, path);
      }
    }
  }

  lemma PartsAlikeExactlyWhen(a: Artifact, b: Artifact, render: Renderer)
    ensures PartsAlike(a, b, render) <==> Agrees(a, b, render)
  {
    MetadataAlikeExactlyWhen(a.metadata, b.metadata, render);
    RuntimeAlikeExactlyWhen(a.runtime, b.runtime, render);
    AgentAlikeExactlyWhen(a.agent, b.agent, render);
    GovernanceAlikeExactlyWhen(a.governance, b.governance, render);
    DeploymentAlikeExactlyWhen(a.deployment, b.deployment, render);
  }

  /** The diff is empty exactly when the releases agree, up to rendering, on every field but those five. */
  lemma EmptyDiffExactlyWhen(from: Artifact, to: Artifact, render: Renderer, diffs: seq<DiffEntry>)
    requires ShowsChanges(from, to, render, diffs)
    ensures diffs == [] <==> Agrees(from, to, render)
  {
    NoEntryExactlyWhen(from, to, render, diffs);
    AllAlikeExactlyWhen(from, to, render);
    PartsAlikeExactlyWhen(from, to, render);
  }

  /** The items of a list with a space between each two. */
  function Spaced(items: seq<string>): string {
    if items == [] then "" else if |items| == 1 then items[0] else items[0] + " " + Spaced(items[1..])
  }

  /** A list is rendered as its spaced items in brackets. */
  ghost predicate SpellsLists(render: Json -> string) {
    forall items :: render(Strings(items)) == "[" + Spaced(items) + "]"
  }

  /** So rendering hides a change: two tools and one tool with a space in its name look the same. */
  lemma SpacesHideAChange(a: Artifact, x: string, y: string, render: Renderer, diffs: seq<DiffEntry>)
    requires SpellsLists(render)
    requires ShowsChanges(a.(agent := a.agent.(tools := [x, y])), a.(agent := a.agent.(tools := [x + " " + y])),
                          render, diffs)
    ensures [x, y] != [x + " " + y] && diffs == []
  {
    assert [x, y][1..] == [y];
    assert x + " " + y == x + " " + Spaced([y]);
    assert render(Strings([x, y])) == render(Strings([x + " " + y]));
    assert |[x, y]| != |[x + " " + y]|;
    EmptyDiffExactlyWhen(a.(agent := a.agent.(tools := [x, y])), a.(agent := a.agent.(tools := [x + " " + y])),
                         render, diffs);
  }

  // ---------------------------------------------------------------- nothing is lost

  lemma SameStrings(a: seq<string>, b: seq<string>)
    requires Strings(a) == Strings(b)
    ensures a == b
  {
    var x, y := Strings(a).items, Strings(b).items;
    assert |x| == |a| && |y| == |b|;
    forall i | 0 <= i < |a| ensures a[i] == b[i] { assert x[i] == Str(a[i]) && y[i] == Str(b[i]); }
  }

  lemma NamesDetermined(m: Metadata, n: Metadata)
    requires forall field :: MetadataValue(m, field) == MetadataValue(n, field)
    ensures m.name == n.name && m.agentId == n.agentId && m.teamId == n.teamId
    ensures m.author == n.author && m.status == n.status
  {
    assert MetadataValue(m, "name") == MetadataValue(n, "name");
    assert MetadataValue(m, "agent_id") == MetadataValue(n, "agent_id");
    assert MetadataValue(m, "team_id") == MetadataValue(n, "team_id");
    assert MetadataValue(m, "author") == MetadataValue(n, "author");
    assert MetadataValue(m, "status") == MetadataValue(n, "status");
  }

  lemma HistoryDetermined(m: Metadata, n: Metadata)
    requires forall field :: MetadataValue(m, field) == MetadataValue(n, field)
    ensures m.version == n.version && m.previous == n.previous && m.timestamp == n.timestamp
    ensures m.changelog == n.changelog && m.checksum == n.checksum
  {
    assert MetadataValue(m, "version") == MetadataValue(n, "version");
    assert MetadataValue(m, "previous") == MetadataValue(n, "previous");
    assert MetadataValue(m, "timestamp") == MetadataValue(n, "timestamp");
    assert MetadataValue(m, "changelog") == MetadataValue(n, "changelog");
    assert MetadataValue(m, "checksum") == MetadataValue(n, "checksum");
  }

  lemma MetadataDetermined(m: Metadata, n: Metadata)
    requires forall field :: MetadataValue(m, field) == MetadataValue(n, field)
    ensures m == n
  {
    NamesDetermined(m, n);
    HistoryDetermined(m, n);
  }

  lemma RuntimeDetermined(r: Runtime, q: Runtime)
    requires forall field :: RuntimeValue(r, field) == RuntimeValue(q, field)
    ensures r == q
  {
    assert RuntimeValue(r, "image") == RuntimeValue(q, "image");
    assert RuntimeValue(r, "channel") == RuntimeValue(q, "channel");
    assert RuntimeValue(r, "strategy") == RuntimeValue(q, "strategy");
    assert RuntimeValue(r, "replicas") == RuntimeValue(q, "replicas");
  }

  lemma AgentTextsDetermined(a: AgentConfig, b: AgentConfig)
    requires AgentValue(a, "model.provider") == AgentValue(b, "model.provider")
    requires AgentValue(a, "model.id") == AgentValue(b, "model.id")
    requires AgentValue(a, "system_prompt") == AgentValue(b, "system_prompt")
    requires AgentValue(a, "prompt_ref") == AgentValue(b, "prompt_ref")
    requires AgentValue(a, "memory.backend") == AgentValue(b, "memory.backend")
    ensures a.provider == b.provider && a.modelId == b.modelId && a.systemPrompt == b.systemPrompt
    ensures a.promptRef == b.promptRef && a.memoryBackend == b.memoryBackend
  {
    NestedPaths(a);
    NestedPaths(b);
  }

  lemma AgentListsDetermined(a: AgentConfig, b: AgentConfig)
    requires AgentValue(a, "skills") == AgentValue(b, "skills")
    requires AgentValue(a, "tools") == AgentValue(b, "tools")
    requires AgentValue(a, "knowledge_bases") == AgentValue(b, "knowledge_bases")
    ensures a.skills == b.skills && a.tools == b.tools && a.knowledgeBases == b.knowledgeBases
  {
    SameStrings(a.skills, b.skills);
    SameStrings(a.tools, b.tools);
    SameStrings(a.knowledgeBases, b.knowledgeBases);
  }

  lemma AgentDetermined(a: AgentConfig, b: AgentConfig)
    requires forall field :: AgentValue(a, field) == AgentValue(b, field)
    ensures a == b
  {
    AgentTextsDetermined(a, b);
    AgentListsDetermined(a, b);
  }

  lemma GovernanceDetermined(g: Governance, h: Governance)
    requires forall field :: GovernanceValue(g, field) == GovernanceValue(h, field)
    ensures g == h
  {
    assert GovernanceValue(g, "guards") == GovernanceValue(h, "guards");
    assert GovernanceValue(g, "risk_profile") == GovernanceValue(h, "risk_profile");
    assert GovernanceValue(g, "policies") == GovernanceValue(h, "policies");
    assert GovernanceValue(g, "eval_dataset") == GovernanceValue(h, "eval_dataset");
    assert GovernanceValue(g, "min_quality_score") == GovernanceValue(h, "min_quality_score");
    SameStrings(g.guards, h.guards);
    SameStrings(g.policies, h.policies);
  }

  lemma DeploymentDetermined(d: Deployment, e: Deployment)
    requires forall field :: DeploymentValue(d, field) == DeploymentValue(e, field)
    ensures d == e
  {
    assert DeploymentValue(d, "namespace") == DeploymentValue(e, "namespace");
    assert DeploymentValue(d, "environment") == DeploymentValue(e, "environment");
  }

  lemma SameParts(a: Artifact, b: Artifact, head: string, rest: string)
    requires forall path :: Value(a, path) == Value(b, path)
    requires Flattening.PlainKey(head)
    ensures PartValue(a, head, rest) == PartValue(b, head, rest)
  {
    DottedValue(a, head, rest);
    DottedValue(b, head, rest);
    assert Value(a, head + "." + rest) == Value(b, head + "." + rest);
  }

  lemma ValuesDetermine(a: Artifact, b: Artifact)
    requires forall path :: Value(a, path) == Value(b, path)
    ensures a == b
  {
    forall rest ensures MetadataValue(a.metadata, rest) == MetadataValue(b.metadata, rest) {
      SameParts(a, b, "metadata", rest);
    }
    forall rest ensures RuntimeValue(a.runtime, rest) == RuntimeValue(b.runtime, rest) {
      SameParts(a, b, "runtime", rest);
    }
    forall rest ensures AgentValue(a.agent, rest) == AgentValue(b.agent, rest) { SameParts(a, b, "agent", rest); }
    forall rest ensures GovernanceValue(a.governance, rest) == GovernanceValue(b.governance, rest) {
      SameParts(a, b, "governance", rest);
    }
    forall rest ensures DeploymentValue(a.deployment, rest) == DeploymentValue(b.deployment, rest) {
      SameParts(a, b, "deployment", rest);
    }
    MetadataDetermined(a.metadata, b.metadata);
    RuntimeDetermined(a.runtime, b.runtime);
    AgentDetermined(a.agent, b.agent);
    GovernanceDetermined(a.governance, b.governance);
    DeploymentDetermined(a.deployment, b.deployment);
  }

  /** Different artifacts never flatten alike. */
  lemma FlatteningDeterminesTheArtifact(a: Artifact, b: Artifact, flat: map<string, Json>)
    requires Flattening.IsFlattening(ArtifactJson(a), flat) && Flattening.IsFlattening(ArtifactJson(b), flat)
    ensures a == b
  {
    forall path ensures Value(a, path) == Value(b, path) {
      FlattenedFields(a, flat, path);
      FlattenedFields(b, flat, path);
    }
    ValuesDetermine(a, b);
  }
}
