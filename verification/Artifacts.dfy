/** Release artifacts and how one is built from an agent (internal/gitstate/artifact.go).
    YAML encoding is the identity; the SHA-256 digest is an arbitrary function. */
module Artifacts {
  import opened Options
  import opened Text
  import opened Json

  datatype Status = PendingEval | Active | Rejected | Deleted

  datatype Metadata = Metadata(
    name: string, agentId: string, teamId: string, version: int, previous: int, author: string,
    timestamp: string, changelog: string, checksum: string, status: Status)

  datatype Runtime = Runtime(image: string, channel: string, strategy: string, replicas: int)

  datatype AgentConfig = AgentConfig(
    provider: string, modelId: string, systemPrompt: string, promptRef: string,
    skills: seq<string>, tools: seq<string>, knowledgeBases: seq<string>, memoryBackend: string)

  datatype Governance = Governance(
    guards: seq<string>, riskProfile: string, policies: seq<string>, evalDataset: string, minQualityScore: int)

  datatype Deployment = Deployment(namespace: string, environment: string)

  datatype Artifact = Artifact(
    metadata: Metadata, runtime: Runtime, agent: AgentConfig, governance: Governance, deployment: Deployment)

  type Digest = Artifact -> string

  /** ComputeChecksum: the digest with the checksum field itself cleared. */
  function Checksum(a: Artifact, digest: Digest): string {
    digest(a.(metadata := a.metadata.(checksum := "")))
  }

  /** Everything but the two fields that later steps rewrite. */
  function Payload(a: Artifact): Artifact {
    a.(metadata := a.metadata.(status := PendingEval, changelog := ""))
  }

  ghost predicate SamePayload(a: Artifact, b: Artifact) { Payload(a) == Payload(b) }

  lemma SamePayloadExactlyWhen(a: Artifact, b: Artifact)
    ensures SamePayload(a, b) <==>
              && a.runtime == b.runtime && a.agent == b.agent && a.governance == b.governance
              && a.deployment == b.deployment && a.metadata.name == b.metadata.name
              && a.metadata.agentId == b.metadata.agentId && a.metadata.teamId == b.metadata.teamId
              && a.metadata.version == b.metadata.version && a.metadata.previous == b.metadata.previous
              && a.metadata.author == b.metadata.author && a.metadata.timestamp == b.metadata.timestamp
              && a.metadata.checksum == b.metadata.checksum
  {
    var m, n := Payload(a).metadata, Payload(b).metadata;
    if SamePayload(a, b) { assert m == n; }
  }

  // ---------------------------------------------------------------- agents

  /** `None` lists are Go's nil slices: absent, as opposed to empty. */
  datatype Agent = Agent(
    id: string, teamId: string, name: string, slug: string, framework: string, description: string, version: string,
    channel: string, strategy: string, modelType: string, modelId: string, systemPrompt: string, promptRef: string,
    storage: string, image: string, replicas: int,
    tools: Option<seq<string>>, skills: Option<seq<string>>, knowledgeBases: Option<seq<string>>,
    config: map<string, Json>)

  function Coalesce(a: string, b: string): string { if a != "" then a else b }

  function ExtractStrings(cfg: map<string, Json>, key: string, render: Json -> string): seq<string> {
    if key in cfg && cfg[key].Arr? then
      var items := cfg[key].items;
      seq(|items|, i requires 0 <= i < |items| => render(items[i]))
    else []
  }

  /** Go's float-to-int conversion truncates toward zero. */
  function Truncate(x: real): int {
    if x >= 0.0 then x.Floor else -((-x).Floor)
  }

  function ExtractInt(cfg: map<string, Json>, key: string, fallback: int): int {
    if key !in cfg then fallback
    else match cfg[key]
      case Float(x) => Truncate(x)
      case Int(i) => i
      case _ => fallback
  }

  lemma TruncatesTowardZero(x: real)
    ensures x >= 0.0 ==> 0.0 <= Truncate(x) as real <= x < Truncate(x) as real + 1.0
    ensures x < 0.0 ==> Truncate(x) as real - 1.0 < x <= Truncate(x) as real <= 0.0
  {
  }

  function DeriveNamespace(teamId: string): string {
    var name := ToLower(TrimPrefix(teamId, "tk_"));
    if name == "" || "default" <= name then "team-default" else "team-" + name
  }

  function GovernanceOf(cfg: map<string, Json>, render: Json -> string): Governance {
    var gov := if "governance" in cfg && cfg["governance"].Obj? then cfg["governance"].fields else map[];
    var policies := ExtractStrings(gov, "policies", render);
    Governance(
      ExtractStrings(gov, "guards", render),
      StringAt(gov, "risk_profile").Or("standard"),
      if policies == [] then ["default"] else policies,
      StringAt(gov, "eval_dataset").Or(""),
      ExtractInt(gov, "min_quality_score", 0))
  }

  function BuildArtifact(slug: string, version: int, changelog: string, a: Agent, now: string,
                         render: Json -> string): Artifact
  {
    var cfg := a.config;
    Artifact(
      Metadata(slug, a.id, a.teamId, version, if version - 1 < 0 then 0 else version - 1, "recif-api",
               now, changelog, "", PendingEval),
      Runtime(Coalesce(a.image, "ghcr.io/recif-platform/corail:latest"), Coalesce(a.channel, "rest"),
              Coalesce(a.strategy, "agent-react"), if a.replicas > 1 then a.replicas else 1),
      AgentConfig(
        Coalesce(a.modelType, "ollama"), a.modelId,
        if a.systemPrompt == "" then StringAt(cfg, "system_prompt").Or("") else a.systemPrompt,
        a.promptRef,
        a.skills.Or(ExtractStrings(cfg, "skills", render)),
        a.tools.Or(ExtractStrings(cfg, "tools", render)),
        a.knowledgeBases.Or(ExtractStrings(cfg, "knowledge_bases", render)),
        Coalesce(StringAt(cfg, "storage").Or(a.storage), "memory")),
      GovernanceOf(cfg, render),
      Deployment(DeriveNamespace(a.teamId), "development"))
  }

  /** strings.ReplaceAll(s, pattern, ""): left to right, without rescanning. */
  function Without(s: string, pattern: string): string
    requires pattern != ""
    decreases |s|
  {
    if s == "" then ""
    else if pattern <= s then Without(s[|pattern|..], pattern)
    else s[..1] + Without(s[1..], pattern)
  }

  function SanitizePath(s: string): string {
    Without(Without(Without(s, ".."), "/"), "\\")
  }

  function AgentDir(namespace: string, slug: string): string {
    "agents/" + SanitizePath(if namespace == "" then "team-default" else namespace) + "/" + SanitizePath(slug)
  }
}
