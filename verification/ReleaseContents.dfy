/** What a release says of an agent, and where it is filed (BuildArtifact, ComputeChecksum, AgentDir
    and DeriveNamespace in internal/gitstate/artifact.go). */
module ReleaseContents {
  import opened Options
  import opened Text
  import opened Json
  import opened Artifacts

  // ---------------------------------------------------------------- contents

  /** A text of the agent's configuration; "" when there is none. */
  function ConfigText(cfg: map<string, Json>, key: string): string {
    if key in cfg && cfg[key].Str? then cfg[key].s else ""
  }

  /** A list of the agent's configuration, each item rendered. */
  ghost predicate IsConfigList(cfg: map<string, Json>, key: string, list: seq<string>, render: Json -> string) {
    if key in cfg && cfg[key].Arr? then
      |list| == |cfg[key].items| && forall i :: 0 <= i < |list| ==> list[i] == render(cfg[key].items[i])
    else list == []
  }

  /** The agent's own list, even an empty one, before the configuration's. */
  ghost predicate IsListOf(own: Option<seq<string>>, cfg: map<string, Json>, key: string, list: seq<string>,
                           render: Json -> string)
  {
    if own.Some? then list == own.value else IsConfigList(cfg, key, list, render)
  }

  function Either(first: string, second: string): string { if first == "" then second else first }

  lemma BuiltMetadata(slug: string, version: int, changelog: string, a: Agent, now: string, render: Json -> string)
    ensures var m := BuildArtifact(slug, version, changelog, a, now, render).metadata;
            && m.name == slug && m.agentId == a.id && m.teamId == a.teamId && m.version == version
            && m.previous == (if version >= 1 then version - 1 else 0) && m.author == "recif-api"
            && m.timestamp == now && m.changelog == changelog && m.checksum == "" && m.status == PendingEval
  {
  }

  /** The settings of a release: the agent's own, else its configuration's, else the defaults. Only the storage
      of the configuration comes before the agent's. */
  lemma BuiltSettings(slug: string, version: int, changelog: string, a: Agent, now: string, render: Json -> string)
    ensures var r := BuildArtifact(slug, version, changelog, a, now, render);
            && r.runtime.image == Either(a.image, "ghcr.io/recif-platform/corail:latest")
            && r.runtime.channel == Either(a.channel, "rest") && r.runtime.strategy == Either(a.strategy, "agent-react")
            && r.runtime.replicas == (if a.replicas < 1 then 1 else a.replicas)
            && r.agent.provider == Either(a.modelType, "ollama") && r.agent.modelId == a.modelId
            && r.agent.systemPrompt == Either(a.systemPrompt, ConfigText(a.config, "system_prompt"))
            && r.agent.promptRef == a.promptRef
            && r.agent.memoryBackend == Either(Either(ConfigText(a.config, "storage"), a.storage), "memory")
            && IsListOf(a.skills, a.config, "skills", r.agent.skills, render)
            && IsListOf(a.tools, a.config, "tools", r.agent.tools, render)
            && IsListOf(a.knowledgeBases, a.config, "knowledge_bases", r.agent.knowledgeBases, render)
  {
  }

  /** The governance of a release comes from the configuration alone: a quality score that is not a number counts
      as none, and no policies as the default one. */
  lemma BuiltGovernance(slug: string, version: int, changelog: string, a: Agent, now: string, render: Json -> string)
    ensures var r := BuildArtifact(slug, version, changelog, a, now, render);
            var gov := if "governance" in a.config && a.config["governance"].Obj? then a.config["governance"].fields
                       else map[];
            && IsConfigList(gov, "guards", r.governance.guards, render)
            && r.governance.riskProfile == Either(ConfigText(gov, "risk_profile"), "standard")
            && (IsConfigList(gov, "policies", r.governance.policies, render)
                || (r.governance.policies == ["default"] && IsConfigList(gov, "policies", [], render)))
            && r.governance.policies != []
            && r.governance.evalDataset == ConfigText(gov, "eval_dataset")
            && r.governance.minQualityScore ==
                 (match Field(gov, "min_quality_score")
                  case Float(x) => Truncate(x)
                  case Int(i) => i
                  case _ => 0)
            && r.deployment.environment == "development"
  {
  }

  // ---------------------------------------------------------------- the checksum

  /** With a digest that tells artifacts apart, the checksum covers everything but itself. */
  lemma ChecksumCoversTheRest(a: Artifact, b: Artifact, digest: Digest)
    requires forall x: Artifact, y: Artifact :: digest(x) == digest(y) ==> x == y
    ensures Checksum(a, digest) == Checksum(b, digest) <==>
              a.(metadata := a.metadata.(checksum := b.metadata.checksum)) == b
  {
    var x := a.(metadata := a.metadata.(checksum := ""));
    var y := b.(metadata := b.metadata.(checksum := ""));
    if x == y { assert x.(metadata := x.metadata.(checksum := b.metadata.checksum)) == b; }
  }

  // ---------------------------------------------------------------- the directory

  /** A team id without its prefix, in lower case. */
  function TeamName(teamId: string): string {
    ToLower(if "tk_" <= teamId then teamId[3..] else teamId)
  }

  predicate IsDefaultTeam(teamId: string) { TeamName(teamId) == "" || "default" <= TeamName(teamId) }

  lemma NamespaceOf(teamId: string)
    ensures DeriveNamespace(teamId) == if IsDefaultTeam(teamId) then "team-default" else "team-" + TeamName(teamId)
    ensures DeriveNamespace("") == DeriveNamespace("tk_") == "team-default"
  {
    assert TrimPrefix("tk_", "tk_") == "" && ToLower("") == "";
  }

  /** Two teams share a namespace exactly when they go by the same name, but for the prefix and letter case, or
      both are default teams. */
  lemma NamespacesCoincideExactlyWhen(t: string, u: string)
    ensures DeriveNamespace(t) == DeriveNamespace(u) <==>
              TeamName(t) == TeamName(u) || (IsDefaultTeam(t) && IsDefaultTeam(u))
  {
    NamespaceOf(t);
    NamespaceOf(u);
    assert ("team-" + TeamName(t))[5..] == TeamName(t) && ("team-" + TeamName(u))[5..] == TeamName(u);
    assert "team-default"[5..] == "default";
  }

  lemma {:induction false} WithoutKeeps(s: string, pattern: string)
    requires pattern != "" && pattern[0] !in s
    ensures Without(s, pattern) == s
  {
    if s != "" {
      assert !(pattern <= s);
      WithoutKeeps(s[1..], pattern);
    }
  }

  lemma {:induction false} WithoutTakes(s: string, c: char)
    ensures c !in Without(s, [c])
    ensures forall d :: d in Without(s, [c]) ==> d in s
    decreases |s|
  {
    if s != "" {
      WithoutTakes(s[1..], c);
      assert ([c] <= s) == (s[0] == c);
      if s[0] == c { assert s[1..] == s[|[c]|..]; }
    }
  }

  /** A sanitised name is one segment of a path. */
  lemma SanitisedIsOneSegment(s: string)
    ensures '/' !in SanitizePath(s) && '\\' !in SanitizePath(s)
  {
    WithoutTakes(Without(s, ".."), '/');
    WithoutTakes(Without(Without(s, ".."), "/"), '\\');
  }

  /** A name without dots and slashes is kept. */
  lemma CleanNamesAreKept(s: string)
    requires '.' !in s && '/' !in s && '\\' !in s
    ensures SanitizePath(s) == s
  {
    WithoutKeeps(s, "..");
    WithoutKeeps(s, "/");
    WithoutKeeps(s, "\\");
  }

  /** Two dots are taken out, wherever they stand in an otherwise clean name. */
  lemma {:induction false} DotsAreTaken(s: string, t: string)
    requires '.' !in s && '/' !in s && '\\' !in s && '.' !in t && '/' !in t && '\\' !in t
    ensures SanitizePath(s + ".." + t) == s + t
  {
    WithoutDots(s, t);
    WithoutKeeps(s + t, "/");
    WithoutKeeps(s + t, "\\");
  }

  lemma {:induction false} WithoutDots(s: string, t: string)
    requires '.' !in s && '.' !in t
    ensures Without(s + ".." + t, "..") == s + t
  {
    var all := s + ".." + t;
    if s == "" {
      assert all[2..] == t && ".." <= all;
      WithoutKeeps(t, "..");
    } else {
      assert all[0] == s[0] && all[1..] == s[1..] + ".." + t && all[..1] + (s[1..] + t) == s + t;
      WithoutDots(s[1..], t);
    }
  }

  function Segment(name: string): string { SanitizePath(if name == "" then "team-default" else name) }

  lemma NoSlashInside(s: string, head: string)
    requires '/' !in head && head <= s
    ensures forall k :: 0 <= k < |head| ==> s[k] != '/'
  {
    assert forall k :: 0 <= k < |head| ==> s[k] == head[k];
  }

  lemma FirstSlash(a: string, b: string, c: string, d: string)
    requires '/' !in a && '/' !in c && a + "/" + b == c + "/" + d
    ensures a == c && b == d
  {
    var s := a + "/" + b;
    Flat(a, b);
    Flat(c, d);
    NoSlashInside(s, a);
    NoSlashInside(s, c);
  }

  lemma Flat(a: string, b: string)
    ensures var s := a + "/" + b; a <= s && s[|a|] == '/' && s[..|a|] == a && s[|a| + 1..] == b
  {
  }

  lemma DirectoryIs(namespace: string, slug: string)
    ensures AgentDir(namespace, slug) == "agents/" + (Segment(namespace) + "/" + SanitizePath(slug))
    ensures '/' !in Segment(namespace)
  {
    SanitisedIsOneSegment(if namespace == "" then "team-default" else namespace);
    assert "agents/" + Segment(namespace) + "/" + SanitizePath(slug) ==
           "agents/" + (Segment(namespace) + "/" + SanitizePath(slug));
  }

  lemma SamePrefix(prefix: string, x: string, y: string)
    ensures prefix + x == prefix + y <==> x == y
  {
    assert (prefix + x)[|prefix|..] == x && (prefix + y)[|prefix|..] == y;
  }

  /** Two agents share a directory exactly when their namespaces and their slugs are the same once sanitised. */
  lemma DirectoriesCoincideExactlyWhen(n: string, s: string, m: string, t: string)
    ensures AgentDir(n, s) == AgentDir(m, t) <==> Segment(n) == Segment(m) && SanitizePath(s) == SanitizePath(t)
  {
    DirectoryIs(n, s);
    DirectoryIs(m, t);
    SamePrefix("agents/", Segment(n) + "/" + SanitizePath(s), Segment(m) + "/" + SanitizePath(t));
    if AgentDir(n, s) == AgentDir(m, t) { FirstSlash(Segment(n), SanitizePath(s), Segment(m), SanitizePath(t)); }
  }

  /** An agent with clean names is filed under agents/<namespace>/<slug>. */
  lemma DirectoryOf(namespace: string, slug: string)
    requires '.' !in namespace && '/' !in namespace && '\\' !in namespace
    requires '.' !in slug && '/' !in slug && '\\' !in slug
    ensures AgentDir(namespace, slug) ==
              "agents/" + (if namespace == "" then "team-default" else namespace) + "/" + slug
  {
    CleanNamesAreKept(if namespace == "" then "team-default" else namespace);
    CleanNamesAreKept(slug);
  }
}
