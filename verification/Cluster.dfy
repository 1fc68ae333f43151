/** The part of one Kubernetes namespace the program writes to (internal/agent/k8s_writer.go):
    Agent custom resources, changed by merge patch, and five kinds of named objects. Any call
    may be refused, or be carried out with its answer lost. */
module Cluster {
  import opened Options
  import opened Text
  import opened Json
  import opened Faults
  import opened MergePatch
  import opened Walks

  datatype Kind = Deployment | ConfigMap | Service | VirtualService | DestinationRule

  datatype Key = Key(kind: Kind, name: string)

  datatype Body =
    | Pod(app: string, version: string, image: string, configMap: string)
    | Data(data: map<string, string>)
    | Endpoints(app: string, version: string, port: int)
    | Subsets(host: string)
    | Split(host: string, stable: int, canary: int)
    | Foreign(text: string)

  /** `owner` is the value of the label recif.dev/agent. */
  datatype Object = Object(owner: string, body: Body)

  datatype State = State(objects: map<Key, Object>, crds: map<string, Json>)

  /** What the program does not choose: the order in which custom resources are listed, which
      names the server accepts, and two library renderings. */
  datatype Env = Env(listing: seq<string>, accepts: string -> bool, render: Renderer, marshal: Json -> string)

  /** Every custom resource has a spec that is an object, as its schema demands. */
  ghost predicate AllObjects(c: State) { forall n :: n in c.crds ==> c.crds[n].Obj? }

  // ---------------------------------------------------------------- single calls

  function Created(c: State, key: Key, o: Object, fate: Fate, env: Env): State {
    if key in c.objects || !env.accepts(key.name) || fate == Refused then c else c.(objects := c.objects[key := o])
  }

  function CreateOk(c: State, key: Key, fate: Fate, env: Env): bool {
    key !in c.objects && env.accepts(key.name) && fate == Acknowledged
  }

  function Removed(c: State, key: Key, fate: Fate): State {
    if fate == Refused then c else c.(objects := c.objects - {key})
  }

  /** Get, then create or update according to what the Get said: an existing object is replaced
      only if the Get saw it, a missing one created only under a name the server accepts. */
  predicate Lands(c: State, key: Key, get: Fate, env: Env) {
    if key in c.objects then Answered(get) else env.accepts(key.name)
  }

  function Upserted(c: State, key: Key, o: Object, get: Fate, write: Fate, env: Env): State {
    if write == Refused || !Lands(c, key, get, env) then c else c.(objects := c.objects[key := o])
  }

  function UpsertOk(c: State, key: Key, get: Fate, write: Fate, env: Env): bool {
    write == Acknowledged && Lands(c, key, get, env)
  }

  /** What one call can do to the objects. A create never replaces an object; a write that follows a failed
      lookup neither does. A refused call does nothing, and one whose answer is lost has done its work. */
  lemma CreateChanges(c: State, key: Key, o: Object, fate: Fate, env: Env)
    ensures Created(c, key, o, fate, env) ==
              if key !in c.objects && env.accepts(key.name) && fate in {Acknowledged, Unacknowledged}
              then c.(objects := c.objects[key := o]) else c
    ensures CreateOk(c, key, fate, env) ==> fate == Acknowledged && Created(c, key, o, fate, env) != c
  {
    if CreateOk(c, key, fate, env) { assert key in Created(c, key, o, fate, env).objects; }
  }

  lemma UpsertChanges(c: State, key: Key, o: Object, get: Fate, write: Fate, env: Env)
    ensures Upserted(c, key, o, get, write, env) ==
              if write in {Acknowledged, Unacknowledged}
                 && (if key in c.objects then get == Acknowledged else env.accepts(key.name))
              then c.(objects := c.objects[key := o]) else c
    ensures UpsertOk(c, key, get, write, env) ==>
              write == Acknowledged && key in Upserted(c, key, o, get, write, env).objects
                && Upserted(c, key, o, get, write, env).objects[key] == o
  {
  }

  lemma DeleteChanges(c: State, key: Key, fate: Fate)
    ensures Removed(c, key, fate) ==
              if fate in {Acknowledged, Unacknowledged} then c.(objects := c.objects - {key}) else c
  {
  }

  // ---------------------------------------------------------------- finding and patching a custom resource

  predicate NamedLike(spec: Json, agentName: string, env: Env) {
    spec.Obj? && ToLower(env.render(Field(spec.fields, "name"))) == ToLower(agentName)
  }

  function FirstNamedLike(listing: seq<string>, c: State, agentName: string, env: Env): Option<string> {
    if listing == [] then None
    else if listing[0] in c.crds && NamedLike(c.crds[listing[0]], agentName, env) then Some(listing[0])
    else FirstNamedLike(listing[1..], c, agentName, env)
  }

  /** By object name first, else the first listed whose spec.name matches regardless of case. */
  function FindCrdName(c: State, agentName: string, get: Fate, list: Fate, env: Env): Option<string> {
    if Answered(get) && ToLower(agentName) in c.crds then Some(ToLower(agentName))
    else if Answered(list) then FirstNamedLike(env.listing, c, agentName, env)
    else None
  }

  /** The resource found is the one whose object name is the agent's in lower case, if its lookup answers, and
      otherwise the first of the listing whose spec.name is the agent's but for letter case. */
  lemma FoundExactlyWhen(c: State, agentName: string, get: Fate, list: Fate, env: Env, name: string)
    ensures FindCrdName(c, agentName, get, list, env) == Some(name) <==>
              if get == Acknowledged && ToLower(agentName) in c.crds then name == ToLower(agentName)
              else list == Acknowledged && FirstMatch(env.listing, c, agentName, env, name)
  {
    FirstNamedLikeIs(env.listing, c, agentName, env, name);
  }

  ghost predicate Matches(c: State, listed: string, agentName: string, env: Env) {
    && listed in c.crds && c.crds[listed].Obj?
    && ToLower(env.render(Field(c.crds[listed].fields, "name"))) == ToLower(agentName)
  }

  ghost predicate FirstMatch(listing: seq<string>, c: State, agentName: string, env: Env, name: string) {
    exists i :: 0 <= i < |listing| && listing[i] == name && Matches(c, listing[i], agentName, env)
                && forall j :: 0 <= j < i ==> !Matches(c, listing[j], agentName, env)
  }

  lemma {:induction false} FirstNamedLikeIs(listing: seq<string>, c: State, agentName: string, env: Env, name: string)
    ensures FirstNamedLike(listing, c, agentName, env) == Some(name) <==>
              FirstMatch(listing, c, agentName, env, name)
  {
    if listing != [] {
      var rest := listing[1..];
      FirstNamedLikeIs(rest, c, agentName, env, name);
      assert forall j :: 0 <= j < |rest| ==> rest[j] == listing[j + 1];
      if !Matches(c, listing[0], agentName, env) { FirstMatchFurtherOn(listing, c, agentName, env, name); }
    }
  }

  lemma FirstMatchFurtherOn(listing: seq<string>, c: State, agentName: string, env: Env, name: string)
    requires listing != [] && !Matches(c, listing[0], agentName, env)
    ensures FirstMatch(listing[1..], c, agentName, env, name) <==> FirstMatch(listing, c, agentName, env, name)
  {
    var rest := listing[1..];
    assert forall j :: 0 <= j < |rest| ==> rest[j] == listing[j + 1];
    if FirstMatch(rest, c, agentName, env, name) {
      var i :| 0 <= i < |rest| && rest[i] == name && Matches(c, rest[i], agentName, env)
               && forall j :: 0 <= j < i ==> !Matches(c, rest[j], agentName, env);
      assert forall j :: 0 <= j < i + 1 ==> j == 0 || listing[j] == rest[j - 1];
      assert listing[i + 1] == name;
    }
    if FirstMatch(listing, c, agentName, env, name) {
      var i :| 0 <= i < |listing| && listing[i] == name && Matches(c, listing[i], agentName, env)
               && forall j :: 0 <= j < i ==> !Matches(c, listing[j], agentName, env);
      assert i > 0 && rest[i - 1] == name;
    }
  }

  function PatchedAt(c: State, name: string, fields: map<string, Json>): State
    requires name in c.crds
  {
    c.(crds := c.crds[name := Merge(c.crds[name], Obj(fields))])
  }

  /** Calls i (Get), i + 1 (List) and i + 2 (Patch). */
  function SpecPatched(c: State, agentName: string, fields: map<string, Json>, net: Fates, i: nat, env: Env): State {
    var name := FindCrdName(c, agentName, FateAt(net, i), FateAt(net, i + 1), env);
    if name.None? || name.value !in c.crds || FateAt(net, i + 2) == Refused then c
    else PatchedAt(c, name.value, fields)
  }

  function PatchOk(c: State, agentName: string, net: Fates, i: nat, env: Env): bool {
    var name := FindCrdName(c, agentName, FateAt(net, i), FateAt(net, i + 1), env);
    name.Some? && name.value in c.crds && FateAt(net, i + 2) == Acknowledged
  }

  // ---------------------------------------------------------------- the canary objects of a slug

  function CanaryPod(slug: string): Key { Key(Deployment, slug + "-canary") }
  function CanaryConfig(slug: string): Key { Key(ConfigMap, slug + "-canary-config") }
  function CanaryService(slug: string): Key { Key(Service, slug + "-canary") }
  function SplitRoute(slug: string): Key { Key(VirtualService, slug) }
  function SplitRule(slug: string): Key { Key(DestinationRule, slug) }

  /** The environment variable each overridable setting fills; iterated in any order. */
  const OVERRIDES: map<string, string> := map[
    "CORAIL_MODEL_TYPE" := "modelType", "CORAIL_MODEL_ID" := "modelId", "CORAIL_SYSTEM_PROMPT" := "systemPrompt",
    "CORAIL_STRATEGY" := "strategy", "CORAIL_CHANNEL" := "channel", "CORAIL_STORAGE" := "storage"]

  /** The non-empty settings of the variables in `done`. */
  function Chosen(table: map<string, string>, done: set<string>, overrides: map<string, Json>): map<string, string> {
    map e | e in done && e in table && StringAt(overrides, table[e]).Some? :: StringAt(overrides, table[e]).value
  }

  /** `data` overlaid with them. */
  function Overlaid(table: map<string, string>, done: set<string>, data: map<string, string>,
                    overrides: map<string, Json>): map<string, string>
  {
    data + Chosen(table, done, overrides)
  }

  lemma ChosenOneMore(table: map<string, string>, done: set<string>, overrides: map<string, Json>, e: string)
    requires e in table && e !in done
    ensures var v, before := StringAt(overrides, table[e]), Chosen(table, done, overrides);
            Chosen(table, done + {e}, overrides) == if v.Some? then before[e := v.value] else before
  {
  }

  lemma AddedToOverlay(data: map<string, string>, over: map<string, string>, e: string, v: string)
    ensures data + over[e := v] == (data + over)[e := v]
  {
  }

  lemma OverlaidOneMore(table: map<string, string>, done: set<string>, data: map<string, string>,
                        overrides: map<string, Json>, e: string)
    requires e in table && e !in done
    ensures var v := StringAt(overrides, table[e]);
            var before := Overlaid(table, done, data, overrides);
            Overlaid(table, done + {e}, data, overrides) == if v.Some? then before[e := v.value] else before
  {
    ChosenOneMore(table, done, overrides, e);
    var v := StringAt(overrides, table[e]);
    if v.Some? { AddedToOverlay(data, Chosen(table, done, overrides), e, v.value); }
  }

  function WithList(data: map<string, string>, overrides: map<string, Json>, key: string, variable: string, env: Env)
      : map<string, string>
  {
    if key !in overrides || overrides[key].Null? then data
    else
      var text := env.marshal(overrides[key]);
      if text == "" || text == "null" then data else data[variable := text]
  }

  function CanaryData(stable: map<string, string>, overrides: map<string, Json>, env: Env): map<string, string> {
    var data := Overlaid(OVERRIDES, OVERRIDES.Keys, stable, overrides);
    var versioned := match StringAt(overrides, "version")
      case Some(v) => data["RECIF_AGENT_VERSION" := v]
      case None => data;
    WithList(WithList(versioned, overrides, "skills", "CORAIL_SKILLS", env), overrides, "tools", "CORAIL_TOOLS", env)
  }

  function DataOf(o: Object): map<string, string> {
    if o.body.Data? then o.body.data else map[]
  }

  /** Calls i (read the stable ConfigMap), i + 1 and i + 2 (Get and write the canary one). */
  function CanaryConfigCreated(c: State, slug: string, overrides: map<string, Json>, net: Fates, i: nat,
                               env: Env): State
  {
    var stable := Key(ConfigMap, slug + "-config");
    if !Answered(FateAt(net, i)) || stable !in c.objects then c
    else Upserted(c, CanaryConfig(slug), Object(slug, Data(CanaryData(DataOf(c.objects[stable]), overrides, env))),
                  FateAt(net, i + 1), FateAt(net, i + 2), env)
  }

  function CanaryImage(overrides: map<string, Json>): string {
    StringAt(overrides, "image").Or("ghcr.io/recif-platform/corail:v0.1.1")
  }

  /** Calls i .. i + 2 for the ConfigMap, best effort, and i + 3 for the Deployment. */
  function CanaryDeployed(c: State, slug: string, overrides: map<string, Json>, net: Fates, i: nat, env: Env): State {
    var configured := CanaryConfigCreated(c, slug, overrides, net, i, env);
    Created(configured, CanaryPod(slug),
            Object(slug, Pod(slug, "canary", CanaryImage(overrides), slug + "-canary-config")),
            FateAt(net, i + 3), env)
  }

  function DeployOk(c: State, slug: string, net: Fates, i: nat, env: Env): bool {
    CreateOk(c, CanaryPod(slug), FateAt(net, i + 3), env)
  }

  /** Calls i, i + 1 for the DestinationRule and i + 2, i + 3 for the VirtualService. */
  function TrafficSplit(c: State, slug: string, stable: int, canary: int, net: Fates, i: nat, env: Env): State {
    var ruled := Upserted(c, SplitRule(slug), Object(slug, Subsets(slug)), FateAt(net, i), FateAt(net, i + 1), env);
    if !UpsertOk(c, SplitRule(slug), FateAt(net, i), FateAt(net, i + 1), env) then ruled
    else Upserted(ruled, SplitRoute(slug), Object(slug, Split(slug, stable, canary)), FateAt(net, i + 2),
                  FateAt(net, i + 3), env)
  }

  /** The route is only written once its rule is there. */
  lemma RouteFollowsItsRule(c: State, slug: string, stable: int, canary: int, net: Fates, i: nat, env: Env)
    ensures var done := TrafficSplit(c, slug, stable, canary, net, i, env);
            && (forall k :: k !in {Key(VirtualService, slug), Key(DestinationRule, slug)} ==>
                  (k in done.objects <==> k in c.objects) && (k in c.objects ==> done.objects[k] == c.objects[k]))
            && (done.objects == c.objects || Key(DestinationRule, slug) in done.objects)
            && (Key(VirtualService, slug) in done.objects ==>
                  || (Key(VirtualService, slug) in c.objects
                      && done.objects[Key(VirtualService, slug)] == c.objects[Key(VirtualService, slug)])
                  || (Key(DestinationRule, slug) in done.objects
                      && done.objects[Key(DestinationRule, slug)] == Object(slug, Subsets(slug))
                      && done.objects[Key(VirtualService, slug)] == Object(slug, Split(slug, stable, canary))))
  {
  }

  /** Deletes are best effort: each is tried whatever came of the one before. */
  function TrafficSplitDeleted(c: State, slug: string, net: Fates, i: nat): State {
    Removed(Removed(c, SplitRoute(slug), FateAt(net, i)), SplitRule(slug), FateAt(net, i + 1))
  }

  function CanaryDeleted(c: State, slug: string, net: Fates, i: nat): State {
    Removed(Removed(Removed(c, CanaryPod(slug), FateAt(net, i)), CanaryConfig(slug), FateAt(net, i + 1)),
            CanaryService(slug), FateAt(net, i + 2))
  }

  // ---------------------------------------------------------------- clean-up by label

  /** Which listings answer, and the fate of each deletion. */
  datatype Sweep = Sweep(lists: Kind -> bool, deletes: Key -> Fate)

  const FULL_SWEEP := Sweep(_ => true, _ => Acknowledged)

  ghost predicate Swept(sweep: Sweep, slug: string, key: Key, o: Object) {
    o.owner == slug && sweep.lists(key.kind) && sweep.deletes(key) != Refused
  }

  ghost function CleanedUp(c: State, slug: string, sweep: Sweep): State {
    c.(objects := map k | k in c.objects && !Swept(sweep, slug, k, c.objects[k]) :: c.objects[k])
  }

  /** The objects of one kind labelled for the slug. */
  function Labelled(objects: map<Key, Object>, kind: Kind, slug: string): set<Key> {
    set k | k in objects && k.kind == kind && objects[k].owner == slug
  }

  /** What is left once the keys in `tried` have been deleted, as far as that worked. */
  ghost function Surviving(objects: map<Key, Object>, tried: set<Key>, sweep: Sweep): map<Key, Object> {
    map k | k in objects && !(k in tried && sweep.deletes(k) != Refused) :: objects[k]
  }

  lemma TriedOneMore(objects: map<Key, Object>, tried: set<Key>, sweep: Sweep, k: Key)
    ensures var before := Surviving(objects, tried, sweep);
            Surviving(objects, tried + {k}, sweep) == if sweep.deletes(k) == Refused then before else before - {k}
  {
  }

  ghost function CleanedKinds(objects: map<Key, Object>, kinds: set<Kind>, slug: string, sweep: Sweep): map<Key, Object>
  {
    map k | k in objects && !(k.kind in kinds && Swept(sweep, slug, k, objects[k])) :: objects[k]
  }

  lemma LabelledAreSwept(objects: map<Key, Object>, kind: Kind, slug: string, sweep: Sweep)
    ensures CleanedKinds(objects, {kind}, slug, sweep) ==
              if sweep.lists(kind) then Surviving(objects, Labelled(objects, kind, slug), sweep) else objects
  {
  }

  lemma CleanedOneMore(objects: map<Key, Object>, kinds: set<Kind>, kind: Kind, slug: string, sweep: Sweep)
    ensures CleanedKinds(CleanedKinds(objects, kinds, slug, sweep), {kind}, slug, sweep) ==
              CleanedKinds(objects, kinds + {kind}, slug, sweep)
  {
  }

  lemma EveryKindCleaned(c: State, slug: string, sweep: Sweep)
    ensures CleanedUp(c, slug, sweep).objects ==
              CleanedKinds(c.objects, {Deployment} + {Service} + {ConfigMap} + {VirtualService} + {DestinationRule},
                           slug, sweep)
  {
    forall kind: Kind ensures kind in {Deployment} + {Service} + {ConfigMap} + {VirtualService} + {DestinationRule} {
      match kind {
        case Deployment =>
        case Service =>
        case ConfigMap =>
        case VirtualService =>
        case DestinationRule =>
      }
    }
  }

  /** What a sweep leaves: everything that carries another label, and of the rest what a failed listing hid or
      a refused deletion spared. */
  lemma SweepLeaves(c: State, slug: string, sweep: Sweep, k: Key)
    ensures k in CleanedUp(c, slug, sweep).objects <==>
              && k in c.objects
              && (c.objects[k].owner != slug || !sweep.lists(k.kind) || sweep.deletes(k) == Refused)
    ensures k in CleanedUp(c, slug, sweep).objects ==> CleanedUp(c, slug, sweep).objects[k] == c.objects[k]
    ensures CleanedUp(c, slug, sweep).crds == c.crds
  {
  }

  // ---------------------------------------------------------------- the writer

  class K8sWriter {
    var cluster: State
    const env: Env

    constructor (cluster: State, env: Env)
      ensures this.cluster == cluster && this.env == env
    {
      this.cluster := cluster;
      this.env := env;
    }

    method Create(key: Key, o: Object, fate: Fate) returns (ok: bool)
      modifies this
      ensures cluster == Created(old(cluster), key, o, fate, env) && ok == CreateOk(old(cluster), key, fate, env)
    {
      ok := key !in cluster.objects && env.accepts(key.name) && fate == Acknowledged;
      if key !in cluster.objects && env.accepts(key.name) && fate != Refused {
        cluster := cluster.(objects := cluster.objects[key := o]);
      }
    }

    method Upsert(key: Key, o: Object, get: Fate, write: Fate) returns (ok: bool)
      modifies this
      ensures cluster == Upserted(old(cluster), key, o, get, write, env)
      ensures ok == UpsertOk(old(cluster), key, get, write, env)
    {
      var found := Answered(get) && key in cluster.objects;
      if !found {
        ok := Create(key, o, write);
      } else {
        if write != Refused { cluster := cluster.(objects := cluster.objects[key := o]); }
        ok := write == Acknowledged;
      }
    }

    method Delete(key: Key, fate: Fate) returns (ok: bool)
      modifies this
      ensures cluster == Removed(old(cluster), key, fate)
      ensures ok == (key in old(cluster).objects && fate == Acknowledged)
    {
      ok := key in cluster.objects && fate == Acknowledged;
      if fate != Refused {
        cluster := cluster.(objects := cluster.objects - {key});
      }
    }

    method FindCRDName(agentName: string, get: Fate, list: Fate) returns (name: Option<string>)
      ensures name == FindCrdName(cluster, agentName, get, list, env)
    {
      var target := ToLower(agentName);
      if Answered(get) && target in cluster.crds { return Some(target); }
      if !Answered(list) { return None; }
      var n := 0;
      while n < |env.listing|
        invariant 0 <= n <= |env.listing|
        invariant FirstNamedLike(env.listing, cluster, agentName, env) ==
                    FirstNamedLike(env.listing[n..], cluster, agentName, env)
      {
        var item := env.listing[n];
        if item in cluster.crds && NamedLike(cluster.crds[item], agentName, env) { return Some(item); }
        n := n + 1;
      }
      name := None;
    }

    method PatchSpec(agentName: string, fields: map<string, Json>, net: Fates, i: nat) returns (ok: bool)
      modifies this
      ensures cluster == SpecPatched(old(cluster), agentName, fields, net, i, env)
      ensures ok == PatchOk(old(cluster), agentName, net, i, env)
    {
      var name := FindCRDName(agentName, FateAt(net, i), FateAt(net, i + 1));
      if name.None? { return false; }
      var fate := FateAt(net, i + 2);
      ok := name.value in cluster.crds && fate == Acknowledged;
      if name.value in cluster.crds && fate != Refused {
        cluster := cluster.(crds := cluster.crds[name.value := Merge(cluster.crds[name.value], Obj(fields))]);
      }
    }

    /** Visits the override table in an arbitrary order. */
    method ApplyOverrides(table: map<string, string>, stable: map<string, string>, overrides: map<string, Json>)
        returns (data: map<string, string>)
      ensures data == Overlaid(table, table.Keys, stable, overrides)
    {
      data := stable;
      var pending := table.Keys;
      ghost var done: set<string> := {};
      while pending != {}
        invariant pending !! done && pending + done == table.Keys
        invariant data == Overlaid(table, done, stable, overrides)
        decreases |pending|
      {
        var e :| e in pending;
        OverlaidOneMore(table, done, stable, overrides, e);
        OneVisited(table.Keys, pending, done, e);
        var v := StringAt(overrides, table[e]);
        if v.Some? { data := data[e := v.value]; }
        pending, done := pending - {e}, done + {e};
      }
    }

    method CreateCanaryConfigMap(slug: string, overrides: map<string, Json>, net: Fates, i: nat) returns (ok: bool)
      modifies this
      ensures cluster == CanaryConfigCreated(old(cluster), slug, overrides, net, i, env)
      ensures ok == (Answered(FateAt(net, i)) && Key(ConfigMap, slug + "-config") in old(cluster).objects
                     && UpsertOk(old(cluster), CanaryConfig(slug), FateAt(net, i + 1), FateAt(net, i + 2), env))
    {
      var stable := Key(ConfigMap, slug + "-config");
      if !Answered(FateAt(net, i)) || stable !in cluster.objects { return false; }
      var data := ApplyOverrides(OVERRIDES, DataOf(cluster.objects[stable]), overrides);
      var version := StringAt(overrides, "version");
      if version.Some? { data := data["RECIF_AGENT_VERSION" := version.value]; }
      data := WithList(data, overrides, "skills", "CORAIL_SKILLS", env);
      data := WithList(data, overrides, "tools", "CORAIL_TOOLS", env);
      ok := Upsert(CanaryConfig(slug), Object(slug, Data(data)), FateAt(net, i + 1), FateAt(net, i + 2));
    }

    method CreateCanaryDeployment(slug: string, overrides: map<string, Json>, net: Fates, i: nat) returns (ok: bool)
      modifies this
      ensures cluster == CanaryDeployed(old(cluster), slug, overrides, net, i, env)
      ensures ok == DeployOk(old(cluster), slug, net, i, env)
    {
      var image := StringAt(overrides, "image");
      var _ := CreateCanaryConfigMap(slug, overrides, net, i);
      var pod := Pod(slug, "canary", if image.Some? then image.value else "ghcr.io/recif-platform/corail:v0.1.1",
                     slug + "-canary-config");
      ok := Create(CanaryPod(slug), Object(slug, pod), FateAt(net, i + 3));
    }

    /** A Service is labelled for the slug its name starts with. */
    method CreateService(name: string, app: string, version: string, port: int, fate: Fate) returns (ok: bool)
      modifies this
      ensures cluster == Created(old(cluster), Key(Service, name),
                                 Object(TrimSuffix(name, "-canary"), Endpoints(app, version, port)), fate, env)
      ensures ok == CreateOk(old(cluster), Key(Service, name), fate, env)
    {
      var slug := TrimSuffix(name, "-canary");
      ok := Create(Key(Service, name), Object(slug, Endpoints(app, version, port)), fate);
    }

    method ApplyTrafficSplit(slug: string, stable: int, canary: int, net: Fates, i: nat) returns (ok: bool)
      modifies this
      ensures cluster == TrafficSplit(old(cluster), slug, stable, canary, net, i, env)
      ensures ok == (UpsertOk(old(cluster), SplitRule(slug), FateAt(net, i), FateAt(net, i + 1), env)
                     && UpsertOk(old(cluster), SplitRoute(slug), FateAt(net, i + 2), FateAt(net, i + 3), env))
    {
      ok := Upsert(SplitRule(slug), Object(slug, Subsets(slug)), FateAt(net, i), FateAt(net, i + 1));
      if !ok { return; }
      ok := Upsert(SplitRoute(slug), Object(slug, Split(slug, stable, canary)), FateAt(net, i + 2), FateAt(net, i + 3));
    }

    method DeleteTrafficSplit(slug: string, net: Fates, i: nat)
      modifies this
      ensures cluster == TrafficSplitDeleted(old(cluster), slug, net, i)
    {
      var _ := Delete(SplitRoute(slug), FateAt(net, i));
      var _ := Delete(SplitRule(slug), FateAt(net, i + 1));
    }

    method DeleteCanaryDeployment(slug: string, net: Fates, i: nat) returns (ok: bool)
      modifies this
      ensures cluster == CanaryDeleted(old(cluster), slug, net, i)
      ensures ok == (CanaryPod(slug) in old(cluster).objects && FateAt(net, i) == Acknowledged)
    {
      ok := Delete(CanaryPod(slug), FateAt(net, i));
      var _ := Delete(CanaryConfig(slug), FateAt(net, i + 1));
      var _ := Delete(CanaryService(slug), FateAt(net, i + 2));
    }

    /** Lists the objects of one kind labelled for the slug and deletes each, in any order. */
    method CleanupKind(slug: string, kind: Kind, sweep: Sweep)
      modifies this
      ensures cluster == old(cluster).(objects := CleanedKinds(old(cluster).objects, {kind}, slug, sweep))
    {
      LabelledAreSwept(cluster.objects, kind, slug, sweep);
      if !sweep.lists(kind) { return; }
      ghost var before := cluster.objects;
      var pending := Labelled(cluster.objects, kind, slug);
      ghost var items, tried: set<Key> := pending, {};
      while pending != {}
        invariant pending + tried == items && cluster.crds == old(cluster).crds
        invariant cluster.objects == Surviving(before, tried, sweep)
        decreases |pending|
      {
        var k :| k in pending;
        var _ := Delete(k, sweep.deletes(k));
        TriedOneMore(before, tried, sweep, k);
        pending, tried := pending - {k}, tried + {k};
      }
    }

    method CleanupAgentResources(slug: string, sweep: Sweep)
      modifies this
      ensures cluster == CleanedUp(old(cluster), slug, sweep)
    {
      ghost var before, kinds := cluster.objects, {Deployment};
      CleanupKind(slug, Deployment, sweep);
      CleanupKind(slug, Service, sweep);
      CleanedOneMore(before, kinds, Service, slug, sweep);
      kinds := kinds + {Service};
      CleanupKind(slug, ConfigMap, sweep);
      CleanedOneMore(before, kinds, ConfigMap, slug, sweep);
      kinds := kinds + {ConfigMap};
      CleanupKind(slug, VirtualService, sweep);
      CleanedOneMore(before, kinds, VirtualService, slug, sweep);
      kinds := kinds + {VirtualService};
      CleanupKind(slug, DestinationRule, sweep);
      CleanedOneMore(before, kinds, DestinationRule, slug, sweep);
      EveryKindCleaned(old(cluster), slug, sweep);
    }
  }
}
