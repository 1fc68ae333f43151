/** Overlaying an agent with its custom resource (internal/agent/k8s_reader.go): one agent at a
    time by trying names (`FindCRD`), or many at once through two index maps (`EnrichAll`). */
module Enrichment {
  import opened Options
  import opened Text
  import opened Json
  import opened Faults
  import opened Artifacts
  import opened ConfigMapping

  /** The specs of the custom resources, and the order the server lists them in. */
  datatype Snapshot = Snapshot(specs: map<string, Json>, listing: seq<string>)

  ghost predicate Complete(s: Snapshot) {
    forall n :: n in s.listing <==> n in s.specs
  }

  // ---------------------------------------------------------------- one agent at a time

  function SpecName(spec: Json): Json {
    if spec.Obj? then Field(spec.fields, "name") else Null
  }

  /** The first listed resource whose spec.name prints like the agent's name. */
  function FirstNamed(listing: seq<string>, specs: map<string, Json>, name: string, render: Renderer): Option<string> {
    if listing == [] then None
    else if Named(specs, listing[0], name, render) then Some(listing[0])
    else FirstNamed(listing[1..], specs, name, render)
  }

  /** The first candidate, blanks left out, for which the Get succeeds. */
  function FirstFound(candidates: seq<string>, specs: map<string, Json>, gets: Fates, i: nat): Option<string> {
    if candidates == [] then None
    else if candidates[0] == "" then FirstFound(candidates[1..], specs, gets, i)
    else if Answered(FateAt(gets, i)) && candidates[0] in specs then Some(candidates[0])
    else FirstFound(candidates[1..], specs, gets, i + 1)
  }

  function Candidates(s: Snapshot, a: Agent, list: Fate, render: Renderer): seq<string> {
    var named := if Answered(list) then FirstNamed(s.listing, s.specs, a.name, render) else None;
    (if named.Some? then [named.value] else []) + [a.slug, Dashed(a.name)]
  }

  function Found(s: Snapshot, a: Agent, list: Fate, gets: Fates, render: Renderer): Option<string> {
    FirstFound(Candidates(s, a, list, render), s.specs, gets, 0)
  }

  /** The resource carries the agent's name. */
  predicate Named(specs: map<string, Json>, n: string, name: string, render: Renderer) {
    n in specs && specs[n].Obj? && render(SpecName(specs[n])) == name
  }

  ghost predicate IsFirstNamed(listing: seq<string>, specs: map<string, Json>, name: string, render: Renderer,
                               found: string)
  {
    exists i :: 0 <= i < |listing| && listing[i] == found && Named(specs, listing[i], name, render)
                && forall j :: 0 <= j < i ==> !Named(specs, listing[j], name, render)
  }

  lemma {:induction false} FirstNamedIs(listing: seq<string>, specs: map<string, Json>, name: string, render: Renderer,
                                        found: string)
    ensures FirstNamed(listing, specs, name, render) == Some(found) <==>
              IsFirstNamed(listing, specs, name, render, found)
  {
    if listing != [] {
      FirstNamedIs(listing[1..], specs, name, render, found);
      if !Named(specs, listing[0], name, render) { IsFirstFurtherOn(listing, specs, name, render, found); }
    }
  }

  lemma IsFirstFurtherOn(listing: seq<string>, specs: map<string, Json>, name: string, render: Renderer, found: string)
    requires listing != [] && !Named(specs, listing[0], name, render)
    ensures IsFirstNamed(listing[1..], specs, name, render, found) <==>
              IsFirstNamed(listing, specs, name, render, found)
  {
    var rest := listing[1..];
    assert forall j :: 0 <= j < |rest| ==> rest[j] == listing[j + 1];
    if IsFirstNamed(rest, specs, name, render, found) {
      var i :| 0 <= i < |rest| && rest[i] == found && Named(specs, rest[i], name, render)
               && forall j :: 0 <= j < i ==> !Named(specs, rest[j], name, render);
      assert forall j :: 0 <= j < i + 1 ==> j == 0 || listing[j] == rest[j - 1];
      assert listing[i + 1] == found;
    }
    if IsFirstNamed(listing, specs, name, render, found) {
      var i :| 0 <= i < |listing| && listing[i] == found && Named(specs, listing[i], name, render)
               && forall j :: 0 <= j < i ==> !Named(specs, listing[j], name, render);
      assert i > 0 && rest[i - 1] == found;
    }
  }

  lemma NamedExactlyWhen(specs: map<string, Json>, n: string, name: string, render: Renderer)
    ensures Named(specs, n, name, render) <==>
              n in specs && specs[n].Obj?
              && (if "name" in specs[n].fields then render(specs[n].fields["name"]) else render(Null)) == name
  {
  }

  method FindByName(s: Snapshot, name: string, render: Renderer) returns (named: Option<string>)
    ensures named == FirstNamed(s.listing, s.specs, name, render)
  {
    var n := 0;
    while n < |s.listing|
      invariant 0 <= n <= |s.listing|
      invariant FirstNamed(s.listing, s.specs, name, render) == FirstNamed(s.listing[n..], s.specs, name, render)
    {
      if Named(s.specs, s.listing[n], name, render) { return Some(s.listing[n]); }
      n := n + 1;
    }
    named := None;
  }

  method FindFirst(candidates: seq<string>, s: Snapshot, gets: Fates) returns (crd: Option<string>)
    ensures crd == FirstFound(candidates, s.specs, gets, 0)
  {
    var i, calls := 0, 0;
    while i < |candidates|
      invariant 0 <= i <= |candidates| && calls >= 0
      invariant FirstFound(candidates, s.specs, gets, 0) == FirstFound(candidates[i..], s.specs, gets, calls)
    {
      if candidates[i] != "" {
        if Answered(FateAt(gets, calls)) && candidates[i] in s.specs { return Some(candidates[i]); }
        calls := calls + 1;
      }
      i := i + 1;
    }
    crd := None;
  }

  method FindCRD(s: Snapshot, a: Agent, list: Fate, gets: Fates, render: Renderer) returns (crd: Option<string>)
    ensures crd == Found(s, a, list, gets, render)
  {
    var candidates := [];
    if Answered(list) {
      var named := FindByName(s, a.name, render);
      if named.Some? { candidates := [named.value]; }
    }
    candidates := candidates + [a.slug, Dashed(a.name)];
    crd := FindFirst(candidates, s, gets);
  }

  // ---------------------------------------------------------------- many agents at once

  /** The last listed resource whose spec.name is this very string: later entries overwrite. */
  function LastNamed(listing: seq<string>, specs: map<string, Json>, name: string): Option<string> {
    if listing == [] then None
    else
      var last := listing[|listing| - 1];
      if last in specs && SpecName(specs[last]) == Str(name) then Some(last)
      else LastNamed(listing[..|listing| - 1], specs, name)
  }

  /** The index by spec.name: later entries overwrite earlier ones. */
  function SpecIndex(listing: seq<string>, specs: map<string, Json>): map<string, string> {
    if listing == [] then map[]
    else
      var last, earlier := listing[|listing| - 1], SpecIndex(listing[..|listing| - 1], specs);
      if last in specs && SpecName(specs[last]).Str? then earlier[SpecName(specs[last]).s := last] else earlier
  }

  lemma {:induction false} IndexHoldsTheLast(listing: seq<string>, specs: map<string, Json>, name: string)
    ensures (if name in SpecIndex(listing, specs) then Some(SpecIndex(listing, specs)[name]) else None) ==
              LastNamed(listing, specs, name)
  {
    if listing != [] { IndexHoldsTheLast(listing[..|listing| - 1], specs, name); }
  }

  /** The last resource of the listing whose spec.name is this very string. */
  ghost predicate IsLastNamed(listing: seq<string>, specs: map<string, Json>, name: string, found: string) {
    exists i :: 0 <= i < |listing| && listing[i] == found && Says(specs, listing[i], name)
                && forall j :: i < j < |listing| ==> !Says(specs, listing[j], name)
  }

  ghost predicate Says(specs: map<string, Json>, n: string, name: string) {
    n in specs && specs[n].Obj? && "name" in specs[n].fields && specs[n].fields["name"] == Str(name)
  }

  lemma {:induction false} LastNamedIs(listing: seq<string>, specs: map<string, Json>, name: string, found: string)
    ensures LastNamed(listing, specs, name) == Some(found) <==> IsLastNamed(listing, specs, name, found)
  {
    if listing != [] {
      var last := |listing| - 1;
      LastNamedIs(listing[..last], specs, name, found);
      if !Says(specs, listing[last], name) { IsLastBefore(listing, specs, name, found); }
    }
  }

  lemma IsLastBefore(listing: seq<string>, specs: map<string, Json>, name: string, found: string)
    requires listing != [] && !Says(specs, listing[|listing| - 1], name)
    ensures IsLastNamed(listing[..|listing| - 1], specs, name, found) <==> IsLastNamed(listing, specs, name, found)
  {
    var rest := listing[..|listing| - 1];
    if IsLastNamed(rest, specs, name, found) {
      var i :| 0 <= i < |rest| && rest[i] == found && Says(specs, rest[i], name)
               && forall j :: i < j < |rest| ==> !Says(specs, rest[j], name);
      assert forall j :: i < j < |listing| - 1 ==> listing[j] == rest[j];
      assert listing[i] == found;
    }
    if IsLastNamed(listing, specs, name, found) {
      var i :| 0 <= i < |listing| && listing[i] == found && Says(specs, listing[i], name)
               && forall j :: i < j < |listing| ==> !Says(specs, listing[j], name);
      assert rest[i] == found;
    }
  }

  lemma IndexOneMore(s: Snapshot, i: nat)
    requires Complete(s) && i < |s.listing|
    ensures var item, earlier := s.listing[i], SpecIndex(s.listing[..i], s.specs);
            && item in s.specs && s.listing[..i + 1] == s.listing[..i] + [item]
            && var name := SpecName(s.specs[item]);
               SpecIndex(s.listing[..i + 1], s.specs) == if name.Str? then earlier[name.s := item] else earlier
  {
    assert s.listing[..i + 1][..i] == s.listing[..i];
  }

  function Indexed(s: Snapshot, a: Agent): Option<string> {
    if a.slug in s.specs then Some(a.slug)
    else if Dashed(a.name) in s.specs then Some(Dashed(a.name))
    else LastNamed(s.listing, s.specs, a.name)
  }

  /** What enrichFromCRD writes over an agent. */
  function Enriched(a: Agent, spec: Json, render: Renderer): Agent {
    if !spec.Obj? then a
    else
      var f := spec.fields;
      a.(channel := FieldText(f, "channel", render), strategy := FieldText(f, "strategy", render),
         modelType := FieldText(f, "modelType", render), modelId := FieldText(f, "modelId", render),
         systemPrompt := FieldText(f, "systemPrompt", render), storage := FieldText(f, "storage", render),
         image := FieldText(f, "image", render),
         replicas := if "replicas" in f && f["replicas"].Int? then Int32(f["replicas"].i) else a.replicas,
         tools := Overlay(FieldList(f, "tools", render), a.tools),
         knowledgeBases := Overlay(FieldList(f, "knowledgeBases", render), a.knowledgeBases),
         skills := Overlay(FieldList(f, "skills", render), a.skills))
  }

  function Overlay<T>(over: Option<T>, under: Option<T>): Option<T> {
    if over.Some? then over else under
  }

  method EnrichFromCRD(agent: Agent, spec: Json, render: Renderer) returns (a: Agent)
    ensures a == Enriched(agent, spec, render)
  {
    a := agent;
    if !spec.Obj? { return; }
    var f := spec.fields;
    a := a.(channel := FieldText(f, "channel", render));
    a := a.(strategy := FieldText(f, "strategy", render));
    a := a.(modelType := FieldText(f, "modelType", render));
    a := a.(modelId := FieldText(f, "modelId", render));
    a := a.(systemPrompt := FieldText(f, "systemPrompt", render));
    a := a.(storage := FieldText(f, "storage", render));
    a := a.(image := FieldText(f, "image", render));
    if "replicas" in f && f["replicas"].Int? { a := a.(replicas := Int32(f["replicas"].i)); }
    if "tools" in f && f["tools"].Arr? { a := a.(tools := FieldList(f, "tools", render)); }
    if "knowledgeBases" in f && f["knowledgeBases"].Arr? {
      a := a.(knowledgeBases := FieldList(f, "knowledgeBases", render));
    }
    if "skills" in f && f["skills"].Arr? { a := a.(skills := FieldList(f, "skills", render)); }
  }

  function EnrichedBy(s: Snapshot, a: Agent, crd: Option<string>, render: Renderer): Agent {
    if crd.Some? && crd.value in s.specs then Enriched(a, s.specs[crd.value], render) else a
  }

  function IndexEnriched(s: Snapshot, a: Agent, render: Renderer): Agent { EnrichedBy(s, a, Indexed(s, a), render) }

  function AllEnriched(s: Snapshot, agents: seq<Agent>, render: Renderer): (r: seq<Agent>)
    ensures |r| == |agents|
  {
    if agents == [] then []
    else AllEnriched(s, agents[..|agents| - 1], render) + [IndexEnriched(s, agents[|agents| - 1], render)]
  }

  lemma {:induction false} EnrichedAt(s: Snapshot, agents: seq<Agent>, i: nat, render: Renderer)
    requires i < |agents|
    ensures AllEnriched(s, agents, render)[i] == IndexEnriched(s, agents[i], render)
  {
    if i < |agents| - 1 { EnrichedAt(s, agents[..|agents| - 1], i, render); }
  }

  class K8sReader {
    const render: Renderer

    constructor (render: Renderer)
      ensures this.render == render
    {
      this.render := render;
    }

    method BuildIndex(s: Snapshot) returns (byName: map<string, string>, bySpecName: map<string, string>)
      requires Complete(s)
      ensures byName == map n | n in s.specs :: n
      ensures bySpecName == SpecIndex(s.listing, s.specs)
    {
      byName, bySpecName := map[], map[];
      for i := 0 to |s.listing|
        invariant forall n :: n in byName <==> n in s.listing[..i]
        invariant forall n :: n in byName ==> byName[n] == n
        invariant bySpecName == SpecIndex(s.listing[..i], s.specs)
      {
        var item := s.listing[i];
        IndexOneMore(s, i);
        byName := byName[item := item];
        var name := SpecName(s.specs[item]);
        if name.Str? { bySpecName := bySpecName[name.s := item]; }
      }
      assert s.listing[..|s.listing|] == s.listing;
    }

    method Match(s: Snapshot, a: Agent, byName: map<string, string>, bySpecName: map<string, string>)
        returns (crd: Option<string>)
      requires byName == (map n | n in s.specs :: n) && bySpecName == SpecIndex(s.listing, s.specs)
      ensures crd == Indexed(s, a)
    {
      IndexHoldsTheLast(s.listing, s.specs, a.name);
      crd := None;
      if a.slug in byName { crd := Some(byName[a.slug]); }
      else if Dashed(a.name) in byName { crd := Some(byName[Dashed(a.name)]); }
      else if a.name in bySpecName { crd := Some(bySpecName[a.name]); }
    }

    method EnrichOne(s: Snapshot, a: Agent, byName: map<string, string>, bySpecName: map<string, string>)
        returns (r: Agent)
      requires byName == (map n | n in s.specs :: n) && bySpecName == SpecIndex(s.listing, s.specs)
      ensures r == IndexEnriched(s, a, render)
    {
      r := a;
      var crd := Match(s, a, byName, bySpecName);
      if crd.Some? && crd.value in s.specs { r := EnrichFromCRD(a, s.specs[crd.value], render); }
    }

    method EnrichSlot(agents: array<Agent>, i: nat, s: Snapshot, byName: map<string, string>,
                      bySpecName: map<string, string>)
      requires byName == (map n | n in s.specs :: n) && bySpecName == SpecIndex(s.listing, s.specs)
      requires i < agents.Length
      modifies agents
      ensures agents[i] == IndexEnriched(s, old(agents[i]), render)
      ensures forall j :: 0 <= j < agents.Length && j != i ==> agents[j] == old(agents[j])
    {
      agents[i] := EnrichOne(s, agents[i], byName, bySpecName);
    }

    method EnrichEach(agents: array<Agent>, s: Snapshot, byName: map<string, string>, bySpecName: map<string, string>)
      requires byName == (map n | n in s.specs :: n) && bySpecName == SpecIndex(s.listing, s.specs)
      modifies agents
      ensures forall j :: 0 <= j < agents.Length ==> agents[j] == IndexEnriched(s, old(agents[j]), render)
    {
      for i := 0 to agents.Length
        invariant forall j :: 0 <= j < i ==> agents[j] == IndexEnriched(s, old(agents[j]), render)
        invariant forall j :: i <= j < agents.Length ==> agents[j] == old(agents[j])
      {
        EnrichSlot(agents, i, s, byName, bySpecName);
      }
    }

    /** One listing serves every agent; agents without a resource are left alone. */
    method EnrichAll(agents: array<Agent>, s: Snapshot, list: Fate)
      requires Complete(s)
      modifies agents
      ensures agents[..] == if Answered(list) then AllEnriched(s, old(agents[..]), render) else old(agents[..])
    {
      if agents.Length == 0 || !Answered(list) { return; }
      ghost var before := agents[..];
      var byName, bySpecName := BuildIndex(s);
      EnrichEach(agents, s, byName, bySpecName);
      forall i | 0 <= i < agents.Length ensures agents[..][i] == AllEnriched(s, before, render)[i] {
        EnrichedAt(s, before, i, render);
      }
    }
  }

  // ---------------------------------------------------------------- when the two agree

  /** Every way a resource can answer to an agent. */
  ghost predicate Answers(s: Snapshot, a: Agent, n: string) {
    n in s.specs && (n == a.slug || n == Dashed(a.name) || SpecName(s.specs[n]) == Str(a.name))
  }

  ghost predicate NamesAreStrings(s: Snapshot) {
    forall n :: n in s.specs && s.specs[n].Obj? ==> SpecName(s.specs[n]).Str?
  }

  lemma {:induction false} FirstNamedAnswers(listing: seq<string>, s: Snapshot, a: Agent, render: Renderer)
    requires NamesAreStrings(s)
    ensures var n := FirstNamed(listing, s.specs, a.name, render);
            if n.Some? then n.value in s.specs && SpecName(s.specs[n.value]) == Str(a.name)
            else forall m :: m in listing && m in s.specs ==> SpecName(s.specs[m]) != Str(a.name)
  {
    if listing != [] { FirstNamedAnswers(listing[1..], s, a, render); }
  }

  lemma {:induction false} LastNamedAnswers(listing: seq<string>, s: Snapshot, name: string)
    ensures var n := LastNamed(listing, s.specs, name);
            if n.Some? then n.value in s.specs && SpecName(s.specs[n.value]) == Str(name)
            else forall m :: m in listing && m in s.specs ==> SpecName(s.specs[m]) != Str(name)
  {
    if listing != [] { LastNamedAnswers(listing[..|listing| - 1], s, name); }
  }

  lemma FoundWithoutFaults(s: Snapshot, a: Agent, render: Renderer)
    requires "" !in s.specs
    ensures var named := FirstNamed(s.listing, s.specs, a.name, render);
            Found(s, a, Acknowledged, SMOOTH, render) ==
              if named.Some? && named.value in s.specs then named
              else if a.slug in s.specs then Some(a.slug)
              else if Dashed(a.name) in s.specs then Some(Dashed(a.name))
              else None
  {
    var named := FirstNamed(s.listing, s.specs, a.name, render);
    var slug, dashed := a.slug, Dashed(a.name);
    LastCandidates([slug, dashed], s, slug, dashed, 0);
    LastCandidates([slug, dashed], s, slug, dashed, 1);
    if named.Some? {
      var candidates := [named.value] + [slug, dashed];
      assert Candidates(s, a, Acknowledged, render) == candidates;
      assert candidates[1..] == [slug, dashed];
    } else {
      assert Candidates(s, a, Acknowledged, render) == [slug, dashed];
    }
  }

  lemma LastCandidates(candidates: seq<string>, s: Snapshot, slug: string, dashed: string, i: nat)
    requires candidates == [slug, dashed] && "" !in s.specs
    ensures FirstFound(candidates, s.specs, SMOOTH, i) ==
              if slug in s.specs then Some(slug) else if dashed in s.specs then Some(dashed) else None
  {
    assert candidates[1..] == [dashed] && [dashed][1..] == [];
    forall j: nat ensures FirstFound([dashed], s.specs, SMOOTH, j) == if dashed in s.specs then Some(dashed) else None {
      assert FirstFound([], s.specs, SMOOTH, j) == None && FirstFound([], s.specs, SMOOTH, j + 1) == None;
    }
  }

  /** The name search prefers spec.name where the index prefers the slug, so they agree exactly
      when nothing else carries the agent's name, or the same resource comes first for both. */
  lemma LookupsAgreeExactlyWhen(s: Snapshot, a: Agent, render: Renderer)
    requires Complete(s) && NamesAreStrings(s) && "" !in s.specs
    ensures var named := FirstNamed(s.listing, s.specs, a.name, render);
            Found(s, a, Acknowledged, SMOOTH, render) == Indexed(s, a) <==>
              || named.None?
              || (a.slug in s.specs && named.value == a.slug)
              || (a.slug !in s.specs && Dashed(a.name) in s.specs && named.value == Dashed(a.name))
              || (a.slug !in s.specs && Dashed(a.name) !in s.specs && named == LastNamed(s.listing, s.specs, a.name))
  {
    FoundWithoutFaults(s, a, render);
    FirstNamedAnswers(s.listing, s, a, render);
    LastNamedAnswers(s.listing, s, a.name);
  }

  /** Where at most one resource answers to the agent, by slug, by dashed name or by spec.name,
      the index finds what the name search finds. */
  lemma OneMatchMeansAgreement(s: Snapshot, a: Agent, render: Renderer)
    requires Complete(s) && NamesAreStrings(s) && "" !in s.specs
    requires forall m, n :: Answers(s, a, m) && Answers(s, a, n) ==> m == n
    ensures Found(s, a, Acknowledged, SMOOTH, render) == Indexed(s, a)
  {
    LookupsAgreeExactlyWhen(s, a, render);
    FirstNamedAnswers(s.listing, s, a, render);
    LastNamedAnswers(s.listing, s, a.name);
    var named := FirstNamed(s.listing, s.specs, a.name, render);
    if named.Some? {
      assert Answers(s, a, named.value);
      assert a.slug in s.specs ==> Answers(s, a, a.slug);
      assert Dashed(a.name) in s.specs ==> Answers(s, a, Dashed(a.name));
      var last := LastNamed(s.listing, s.specs, a.name);
      assert last.Some? ==> Answers(s, a, last.value);
    }
  }

  /** Another resource that borrows the agent's name as its spec.name captures the name search. */
  lemma BorrowedNamesDisagree(a: Agent, other: string, spec: map<string, Json>, render: Renderer)
    requires a.slug !in {"", other} && other != ""
    ensures var s := Snapshot(map[a.slug := Obj(spec), other := Obj(map["name" := Str(a.name)])], [other, a.slug]);
            Found(s, a, Acknowledged, SMOOTH, render) == Some(other) && Indexed(s, a) == Some(a.slug)
  {
  }
}
