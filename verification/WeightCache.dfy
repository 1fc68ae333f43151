/** The time-to-live cache of canary weights in front of the cluster, with any
    number of concurrent callers.

    `ProxyHandler` holds the guarded map and its two critical sections; `Next`
    interleaves them with the passing of time and with resolver calls. Times are
    nanoseconds on one monotonic clock. */
module WeightCache {

  const CANARY_WEIGHT_CACHE_TTL: nat := 10_000_000_000

  import opened Options

  datatype CachedWeight = CachedWeight(weight: int, expiresAt: nat)

  function CacheKey(namespace: string, slug: string): string {
    namespace + "/" + slug
  }

  function LiveWeight(cache: map<string, CachedWeight>, key: string, now: nat): Option<int> {
    if key in cache && now < cache[key].expiresAt then Some(cache[key].weight) else None
  }

  datatype Outcome = Outcome(weight: int, cache: map<string, CachedWeight>)

  /** What a call returns, and the cache it leaves. A new answer replaces what the other callers have left
      under its key. */
  function Called(cache: map<string, CachedWeight>, namespace: string, slug: string, checkedAt: nat,
                  resolved: int, meanwhile: map<string, CachedWeight>, storedAt: nat): Outcome {
    match LiveWeight(cache, CacheKey(namespace, slug), checkedAt)
    case Some(w) => Outcome(w, cache)
    case None =>
      var entry := CachedWeight(resolved, storedAt + CANARY_WEIGHT_CACHE_TTL);
      Outcome(resolved, meanwhile[CacheKey(namespace, slug) := entry])
  }

  class ProxyHandler {
    var cache: map<string, CachedWeight>
    const hasResolver: bool

    constructor (hasResolver: bool)
      ensures cache == map[] && this.hasResolver == hasResolver
    {
      cache := map[];
      this.hasResolver := hasResolver;
    }

    /** The read-locked section. */
    method Lookup(key: string, now: nat) returns (weight: Option<int>)
      ensures weight == LiveWeight(cache, key, now)
    {
      weight := None;
      if key in cache {
        var c := cache[key];
        if now < c.expiresAt { weight := Some(c.weight); }
      }
    }

    /** The write-locked section: overwrites whatever is there, fresher or not. */
    method Store(key: string, weight: int, now: nat)
      modifies this
      ensures cache == old(cache)[key := CachedWeight(weight, now + CANARY_WEIGHT_CACHE_TTL)]
    {
      cache := cache[key := CachedWeight(weight, now + CANARY_WEIGHT_CACHE_TTL)];
    }

    /** The whole call; `resolved` is what the resolver answers, `meanwhile` the cache as other callers leave it
        while the resolver runs. A new answer is served for ten seconds from its storing, and no longer. */
    method ResolveCanaryWeight(namespace: string, slug: string, checkedAt: nat,
                               resolved: int, meanwhile: map<string, CachedWeight>, storedAt: nat)
        returns (weight: int)
      modifies this
      ensures !hasResolver ==> weight == 0 && cache == old(cache)
      ensures hasResolver ==>
                Outcome(weight, cache) ==
                  Called(old(cache), namespace, slug, checkedAt, resolved, meanwhile, storedAt)
      ensures hasResolver && LiveWeight(old(cache), namespace + "/" + slug, checkedAt).None? ==>
                forall t: nat :: LiveWeight(cache, namespace + "/" + slug, t) ==
                                   (if t < storedAt + 10_000_000_000 then Some(resolved) else None)
    {
      if !hasResolver { return 0; }
      var key := namespace + "/" + slug;
      var hit := Lookup(key, checkedAt);
      if hit.Some? { return hit.value; }
      cache := meanwhile;
      weight := resolved;
      Store(key, weight, storedAt);
    }
  }

  // ---------------------------------------------------------------- interleavings

  /** What the resolver would answer at each instant. */
  type Weights = (nat, string, string) -> int

  /** One consultation of the cluster: which agent, and when. */
  datatype Reading = Reading(namespace: string, slug: string, at: nat)

  datatype Caller =
    | Resolving(namespace: string, slug: string, since: nat)                   // missed; resolver call issued
    | Resolved(namespace: string, slug: string, since: nat, weight: int, at: nat)  // answer in hand, not yet stored
    | Returned(namespace: string, slug: string, weight: int, at: nat, reading: Reading)

  /** `readings` is history: the consultation each entry's weight came from. */
  datatype StateRecord = State(
    now: nat,
    cache: map<string, CachedWeight>,
    readings: map<string, Reading>,
    callers: map<nat, Caller>)

  type State = s: StateRecord | s.cache.Keys == s.readings.Keys witness State(0, map[], map[], map[])

  datatype Action =
    | Tick(nanoseconds: nat)
    | Check(caller: nat, namespace: string, slug: string)
    | Consult(caller: nat)     // the instant inside the resolver call at which the cluster is read
    | Finish(caller: nat)      // the write-locked section, and the return

  ghost const START: State := State(0, map[], map[], map[])

  /** A resolver call takes at most `d`, from its issue to the storing of its answer. */
  ghost predicate Enabled(s: State, a: Action, d: nat) {
    match a
    case Tick(_) => true
    case Check(c, _, _) => c in s.callers ==> s.callers[c].Returned?
    case Consult(c) => c in s.callers && s.callers[c].Resolving?
    case Finish(c) => c in s.callers && s.callers[c].Resolved? && s.now <= s.callers[c].since + d
  }

  ghost function Next(s: State, a: Action, weights: Weights, d: nat): State {
    if !Enabled(s, a, d) then s else
    match a
    case Tick(dt) => s.(now := s.now + dt)
    case Check(c, namespace, slug) =>
      var key := CacheKey(namespace, slug);
      (match LiveWeight(s.cache, key, s.now)
       case Some(w) => s.(callers := s.callers[c := Returned(namespace, slug, w, s.now, s.readings[key])])
       case None => s.(callers := s.callers[c := Resolving(namespace, slug, s.now)]))
    case Consult(c) =>
      var Resolving(namespace, slug, since) := s.callers[c];
      s.(callers := s.callers[c := Resolved(namespace, slug, since, weights(s.now, namespace, slug), s.now)])
    case Finish(c) =>
      var Resolved(namespace, slug, since, weight, at) := s.callers[c];
      var key, reading := CacheKey(namespace, slug), Reading(namespace, slug, at);
      s.(cache := s.cache[key := CachedWeight(weight, s.now + CANARY_WEIGHT_CACHE_TTL)],
         readings := s.readings[key := reading],
         callers := s.callers[c := Returned(namespace, slug, weight, s.now, reading)])
  }

  /** The state after a sequence of actions; one that is not enabled does nothing. */
  ghost function Run(s: State, actions: seq<Action>, weights: Weights, d: nat): State {
    if actions == [] then s
    else Next(Run(s, actions[..|actions| - 1], weights, d), actions[|actions| - 1], weights, d)
  }

  ghost function After(actions: seq<Action>, weights: Weights, d: nat): State { Run(START, actions, weights, d) }

  lemma {:induction false} RunOn(s: State, earlier: seq<Action>, later: seq<Action>, weights: Weights, d: nat)
    ensures Run(s, earlier + later, weights, d) == Run(Run(s, earlier, weights, d), later, weights, d)
  {
    if later == [] {
      assert earlier + later == earlier;
    } else {
      RunOn(s, earlier, later[..|later| - 1], weights, d);
      assert (earlier + later)[..|earlier + later| - 1] == earlier + later[..|later| - 1];
    }
  }

  // ---------------------------------------------------------------- the bound, key by key

  /** `weight` is what the resolver said at the reading, for an agent with this key. */
  ghost predicate Genuine(reading: Reading, key: string, weight: int, weights: Weights) {
    && CacheKey(reading.namespace, reading.slug) == key
    && weight == weights(reading.at, reading.namespace, reading.slug)
  }

  ghost predicate Sound(s: State, weights: Weights, d: nat) {
    && s.cache.Keys == s.readings.Keys
    && (forall k :: k in s.cache ==>
          && Genuine(s.readings[k], k, s.cache[k].weight, weights)
          && s.readings[k].at <= s.now
          && s.cache[k].expiresAt <= s.readings[k].at + d + CANARY_WEIGHT_CACHE_TTL)
    && (forall c :: c in s.callers ==> CallerIsSound(s.callers[c], s.now, weights, d))
  }

  ghost predicate CallerIsSound(caller: Caller, now: nat, weights: Weights, d: nat) {
    match caller
    case Resolving(_, _, since) => since <= now
    case Resolved(namespace, slug, since, weight, at) =>
      since <= at <= now && weight == weights(at, namespace, slug)
    case Returned(namespace, slug, weight, at, reading) =>
      && Genuine(reading, CacheKey(namespace, slug), weight, weights)
      && reading.at <= at <= now
      && at < reading.at + d + CANARY_WEIGHT_CACHE_TTL
  }

  lemma TickKeepsSound(s: State, dt: nat, weights: Weights, d: nat)
    requires Sound(s, weights, d)
    ensures Sound(s.(now := s.now + dt), weights, d)
  {
  }

  lemma CheckKeepsSound(s: State, a: Action, weights: Weights, d: nat)
    requires Sound(s, weights, d) && a.Check? && Enabled(s, a, d)
    ensures Sound(Next(s, a, weights, d), weights, d)
  {
  }

  lemma FinishKeepsSound(s: State, a: Action, weights: Weights, d: nat)
    requires Sound(s, weights, d) && a.Finish? && Enabled(s, a, d)
    ensures Sound(Next(s, a, weights, d), weights, d)
  {
  }

  lemma StepKeepsSound(s: State, a: Action, weights: Weights, d: nat)
    requires Sound(s, weights, d)
    ensures Sound(Next(s, a, weights, d), weights, d)
  {
    if !Enabled(s, a, d) { return; }
    match a
    case Tick(dt) => TickKeepsSound(s, dt, weights, d);
    case Check(_, _, _) => CheckKeepsSound(s, a, weights, d);
    case Consult(c) => assert CallerIsSound(s.callers[c], s.now, weights, d);
    case Finish(_) => FinishKeepsSound(s, a, weights, d);
  }

  lemma {:induction false} EveryStateIsSound(actions: seq<Action>, weights: Weights, d: nat)
    ensures Sound(After(actions, weights, d), weights, d)
  {
    if actions != [] {
      EveryStateIsSound(actions[..|actions| - 1], weights, d);
      StepKeepsSound(After(actions[..|actions| - 1], weights, d), actions[|actions| - 1], weights, d);
    }
  }

  // ---------------------------------------------------------------- keys

  /** The inner namespace is the outer one, a slash and more. */
  ghost predicate NestedIn(outer: string, inner: string) { outer + "/" <= inner }

  /** The outer agent's slug makes up for what its namespace lacks: it holds the slash. */
  ghost predicate Straddles(outer: string, outerSlug: string, inner: string, innerSlug: string) {
    NestedIn(outer, inner) && outerSlug == inner[|outer| + 1..] + "/" + innerSlug
  }

  /** Two different agents share an entry exactly when one namespace is nested in the other and
      the outer agent's slug spells out the difference. */
  lemma KeysCollideExactlyWhen(n1: string, s1: string, n2: string, s2: string)
    ensures CacheKey(n1, s1) == CacheKey(n2, s2) <==>
              (n1 == n2 && s1 == s2) || Straddles(n1, s1, n2, s2) || Straddles(n2, s2, n1, s1)
  {
    LongerNamespace(n1, s1, n2, s2);
    LongerNamespace(n2, s2, n1, s1);
    var k1, k2 := CacheKey(n1, s1), CacheKey(n2, s2);
    if |n1| == |n2| && k1 == k2 {
      assert k1[..|n1|] == n1 && k2[..|n2|] == n2 && k1[|n1| + 1..] == s1 && k2[|n2| + 1..] == s2;
    }
  }

  lemma LongerNamespace(n1: string, s1: string, n2: string, s2: string)
    ensures |n1| < |n2| ==> (CacheKey(n1, s1) == CacheKey(n2, s2) <==> Straddles(n1, s1, n2, s2))
  {
    if |n1| < |n2| {
      var k1, k2 := CacheKey(n1, s1), CacheKey(n2, s2);
      assert k1[..|n1| + 1] == n1 + "/" && k1[|n1| + 1..] == s1;
      assert k2[..|n1| + 1] == n2[..|n1| + 1] && k2[|n1| + 1..] == n2[|n1| + 1..] + "/" + s2;
      assert k1 == k1[..|n1| + 1] + k1[|n1| + 1..] && k2 == k2[..|n1| + 1] + k2[|n1| + 1..];
    }
  }

  // ---------------------------------------------------------------- main results

  /** The agents a run asks about. */
  ghost function Agents(actions: seq<Action>): set<(string, string)> {
    set j | 0 <= j < |actions| && actions[j].Check? :: (actions[j].namespace, actions[j].slug)
  }

  ghost predicate SlashFree(actions: seq<Action>) {
    forall j :: 0 <= j < |actions| && actions[j].Check? ==> '/' !in actions[j].slug
  }

  ghost predicate NoSharedKeys(agents: set<(string, string)>) {
    forall a, b :: a in agents && b in agents && CacheKey(a.0, a.1) == CacheKey(b.0, b.1) ==> a == b
  }

  /** `r` is the resolver's own value for that very agent at some instant less than ten seconds and one
      resolver call back. */
  ghost predicate IsRecent(r: Caller, weights: Weights, d: nat)
    requires r.Returned?
  {
    exists at: nat ::
      && at <= r.at < at + 10_000_000_000 + d
      && r.weight == weights(at, r.namespace, r.slug)
  }

  /** Slugs come from one segment of the request path, so they hold no slash: every weight
      returned is recent, whatever the namespaces and however the callers interleave. */
  lemma StalenessBound(actions: seq<Action>, weights: Weights, d: nat, c: nat)
    requires SlashFree(actions)
    requires c in After(actions, weights, d).callers && After(actions, weights, d).callers[c].Returned?
    ensures IsRecent(After(actions, weights, d).callers[c], weights, d)
  {
    forall a, b | a in Agents(actions) && b in Agents(actions) && CacheKey(a.0, a.1) == CacheKey(b.0, b.1)
      ensures a == b
    {
      KeysCollideExactlyWhen(a.0, a.1, b.0, b.1);
      StraddlingSlugsHoldASlash(a.0, a.1, b.0, b.1);
      StraddlingSlugsHoldASlash(b.0, b.1, a.0, a.1);
    }
    DistinctKeysBound(actions, weights, d, c);
  }

  lemma StraddlingSlugsHoldASlash(outer: string, outerSlug: string, inner: string, innerSlug: string)
    ensures Straddles(outer, outerSlug, inner, innerSlug) ==> '/' in outerSlug
  {
    if Straddles(outer, outerSlug, inner, innerSlug) {
      assert outerSlug[|inner| - |outer| - 1] == '/';
    }
  }

  // ---------------------------------------------------------------- a call among the others

  /** Nothing caller c does. */
  ghost predicate Elsewhere(actions: seq<Action>, c: nat) {
    forall a :: a in actions ==> a.Tick? || a.caller != c
  }

  lemma {:induction false} OthersLeaveIt(s: State, actions: seq<Action>, c: nat, weights: Weights, d: nat)
    requires c in s.callers && Elsewhere(actions, c)
    ensures var after := Run(s, actions, weights, d); c in after.callers && after.callers[c] == s.callers[c]
  {
    if actions != [] {
      assert forall a :: a in actions[..|actions| - 1] ==> a in actions;
      OthersLeaveIt(s, actions[..|actions| - 1], c, weights, d);
      assert actions[|actions| - 1] in actions;
    }
  }

  /** The steps of one call: what others do `early`, before the cluster is read, and `late`, before the
      answer is stored. */
  ghost function Steps(c: nat, namespace: string, slug: string, early: seq<Action>, late: seq<Action>):
      seq<Action> {
    [Check(c, namespace, slug)] + early + [Consult(c)] + late + [Finish(c)]
  }

  lemma MissIsARun(s: State, c: nat, namespace: string, slug: string, early: seq<Action>, late: seq<Action>,
                   weights: Weights, d: nat)
    requires c in s.callers ==> s.callers[c].Returned?
    requires Elsewhere(early, c) && Elsewhere(late, c)
    requires LiveWeight(s.cache, CacheKey(namespace, slug), s.now).None?
    ensures var read := Run(Next(s, Check(c, namespace, slug), weights, d), early, weights, d);
            var stored := Run(Next(read, Consult(c), weights, d), late, weights, d);
            && c in stored.callers
            && stored.callers[c] ==
                 Resolved(namespace, slug, s.now, weights(read.now, namespace, slug), read.now)
  {
    var asked := Next(s, Check(c, namespace, slug), weights, d);
    OthersLeaveIt(asked, early, c, weights, d);
    OthersLeaveIt(Next(Run(asked, early, weights, d), Consult(c), weights, d), late, c, weights, d);
  }

  lemma RunSteps(s: State, c: nat, namespace: string, slug: string, early: seq<Action>, late: seq<Action>,
                 weights: Weights, d: nat)
    ensures var read := Run(Next(s, Check(c, namespace, slug), weights, d), early, weights, d);
            var stored := Run(Next(read, Consult(c), weights, d), late, weights, d);
            Run(s, Steps(c, namespace, slug, early, late), weights, d) == Next(stored, Finish(c), weights, d)
  {
    var check := [Check(c, namespace, slug)];
    OneStep(s, check[0], weights, d);
    RunOn(s, check, early, weights, d);
    var read := Run(s, check + early, weights, d);
    RunOn(s, check + early, [Consult(c)], weights, d);
    OneStep(read, Consult(c), weights, d);
    RunOn(s, check + early + [Consult(c)], late, weights, d);
    RunOn(s, check + early + [Consult(c)] + late, [Finish(c)], weights, d);
    OneStep(Run(s, check + early + [Consult(c)] + late, weights, d), Finish(c), weights, d);
  }

  lemma OneStep(s: State, a: Action, weights: Weights, d: nat)
    ensures Run(s, [a], weights, d) == Next(s, a, weights, d)
  {
  }

  /** A whole call does to the cache, and returns, what its steps do among everyone else's: the cluster is read
      at the instant `read`, the answer stored at the instant `stored`. */
  lemma CallIsARun(s: State, c: nat, namespace: string, slug: string, early: seq<Action>, late: seq<Action>,
                   weights: Weights, d: nat)
    requires c in s.callers ==> s.callers[c].Returned?
    requires Elsewhere(early, c) && Elsewhere(late, c)
    ensures var asked := Next(s, Check(c, namespace, slug), weights, d);
            var read := Run(asked, early, weights, d);
            var stored := Run(Next(read, Consult(c), weights, d), late, weights, d);
            var outcome := Called(s.cache, namespace, slug, s.now, weights(read.now, namespace, slug), stored.cache,
                                  stored.now);
            if LiveWeight(s.cache, CacheKey(namespace, slug), s.now).Some? then
              && asked.callers[c].Returned? && asked.callers[c].at == s.now
              && outcome == Outcome(asked.callers[c].weight, asked.cache)
            else
              stored.now <= s.now + d ==>
                var done := Run(s, Steps(c, namespace, slug, early, late), weights, d);
                && c in done.callers && done.callers[c].Returned? && done.callers[c].at == stored.now
                && outcome == Outcome(done.callers[c].weight, done.cache)
  {
    if LiveWeight(s.cache, CacheKey(namespace, slug), s.now).None? {
      MissIsARun(s, c, namespace, slug, early, late, weights, d);
      RunSteps(s, c, namespace, slug, early, late, weights, d);
    }
  }

  lemma SlashFreeTogether(earlier: seq<Action>, later: seq<Action>)
    requires SlashFree(earlier) && SlashFree(later)
    ensures SlashFree(earlier + later)
  {
  }

  /** So what a call returns is recent too: a weight of that very agent, less than ten seconds and one resolver
      call old, whatever everyone else does before and during the call. */
  lemma CallIsRecent(actions: seq<Action>, c: nat, namespace: string, slug: string, early: seq<Action>,
                     late: seq<Action>, weights: Weights, d: nat) returns (at: nat)
    requires '/' !in slug && SlashFree(actions) && SlashFree(early) && SlashFree(late)
    requires Elsewhere(early, c) && Elsewhere(late, c)
    requires c in After(actions, weights, d).callers ==> After(actions, weights, d).callers[c].Returned?
    requires var s := After(actions, weights, d);
             var read := Run(Next(s, Check(c, namespace, slug), weights, d), early, weights, d);
             Run(Next(read, Consult(c), weights, d), late, weights, d).now <= s.now + d
    ensures var s := After(actions, weights, d);
            var read := Run(Next(s, Check(c, namespace, slug), weights, d), early, weights, d);
            var stored := Run(Next(read, Consult(c), weights, d), late, weights, d);
            var outcome := Called(s.cache, namespace, slug, s.now, weights(read.now, namespace, slug), stored.cache,
                                  stored.now);
            var returnedAt :=
              if LiveWeight(s.cache, CacheKey(namespace, slug), s.now).Some? then s.now else stored.now;
            outcome.weight == weights(at, namespace, slug) && at <= returnedAt < at + 10_000_000_000 + d
  {
    var s := After(actions, weights, d);
    CallIsARun(s, c, namespace, slug, early, late, weights, d);
    if LiveWeight(s.cache, CacheKey(namespace, slug), s.now).Some? {
      at := HitIsRecent(actions, c, namespace, slug, weights, d);
    } else {
      at := MissIsRecent(actions, c, namespace, slug, early, late, weights, d);
    }
  }

  lemma HitIsRecent(actions: seq<Action>, c: nat, namespace: string, slug: string, weights: Weights, d: nat)
      returns (at: nat)
    requires '/' !in slug && SlashFree(actions)
    requires var s := After(actions, weights, d); c in s.callers ==> s.callers[c].Returned?
    requires var s := After(actions, weights, d); LiveWeight(s.cache, CacheKey(namespace, slug), s.now).Some?
    ensures var r := Next(After(actions, weights, d), Check(c, namespace, slug), weights, d).callers[c];
            r.Returned? && r.weight == weights(at, namespace, slug) && at <= r.at < at + 10_000_000_000 + d
  {
    var all := actions + [Check(c, namespace, slug)];
    Extend(actions, Check(c, namespace, slug), weights, d);
    SlashFreeTogether(actions, [Check(c, namespace, slug)]);
    StalenessBound(all, weights, d, c);
    var r := After(all, weights, d).callers[c];
    at :| at <= r.at < at + 10_000_000_000 + d && r.weight == weights(at, r.namespace, r.slug);
  }

  lemma StepsAreSlashFree(c: nat, namespace: string, slug: string, early: seq<Action>, late: seq<Action>)
    requires '/' !in slug && SlashFree(early) && SlashFree(late)
    ensures SlashFree(Steps(c, namespace, slug, early, late))
  {
    SlashFreeTogether([Check(c, namespace, slug)], early);
    SlashFreeTogether([Check(c, namespace, slug)] + early, [Consult(c)]);
    SlashFreeTogether([Check(c, namespace, slug)] + early + [Consult(c)], late);
    SlashFreeTogether([Check(c, namespace, slug)] + early + [Consult(c)] + late, [Finish(c)]);
  }

  lemma MissIsRecent(actions: seq<Action>, c: nat, namespace: string, slug: string, early: seq<Action>,
                     late: seq<Action>, weights: Weights, d: nat) returns (at: nat)
    requires '/' !in slug && SlashFree(actions) && SlashFree(early) && SlashFree(late)
    requires Elsewhere(early, c) && Elsewhere(late, c)
    requires var s := After(actions, weights, d); c in s.callers ==> s.callers[c].Returned?
    requires var s := After(actions, weights, d); LiveWeight(s.cache, CacheKey(namespace, slug), s.now).None?
    requires var s := After(actions, weights, d);
             var read := Run(Next(s, Check(c, namespace, slug), weights, d), early, weights, d);
             Run(Next(read, Consult(c), weights, d), late, weights, d).now <= s.now + d
    ensures var done := Run(After(actions, weights, d), Steps(c, namespace, slug, early, late), weights, d);
            && c in done.callers && done.callers[c].Returned?
            && done.callers[c].weight == weights(at, namespace, slug)
            && at <= done.callers[c].at < at + 10_000_000_000 + d
  {
    var s, steps := After(actions, weights, d), Steps(c, namespace, slug, early, late);
    MissIsARun(s, c, namespace, slug, early, late, weights, d);
    RunSteps(s, c, namespace, slug, early, late, weights, d);
    RunOn(START, actions, steps, weights, d);
    StepsAreSlashFree(c, namespace, slug, early, late);
    SlashFreeTogether(actions, steps);
    StalenessBound(actions + steps, weights, d, c);
    var r := After(actions + steps, weights, d).callers[c];
    at :| at <= r.at < at + 10_000_000_000 + d && r.weight == weights(at, r.namespace, r.slug);
  }

  /** For arbitrary slugs the bound needs no more than that the run's agents share no key. */
  lemma DistinctKeysBound(actions: seq<Action>, weights: Weights, d: nat, c: nat)
    requires NoSharedKeys(Agents(actions))
    requires c in After(actions, weights, d).callers && After(actions, weights, d).callers[c].Returned?
    ensures IsRecent(After(actions, weights, d).callers[c], weights, d)
  {
    EveryStateIsSound(actions, weights, d);
    AgentsStayWithin(actions, Agents(actions), weights, d);
    var s := After(actions, weights, d);
    var r := s.callers[c];
    assert CallerIsSound(r, s.now, weights, d);
    assert (r.namespace, r.slug) == (r.reading.namespace, r.reading.slug);
  }

  /** And no less: of two agents that share a key one is handed the other's weight. */
  lemma SharedKeysMixAgents(weights: Weights, d: nat, n1: string, s1: string, n2: string, s2: string)
      returns (actions: seq<Action>)
    requires CacheKey(n1, s1) == CacheKey(n2, s2)
    ensures var s := After(actions, weights, d);
            && 1 in s.callers
            && s.callers[1] == Returned(n2, s2, weights(0, n1, s1), 0, Reading(n1, s1, 0))
  {
    Extend([], Check(0, n1, s1), weights, d);
    actions := [Check(0, n1, s1)];
    Extend(actions, Consult(0), weights, d);
    actions := actions + [Consult(0)];
    Extend(actions, Finish(0), weights, d);
    actions := actions + [Finish(0)];
    Extend(actions, Check(1, n2, s2), weights, d);
    actions := actions + [Check(1, n2, s2)];
  }

  ghost predicate Within(s: State, agents: set<(string, string)>) {
    && (forall c :: c in s.callers ==> (s.callers[c].namespace, s.callers[c].slug) in agents)
    && (forall c :: c in s.callers && s.callers[c].Returned? ==>
          (s.callers[c].reading.namespace, s.callers[c].reading.slug) in agents)
    && (forall k :: k in s.readings ==> (s.readings[k].namespace, s.readings[k].slug) in agents)
  }

  lemma StepStaysWithin(s: State, a: Action, agents: set<(string, string)>, weights: Weights, d: nat)
    requires Within(s, agents) && (a.Check? ==> (a.namespace, a.slug) in agents)
    ensures Within(Next(s, a, weights, d), agents)
  {
  }

  lemma {:induction false} AgentsStayWithin(actions: seq<Action>, agents: set<(string, string)>, weights: Weights,
                                            d: nat)
    requires Agents(actions) <= agents
    ensures Within(After(actions, weights, d), agents)
  {
    if actions != [] {
      var earlier, a := actions[..|actions| - 1], actions[|actions| - 1];
      forall g | g in Agents(earlier) ensures g in Agents(actions) {
        var j :| 0 <= j < |earlier| && earlier[j].Check? && (earlier[j].namespace, earlier[j].slug) == g;
        assert actions[j] == earlier[j];
      }
      AgentsStayWithin(earlier, agents, weights, d);
      assert a.Check? ==> (a.namespace, a.slug) in Agents(actions);
      StepStaysWithin(After(earlier, weights, d), a, agents, weights, d);
    }
  }

  lemma Extend(actions: seq<Action>, a: Action, weights: Weights, d: nat)
    ensures After(actions + [a], weights, d) == Next(After(actions, weights, d), a, weights, d)
  {
  }

  /** The bound cannot be tightened: a call that takes all of d leaves an answer that
      is still served, exactly that old, at the entry's last instant. */
  lemma StalenessIsReached(weights: Weights, namespace: string, slug: string, d: nat) returns (actions: seq<Action>)
    ensures var s := After(actions, weights, d);
            && 1 in s.callers
            && s.callers[1] == Returned(namespace, slug, weights(0, namespace, slug),
                                        d + 9_999_999_999, Reading(namespace, slug, 0))
  {
    var key := CacheKey(namespace, slug);
    Extend([], Check(0, namespace, slug), weights, d);
    actions := [Check(0, namespace, slug)];
    Extend(actions, Consult(0), weights, d);
    actions := actions + [Consult(0)];
    Extend(actions, Tick(d), weights, d);
    actions := actions + [Tick(d)];
    Extend(actions, Finish(0), weights, d);
    actions := actions + [Finish(0)];
    Extend(actions, Tick(9_999_999_999), weights, d);
    actions := actions + [Tick(9_999_999_999)];
    Extend(actions, Check(1, namespace, slug), weights, d);
    actions := actions + [Check(1, namespace, slug)];
  }

  /** Callers 1 and 2 both miss; 1 consults the cluster at once, 2 only at instant d, and 2 is done first. */
  lemma SecondOvertakesFirst(weights: Weights, namespace: string, slug: string, d: nat)
      returns (actions: seq<Action>)
    ensures var s := After(actions, weights, d);
            && s.now == d
            && s.callers.Keys == {1, 2}
            && s.callers[1] == Resolved(namespace, slug, 0, weights(0, namespace, slug), 0)
            && s.callers[2] == Returned(namespace, slug, weights(d, namespace, slug), d, Reading(namespace, slug, d))
  {
    Extend([], Check(1, namespace, slug), weights, d);
    actions := [Check(1, namespace, slug)];
    Extend(actions, Check(2, namespace, slug), weights, d);
    actions := actions + [Check(2, namespace, slug)];
    Extend(actions, Consult(1), weights, d);
    actions := actions + [Consult(1)];
    Extend(actions, Tick(d), weights, d);
    actions := actions + [Tick(d)];
    Extend(actions, Consult(2), weights, d);
    actions := actions + [Consult(2)];
    Extend(actions, Finish(2), weights, d);
    actions := actions + [Finish(2)];
  }

  /** A slow call does overwrite a fresher answer: caller 2 is given the weight of
      instant `d`, and caller 3, checking later, the older one of instant 0. */
  lemma SlowCallOverwritesFresher(weights: Weights, namespace: string, slug: string, d: nat)
      returns (actions: seq<Action>)
    ensures var s := After(actions, weights, d);
            && 2 in s.callers && 3 in s.callers
            && s.callers[2] == Returned(namespace, slug, weights(d, namespace, slug), d, Reading(namespace, slug, d))
            && s.callers[3] == Returned(namespace, slug, weights(0, namespace, slug), d, Reading(namespace, slug, 0))
  {
    actions := SecondOvertakesFirst(weights, namespace, slug, d);
    Extend(actions, Finish(1), weights, d);
    actions := actions + [Finish(1)];
    Extend(actions, Check(3, namespace, slug), weights, d);
    actions := actions + [Check(3, namespace, slug)];
  }
}
