/** The lazily filled gRPC connection cache: a fast read under the read lock, a
    dial outside any lock, then a double-checked insert under the write lock,
    racing with Close.

    `GrpcProxy` holds the guarded field and the three critical sections.
    `Next` interleaves those sections for any number of threads. */
module ConnectionCache {

  /** A dialled connection; each dial yields the next number. */
  type Conn = nat

  import opened Options

  // ---------------------------------------------------------------- the guarded field

  function Cached(conns: map<string, Conn>, slug: string): Option<Conn> {
    if slug in conns then Some(conns[slug]) else None
  }

  function Published(conns: map<string, Conn>, slug: string, mine: Conn): map<string, Conn> {
    if slug in conns then conns else conns[slug := mine]
  }

  /** The connections filed under `slugs`, one entry for each slug. */
  ghost function EntriesOf(conns: map<string, Conn>, slugs: set<string>): multiset<Conn>
    requires slugs <= conns.Keys
  {
    if slugs == {} then multiset{}
    else multiset{conns[SomeSlug(slugs)]} + EntriesOf(conns, slugs - {SomeSlug(slugs)})
  }

  ghost function Entries(conns: map<string, Conn>): multiset<Conn> {
    EntriesOf(conns, conns.Keys)
  }

  ghost function SomeSlug(slugs: set<string>): (slug: string)
    requires slugs != {}
    ensures slug in slugs
  {
    var slug :| slug in slugs;
    slug
  }

  lemma {:induction false} EntriesWithout(conns: map<string, Conn>, slugs: set<string>, slug: string)
    requires slug in slugs && slugs <= conns.Keys
    ensures EntriesOf(conns, slugs) == multiset{conns[slug]} + EntriesOf(conns, slugs - {slug})
  {
    var picked := SomeSlug(slugs);
    if picked != slug {
      EntriesWithout(conns, slugs - {picked}, slug);
      EntriesWithout(conns, slugs - {slug}, picked);
      assert slugs - {picked} - {slug} == slugs - {slug} - {picked};
    }
  }

  lemma {:induction false} EntriesCount(conns: map<string, Conn>, slugs: set<string>, c: Conn)
    requires slugs <= conns.Keys
    ensures c in EntriesOf(conns, slugs) <==> exists slug :: slug in slugs && conns[slug] == c
    ensures Injective(conns) ==> EntriesOf(conns, slugs)[c] <= 1
  {
    if slugs != {} {
      var picked := SomeSlug(slugs);
      EntriesCount(conns, slugs - {picked}, c);
    }
  }

  lemma EntriesAreTheValues(conns: map<string, Conn>, c: Conn)
    ensures c in Entries(conns) <==> c in conns.Values
    ensures Injective(conns) ==> Entries(conns)[c] <= 1
  {
    EntriesCount(conns, conns.Keys, c);
  }

  ghost predicate Injective(conns: map<string, Conn>) {
    forall s, t :: s in conns && t in conns && conns[s] == conns[t] ==> s == t
  }

  class GrpcProxy {
    var conns: map<string, Conn>
    /** Every call of a connection's own Close, counted. */
    ghost var closes: multiset<Conn>

    constructor ()
      ensures conns == map[] && closes == multiset{}
    {
      conns, closes := map[], multiset{};
    }

    /** The read-locked section at the head of `client`. */
    method FastRead(slug: string) returns (conn: Option<Conn>)
      ensures conn == Cached(conns, slug)
    {
      conn := if slug in conns then Some(conns[slug]) else None;
    }

    /** The write-locked section: keep the connection another caller has filed, else file ours. */
    method Publish(slug: string, newConn: Conn) returns (conn: Conn, duplicate: bool)
      modifies this`conns
      ensures conns == Published(old(conns), slug, newConn)
      ensures duplicate == (slug in old(conns))
      ensures Cached(conns, slug) == Some(conn)
    {
      duplicate := slug in conns;
      if duplicate {
        conn := conns[slug];
      } else {
        conns := conns[slug := newConn];
        conn := newConn;
      }
    }

    method CloseConn(conn: Conn)
      modifies this`closes
      ensures closes == old(closes) + multiset{conn}
    {
      closes := closes + multiset{conn};
    }

    /** Closes each cached connection, in any order, and forgets them all. */
    method Close()
      modifies this
      ensures conns == map[]
      ensures closes == old(closes) + Entries(old(conns))
    {
      var rest := conns.Keys;
      while rest != {}
        invariant conns == old(conns) && rest <= conns.Keys
        invariant closes + EntriesOf(conns, rest) == old(closes) + Entries(conns)
        decreases |rest|
      {
        var slug :| slug in rest;
        EntriesWithout(conns, rest, slug);
        CloseConn(conns[slug]);
        rest := rest - {slug};
      }
      conns := map[];
    }

    /** `client(slug)`: `dialled` is what the dial yields, if it succeeds, and
        `meanwhile` the cache as other callers leave it while this one dials. */
    method Client(slug: string, dialled: Option<Conn>, meanwhile: map<string, Conn>) returns (conn: Option<Conn>)
      modifies this
      ensures slug in old(conns) ==>
                conn == Some(old(conns)[slug]) && conns == old(conns) && closes == old(closes)
      ensures slug !in old(conns) && dialled.None? ==>
                conn == None && conns == old(conns) && closes == old(closes)
      ensures slug !in old(conns) && dialled.Some? ==>
                && conns == Published(meanwhile, slug, dialled.value)
                && conn == Cached(conns, slug)
                && closes == old(closes) + if slug in meanwhile then multiset{dialled.value} else multiset{}
    {
      conn := FastRead(slug);
      if conn.Some? { return; }
      if dialled.None? { return None; }
      conns := meanwhile;
      var c, duplicate := Publish(slug, dialled.value);
      if duplicate {
        CloseConn(dialled.value);
      }
      conn := Some(c);
    }
  }

  // ---------------------------------------------------------------- interleavings

  datatype Thread =
    | Missed(slug: string)                                       // the fast read found nothing
    | Dialled(slug: string, mine: Conn)                          // holds a connection nobody else knows
    | Duplicate(slug: string, mine: Conn, conn: Conn, at: nat)   // found another's; its own is still to be closed
    | Returned(slug: string, conn: Conn, at: nat)
    | Failed(slug: string)

  /** A call takes effect when it reads or files the connection it will return. */
  datatype Effect = Effect(epoch: nat, slug: string, conn: Conn)

  datatype State = State(
    conns: map<string, Conn>,
    closes: multiset<Conn>,
    dials: nat,                  // connections 0 .. dials - 1 have been dialled
    threads: map<nat, Thread>,
    epoch: nat,                  // number of Close steps so far
    effects: seq<Effect>)

  datatype Action =
    | Call(thread: nat, slug: string)
    | Dial(thread: nat, succeeds: bool)
    | Insert(thread: nat)
    | DropDuplicate(thread: nat)
    | CloseAll

  ghost const START := State(map[], multiset{}, 0, map[], 0, [])

  ghost predicate InFlight(s: State, t: nat) {
    t in s.threads && (s.threads[t].Missed? || s.threads[t].Dialled? || s.threads[t].Duplicate?)
  }

  ghost predicate Enabled(s: State, a: Action) {
    match a
    case Call(t, _) => !InFlight(s, t)
    case Dial(t, _) => t in s.threads && s.threads[t].Missed?
    case Insert(t) => t in s.threads && s.threads[t].Dialled?
    case DropDuplicate(t) => t in s.threads && s.threads[t].Duplicate?
    case CloseAll => true
  }

  ghost function Next(s: State, a: Action): State
    requires Enabled(s, a)
  {
    match a
    case Call(t, slug) =>
      (match Cached(s.conns, slug)
       case Some(c) =>
         s.(threads := s.threads[t := Returned(slug, c, |s.effects|)],
            effects := s.effects + [Effect(s.epoch, slug, c)])
       case None => s.(threads := s.threads[t := Missed(slug)]))
    case Dial(t, succeeds) =>
      var slug := s.threads[t].slug;
      if succeeds then s.(dials := s.dials + 1, threads := s.threads[t := Dialled(slug, s.dials)])
      else s.(threads := s.threads[t := Failed(slug)])
    case Insert(t) =>
      var Dialled(slug, mine) := s.threads[t];
      var conns := Published(s.conns, slug, mine);
      var c := conns[slug];
      var effects := s.effects + [Effect(s.epoch, slug, c)];
      if slug in s.conns then
        s.(threads := s.threads[t := Duplicate(slug, mine, c, |s.effects|)], effects := effects)
      else
        s.(conns := conns, threads := s.threads[t := Returned(slug, c, |s.effects|)], effects := effects)
    case DropDuplicate(t) =>
      var Duplicate(slug, mine, c, at) := s.threads[t];
      s.(closes := s.closes + multiset{mine}, threads := s.threads[t := Returned(slug, c, at)])
    case CloseAll =>
      s.(conns := map[], closes := s.closes + Entries(s.conns), epoch := s.epoch + 1)
  }

  /** The states of every interleaving of any number of threads. */
  ghost predicate IsRun(run: seq<State>, actions: seq<Action>) {
    && |run| == |actions| + 1
    && run[0] == START
    && forall i :: 0 <= i < |actions| ==> Enabled(run[i], actions[i]) && run[i + 1] == Next(run[i], actions[i])
  }

  /** The caller `t` has dialled `mine` by the state s. Its insert and, if that finds another's connection, the
      drop of its own - whatever state `later` the others have brought about by then - do to the cache, to the
      closed connections and to the caller what `Client` does. */
  lemma ClientIsItsSteps(s: State, t: nat, slug: string, mine: Conn, later: State)
    requires t in s.threads && s.threads[t] == Dialled(slug, mine)
    requires t in later.threads && later.threads[t] == Next(s, Insert(t)).threads[t]
    ensures var inserted := Next(s, Insert(t));
            && inserted.conns == Published(s.conns, slug, mine) && inserted.closes == s.closes
            && Cached(inserted.conns, slug) == Some(inserted.threads[t].conn)
            && inserted.threads[t].Returned? == (slug !in s.conns)
    ensures slug in s.conns ==>
              && Enabled(later, DropDuplicate(t))
              && var dropped := Next(later, DropDuplicate(t));
                 && dropped.conns == later.conns && dropped.closes == later.closes + multiset{mine}
                 && dropped.threads[t] == Returned(slug, s.conns[slug], |s.effects|)
  {
  }

  /** A call that finds a connection returns it and changes nothing; a failed dial changes nothing either. */
  lemma ClientMayEndEarly(s: State, t: nat, slug: string)
    requires Enabled(s, Call(t, slug))
    ensures var called := Next(s, Call(t, slug));
            && called.conns == s.conns && called.closes == s.closes
            && (slug in s.conns ==> called.threads[t] == Returned(slug, s.conns[slug], |s.effects|))
            && (slug !in s.conns ==>
                  && Enabled(called, Dial(t, false))
                  && Next(called, Dial(t, false)) == s.(threads := s.threads[t := Failed(slug)])
                  && Next(called, Dial(t, true)).threads[t] == Dialled(slug, s.dials))
  {
  }

  // ---------------------------------------------------------------- where a connection is

  ghost predicate Holds(s: State, t: nat, c: Conn) {
    t in s.threads && (s.threads[t].Dialled? || s.threads[t].Duplicate?) && s.threads[t].mine == c
  }

  ghost predicate InCache(s: State, c: Conn) { c in s.conns.Values }

  ghost predicate Held(s: State, c: Conn) { exists t: nat :: Holds(s, t, c) }

  /** Each opened connection is in exactly one place - cached under one slug, held
      by one thread, or closed - and has been closed at most once. */
  ghost predicate OnePlaceEach(s: State) {
    && Injective(s.conns)
    && (forall t: nat, u: nat, c: Conn :: Holds(s, t, c) && Holds(s, u, c) ==> t == u)
    && (forall c: Conn :: s.closes[c] <= 1)
    && (forall c: Conn :: InCache(s, c) ==> c < s.dials && c !in s.closes)
    && (forall c: Conn, t: nat :: Holds(s, t, c) ==> c < s.dials && c !in s.closes && !InCache(s, c))
    && (forall c: Conn :: c in s.closes ==> c < s.dials)
    && (forall c: Conn :: c < s.dials ==> InCache(s, c) || Held(s, c) || c in s.closes)
  }

  ghost predicate EffectsAgree(s: State) {
    && (forall i :: 0 <= i < |s.effects| ==> EffectOfEpoch(s, s.effects[i]))
    && (forall i, j :: 0 <= i < |s.effects| && 0 <= j < |s.effects| ==>
          (s.effects[i].conn == s.effects[j].conn <==> SameCall(s.effects[i], s.effects[j])))
    && (forall t :: t in s.threads && (s.threads[t].Returned? || s.threads[t].Duplicate?) ==>
          && s.threads[t].at < |s.effects|
          && s.effects[s.threads[t].at].slug == s.threads[t].slug
          && s.effects[s.threads[t].at].conn == s.threads[t].conn)
  }

  ghost predicate SameCall(a: Effect, b: Effect) { a.epoch == b.epoch && a.slug == b.slug }

  /** An effect of the running epoch is still what the cache holds; an older one is closed. */
  ghost predicate EffectOfEpoch(s: State, e: Effect) {
    && e.epoch <= s.epoch
    && (e.epoch == s.epoch ==> Cached(s.conns, e.slug) == Some(e.conn))
    && (e.epoch < s.epoch ==> e.conn in s.closes)
  }

  lemma StartIsSound()
    ensures OnePlaceEach(START) && EffectsAgree(START)
  {
  }

  /** Threads that hold the same connections before and after. */
  lemma SameHolders(s: State, s': State)
    requires forall u: nat, c: Conn :: Holds(s', u, c) <==> Holds(s, u, c)
    ensures forall c: Conn :: Held(s', c) <==> Held(s, c)
  {
  }

  /** A step that moves no connection. */
  lemma NothingMoves(s: State, s': State)
    requires OnePlaceEach(s) && s'.conns == s.conns && s'.closes == s.closes && s'.dials == s.dials
    requires forall u: nat, c: Conn :: Holds(s', u, c) <==> Holds(s, u, c)
    ensures OnePlaceEach(s')
  {
    SameHolders(s, s');
    assert forall c: Conn :: InCache(s', c) <==> InCache(s, c);
  }

  lemma CallKeepsPlaces(s: State, a: Action)
    requires OnePlaceEach(s) && Enabled(s, a) && a.Call?
    ensures OnePlaceEach(Next(s, a))
  {
    NothingMoves(s, Next(s, a));
  }

  lemma DialledHolders(s: State, a: Action)
    requires Enabled(s, a) && a.Dial? && a.succeeds
    ensures var s' := Next(s, a);
            && (forall u: nat, c: Conn :: Holds(s', u, c) <==> Holds(s, u, c) || (u == a.thread && c == s.dials))
            && (forall c: Conn :: Held(s, c) || c == s.dials ==> Held(s', c))
  {
    var s' := Next(s, a);
    assert Holds(s', a.thread, s.dials);
    forall c: Conn | Held(s, c) ensures Held(s', c) {
      var u: nat :| Holds(s, u, c);
      assert Holds(s', u, c);
    }
  }

  lemma NewConnectionIsNowhere(s: State)
    requires OnePlaceEach(s)
    ensures s.dials !in s.closes && !InCache(s, s.dials) && !Held(s, s.dials)
  {
  }

  lemma NewConnectionIsHeld(s: State, a: Action)
    requires OnePlaceEach(s) && Enabled(s, a) && a.Dial? && a.succeeds
    ensures OnePlaceEach(Next(s, a))
  {
    var s' := Next(s, a);
    NewConnectionIsNowhere(s);
    DialledHolders(s, a);
    assert s'.conns == s.conns && s'.closes == s.closes;
    forall c: Conn ensures InCache(s', c) == InCache(s, c) {
    }
    forall c: Conn, t: nat | Holds(s', t, c) ensures c < s'.dials && c !in s'.closes && !InCache(s', c) {
      assert Holds(s, t, c) || c == s.dials;
    }
    forall t: nat, u: nat, c: Conn | Holds(s', t, c) && Holds(s', u, c) ensures t == u {
      if c == s.dials {
        assert !Holds(s, t, c) && !Holds(s, u, c);
      } else {
        assert Holds(s, t, c) && Holds(s, u, c);
      }
    }
  }

  lemma DialKeepsPlaces(s: State, a: Action)
    requires OnePlaceEach(s) && Enabled(s, a) && a.Dial?
    ensures OnePlaceEach(Next(s, a))
  {
    if a.succeeds {
      NewConnectionIsHeld(s, a);
    } else {
      NothingMoves(s, Next(s, a));
    }
  }

  lemma InsertKeepsPlaces(s: State, a: Action)
    requires OnePlaceEach(s) && Enabled(s, a) && a.Insert?
    ensures OnePlaceEach(Next(s, a))
  {
    if s.threads[a.thread].slug in s.conns {
      NothingMoves(s, Next(s, a));
    } else {
      FilingKeepsPlaces(s, a);
    }
  }

  lemma FilingKeepsPlaces(s: State, a: Action)
    requires OnePlaceEach(s) && Enabled(s, a) && a.Insert? && s.threads[a.thread].slug !in s.conns
    ensures OnePlaceEach(Next(s, a))
  {
    var s', slug, mine := Next(s, a), s.threads[a.thread].slug, s.threads[a.thread].mine;
    assert Holds(s, a.thread, mine);
    FiledConnections(s, slug, mine);
    FiledHolders(s, a);
    assert Injective(s'.conns) by { FiledApart(s.conns, slug, mine); }
  }

  lemma FiledApart(conns: map<string, Conn>, slug: string, mine: Conn)
    requires Injective(conns) && slug !in conns && mine !in conns.Values
    ensures Injective(conns[slug := mine])
  {
    forall k | k in conns ensures conns[k] != mine { assert conns[k] in conns.Values; }
  }

  lemma FiledConnections(s: State, slug: string, mine: Conn)
    requires slug !in s.conns
    ensures forall c: Conn :: c in s.conns[slug := mine].Values <==> InCache(s, c) || c == mine
  {
    assert s.conns[slug := mine][slug] == mine;
    forall c: Conn | InCache(s, c) ensures c in s.conns[slug := mine].Values {
      var k :| k in s.conns && s.conns[k] == c;
      assert s.conns[slug := mine][k] == c;
    }
  }

  lemma FiledHolders(s: State, a: Action)
    requires Enabled(s, a) && a.Insert? && s.threads[a.thread].slug !in s.conns
    ensures var s', mine := Next(s, a), s.threads[a.thread].mine;
            && (forall u: nat, c: Conn :: Holds(s', u, c) <==> Holds(s, u, c) && u != a.thread)
            && (forall c: Conn :: Held(s, c) && c != mine ==> Held(s', c))
  {
    var s', mine := Next(s, a), s.threads[a.thread].mine;
    forall c: Conn | Held(s, c) && c != mine ensures Held(s', c) {
      var u: nat :| Holds(s, u, c);
      assert Holds(s', u, c);
    }
  }

  lemma DropKeepsPlaces(s: State, a: Action)
    requires OnePlaceEach(s) && Enabled(s, a) && a.DropDuplicate?
    ensures OnePlaceEach(Next(s, a))
  {
    var s' := Next(s, a);
    var mine := s.threads[a.thread].mine;
    assert Holds(s, a.thread, mine);
    assert forall u: nat, c: Conn :: Holds(s', u, c) <==> Holds(s, u, c) && u != a.thread;
    assert forall c: Conn :: s'.closes[c] == s.closes[c] + if c == mine then 1 else 0;
    assert forall c: Conn :: InCache(s', c) <==> InCache(s, c);
    forall c: Conn | Held(s, c) && c != mine ensures Held(s', c) {
      var u: nat :| Holds(s, u, c);
      assert Holds(s', u, c);
    }
  }

  lemma CloseKeepsPlaces(s: State)
    requires OnePlaceEach(s)
    ensures OnePlaceEach(Next(s, CloseAll))
  {
    SameHolders(s, Next(s, CloseAll));
    forall c: Conn ensures (c in Entries(s.conns) <==> InCache(s, c)) && Entries(s.conns)[c] <= 1 {
      EntriesAreTheValues(s.conns, c);
    }
  }

  lemma StepKeepsPlaces(s: State, a: Action)
    requires OnePlaceEach(s) && Enabled(s, a)
    ensures OnePlaceEach(Next(s, a))
  {
    match a
    case Call(_, _) => CallKeepsPlaces(s, a);
    case Dial(_, _) => DialKeepsPlaces(s, a);
    case Insert(_) => InsertKeepsPlaces(s, a);
    case DropDuplicate(_) => DropKeepsPlaces(s, a);
    case CloseAll => CloseKeepsPlaces(s);
  }

  /** One effect more, of a call the earlier effects agree with. */
  lemma EffectAppended(s: State, s': State, e: Effect)
    requires EffectsAgree(s) && s'.effects == s.effects + [e]
    requires EffectOfEpoch(s', e) && forall i :: 0 <= i < |s.effects| ==> EffectOfEpoch(s', s.effects[i])
    requires forall i :: 0 <= i < |s.effects| ==> (s.effects[i].conn == e.conn <==> SameCall(s.effects[i], e))
    ensures forall i :: 0 <= i < |s'.effects| ==> EffectOfEpoch(s', s'.effects[i])
    ensures forall i, j :: 0 <= i < |s'.effects| && 0 <= j < |s'.effects| ==>
              (s'.effects[i].conn == s'.effects[j].conn <==> SameCall(s'.effects[i], s'.effects[j]))
  {
  }

  lemma CallKeepsEffects(s: State, a: Action)
    requires OnePlaceEach(s) && EffectsAgree(s) && Enabled(s, a) && a.Call?
    ensures EffectsAgree(Next(s, a))
  {
    if a.slug in s.conns {
      NewEffect(s, a.slug);
      EffectAppended(s, Next(s, a), Effect(s.epoch, a.slug, s.conns[a.slug]));
    }
  }

  lemma FilingKeepsEffects(s: State, a: Action)
    requires OnePlaceEach(s) && EffectsAgree(s) && Enabled(s, a) && a.Insert?
    requires s.threads[a.thread].slug !in s.conns
    ensures EffectsAgree(Next(s, a))
  {
    var slug, mine := s.threads[a.thread].slug, s.threads[a.thread].mine;
    assert Holds(s, a.thread, mine);
    FreshEffect(s, slug, mine);
    EffectAppended(s, Next(s, a), Effect(s.epoch, slug, mine));
  }

  lemma InsertKeepsEffects(s: State, a: Action)
    requires OnePlaceEach(s) && EffectsAgree(s) && Enabled(s, a) && a.Insert?
    ensures EffectsAgree(Next(s, a))
  {
    var slug := s.threads[a.thread].slug;
    if slug in s.conns {
      NewEffect(s, slug);
      EffectAppended(s, Next(s, a), Effect(s.epoch, slug, s.conns[slug]));
    } else {
      FilingKeepsEffects(s, a);
    }
  }

  lemma CloseKeepsEffects(s: State)
    requires OnePlaceEach(s) && EffectsAgree(s)
    ensures EffectsAgree(Next(s, CloseAll))
  {
    forall c: Conn ensures c in Entries(s.conns) <==> InCache(s, c) { EntriesAreTheValues(s.conns, c); }
  }

  lemma StepKeepsEffects(s: State, a: Action)
    requires OnePlaceEach(s) && EffectsAgree(s) && Enabled(s, a)
    ensures EffectsAgree(Next(s, a))
  {
    match a
    case Call(_, _) => CallKeepsEffects(s, a);
    case Dial(_, _) =>
    case Insert(_) => InsertKeepsEffects(s, a);
    case DropDuplicate(_) =>
    case CloseAll => CloseKeepsEffects(s);
  }

  /** Reading the cache yields the connection of this epoch's earlier effects on the slug, and no other's. */
  lemma NewEffect(s: State, slug: string)
    requires OnePlaceEach(s) && EffectsAgree(s) && slug in s.conns
    ensures forall i :: 0 <= i < |s.effects| ==>
              (s.effects[i].conn == s.conns[slug] <==> SameCall(s.effects[i], Effect(s.epoch, slug, s.conns[slug])))
  {
  }

  lemma FreshEffect(s: State, slug: string, mine: Conn)
    requires OnePlaceEach(s) && EffectsAgree(s) && slug !in s.conns && Held(s, mine)
    ensures forall i :: 0 <= i < |s.effects| ==>
              s.effects[i].conn != mine && !SameCall(s.effects[i], Effect(s.epoch, slug, mine))
  {
  }

  lemma {:induction false} EveryStateIsSound(run: seq<State>, actions: seq<Action>, i: nat)
    requires IsRun(run, actions) && i < |run|
    ensures OnePlaceEach(run[i]) && EffectsAgree(run[i])
  {
    if i == 0 {
      StartIsSound();
    } else {
      EveryStateIsSound(run, actions, i - 1);
      StepKeepsPlaces(run[i - 1], actions[i - 1]);
      StepKeepsEffects(run[i - 1], actions[i - 1]);
    }
  }

  // ---------------------------------------------------------------- main results

  /** In every reachable state each connection ever opened is cached, held by a
      thread in flight, or closed exactly once - one of the three only. */
  lemma ConnectionsAreConserved(run: seq<State>, actions: seq<Action>, i: nat, c: Conn)
    requires IsRun(run, actions) && i < |run| && c < run[i].dials
    ensures InCache(run[i], c) || Held(run[i], c) || run[i].closes[c] == 1
    ensures run[i].closes[c] <= 1
    ensures !(InCache(run[i], c) && Held(run[i], c))
    ensures run[i].closes[c] == 1 ==> !InCache(run[i], c) && !Held(run[i], c)
  {
    EveryStateIsSound(run, actions, i);
    if Held(run[i], c) { var t: nat :| Holds(run[i], t, c); }
  }

  /** Close leaves open exactly the connections some thread still holds: shutting down with no
      call in flight leaks nothing. */
  lemma CloseLeaksExactlyWhatIsInFlight(run: seq<State>, actions: seq<Action>, i: nat, c: Conn)
    requires IsRun(run, actions) && i < |run| && c < run[i].dials
    ensures Next(run[i], CloseAll).closes[c] == (if Held(run[i], c) then 0 else 1)
  {
    EveryStateIsSound(run, actions, i);
    var s, after := run[i], Next(run[i], CloseAll);
    StepKeepsPlaces(s, CloseAll);
    SameHolders(s, after);
    if Held(s, c) { var t: nat :| Holds(after, t, c); }
  }

  lemma StepAddsEffects(s: State, a: Action)
    requires Enabled(s, a)
    ensures s.effects <= Next(s, a).effects
  {
  }

  lemma {:induction false} EffectsStay(run: seq<State>, actions: seq<Action>, i: nat, j: nat)
    requires IsRun(run, actions) && i <= j < |run|
    ensures run[i].effects <= run[j].effects
  {
    if i < j {
      EffectsStay(run, actions, i, j - 1);
      assert Enabled(run[j - 1], actions[j - 1]);
      StepAddsEffects(run[j - 1], actions[j - 1]);
    }
  }

  /** Any two calls of a run, finished at whatever points i and j: they return the same connection exactly
      when they ask for the same slug and take effect between the same two Close steps. */
  lemma CallsAgreeWithinAnEpoch(run: seq<State>, actions: seq<Action>, i: nat, t: nat, j: nat, u: nat)
    requires IsRun(run, actions) && i <= j < |run|
    requires t in run[i].threads && run[i].threads[t].Returned?
    requires u in run[j].threads && run[j].threads[u].Returned?
    ensures var a, b, effects := run[i].threads[t], run[j].threads[u], run[j].effects;
            && a.at < |effects| && b.at < |effects|
            && effects[a.at].slug == a.slug && effects[b.at].slug == b.slug
            && (a.conn == b.conn <==> a.slug == b.slug && effects[a.at].epoch == effects[b.at].epoch)
  {
    EveryStateIsSound(run, actions, i);
    EveryStateIsSound(run, actions, j);
    EffectsStay(run, actions, i, j);
  }

  /** A connection is open at the moment a call settles on it, and stays so until the next Close. */
  lemma ReturnedConnectionIsOpenUntilClose(run: seq<State>, actions: seq<Action>, i: nat, e: nat)
    requires IsRun(run, actions) && i < |run| && e < |run[i].effects|
    ensures run[i].effects[e].conn in run[i].closes <==> run[i].effects[e].epoch < run[i].epoch
  {
    EveryStateIsSound(run, actions, i);
    var effect := run[i].effects[e];
    assert EffectOfEpoch(run[i], effect);
    if effect.epoch == run[i].epoch { assert InCache(run[i], effect.conn); }
  }
}
