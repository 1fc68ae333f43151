/** Flattening a decoded JSON object to dotted keys (flattenMap in internal/release/handler.go).

    Go visits the entries of a map in any order, so `IsFlattening` says which flat maps can
    come out. When no key holds a dot and the root has no object under the empty key there is
    only one; the tree can be read back exactly when, besides, no sub-object is empty. */
module Flattening {
  import opened Options
  import opened Json
  import opened Walks

  type Path = seq<string>

  function Extend(prefix: string, key: string): string {
    if prefix != "" then prefix + "." + key else key
  }

  /** The flat key of a path, starting from `prefix`. */
  function FlatKey(prefix: string, path: Path): string
    decreases |path|
  {
    if path == [] then prefix else FlatKey(Extend(prefix, path[0]), path[1..])
  }

  /** The value at the end of a path, unless it is an object or not there. */
  function LeafAt(m: map<string, Json>, path: Path): Option<Json>
    decreases |path|
  {
    if path == [] || path[0] !in m then None
    else
      var v := m[path[0]];
      if |path| == 1 then (if v.Obj? then None else Some(v))
      else if v.Obj? then LeafAt(v.fields, path[1..])
      else None
  }

  ghost predicate HasLeaf(m: map<string, Json>, prefix: string, key: string, v: Json) {
    exists path :: LeafAt(m, path) == Some(v) && FlatKey(prefix, path) == key
  }

  /** Every flat entry is a leaf under that key, and every leaf's key has an entry. Where two
      leaves share a key, either may have won. */
  ghost predicate IsFlattening(m: map<string, Json>, flat: map<string, Json>) {
    && (forall key :: key in flat ==> HasLeaf(m, "", key, flat[key]))
    && (forall path :: LeafAt(m, path).Some? ==> FlatKey("", path) in flat)
  }

  // ---------------------------------------------------------------- the program's loop

  /** `flat` extends `base` by leaves of the entries of m under `done`. */
  ghost predicate Extended(base: map<string, Json>, flat: map<string, Json>, m: map<string, Json>, prefix: string,
                           done: set<string>)
  {
    && base.Keys <= flat.Keys
    && (forall key :: key in flat ==>
          (key in base && flat[key] == base[key]) || HasLeaf(Only(m, done), prefix, key, flat[key]))
    && (forall path :: LeafAt(Only(m, done), path).Some? ==> FlatKey(prefix, path) in flat)
  }

  function Only(m: map<string, Json>, keys: set<string>): map<string, Json> {
    map k | k in m && k in keys :: m[k]
  }

  method FlattenMap(prefix: string, m: map<string, Json>, base: map<string, Json>) returns (result: map<string, Json>)
    ensures Extended(base, result, m, prefix, m.Keys)
    decreases Obj(m), 1
  {
    result := base;
    var pending := m.Keys;
    ghost var done: set<string> := {};
    NothingDone(base, m, prefix);
    while pending != {}
      invariant pending !! done && pending + done == m.Keys
      invariant Extended(base, result, m, prefix, done)
      decreases |pending|
    {
      var k :| k in pending;
      result := FlattenEntry(prefix, m, k, base, result, done);
      OneVisited(m.Keys, pending, done, k);
      pending, done := pending - {k}, done + {k};
    }
  }

  method FlattenEntry(prefix: string, m: map<string, Json>, k: string,
                      ghost base: map<string, Json>, before: map<string, Json>, ghost done: set<string>)
      returns (result: map<string, Json>)
    requires Extended(base, before, m, prefix, done) && k in m
    ensures Extended(base, result, m, prefix, done + {k})
    decreases Obj(m), 0
  {
    var key := k;
    if prefix != "" { key := prefix + "." + k; }
    if m[k].Obj? {
      result := FlattenMap(key, m[k].fields, before);
    } else {
      result := before[key := m[k]];
    }
    EntryDone(base, before, result, m, prefix, done, k);
  }

  lemma NothingDone(base: map<string, Json>, m: map<string, Json>, prefix: string)
    ensures Extended(base, base, m, prefix, {})
  {
  }

  /** Entry k has been visited: a leaf written, or an object flattened below its key. */
  ghost predicate Visited(before: map<string, Json>, after: map<string, Json>, m: map<string, Json>, prefix: string,
                          k: string)
    requires k in m
  {
    if m[k].Obj? then Extended(before, after, m[k].fields, Extend(prefix, k), m[k].fields.Keys)
    else after == before[Extend(prefix, k) := m[k]]
  }

  lemma OnlyAll(m: map<string, Json>)
    ensures Only(m, m.Keys) == m
  {
  }

  lemma LeafBelow(m: map<string, Json>, prefix: string, k: string, key: string, v: Json)
    requires k in m && m[k].Obj? && HasLeaf(m[k].fields, Extend(prefix, k), key, v)
    ensures HasLeaf(m, prefix, key, v)
  {
    var rest :| LeafAt(m[k].fields, rest) == Some(v) && FlatKey(Extend(prefix, k), rest) == key;
    var path := [k] + rest;
    assert path[1..] == rest;
    assert LeafAt(m, path) == Some(v);
  }

  lemma LeafHere(m: map<string, Json>, prefix: string, k: string)
    requires k in m && !m[k].Obj?
    ensures HasLeaf(m, prefix, Extend(prefix, k), m[k])
  {
    var path := [k];
    assert path[1..] == [] && LeafAt(m, path) == Some(m[k]) && FlatKey(prefix, path) == Extend(prefix, k);
  }

  lemma LeafAmongMore(m: map<string, Json>, more: map<string, Json>, prefix: string, key: string, v: Json)
    requires HasLeaf(m, prefix, key, v) && forall k :: k in m ==> k in more && more[k] == m[k]
    ensures HasLeaf(more, prefix, key, v)
  {
    var path :| LeafAt(m, path) == Some(v) && FlatKey(prefix, path) == key;
    assert LeafAt(more, path) == Some(v);
  }

  lemma NewEntryIsALeaf(base: map<string, Json>, before: map<string, Json>, after: map<string, Json>,
                        m: map<string, Json>, prefix: string, done: set<string>, k: string, key: string)
    requires Extended(base, before, m, prefix, done) && k in m && Visited(before, after, m, prefix, k)
    requires key in after && !(key in base && after[key] == base[key])
    ensures HasLeaf(Only(m, done + {k}), prefix, key, after[key])
  {
    var now := Only(m, done + {k});
    if key in before && after[key] == before[key] {
      LeafAmongMore(Only(m, done), now, prefix, key, after[key]);
    } else if m[k].Obj? {
      OnlyAll(m[k].fields);
      LeafBelow(now, prefix, k, key, after[key]);
    } else {
      LeafHere(now, prefix, k);
    }
  }

  lemma LeafHasAnEntry(base: map<string, Json>, before: map<string, Json>, after: map<string, Json>,
                       m: map<string, Json>, prefix: string, done: set<string>, k: string, path: Path)
    requires Extended(base, before, m, prefix, done) && k in m && Visited(before, after, m, prefix, k)
    requires LeafAt(Only(m, done + {k}), path).Some?
    ensures FlatKey(prefix, path) in after
  {
    if path[0] != k {
      assert LeafAt(Only(m, done), path) == LeafAt(Only(m, done + {k}), path);
    } else if m[k].Obj? {
      OnlyAll(m[k].fields);
      assert LeafAt(m[k].fields, path[1..]).Some?;
    }
  }

  lemma EntryDone(base: map<string, Json>, before: map<string, Json>, after: map<string, Json>,
                  m: map<string, Json>, prefix: string, done: set<string>, k: string)
    requires Extended(base, before, m, prefix, done) && k in m && Visited(before, after, m, prefix, k)
    ensures Extended(base, after, m, prefix, done + {k})
  {
    forall key | key in after && !(key in base && after[key] == base[key])
      ensures HasLeaf(Only(m, done + {k}), prefix, key, after[key])
    {
      NewEntryIsALeaf(base, before, after, m, prefix, done, k, key);
    }
    forall path | LeafAt(Only(m, done + {k}), path).Some? ensures FlatKey(prefix, path) in after {
      LeafHasAnEntry(base, before, after, m, prefix, done, k, path);
    }
  }

  method Flatten(m: map<string, Json>) returns (flat: map<string, Json>)
    ensures IsFlattening(m, flat)
  {
    flat := FlattenMap("", m, map[]);
    assert Only(m, m.Keys) == m;
  }

  // ---------------------------------------------------------------- keys without dots

  predicate PlainKey(key: string) { '.' !in key }

  ghost predicate PlainPath(path: Path) { forall i :: 0 <= i < |path| ==> PlainKey(path[i]) }

  /** No key holds a dot, at any depth. */
  ghost predicate PlainKeys(m: map<string, Json>)
    decreases Obj(m)
  {
    forall k :: k in m ==> PlainKey(k) && (m[k].Obj? ==> PlainKeys(m[k].fields))
  }

  /** The root has no object under the empty key: its entries would flatten as the root's own. */
  predicate PlainRoot(m: map<string, Json>) { "" in m ==> !m[""].Obj? }

  /** No sub-object is empty, at any depth. */
  ghost predicate NoEmptyObject(m: map<string, Json>)
    decreases Obj(m)
  {
    forall k :: k in m && m[k].Obj? ==> m[k].fields != map[] && NoEmptyObject(m[k].fields)
  }

  lemma {:induction false} LeavesHavePlainPaths(m: map<string, Json>, path: Path)
    requires PlainKeys(m) && LeafAt(m, path).Some?
    ensures path != [] && PlainPath(path)
    decreases |path|
  {
    if |path| > 1 {
      LeavesHavePlainPaths(m[path[0]].fields, path[1..]);
      assert forall i :: 1 <= i < |path| ==> path[i] == path[1..][i - 1];
    }
  }

  function Join(path: Path): string
    requires path != []
  {
    if |path| == 1 then path[0] else path[0] + "." + Join(path[1..])
  }

  /** Below a prefix the flat key is the joined path after a dot. */
  lemma {:induction false} KeyUnderPrefix(prefix: string, path: Path)
    requires prefix != "" && path != []
    ensures FlatKey(prefix, path) == prefix + "." + Join(path)
    decreases |path|
  {
    if |path| > 1 {
      KeyUnderPrefix(prefix + "." + path[0], path[1..]);
      assert prefix + "." + path[0] + "." + Join(path[1..]) == prefix + "." + Join(path);
    } else {
      assert path[1..] == [];
    }
  }

  /** From the root it is the joined path, unless the path goes on below the empty key. */
  lemma FlatKeyIsJoin(path: Path)
    requires path != [] && (path[0] == "" ==> |path| == 1)
    ensures FlatKey("", path) == Join(path)
  {
    if |path| > 1 { KeyUnderPrefix(path[0], path[1..]); } else { assert path[1..] == []; }
  }

  lemma RootLeaf(m: map<string, Json>, path: Path)
    requires PlainRoot(m) && LeafAt(m, path).Some?
    ensures path != [] && FlatKey("", path) == Join(path)
  {
    FlatKeyIsJoin(path);
  }

  /** Split at the first dot: the inverse of joining plain keys. */
  function SplitKey(key: string): Path {
    if '.' !in key then [key]
    else
      var dot := FirstDot(key);
      [key[..dot]] + SplitKey(key[dot + 1..])
  }

  function FirstDot(key: string): (dot: nat)
    requires '.' in key
    ensures dot < |key| && key[dot] == '.' && '.' !in key[..dot]
  {
    if key[0] == '.' then 0
    else
      var rest := FirstDot(key[1..]);
      assert key[..rest + 1] == [key[0]] + key[1..][..rest];
      rest + 1
  }

  lemma {:induction false} FirstDotIs(key: string, dot: nat)
    requires dot < |key| && key[dot] == '.' && '.' !in key[..dot]
    ensures '.' in key && FirstDot(key) == dot
  {
  }

  lemma Parts(k: string, rest: string)
    ensures var key := k + "." + rest; key[..|k|] == k && key[|k|] == '.' && key[|k| + 1..] == rest
  {
  }

  lemma SplitsOff(k: string, rest: string)
    requires PlainKey(k)
    ensures SplitKey(k + "." + rest) == [k] + SplitKey(rest)
  {
    Parts(k, rest);
    FirstDotIs(k + "." + rest, |k|);
  }

  lemma PlainTail(path: Path)
    requires path != [] && PlainPath(path)
    ensures PlainKey(path[0]) && PlainPath(path[1..]) && path == [path[0]] + path[1..]
  {
  }

  lemma {:induction false} SplitUndoesJoin(path: Path)
    requires path != [] && PlainPath(path)
    ensures SplitKey(Join(path)) == path
    decreases |path|
  {
    PlainTail(path);
    if |path| > 1 {
      SplitUndoesJoin(path[1..]);
      SplitsOff(path[0], Join(path[1..]));
    }
  }

  lemma {:induction false} JoinUndoesSplit(key: string)
    ensures SplitKey(key) != [] && PlainPath(SplitKey(key)) && Join(SplitKey(key)) == key
    decreases |key|
  {
    if '.' in key {
      var dot := FirstDot(key);
      JoinUndoesSplit(key[dot + 1..]);
      var rest := SplitKey(key[dot + 1..]);
      assert SplitKey(key)[1..] == rest;
      assert key == key[..dot] + "." + key[dot + 1..];
      assert forall i :: 1 <= i <= |rest| ==> SplitKey(key)[i] == rest[i - 1];
    }
  }

  /** Without dots, and without an object under the empty key at the root, the order of the walk does not
      show: there is one flattening. */
  lemma FlatteningIsUnique(m: map<string, Json>, a: map<string, Json>, b: map<string, Json>)
    requires PlainKeys(m) && PlainRoot(m) && IsFlattening(m, a) && IsFlattening(m, b)
    ensures a == b
  {
    forall key | key in a ensures key in b && b[key] == a[key] { FlatValueIsUnique(m, a, b, key); }
    forall key | key in b ensures key in a && a[key] == b[key] { FlatValueIsUnique(m, b, a, key); }
  }

  lemma FlatValueIsUnique(m: map<string, Json>, a: map<string, Json>, b: map<string, Json>, key: string)
    requires PlainKeys(m) && PlainRoot(m) && IsFlattening(m, a) && IsFlattening(m, b) && key in a
    ensures key in b && b[key] == a[key]
  {
    SoleLeaf(m, a, key);
    assert key in b;
    SoleLeaf(m, b, key);
  }

  /** The leaf behind a flattened key is the one its segments lead to. */
  lemma SoleLeaf(m: map<string, Json>, flat: map<string, Json>, key: string)
    requires PlainKeys(m) && PlainRoot(m) && IsFlattening(m, flat) && key in flat
    ensures LeafAt(m, SplitKey(key)) == Some(flat[key]) && FlatKey("", SplitKey(key)) == key
  {
    var q :| LeafAt(m, q) == Some(flat[key]) && FlatKey("", q) == key;
    LeavesHavePlainPaths(m, q);
    RootLeaf(m, q);
    SplitUndoesJoin(q);
  }

  /** So a flattening holds under each key the leaf its segments lead to, and nothing else. */
  lemma FlatValue(m: map<string, Json>, flat: map<string, Json>, key: string)
    requires PlainKeys(m) && PlainRoot(m) && IsFlattening(m, flat)
    ensures FieldAt(flat, key) == LeafAt(m, SplitKey(key))
  {
    if key in flat {
      SoleLeaf(m, flat, key);
    } else if LeafAt(m, SplitKey(key)).Some? {
      RootLeaf(m, SplitKey(key));
      JoinUndoesSplit(key);
    }
  }

  // ---------------------------------------------------------------- reading the tree back

  /** What is below key `k`: the remaining paths, with their values. */
  function Below(leaves: map<Path, Json>, k: string): map<Path, Json> {
    var tails := set p | p in leaves && |p| > 1 && p[0] == k :: p[1..];
    map t | t in tails && [k] + t in leaves :: leaves[[k] + t]
  }

  function Heads(leaves: map<Path, Json>): set<string> {
    set p | p in leaves && p != [] :: p[0]
  }

  function BuildTree(leaves: map<Path, Json>, depth: nat): map<string, Json>
    decreases depth, 1
  {
    map k | k in Heads(leaves) :: BuildValue(leaves, depth, k)
  }

  function BuildValue(leaves: map<Path, Json>, depth: nat, k: string): Json
    decreases depth, 0
  {
    if [k] in leaves then leaves[[k]]
    else if depth == 0 then Null
    else Obj(BuildTree(Below(leaves, k), depth - 1))
  }

  ghost function Longest(keys: set<string>): (n: nat)
    ensures forall key :: key in keys ==> |key| <= n
  {
    if keys == {} then 0 else
      var key :| key in keys;
      var rest := Longest(keys - {key});
      if |key| > rest then |key| else rest
  }

  /** The tree a flat map came from: split each key at its dots and file the value there. */
  ghost function Unflatten(flat: map<string, Json>): map<string, Json> {
    BuildTree(LeavesOf(flat), Longest(flat.Keys) + 1)
  }

  ghost function LeavesOf(flat: map<string, Json>): map<Path, Json> {
    var paths := set key | key in flat :: SplitKey(key);
    map p | p in paths && p != [] && Join(p) in flat :: flat[Join(p)]
  }

  ghost predicate AreLeaves(leaves: map<Path, Json>, m: map<string, Json>) {
    forall p :: (p in leaves <==> LeafAt(m, p).Some?) && (p in leaves ==> LeafAt(m, p) == Some(leaves[p]))
  }

  ghost predicate Within(leaves: map<Path, Json>, length: nat) {
    forall p :: p in leaves ==> |p| <= length
  }

  lemma {:induction false} SomeLeaf(m: map<string, Json>) returns (path: Path)
    requires m != map[] && NoEmptyObject(m)
    ensures LeafAt(m, path).Some?
    decreases Obj(m)
  {
    var k :| k in m;
    path := [k];
    if m[k].Obj? {
      var rest := SomeLeaf(m[k].fields);
      path := [k] + rest;
      assert path[1..] == rest;
    }
  }

  lemma LeavesBelow(m: map<string, Json>, leaves: map<Path, Json>, k: string)
    requires AreLeaves(leaves, m) && k in m && m[k].Obj?
    ensures AreLeaves(Below(leaves, k), m[k].fields)
  {
    forall p ensures (p in Below(leaves, k) <==> LeafAt(m[k].fields, p).Some?)
                     && (p in Below(leaves, k) ==> LeafAt(m[k].fields, p) == Some(Below(leaves, k)[p]))
    {
      var q := [k] + p;
      assert q[1..] == p && q[0] == k;
      if p != [] {
        assert LeafAt(m, q) == LeafAt(m[k].fields, p);
        if q in leaves {
          var tails := set p | p in leaves && |p| > 1 && p[0] == k :: p[1..];
          assert q[1..] in tails;
        }
      }
    }
  }

  lemma HeadsAreKeys(m: map<string, Json>, leaves: map<Path, Json>)
    requires NoEmptyObject(m) && AreLeaves(leaves, m)
    ensures Heads(leaves) == m.Keys
  {
    forall k | k in m ensures k in Heads(leaves) {
      if m[k].Obj? {
        var rest := SomeLeaf(m[k].fields);
        var path := [k] + rest;
        assert path[1..] == rest && path in leaves && path[0] in Heads(leaves);
      } else {
        assert [k] in leaves && [k][0] in Heads(leaves);
      }
    }
  }

  lemma BelowIsShorter(m: map<string, Json>, leaves: map<Path, Json>, k: string, depth: nat)
    requires NoEmptyObject(m) && AreLeaves(leaves, m) && k in m && m[k].Obj?
    requires Within(leaves, depth + 1)
    ensures depth > 0 && [k] !in leaves
    ensures Within(Below(leaves, k), depth)
  {
    assert LeafAt(m, [k]).None?;
    var rest := SomeLeaf(m[k].fields);
    assert ([k] + rest)[1..] == rest && [k] + rest in leaves;
    forall t | t in Below(leaves, k) ensures |t| <= depth {
      assert [k] + t in leaves;
    }
  }

  lemma BuildRecovers(m: map<string, Json>, leaves: map<Path, Json>, depth: nat)
    requires NoEmptyObject(m) && AreLeaves(leaves, m)
    requires Within(leaves, depth + 1)
    ensures BuildTree(leaves, depth) == m
    decreases depth, 1
  {
    HeadsAreKeys(m, leaves);
    forall k | k in m ensures BuildValue(leaves, depth, k) == m[k] {
      ValueRecovers(m, leaves, depth, k);
    }
  }

  lemma ValueRecovers(m: map<string, Json>, leaves: map<Path, Json>, depth: nat, k: string)
    requires NoEmptyObject(m) && AreLeaves(leaves, m) && k in m
    requires Within(leaves, depth + 1)
    ensures BuildValue(leaves, depth, k) == m[k]
    decreases depth, 0
  {
    if m[k].Obj? {
      BelowIsShorter(m, leaves, k, depth);
      LeavesBelow(m, leaves, k);
      TreeBelow(leaves, m[k].fields, depth, k);
    } else {
      assert LeafAt(m, [k]) == Some(m[k]);
    }
  }

  lemma TreeBelow(leaves: map<Path, Json>, fields: map<string, Json>, depth: nat, k: string)
    requires depth > 0 && [k] !in leaves
    requires NoEmptyObject(fields) && AreLeaves(Below(leaves, k), fields)
    requires Within(Below(leaves, k), depth)
    ensures BuildValue(leaves, depth, k) == Obj(fields)
    decreases depth - 1, 2
  {
    BuildRecovers(fields, Below(leaves, k), depth - 1);
  }

  lemma {:induction false} PathsAreShallow(path: Path)
    requires path != []
    ensures |path| <= |Join(path)| + 1
  {
    if |path| > 1 { PathsAreShallow(path[1..]); }
  }

  lemma ReadPath(flat: map<string, Json>, p: Path)
    ensures p in LeavesOf(flat) <==> p != [] && PlainPath(p) && Join(p) in flat
    ensures p in LeavesOf(flat) ==> LeavesOf(flat)[p] == flat[Join(p)]
  {
    if p in LeavesOf(flat) {
      var key :| key in flat && SplitKey(key) == p;
      JoinUndoesSplit(key);
    }
    if p != [] && PlainPath(p) && Join(p) in flat {
      SplitUndoesJoin(p);
      assert SplitKey(Join(p)) in (set key | key in flat :: SplitKey(key));
    }
  }

  /** Every leaf is read back from its key. */
  lemma LeafHasItsKey(m: map<string, Json>, flat: map<string, Json>, p: Path)
    requires PlainKeys(m) && PlainRoot(m) && IsFlattening(m, flat) && LeafAt(m, p).Some?
    ensures p in LeavesOf(flat)
  {
    LeavesHavePlainPaths(m, p);
    RootLeaf(m, p);
    ReadPath(flat, p);
  }

  /** Whatever is read back is a leaf, with its value. */
  lemma KeyHasItsLeaf(m: map<string, Json>, flat: map<string, Json>, p: Path)
    requires PlainKeys(m) && PlainRoot(m) && IsFlattening(m, flat) && p in LeavesOf(flat)
    ensures LeafAt(m, p) == Some(LeavesOf(flat)[p])
  {
    ReadPath(flat, p);
    SoleLeaf(m, flat, Join(p));
    SplitUndoesJoin(p);
  }

  lemma LeavesAreRead(m: map<string, Json>, flat: map<string, Json>)
    requires PlainKeys(m) && PlainRoot(m) && IsFlattening(m, flat)
    ensures AreLeaves(LeavesOf(flat), m)
  {
    var leaves := LeavesOf(flat);
    forall p | LeafAt(m, p).Some? ensures p in leaves { LeafHasItsKey(m, flat, p); }
    forall p | p in leaves ensures LeafAt(m, p) == Some(leaves[p]) { KeyHasItsLeaf(m, flat, p); }
  }

  lemma LeavesAreShallow(flat: map<string, Json>)
    ensures Within(LeavesOf(flat), Longest(flat.Keys) + 2)
  {
    forall p | p in LeavesOf(flat) ensures |p| <= Longest(flat.Keys) + 2 {
      ReadPath(flat, p);
      PathsAreShallow(p);
    }
  }

  lemma TreeIsRecovered(m: map<string, Json>, flat: map<string, Json>)
    requires PlainKeys(m) && PlainRoot(m) && NoEmptyObject(m) && IsFlattening(m, flat)
    ensures Unflatten(flat) == m
  {
    LeavesAreRead(m, flat);
    LeavesAreShallow(flat);
    BuildRecovers(m, LeavesOf(flat), Longest(flat.Keys) + 1);
  }

  // ---------------------------------------------------------------- what can be read back at all

  ghost predicate LeafValues(leaves: map<Path, Json>) {
    forall p :: p in leaves ==> p != [] && PlainPath(p) && !leaves[p].Obj?
  }

  lemma BelowHasLeafValues(leaves: map<Path, Json>, k: string)
    requires LeafValues(leaves)
    ensures LeafValues(Below(leaves, k))
  {
    forall t | t in Below(leaves, k) ensures t != [] && PlainPath(t) && !Below(leaves, k)[t].Obj? {
      var p :| p in leaves && |p| > 1 && p[0] == k && t == p[1..];
      assert [k] + t == p;
    }
  }

  /** Whatever is built has plain keys and no empty object. */
  lemma {:induction false} BuiltTreesArePlain(leaves: map<Path, Json>, depth: nat)
    requires LeafValues(leaves) && Within(leaves, depth + 1)
    ensures PlainKeys(BuildTree(leaves, depth)) && NoEmptyObject(BuildTree(leaves, depth))
    decreases depth, 1
  {
    forall k | k in Heads(leaves) ensures PlainKey(k) && IsPlainValue(BuildValue(leaves, depth, k)) {
      BuiltValuesArePlain(leaves, depth, k);
    }
  }

  ghost predicate IsPlainValue(v: Json) {
    v.Obj? ==> PlainKeys(v.fields) && NoEmptyObject(v.fields) && v.fields != map[]
  }

  lemma {:induction false} BuiltValuesArePlain(leaves: map<Path, Json>, depth: nat, k: string)
    requires LeafValues(leaves) && Within(leaves, depth + 1) && k in Heads(leaves)
    ensures PlainKey(k) && IsPlainValue(BuildValue(leaves, depth, k))
    decreases depth, 0
  {
    var p :| p in leaves && p != [] && p[0] == k;
    if [k] !in leaves {
      GoesOn(p, k);
      PlainBelow(leaves, depth, p);
      BuiltObjectIsPlain(Below(leaves, k), depth - 1, p[1]);
    }
  }

  lemma PlainBelow(leaves: map<Path, Json>, depth: nat, p: Path)
    requires LeafValues(leaves) && Within(leaves, depth + 1) && p in leaves && |p| > 1
    ensures depth > 0 && LeafValues(Below(leaves, p[0])) && Within(Below(leaves, p[0]), depth)
    ensures p[1] in Heads(Below(leaves, p[0]))
  {
    BelowHasLeafValues(leaves, p[0]);
    BelowIsWithin(leaves, p[0], depth);
    HeadBelow(leaves, p[0], p);
  }

  lemma {:induction false} BuiltObjectIsPlain(leaves: map<Path, Json>, depth: nat, head: string)
    requires LeafValues(leaves) && Within(leaves, depth + 1) && head in Heads(leaves)
    ensures IsPlainValue(Obj(BuildTree(leaves, depth)))
    decreases depth, 2
  {
    BuiltTreesArePlain(leaves, depth);
    assert head in BuildTree(leaves, depth);
  }

  lemma GoesOn(p: Path, k: string)
    requires p != [] && p[0] == k && p != [k]
    ensures |p| > 1
  {
    assert |p| == 1 ==> p == [k];
  }

  lemma BelowIsWithin(leaves: map<Path, Json>, k: string, depth: nat)
    requires Within(leaves, depth + 1)
    ensures Within(Below(leaves, k), depth)
  {
    forall t | t in Below(leaves, k) ensures |t| <= depth { assert [k] + t in leaves; }
  }

  lemma HeadBelow(leaves: map<Path, Json>, k: string, p: Path)
    requires p in leaves && |p| > 1 && p[0] == k
    ensures p[1..] in Below(leaves, k) && p[1] in Heads(Below(leaves, k))
  {
    assert p[1..] in (set q | q in leaves && |q| > 1 && q[0] == k :: q[1..]);
    assert [k] + p[1..] == p;
    assert p[1..][0] == p[1];
  }

  lemma FlatLeavesAreValues(m: map<string, Json>, flat: map<string, Json>)
    requires IsFlattening(m, flat)
    ensures LeafValues(LeavesOf(flat))
  {
    forall p | p in LeavesOf(flat) ensures p != [] && PlainPath(p) && !LeavesOf(flat)[p].Obj? {
      ReadPath(flat, p);
      var q :| LeafAt(m, q) == Some(flat[Join(p)]) && FlatKey("", q) == Join(p);
      LeavesAreNoObjects(m, q);
    }
  }

  lemma {:induction false} LeavesAreNoObjects(m: map<string, Json>, path: Path)
    requires LeafAt(m, path).Some?
    ensures !LeafAt(m, path).value.Obj?
    decreases |path|
  {
    if |path| > 1 { LeavesAreNoObjects(m[path[0]].fields, path[1..]); }
  }

  /** Flat keys of plain paths never start with a dot: empty keys at the root leave no trace. */
  lemma {:induction false} NoLeadingDot(path: Path)
    requires PlainPath(path)
    ensures FlatKey("", path) == "" || FlatKey("", path)[0] != '.'
    decreases |path|
  {
    if path != [] {
      var k, rest := path[0], path[1..];
      assert PlainKey(k) && forall i :: 0 <= i < |rest| ==> rest[i] == path[i + 1];
      if k == "" {
        NoLeadingDot(rest);
      } else if rest != [] {
        KeyUnderPrefix(k, rest);
      }
    }
  }

  /** An object under the empty key of the root cannot come out: its keys would start with a dot. */
  lemma RecoveredRootsArePlain(m: map<string, Json>, flat: map<string, Json>, depth: nat)
    requires PlainKeys(m) && IsFlattening(m, flat) && BuildTree(LeavesOf(flat), depth) == m
    ensures PlainRoot(m)
  {
    var leaves := LeavesOf(flat);
    FlatLeavesAreValues(m, flat);
    if "" in m && [""] !in leaves {
      var p :| p in leaves && p != [] && p[0] == "";
      GoesOn(p, "");
      NoKeyStartsWithADot(m, flat, p);
    }
  }

  lemma NoKeyStartsWithADot(m: map<string, Json>, flat: map<string, Json>, p: Path)
    requires PlainKeys(m) && IsFlattening(m, flat) && p in LeavesOf(flat) && |p| > 1
    ensures p[0] != ""
  {
    ReadPath(flat, p);
    var q :| LeafAt(m, q) == Some(flat[Join(p)]) && FlatKey("", q) == Join(p);
    LeavesHavePlainPaths(m, q);
    NoLeadingDot(q);
  }

  /** What is read back has plain keys and no empty object. */
  lemma RecoveredTreesArePlain(m: map<string, Json>, flat: map<string, Json>)
    requires IsFlattening(m, flat)
    ensures PlainKeys(Unflatten(flat)) && NoEmptyObject(Unflatten(flat))
  {
    FlatLeavesAreValues(m, flat);
    LeavesAreShallow(flat);
    BuiltTreesArePlain(LeavesOf(flat), Longest(flat.Keys) + 1);
  }

  /** The tree is read back from any of its flattenings exactly when no key at any depth holds a dot, no
      sub-object is empty, and the root has no object under the empty key. */
  lemma UnflattenUndoesFlattenExactlyWhen(m: map<string, Json>, flat: map<string, Json>)
    requires IsFlattening(m, flat)
    ensures Unflatten(flat) == m <==> PlainKeys(m) && NoEmptyObject(m) && PlainRoot(m)
  {
    if PlainKeys(m) && NoEmptyObject(m) && PlainRoot(m) {
      TreeIsRecovered(m, flat);
    }
    if Unflatten(flat) == m {
      RecoveredTreesArePlain(m, flat);
      RecoveredRootsArePlain(m, flat, Longest(flat.Keys) + 1);
    }
  }
}
