/** The diff of two flat maps (computeDiff in internal/release/handler.go). */
module ReleaseDiff {
  import opened Json

  // ---------------------------------------------------------------- sorted keys

  /** Go's string order, strictly. */
  predicate Less(a: string, b: string) {
    if a == "" then b != ""
    else if b == "" then false
    else a[0] < b[0] || (a[0] == b[0] && Less(a[1..], b[1..]))
  }

  /** A proper prefix is less, and so is what has the smaller character at the first difference. */
  lemma {:induction false} LessExactlyWhen(a: string, b: string)
    ensures Less(a, b) <==>
              (a < b || exists i :: 0 <= i < |a| && i < |b| && a[..i] == b[..i] && a[i] < b[i])
  {
    if a != "" && b != "" && a[0] == b[0] {
      LessExactlyWhen(a[1..], b[1..]);
      SameHead(a, b);
    }
  }

  lemma SameHead(a: string, b: string)
    requires a != "" && b != "" && a[0] == b[0]
    ensures a < b <==> a[1..] < b[1..]
    ensures (exists i :: 0 <= i < |a| && i < |b| && a[..i] == b[..i] && a[i] < b[i]) <==>
              exists i :: 0 <= i < |a[1..]| && i < |b[1..]| && a[1..][..i] == b[1..][..i] && a[1..][i] < b[1..][i]
  {
    assert a == [a[0]] + a[1..] && b == [b[0]] + b[1..];
    if i :| 0 <= i < |a| && i < |b| && a[..i] == b[..i] && a[i] < b[i] {
      assert i > 0 && a[..i][1..] == b[..i][1..];
      assert a[1..][..i - 1] == a[..i][1..] && b[1..][..i - 1] == b[..i][1..];
      assert a[1..][i - 1] < b[1..][i - 1];
    }
    if i :| 0 <= i < |a[1..]| && i < |b[1..]| && a[1..][..i] == b[1..][..i] && a[1..][i] < b[1..][i] {
      assert a[..i + 1] == [a[0]] + a[1..][..i] && b[..i + 1] == [b[0]] + b[1..][..i];
      assert a[i + 1] < b[i + 1];
    }
  }

  lemma {:induction false} LessIsTotal(a: string, b: string)
    ensures Less(a, b) || a == b || Less(b, a)
    ensures !(Less(a, b) && Less(b, a)) && !Less(a, a)
  {
    if a != "" && b != "" {
      LessIsTotal(a[1..], b[1..]);
      assert a == [a[0]] + a[1..] && b == [b[0]] + b[1..];
    }
    if a != "" { LessIsTotal(a[1..], a[1..]); }
  }

  lemma {:induction false} LessIsTransitive(a: string, b: string, c: string)
    requires Less(a, b) && Less(b, c)
    ensures Less(a, c)
  {
    if a != "" && a[0] == b[0] == c[0] { LessIsTransitive(a[1..], b[1..], c[1..]); }
  }

  ghost predicate Increasing(keys: seq<string>) {
    forall i, j :: 0 <= i < j < |keys| ==> Less(keys[i], keys[j])
  }

  /** Collects the keys in any order and sorts them; as keys of a map they are distinct. */
  method SortedKeys(keys: set<string>) returns (sorted: seq<string>)
    ensures Increasing(sorted)
    ensures forall k :: k in sorted <==> k in keys
  {
    sorted := [];
    var pending := keys;
    while pending != {}
      invariant pending <= keys
      invariant Increasing(sorted)
      invariant forall k :: k in sorted <==> k in keys && k !in pending
      decreases |pending|
    {
      var k :| k in pending;
      sorted := Insert(sorted, k);
      pending := pending - {k};
    }
  }

  method Insert(sorted: seq<string>, k: string) returns (longer: seq<string>)
    requires Increasing(sorted) && k !in sorted
    ensures Increasing(longer)
    ensures forall x :: x in longer <==> x == k || x in sorted
  {
    var at := 0;
    while at < |sorted| && Less(sorted[at], k)
      invariant 0 <= at <= |sorted|
      invariant forall i :: 0 <= i < at ==> Less(sorted[i], k)
    {
      at := at + 1;
    }
    longer := sorted[..at] + [k] + sorted[at..];
    if at < |sorted| { LessIsTotal(sorted[at], k); }
    forall i | at <= i < |sorted| ensures Less(k, sorted[i]) {
      if at < i { LessIsTransitive(k, sorted[at], sorted[i]); }
    }
    assert forall x :: x in sorted <==> x in sorted[..at] || x in sorted[at..] by {
      assert sorted == sorted[..at] + sorted[at..];
    }
  }

  // ---------------------------------------------------------------- the diff

  datatype DiffEntry = DiffEntry(path: string, from: Json, to: Json)

  /** Metadata that differs between any two releases. */
  predicate Ignored(key: string) {
    key in {"metadata.version", "metadata.previous", "metadata.timestamp", "metadata.checksum", "metadata.changelog"}
  }

  /** The key is shown: not ignored, and rendered differently on the two sides. */
  ghost predicate Differs(from: map<string, Json>, to: map<string, Json>, render: Json -> string, key: string) {
    !Ignored(key) && render(Field(from, key)) != render(Field(to, key))
  }

  ghost function Paths(diffs: seq<DiffEntry>): seq<string> {
    seq(|diffs|, i requires 0 <= i < |diffs| => diffs[i].path)
  }

  ghost predicate IsDiff(from: map<string, Json>, to: map<string, Json>, render: Json -> string, diffs: seq<DiffEntry>)
  {
    && Increasing(Paths(diffs))
    && (forall i :: 0 <= i < |diffs| ==>
          && Differs(from, to, render, diffs[i].path)
          && diffs[i].from == Field(from, diffs[i].path) && diffs[i].to == Field(to, diffs[i].path))
    && (forall key :: Differs(from, to, render, key) ==> key in Paths(diffs))
  }

  /** The entry shows this key with its two values. */
  ghost predicate Shows(entry: DiffEntry, from: map<string, Json>, to: map<string, Json>, render: Json -> string) {
    && Differs(from, to, render, entry.path)
    && entry.from == Field(from, entry.path) && entry.to == Field(to, entry.path)
  }

  /** The first n keys have been compared. */
  ghost predicate DiffSoFar(from: map<string, Json>, to: map<string, Json>, render: Json -> string,
                            sortedKeys: seq<string>, n: nat, diffs: seq<DiffEntry>)
    requires n <= |sortedKeys|
  {
    && Increasing(Paths(diffs))
    && (forall i :: 0 <= i < |diffs| ==> Shows(diffs[i], from, to, render))
    && (forall key :: key in Paths(diffs) <==> key in sortedKeys[..n] && Differs(from, to, render, key))
  }

  lemma IncreasingOneMore(keys: seq<string>, k: string)
    requires Increasing(keys) && forall key :: key in keys ==> Less(key, k)
    ensures Increasing(keys + [k])
  {
  }

  lemma OneMorePath(diffs: seq<DiffEntry>, entry: DiffEntry)
    ensures Paths(diffs + [entry]) == Paths(diffs) + [entry.path]
  {
  }

  lemma EarlierKeysAreLess(sortedKeys: seq<string>, n: nat, key: string)
    requires n < |sortedKeys| && Increasing(sortedKeys) && key in sortedKeys[..n]
    ensures Less(key, sortedKeys[n])
  {
    var j :| 0 <= j < n && sortedKeys[..n][j] == key;
    assert Less(sortedKeys[j], sortedKeys[n]);
  }

  lemma OneMoreKey(sortedKeys: seq<string>, n: nat)
    requires n < |sortedKeys|
    ensures sortedKeys[..n + 1] == sortedKeys[..n] + [sortedKeys[n]]
  {
  }

  lemma KeyCompared(from: map<string, Json>, to: map<string, Json>, render: Json -> string,
                    sortedKeys: seq<string>, n: nat, diffs: seq<DiffEntry>)
    requires n < |sortedKeys| && Increasing(sortedKeys) && DiffSoFar(from, to, render, sortedKeys, n, diffs)
    ensures var k := sortedKeys[n];
            var longer :=
              if Differs(from, to, render, k) then diffs + [DiffEntry(k, Field(from, k), Field(to, k))] else diffs;
            DiffSoFar(from, to, render, sortedKeys, n + 1, longer)
  {
    var k := sortedKeys[n];
    OneMoreKey(sortedKeys, n);
    if Differs(from, to, render, k) {
      OneMorePath(diffs, DiffEntry(k, Field(from, k), Field(to, k)));
      forall key | key in Paths(diffs) ensures Less(key, k) { EarlierKeysAreLess(sortedKeys, n, key); }
      IncreasingOneMore(Paths(diffs), k);
    }
  }

  lemma AllCompared(from: map<string, Json>, to: map<string, Json>, render: Json -> string,
                    sortedKeys: seq<string>, diffs: seq<DiffEntry>)
    requires forall key :: key in from || key in to ==> key in sortedKeys
    requires DiffSoFar(from, to, render, sortedKeys, |sortedKeys|, diffs)
    ensures IsDiff(from, to, render, diffs)
  {
    assert sortedKeys[..|sortedKeys|] == sortedKeys;
    forall i | 0 <= i < |diffs| ensures Differs(from, to, render, diffs[i].path) {
      assert Shows(diffs[i], from, to, render);
    }
  }

  method ComputeDiffOfMaps(from: map<string, Json>, to: map<string, Json>, render: Json -> string)
      returns (diffs: seq<DiffEntry>)
    ensures IsDiff(from, to, render, diffs)
  {
    var allKeys: set<string> := from.Keys + to.Keys;
    var sortedKeys := SortedKeys(allKeys);
    diffs := [];
    for n := 0 to |sortedKeys|
      invariant DiffSoFar(from, to, render, sortedKeys, n, diffs)
    {
      var k := sortedKeys[n];
      var fv := if k in from then from[k] else Null;
      var tv := if k in to then to[k] else Null;
      KeyCompared(from, to, render, sortedKeys, n, diffs);
      if !Ignored(k) && render(fv) != render(tv) {
        diffs := diffs + [DiffEntry(k, fv, tv)];
      }
    }
    AllCompared(from, to, render, sortedKeys, diffs);
  }

  // ---------------------------------------------------------------- what a diff is worth

  /** The diff is a function of its inputs. */
  lemma DiffIsUnique(from: map<string, Json>, to: map<string, Json>, render: Json -> string,
                     a: seq<DiffEntry>, b: seq<DiffEntry>)
    requires IsDiff(from, to, render, a) && IsDiff(from, to, render, b)
    ensures a == b
  {
    assert forall key :: key in Paths(a) <==> key in Paths(b);
    IncreasingIsDetermined(Paths(a), Paths(b));
    forall i | 0 <= i < |a| ensures a[i] == b[i] {
      assert Paths(a)[i] == Paths(b)[i];
    }
    assert |a| == |Paths(a)| == |Paths(b)| == |b|;
  }

  lemma NothingIn(keys: seq<string>)
    requires keys != [] ==> keys[0] !in keys
    ensures keys == []
  {
  }

  lemma {:induction false} IncreasingIsDetermined(a: seq<string>, b: seq<string>)
    requires Increasing(a) && Increasing(b)
    requires forall k :: k in a <==> k in b
    ensures a == b
  {
    if a == [] {
      NothingIn(b);
    } else if b == [] {
      NothingIn(a);
    } else {
      assert a[0] in b && b[0] in a;
      var i :| 0 <= i < |b| && b[i] == a[0];
      var j :| 0 <= j < |a| && a[j] == b[0];
      LessIsTotal(a[0], b[0]);
      assert a == [a[0]] + a[1..] && b == [b[0]] + b[1..];
      forall k ensures k in a[1..] <==> k in b[1..] {
        LessIsTotal(a[0], a[0]);
        assert k in a <==> k == a[0] || k in a[1..];
        assert k in b <==> k == b[0] || k in b[1..];
      }
      IncreasingIsDetermined(a[1..], b[1..]);
    }
  }

  function Swapped(diffs: seq<DiffEntry>): seq<DiffEntry> {
    seq(|diffs|, i requires 0 <= i < |diffs| => DiffEntry(diffs[i].path, diffs[i].to, diffs[i].from))
  }

  /** The diff the other way round is the same list with its two sides exchanged. */
  lemma DiffIsSymmetric(from: map<string, Json>, to: map<string, Json>, render: Json -> string,
                        there: seq<DiffEntry>, back: seq<DiffEntry>)
    requires IsDiff(from, to, render, there) && IsDiff(to, from, render, back)
    ensures back == Swapped(there)
  {
    assert Paths(Swapped(there)) == Paths(there);
    forall key | Differs(to, from, render, key) ensures key in Paths(Swapped(there)) {
      assert Differs(from, to, render, key);
    }
    assert IsDiff(to, from, render, Swapped(there));
    DiffIsUnique(to, from, render, back, Swapped(there));
  }

  /** Nothing is reported exactly when the two sides render alike everywhere but on the ignored keys. */
  lemma EmptyDiffMeansAgreement(from: map<string, Json>, to: map<string, Json>, render: Json -> string,
                                diffs: seq<DiffEntry>)
    requires IsDiff(from, to, render, diffs)
    ensures diffs == [] <==> forall key :: !Ignored(key) ==> render(Field(from, key)) == render(Field(to, key))
  {
    if diffs != [] { assert Differs(from, to, render, diffs[0].path); }
    if key :| !Ignored(key) && render(Field(from, key)) != render(Field(to, key)) {
      assert Differs(from, to, render, key);
    }
  }

  function Apply(diffs: seq<DiffEntry>, m: map<string, Json>): map<string, Json> {
    if diffs == [] then m else Apply(diffs[..|diffs| - 1], m)[diffs[|diffs| - 1].path := diffs[|diffs| - 1].to]
  }

  lemma {:induction false} Applied(diffs: seq<DiffEntry>, m: map<string, Json>, i: int, key: string)
    requires Increasing(Paths(diffs))
    requires -1 <= i < |diffs| && (i >= 0 ==> diffs[i].path == key) && (i < 0 ==> key !in Paths(diffs))
    ensures Field(Apply(diffs, m), key) == if i >= 0 then diffs[i].to else Field(m, key)
  {
    if diffs != [] {
      var last := |diffs| - 1;
      var earlier := diffs[..last];
      assert Paths(earlier) == Paths(diffs)[..last];
      assert Paths(diffs)[last] == diffs[last].path;
      if i < last {
        if i >= 0 {
          assert Less(Paths(diffs)[i], Paths(diffs)[last]);
          LessIsTotal(key, key);
        }
        Applied(earlier, m, i, key);
      }
    }
  }

  /** Patching the old release with the reported values gives the new one, up to rendering, on
      every key that is not ignored, and touches no ignored key. */
  lemma ApplyingTheDiff(from: map<string, Json>, to: map<string, Json>, render: Json -> string,
                        diffs: seq<DiffEntry>, key: string)
    requires IsDiff(from, to, render, diffs)
    ensures !Ignored(key) ==> render(Field(Apply(diffs, from), key)) == render(Field(to, key))
    ensures Ignored(key) ==> Field(Apply(diffs, from), key) == Field(from, key)
  {
    if key in Paths(diffs) {
      var i :| 0 <= i < |diffs| && Paths(diffs)[i] == key;
      Applied(diffs, from, i, key);
      assert Differs(from, to, render, diffs[i].path);
    } else {
      Applied(diffs, from, -1, key);
      assert !Differs(from, to, render, key);
    }
  }
}
