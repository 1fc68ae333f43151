/** Reciprocal Rank Fusion of a semantic and a full-text ranking.

    `IsFusion` is the order-free specification of a fused result list. `RrfMerge`
    is proved against it whatever order the score map is iterated in and however
    the sort breaks ties; the lemmas are about every list that satisfies it.
    Scores are exact reals.
*/
module RankFusion {
  import opened Walks

  const RRF_K: nat := 60

  datatype SearchResult = SearchResult(
    chunkId: string, content: string, chunkIndex: int,
    documentId: string, filename: string, score: real)

  datatype Scored = Scored(result: SearchResult, score: real)

  // ---------------------------------------------------------------- scores

  /** What one appearance at a zero-based rank is worth. */
  function Reciprocal(rank: nat): real {
    1.0 / (RRF_K + rank + 1) as real
  }

  function Ids(hits: seq<SearchResult>): set<string> {
    if hits == [] then {} else Ids(hits[..|hits| - 1]) + {hits[|hits| - 1].chunkId}
  }

  /** The sum over all appearances of `id` in one ranking. */
  function Contribution(hits: seq<SearchResult>, id: string): real {
    if hits == [] then 0.0
    else
      var last := |hits| - 1;
      Contribution(hits[..last], id) + if hits[last].chunkId == id then Reciprocal(last) else 0.0
  }

  function FusedScore(semantic: seq<SearchResult>, bm25: seq<SearchResult>, id: string): real {
    Contribution(semantic, id) + Contribution(bm25, id)
  }

  function LastHit(hits: seq<SearchResult>, id: string): SearchResult
    requires id in Ids(hits)
  {
    var last := |hits| - 1;
    if hits[last].chunkId == id then hits[last] else LastHit(hits[..last], id)
  }

  function FirstHit(hits: seq<SearchResult>, id: string): SearchResult
    requires id in Ids(hits)
  {
    var last := |hits| - 1;
    if id in Ids(hits[..last]) then FirstHit(hits[..last], id) else hits[last]
  }

  /** The record kept for a chunk: its last semantic hit, else its first full-text hit. */
  function KeptHit(semantic: seq<SearchResult>, bm25: seq<SearchResult>, id: string): SearchResult
    requires id in Ids(semantic) + Ids(bm25)
  {
    if id in Ids(semantic) then LastHit(semantic, id) else FirstHit(bm25, id)
  }

  ghost predicate DistinctIds(hits: seq<SearchResult>) {
    forall i, j :: 0 <= i < j < |hits| ==> hits[i].chunkId != hits[j].chunkId
  }

  ghost predicate Descending(hits: seq<SearchResult>) {
    forall i, j :: 0 <= i < j < |hits| ==> hits[i].score >= hits[j].score
  }

  function Min(a: nat, b: nat): nat { if a <= b then a else b }

  ghost predicate IsFusedHit(semantic: seq<SearchResult>, bm25: seq<SearchResult>, hit: SearchResult) {
    && hit.chunkId in Ids(semantic) + Ids(bm25)
    && hit == KeptHit(semantic, bm25, hit.chunkId).(score := FusedScore(semantic, bm25, hit.chunkId))
  }

  /** `fused` is a best-first list of the `topK` best chunks of the two rankings. */
  ghost predicate IsFusion(semantic: seq<SearchResult>, bm25: seq<SearchResult>, topK: nat, fused: seq<SearchResult>) {
    && |fused| == Min(topK, |Ids(semantic) + Ids(bm25)|)
    && DistinctIds(fused)
    && Descending(fused)
    && (forall i :: 0 <= i < |fused| ==> IsFusedHit(semantic, bm25, fused[i]))
    && (forall id, i :: id in Ids(semantic) + Ids(bm25) && id !in Ids(fused) && 0 <= i < |fused| ==>
         FusedScore(semantic, bm25, id) <= fused[i].score)
  }

  // ---------------------------------------------------------------- the merge

  ghost predicate Sorted(items: seq<Scored>) {
    forall i, j :: 0 <= i < j < |items| ==> items[i].score >= items[j].score
  }

  /** Stands for the library sort: callers know only that the result is a sorted
      permutation, so nothing proved about them depends on how ties fall. */
  method SortByScore(items: seq<Scored>) returns (sorted: seq<Scored>)
    ensures Sorted(sorted)
    ensures multiset(sorted) == multiset(items)
  {
    sorted := [];
    for n := 0 to |items|
      invariant Sorted(sorted)
      invariant multiset(sorted) == multiset(items[..n])
    {
      assert items[..n + 1] == items[..n] + [items[n]];
      sorted := Insert(sorted, items[n]);
    }
    assert items[..|items|] == items;
  }

  method Insert(items: seq<Scored>, x: Scored) returns (longer: seq<Scored>)
    requires Sorted(items)
    ensures Sorted(longer)
    ensures multiset(longer) == multiset(items) + multiset{x}
  {
    var at := 0;
    while at < |items| && items[at].score >= x.score
      invariant 0 <= at <= |items|
      invariant forall i :: 0 <= i < at ==> items[i].score >= x.score
    {
      at := at + 1;
    }
    longer := items[..at] + [x] + items[at..];
    InsertedOnce(items, at, x);
    InsertedInOrder(items, at, x);
  }

  lemma InsertedOnce(items: seq<Scored>, at: nat, x: Scored)
    requires at <= |items|
    ensures multiset(items[..at] + [x] + items[at..]) == multiset(items) + multiset{x}
  {
    assert items == items[..at] + items[at..];
  }

  lemma InsertedInOrder(items: seq<Scored>, at: nat, x: Scored)
    requires at <= |items| && Sorted(items)
    requires forall i :: 0 <= i < at ==> items[i].score >= x.score
    requires at < |items| ==> items[at].score < x.score
    ensures Sorted(items[..at] + [x] + items[at..])
  {
  }

  /** What the two accumulation loops have built once they have read both lists. */
  ghost predicate Tallied(semantic: seq<SearchResult>, bm25: seq<SearchResult>,
                          scores: map<string, real>, byId: map<string, SearchResult>)
  {
    && scores.Keys == byId.Keys == Ids(semantic) + Ids(bm25)
    && (forall id :: id in scores ==> scores[id] == FusedScore(semantic, bm25, id))
    && (forall id :: id in byId ==> byId[id] == KeptHit(semantic, bm25, id))
  }

  function Plus(scores: map<string, real>, id: string, x: real): map<string, real> {
    scores[id := (if id in scores then scores[id] else 0.0) + x]
  }

  method RrfMerge(semantic: seq<SearchResult>, bm25: seq<SearchResult>, topK: nat) returns (results: seq<SearchResult>)
    ensures IsFusion(semantic, bm25, topK, results)
  {
    var scores, byId := Accumulate(semantic, bm25);
    forall id | id in byId ensures byId[id].chunkId == id { KeptHitHasItsId(semantic, bm25, id); }
    var items := CollectItems(scores, byId);
    var sorted := SortByScore(items);
    SortedStillCollects(items, sorted, scores, byId);
    items := sorted;
    if |items| > topK {
      items := items[..topK];
    }
    results := CopyResults(items);
    TruncationIsFusion(semantic, bm25, topK, scores, byId, sorted, results);
  }

  /** The two accumulation loops: scores add up, the first record kept wins over full-text ones. */
  method Accumulate(semantic: seq<SearchResult>, bm25: seq<SearchResult>)
      returns (scores: map<string, real>, byId: map<string, SearchResult>)
    ensures Tallied(semantic, bm25, scores, byId)
  {
    scores, byId := map[], map[];
    for rank := 0 to |semantic|
      invariant Tallied(semantic[..rank], [], scores, byId)
    {
      TallySemantic(semantic, rank, scores, byId);
      scores := Plus(scores, semantic[rank].chunkId, Reciprocal(rank));
      byId := byId[semantic[rank].chunkId := semantic[rank]];
    }
    assert semantic[..|semantic|] == semantic && bm25[..0] == [];
    for rank := 0 to |bm25|
      invariant Tallied(semantic, bm25[..rank], scores, byId)
    {
      TallyBm25(semantic, bm25, rank, scores, byId);
      scores := Plus(scores, bm25[rank].chunkId, Reciprocal(rank));
      if bm25[rank].chunkId !in byId {
        byId := byId[bm25[rank].chunkId := bm25[rank]];
      }
    }
    assert bm25[..|bm25|] == bm25;
  }

  /** Iterates the score map in an arbitrary order. */
  method CollectItems(scores: map<string, real>, byId: map<string, SearchResult>) returns (items: seq<Scored>)
    requires scores.Keys == byId.Keys
    requires forall id :: id in byId ==> byId[id].chunkId == id
    ensures Collects(items, scores, byId, scores.Keys)
  {
    items := [];
    var pending := scores.Keys;
    ghost var done: set<string> := {};
    while pending != {}
      invariant pending !! done && pending + done == scores.Keys
      invariant Collects(items, scores, byId, done)
      decreases |pending|
    {
      var id :| id in pending;
      CollectsOneMore(items, scores, byId, done, id);
      OneVisited(scores.Keys, pending, done, id);
      items := items + [Scored(byId[id], scores[id])];
      pending, done := pending - {id}, done + {id};
    }
  }

  lemma CollectsOneMore(items: seq<Scored>, scores: map<string, real>, byId: map<string, SearchResult>,
                        done: set<string>, id: string)
    requires scores.Keys == byId.Keys && Collects(items, scores, byId, done)
    requires id in scores && id !in done && byId[id].chunkId == id
    ensures Collects(items + [Scored(byId[id], scores[id])], scores, byId, done + {id})
  {
  }

  method CopyResults(items: seq<Scored>) returns (results: seq<SearchResult>)
    ensures |results| == |items|
    ensures forall i :: 0 <= i < |items| ==> results[i] == items[i].result.(score := items[i].score)
  {
    results := [];
    for i := 0 to |items|
      invariant |results| == i
      invariant forall j :: 0 <= j < i ==> results[j] == items[j].result.(score := items[j].score)
    {
      results := results + [items[i].result.(score := items[i].score)];
    }
  }

  lemma TallySemantic(semantic: seq<SearchResult>, rank: nat, scores: map<string, real>,
                      byId: map<string, SearchResult>)
    requires rank < |semantic| && Tallied(semantic[..rank], [], scores, byId)
    ensures Tallied(semantic[..rank + 1], [], Plus(scores, semantic[rank].chunkId, Reciprocal(rank)),
                    byId[semantic[rank].chunkId := semantic[rank]])
  {
    assert semantic[..rank + 1][..rank] == semantic[..rank];
    if semantic[rank].chunkId !in scores {
      AbsentContributesNothing(semantic[..rank], semantic[rank].chunkId);
    }
  }

  lemma TallyBm25(semantic: seq<SearchResult>, bm25: seq<SearchResult>, rank: nat,
                  scores: map<string, real>, byId: map<string, SearchResult>)
    requires rank < |bm25| && Tallied(semantic, bm25[..rank], scores, byId)
    ensures var r := bm25[rank];
            Tallied(semantic, bm25[..rank + 1], Plus(scores, r.chunkId, Reciprocal(rank)),
                    if r.chunkId in byId then byId else byId[r.chunkId := r])
  {
    var longer := bm25[..rank + 1];
    assert longer[..rank] == bm25[..rank];
    TallyLast(semantic, longer, scores, byId);
  }

  lemma TallyLast(semantic: seq<SearchResult>, bm25: seq<SearchResult>,
                  scores: map<string, real>, byId: map<string, SearchResult>)
    requires bm25 != [] && Tallied(semantic, bm25[..|bm25| - 1], scores, byId)
    ensures var rank := |bm25| - 1;
            var r := bm25[rank];
            Tallied(semantic, bm25, Plus(scores, r.chunkId, Reciprocal(rank)),
                    if r.chunkId in byId then byId else byId[r.chunkId := r])
  {
    var rank := |bm25| - 1;
    var r := bm25[rank];
    var added := Plus(scores, r.chunkId, Reciprocal(rank));
    var kept := if r.chunkId in byId then byId else byId[r.chunkId := r];
    assert Ids(bm25) == Ids(bm25[..rank]) + {r.chunkId};
    forall id | id in added ensures added[id] == FusedScore(semantic, bm25, id) {
      ScoreOneMore(semantic, bm25, scores, byId, id);
    }
    forall id | id in kept ensures kept[id] == KeptHit(semantic, bm25, id) {
      KeptOneMore(semantic, bm25, scores, byId, id);
    }
  }

  lemma ScoreOneMore(semantic: seq<SearchResult>, bm25: seq<SearchResult>,
                     scores: map<string, real>, byId: map<string, SearchResult>, id: string)
    requires bm25 != [] && Tallied(semantic, bm25[..|bm25| - 1], scores, byId)
    requires id in Plus(scores, bm25[|bm25| - 1].chunkId, Reciprocal(|bm25| - 1))
    ensures Plus(scores, bm25[|bm25| - 1].chunkId, Reciprocal(|bm25| - 1))[id] == FusedScore(semantic, bm25, id)
  {
    if id !in scores {
      AbsentContributesNothing(semantic, id);
      AbsentContributesNothing(bm25[..|bm25| - 1], id);
    }
  }

  lemma KeptOneMore(semantic: seq<SearchResult>, bm25: seq<SearchResult>,
                    scores: map<string, real>, byId: map<string, SearchResult>, id: string)
    requires bm25 != [] && Tallied(semantic, bm25[..|bm25| - 1], scores, byId)
    requires id in byId || id == bm25[|bm25| - 1].chunkId
    ensures KeptHit(semantic, bm25, id) == if id in byId then byId[id] else bm25[|bm25| - 1]
  {
  }

  /** `items` holds exactly one entry for each id of `done`. */
  ghost predicate Collects(items: seq<Scored>, scores: map<string, real>, byId: map<string, SearchResult>,
                           done: set<string>)
    requires scores.Keys == byId.Keys
  {
    && |items| == |done|
    && done <= scores.Keys
    && (forall i :: 0 <= i < |items| ==>
          && items[i].result.chunkId in done
          && items[i] == Scored(byId[items[i].result.chunkId], scores[items[i].result.chunkId]))
    && (forall i, j :: 0 <= i < j < |items| ==> items[i].result.chunkId != items[j].result.chunkId)
  }

  lemma {:induction false} AbsentContributesNothing(hits: seq<SearchResult>, id: string)
    requires id !in Ids(hits)
    ensures Contribution(hits, id) == 0.0
  {
    if hits != [] {
      AbsentContributesNothing(hits[..|hits| - 1], id);
    }
  }

  lemma {:induction false} HitIsListed(hits: seq<SearchResult>, i: nat)
    requires i < |hits|
    ensures hits[i].chunkId in Ids(hits)
  {
    if i < |hits| - 1 {
      HitIsListed(hits[..|hits| - 1], i);
    }
  }

  lemma {:induction false} ListedHit(hits: seq<SearchResult>, id: string) returns (i: nat)
    requires id in Ids(hits)
    ensures i < |hits| && hits[i].chunkId == id
  {
    i := |hits| - 1;
    if hits[i].chunkId != id {
      i := ListedHit(hits[..i], id);
    }
  }

  lemma {:induction false} KeptHitHasItsId(semantic: seq<SearchResult>, bm25: seq<SearchResult>, id: string)
    requires id in Ids(semantic) + Ids(bm25)
    ensures KeptHit(semantic, bm25, id).chunkId == id
    decreases |semantic| + |bm25|
  {
    if id in Ids(semantic) {
      if semantic[|semantic| - 1].chunkId != id { KeptHitHasItsId(semantic[..|semantic| - 1], bm25, id); }
    } else if id in Ids(bm25[..|bm25| - 1]) {
      KeptHitHasItsId(semantic, bm25[..|bm25| - 1], id);
    }
  }

  lemma SortedStillCollects(items: seq<Scored>, sorted: seq<Scored>, scores: map<string, real>,
                            byId: map<string, SearchResult>)
    requires scores.Keys == byId.Keys
    requires forall id :: id in byId ==> byId[id].chunkId == id
    requires Collects(items, scores, byId, scores.Keys)
    requires multiset(sorted) == multiset(items)
    ensures Collects(sorted, scores, byId, scores.Keys)
  {
    assert |sorted| == |multiset(sorted)| == |multiset(items)| == |items|;
    forall i | 0 <= i < |sorted|
      ensures sorted[i].result.chunkId in scores
      ensures sorted[i] == Scored(byId[sorted[i].result.chunkId], scores[sorted[i].result.chunkId])
    {
      assert sorted[i] in multiset(items);
      assert sorted[i] in items;
    }
    forall i, j | 0 <= i < j < |sorted| ensures sorted[i].result.chunkId != sorted[j].result.chunkId {
      if sorted[i].result.chunkId == sorted[j].result.chunkId {
        assert sorted[i] == sorted[j];
        DuplicateCountsTwice(sorted, i, j);
        DistinctCountsOnce(items, sorted[i]);
      }
    }
  }

  lemma DuplicateCountsTwice<T>(s: seq<T>, i: nat, j: nat)
    requires i < j < |s| && s[i] == s[j]
    ensures multiset(s)[s[i]] >= 2
  {
    assert s == s[..j] + [s[j]] + s[j + 1..];
    assert s[i] in s[..j];
  }

  lemma {:induction false} DistinctCountsOnce(items: seq<Scored>, x: Scored)
    requires forall i, j :: 0 <= i < j < |items| ==> items[i] != items[j]
    ensures multiset(items)[x] <= 1
  {
    if items != [] {
      var last := |items| - 1;
      assert items == items[..last] + [items[last]];
      DistinctCountsOnce(items[..last], x);
      if items[last] == x {
        assert forall i :: 0 <= i < last ==> items[..last][i] == items[i] != x;
        assert x !in items[..last];
      }
    }
  }

  /** Any sorted collection of the scores, cut at `topK`, meets the specification. */
  lemma TruncationIsFusion(semantic: seq<SearchResult>, bm25: seq<SearchResult>, topK: nat,
                           scores: map<string, real>, byId: map<string, SearchResult>,
                           sorted: seq<Scored>, results: seq<SearchResult>)
    requires Tallied(semantic, bm25, scores, byId)
    requires forall id :: id in byId ==> byId[id].chunkId == id
    requires Sorted(sorted) && Collects(sorted, scores, byId, scores.Keys)
    requires |results| == Min(topK, |sorted|)
    requires forall i :: 0 <= i < |results| ==> results[i] == sorted[i].result.(score := sorted[i].score)
    ensures IsFusion(semantic, bm25, topK, results)
  {
    forall id, i | id in Ids(semantic) + Ids(bm25) && id !in Ids(results) && 0 <= i < |results|
      ensures FusedScore(semantic, bm25, id) <= results[i].score
    {
      var j := CollectsEveryId(sorted, scores, byId, id);
      if j < |results| { HitIsListed(results, j); }
    }
  }

  /** As many different ids as there are ids: none is missing. */
  lemma CollectsEveryId(items: seq<Scored>, scores: map<string, real>, byId: map<string, SearchResult>, id: string)
      returns (j: nat)
    requires scores.Keys == byId.Keys
    requires Collects(items, scores, byId, scores.Keys) && id in scores
    ensures j < |items| && items[j].result.chunkId == id
  {
    var ids := seq(|items|, i requires 0 <= i < |items| => items[i].result.chunkId);
    DistinctSeqCardinality(ids);
    SubsetOfSameSize(set i | 0 <= i < |ids| :: ids[i], scores.Keys);
    j :| 0 <= j < |ids| && ids[j] == id;
  }

  lemma {:induction false} DistinctSeqCardinality<T(!new)>(s: seq<T>)
    requires forall i, j :: 0 <= i < j < |s| ==> s[i] != s[j]
    ensures |set i | 0 <= i < |s| :: s[i]| == |s|
  {
    var elements := set i | 0 <= i < |s| :: s[i];
    if s != [] {
      var last := |s| - 1;
      DistinctSeqCardinality(s[..last]);
      var shorter := set i | 0 <= i < last :: s[..last][i];
      assert elements == shorter + {s[last]} by {
        forall x | x in elements ensures x in shorter + {s[last]} {
          var i :| 0 <= i < |s| && s[i] == x;
          if i < last { assert s[..last][i] == x; }
        }
        forall x | x in shorter ensures x in elements {
          var i :| 0 <= i < last && s[..last][i] == x;
          assert s[i] == x;
        }
      }
      assert s[last] !in shorter;
    }
  }

  lemma SubsetOfSameSize<T>(a: set<T>, b: set<T>)
    requires a <= b && |a| == |b|
    ensures a == b
  {
    assert |b - a| == |b| - |a|;
  }

  lemma SubsetIsSmaller<T>(a: set<T>, b: set<T>)
    requires a <= b
    ensures |a| <= |b|
  {
    assert |b - a| == |b| - |a|;
  }

  // ---------------------------------------------------------------- the specification fixes the scores

  lemma {:induction false} IdsSize(hits: seq<SearchResult>)
    ensures |Ids(hits)| <= |hits|
    ensures DistinctIds(hits) ==> |Ids(hits)| == |hits|
  {
    if hits != [] {
      var last := |hits| - 1;
      IdsSize(hits[..last]);
      if DistinctIds(hits) && hits[last].chunkId in Ids(hits[..last]) {
        var _ := ListedHit(hits[..last], hits[last].chunkId);
      }
    }
  }

  /** Two results for the same query carry the same score at every position,
      however the map was iterated and ties were broken. */
  lemma FusedScoresAreDetermined(semantic: seq<SearchResult>, bm25: seq<SearchResult>, topK: nat,
                                 a: seq<SearchResult>, b: seq<SearchResult>)
    requires IsFusion(semantic, bm25, topK, a) && IsFusion(semantic, bm25, topK, b)
    ensures |a| == |b| && forall i :: 0 <= i < |a| ==> a[i].score == b[i].score
  {
    forall i | 0 <= i < |a| ensures a[i].score == b[i].score {
      NotAbove(semantic, bm25, topK, a, b, i);
      NotAbove(semantic, bm25, topK, b, a, i);
    }
  }

  /** Pigeonhole: were a[i] better than b[i], the i+1 best chunks of `a` would all lie in b[..i]. */
  lemma NotAbove(semantic: seq<SearchResult>, bm25: seq<SearchResult>, topK: nat,
                 a: seq<SearchResult>, b: seq<SearchResult>, i: nat)
    requires IsFusion(semantic, bm25, topK, a) && IsFusion(semantic, bm25, topK, b)
    requires i < |a| == |b|
    ensures a[i].score <= b[i].score
  {
    if a[i].score > b[i].score {
      forall id | id in Ids(a[..i + 1]) ensures id in Ids(b[..i]) {
        var p := ListedHit(a[..i + 1], id);
        assert a[p].score >= a[i].score && IsFusedHit(semantic, bm25, a[p]);
        if id in Ids(b) {
          var q := ListedHit(b, id);
          assert IsFusedHit(semantic, bm25, b[q]);
          assert q < i;
          HitIsListed(b[..i], q);
        }
      }
      SubsetIsSmaller(Ids(a[..i + 1]), Ids(b[..i]));
      IdsSize(a[..i + 1]);
      IdsSize(b[..i]);
    }
  }

  // ---------------------------------------------------------------- duplicate-free rankings

  function Prefix(hits: seq<SearchResult>, k: nat): seq<SearchResult> {
    if k <= |hits| then hits[..k] else hits
  }

  lemma ReciprocalsDecrease(a: nat, b: nat)
    requires a < b
    ensures 0.0 < Reciprocal(b) < Reciprocal(a)
  {
    var x, y := (RRF_K + a + 1) as real, (RRF_K + b + 1) as real;
    assert 0.0 < x < y;
    assert (1.0 / x) * x == 1.0 && (1.0 / y) * y == 1.0;
    if 1.0 / x <= 1.0 / y {
      assert (1.0 / y) * y >= (1.0 / x) * y > (1.0 / x) * x;
    }
  }

  lemma {:induction false} ContributionAt(hits: seq<SearchResult>, p: nat)
    requires DistinctIds(hits) && p < |hits|
    ensures Contribution(hits, hits[p].chunkId) == Reciprocal(p)
  {
    var last := |hits| - 1;
    if p < last {
      ContributionAt(hits[..last], p);
    } else if hits[p].chunkId in Ids(hits[..last]) {
      var _ := ListedHit(hits[..last], hits[p].chunkId);
    } else {
      AbsentContributesNothing(hits[..last], hits[p].chunkId);
    }
  }

  /** The place of a chunk in one ranking, if it has one. */
  ghost predicate PlacedAt(hits: seq<SearchResult>, id: string, p: int) {
    if p < 0 then forall i :: 0 <= i < |hits| ==> hits[i].chunkId != id else p < |hits| && hits[p].chunkId == id
  }

  lemma PlaceIsWorth(hits: seq<SearchResult>, id: string, p: int)
    requires DistinctIds(hits) && PlacedAt(hits, id, p)
    ensures Contribution(hits, id) == if p < 0 then 0.0 else 1.0 / (61 + p) as real
  {
    if p >= 0 {
      ContributionAt(hits, p);
    } else if id in Ids(hits) {
      var _ := ListedHit(hits, id);
    } else {
      AbsentContributesNothing(hits, id);
    }
  }

  /** A chunk in place p of the one ranking and place q of the other scores 1/(61 + p) + 1/(61 + q). */
  lemma ScoreOfPlaces(semantic: seq<SearchResult>, bm25: seq<SearchResult>, id: string, p: int, q: int)
    requires DistinctIds(semantic) && DistinctIds(bm25) && PlacedAt(semantic, id, p) && PlacedAt(bm25, id, q)
    ensures FusedScore(semantic, bm25, id) ==
              (if p < 0 then 0.0 else 1.0 / (61 + p) as real) + (if q < 0 then 0.0 else 1.0 / (61 + q) as real)
  {
    PlaceIsWorth(semantic, id, p);
    PlaceIsWorth(bm25, id, q);
  }

  /** What is kept of a chunk is what the semantic ranking says of it; the full-text one only speaks for chunks
      the other does not list. */
  lemma KeptRecord(semantic: seq<SearchResult>, bm25: seq<SearchResult>, id: string, p: int, q: int)
    requires DistinctIds(semantic) && DistinctIds(bm25) && PlacedAt(semantic, id, p) && PlacedAt(bm25, id, q)
    requires p >= 0 || q >= 0
    ensures id in Ids(semantic) + Ids(bm25)
    ensures KeptHit(semantic, bm25, id) == if p >= 0 then semantic[p] else bm25[q]
  {
    if p >= 0 {
      OnlyHit(semantic, p);
    } else {
      HitIsListed(bm25, q);
      if id in Ids(semantic) { var _ := ListedHit(semantic, id); }
      OnlyFirstHit(bm25, q);
    }
  }

  /** A chunk listed more than once scores for each appearance, ... */
  lemma EachAppearanceCounts(hits: seq<SearchResult>, h: SearchResult, id: string)
    ensures Contribution([], id) == 0.0
    ensures Contribution(hits + [h], id) ==
              Contribution(hits, id) + (if h.chunkId == id then 1.0 / (61 + |hits|) as real else 0.0)
  {
    ReciprocalIs(|hits|);
  }

  /** ... and its last semantic record is kept, or, where it has none, its first full-text one. */
  lemma {:induction false} LastHitIs(hits: seq<SearchResult>, id: string) returns (i: nat)
    requires id in Ids(hits)
    ensures i < |hits| && hits[i].chunkId == id && LastHit(hits, id) == hits[i]
    ensures forall j :: i < j < |hits| ==> hits[j].chunkId != id
  {
    i := |hits| - 1;
    if hits[i].chunkId != id { i := LastHitIs(hits[..|hits| - 1], id); }
  }

  lemma {:induction false} FirstHitIs(hits: seq<SearchResult>, id: string) returns (i: nat)
    requires id in Ids(hits)
    ensures i < |hits| && hits[i].chunkId == id && FirstHit(hits, id) == hits[i]
    ensures forall j :: 0 <= j < i ==> hits[j].chunkId != id
  {
    var last := |hits| - 1;
    if id in Ids(hits[..last]) {
      i := FirstHitIs(hits[..last], id);
    } else {
      i := last;
      forall j | 0 <= j < last ensures hits[j].chunkId != id { HitIsListed(hits[..last], j); }
    }
  }

  lemma {:induction false} OnlyFirstHit(hits: seq<SearchResult>, p: nat)
    requires DistinctIds(hits) && p < |hits|
    ensures hits[p].chunkId in Ids(hits) && FirstHit(hits, hits[p].chunkId) == hits[p]
  {
    HitIsListed(hits, p);
    if p < |hits| - 1 {
      OnlyFirstHit(hits[..|hits| - 1], p);
    } else if hits[p].chunkId in Ids(hits[..p]) {
      var _ := ListedHit(hits[..p], hits[p].chunkId);
    }
  }

  lemma ContributionIsNonNegative(hits: seq<SearchResult>, id: string)
    requires DistinctIds(hits)
    ensures if id in Ids(hits) then Contribution(hits, id) > 0.0 else Contribution(hits, id) == 0.0
  {
  }

  /** Reading only the first k hits loses nothing for a chunk among them, and at
      most the worth of rank k for any other. */
  lemma WindowedContribution(full: seq<SearchResult>, k: nat, id: string)
    requires DistinctIds(full)
    ensures var seen := Contribution(Prefix(full, k), id);
            seen <= Contribution(full, id) <= seen + Reciprocal(k)
    ensures id in Ids(Prefix(full, k)) ==> Contribution(Prefix(full, k), id) == Contribution(full, id)
    ensures id in Ids(full) && id !in Ids(Prefix(full, k)) ==> |full| > k
  {
    var window := Prefix(full, k);
    ReciprocalsDecrease(k, k + 1);
    if id in Ids(window) {
      var p := ListedHit(window, id);
      ContributionAt(window, p);
      ContributionAt(full, p);
    } else {
      AbsentContributesNothing(window, id);
      ContributionIsNonNegative(full, id);
      if id in Ids(full) {
        var p := ListedHit(full, id);
        ContributionAt(full, p);
        if p < k {
          assert window[p] == full[p];
          HitIsListed(window, p);
        } else if p > k {
          ReciprocalsDecrease(k, p);
        }
      }
    }
  }

  /** The two stores return prefixes of one ranking each; both windows hold 2 * topK hits. */
  method HybridSearch(semantic: seq<SearchResult>, bm25: seq<SearchResult>, topK: nat)
      returns (results: seq<SearchResult>)
    ensures IsFusion(Prefix(semantic, 2 * topK), Prefix(bm25, 2 * topK), topK, results)
  {
    var fetchK := topK * 2;
    var semanticResults, bm25Results := Prefix(semantic, fetchK), Prefix(bm25, fetchK);
    results := RrfMerge(semanticResults, bm25Results, topK);
  }

  lemma WindowCost(semantic: seq<SearchResult>, bm25: seq<SearchResult>, topK: nat,
                   results: seq<SearchResult>, id: string)
    requires DistinctIds(semantic) && DistinctIds(bm25)
    requires IsFusion(Prefix(semantic, 2 * topK), Prefix(bm25, 2 * topK), topK, results)
    ensures forall i :: 0 <= i < |results| ==>
              results[i].score <= FusedScore(semantic, bm25, results[i].chunkId)
                               <= results[i].score + Reciprocal(2 * topK)
    ensures id !in Ids(Prefix(semantic, 2 * topK)) + Ids(Prefix(bm25, 2 * topK)) ==>
              FusedScore(semantic, bm25, id) <= 2.0 * Reciprocal(2 * topK)
  {
    forall i | 0 <= i < |results|
      ensures results[i].score <= FusedScore(semantic, bm25, results[i].chunkId)
                               <= results[i].score + Reciprocal(2 * topK)
    {
      WindowedContribution(semantic, 2 * topK, results[i].chunkId);
      WindowedContribution(bm25, 2 * topK, results[i].chunkId);
    }
    WindowedContribution(semantic, 2 * topK, id);
    WindowedContribution(bm25, 2 * topK, id);
    if id !in Ids(Prefix(semantic, 2 * topK)) + Ids(Prefix(bm25, 2 * topK)) {
      AbsentContributesNothing(Prefix(semantic, 2 * topK), id);
      AbsentContributesNothing(Prefix(bm25, 2 * topK), id);
    }
  }

  lemma ReciprocalIs(rank: nat)
    ensures Reciprocal(rank) == 1.0 / (61 + rank) as real
  {
  }

  /** A returned score is short of the score over the full rankings by at most
      1/(61 + 2 topK); a chunk outside both windows is worth at most twice that. */
  lemma WindowBound(semantic: seq<SearchResult>, bm25: seq<SearchResult>, topK: nat,
                    results: seq<SearchResult>, id: string)
    requires DistinctIds(semantic) && DistinctIds(bm25)
    requires IsFusion(Prefix(semantic, 2 * topK), Prefix(bm25, 2 * topK), topK, results)
    ensures forall i :: 0 <= i < |results| ==>
              results[i].score <= FusedScore(semantic, bm25, results[i].chunkId)
                               <= results[i].score + 1.0 / (61 + 2 * topK) as real
    ensures id !in Ids(Prefix(semantic, 2 * topK)) + Ids(Prefix(bm25, 2 * topK)) ==>
              FusedScore(semantic, bm25, id) <= 2.0 * (1.0 / (61 + 2 * topK) as real)
  {
    WindowCost(semantic, bm25, topK, results, id);
    ReciprocalIs(2 * topK);
  }

  lemma EarlyHitScore(semantic: seq<SearchResult>, bm25: seq<SearchResult>, long: seq<SearchResult>, p: nat, k: nat)
    requires DistinctIds(semantic) && DistinctIds(bm25) && (long == semantic || long == bm25)
    requires p < |long| && p < k
    ensures long[p].chunkId in Ids(semantic) + Ids(bm25)
    ensures FusedScore(semantic, bm25, long[p].chunkId) >= Reciprocal(k - 1)
  {
    HitIsListed(long, p);
    ContributionAt(long, p);
    ContributionIsNonNegative(semantic, long[p].chunkId);
    ContributionIsNonNegative(bm25, long[p].chunkId);
    if p < k - 1 { ReciprocalsDecrease(p, k - 1); }
  }

  lemma EarlyHitIsKept(semantic: seq<SearchResult>, bm25: seq<SearchResult>, topK: nat, results: seq<SearchResult>,
                       c: nat, long: seq<SearchResult>, id: string)
    requires DistinctIds(semantic) && DistinctIds(bm25) && IsFusion(semantic, bm25, topK, results)
    requires c < |results| && results[c].score < Reciprocal(topK - 1)
    requires long in {semantic, bm25} && |long| >= topK && id in Ids(long[..topK])
    ensures id in Ids(results) - {results[c].chunkId}
  {
    var p := ListedHit(long[..topK], id);
    EarlyHitScore(semantic, bm25, long, p, topK);
    assert IsFusedHit(semantic, bm25, results[c]);
  }

  lemma ScoreFloor(semantic: seq<SearchResult>, bm25: seq<SearchResult>, topK: nat, results: seq<SearchResult>,
                   c: nat)
    requires DistinctIds(semantic) && DistinctIds(bm25) && IsFusion(semantic, bm25, topK, results)
    requires c < |results| && (|semantic| >= topK || |bm25| >= topK)
    ensures results[c].score >= Reciprocal(topK - 1)
  {
    var long := if |semantic| >= topK then semantic else bm25;
    if results[c].score < Reciprocal(topK - 1) {
      // Every one of the first topK hits beats results[c], so all are kept beside it: one too many.
      forall id | id in Ids(long[..topK]) ensures id in Ids(results) - {results[c].chunkId} {
        EarlyHitIsKept(semantic, bm25, topK, results, c, long, id);
      }
      HitIsListed(results, c);
      IdsSize(long[..topK]);
      IdsSize(results);
      SubsetIsSmaller(Ids(long[..topK]), Ids(results) - {results[c].chunkId});
    }
  }

  /** Once one ranking fills the first topK places, nothing returned scores below 1/(60 + topK). */
  lemma KeptScoreFloor(semantic: seq<SearchResult>, bm25: seq<SearchResult>, topK: nat, results: seq<SearchResult>,
                       c: nat)
    requires DistinctIds(semantic) && DistinctIds(bm25) && IsFusion(semantic, bm25, topK, results)
    requires c < |results| && (|semantic| >= topK || |bm25| >= topK)
    ensures results[c].score >= 1.0 / (60 + topK) as real
  {
    ScoreFloor(semantic, bm25, topK, results, c);
    ReciprocalIs(topK - 1);
  }

  lemma NearOptimal(semantic: seq<SearchResult>, bm25: seq<SearchResult>, topK: nat,
                    results: seq<SearchResult>, c: nat, id: string)
    requires DistinctIds(semantic) && DistinctIds(bm25)
    requires IsFusion(Prefix(semantic, 2 * topK), Prefix(bm25, 2 * topK), topK, results)
    requires c < |results| && id in Ids(semantic) + Ids(bm25) && id !in Ids(results)
    ensures FusedScore(semantic, bm25, id) <= FusedScore(semantic, bm25, results[c].chunkId) + Reciprocal(2 * topK)
  {
    var sw, bw := Prefix(semantic, 2 * topK), Prefix(bm25, 2 * topK);
    WindowCost(semantic, bm25, topK, results, id);
    WindowedContribution(semantic, 2 * topK, id);
    WindowedContribution(bm25, 2 * topK, id);
    if id in Ids(sw) + Ids(bw) {
      LeftOutIsNotBetter(sw, bw, topK, results, c, id);
    } else {
      ScoreFloor(sw, bw, topK, results, c);
      TwiceAtTwiceTheDepth(topK);
    }
  }

  /** Fetching windows of 2 * topK instead of the whole rankings costs little: no
      chunk left out has a full score above a returned one's by more than 1/(61 + 2 topK). */
  lemma HybridSearchIsNearOptimal(semantic: seq<SearchResult>, bm25: seq<SearchResult>, topK: nat,
                                  results: seq<SearchResult>, c: nat, id: string)
    requires DistinctIds(semantic) && DistinctIds(bm25)
    requires IsFusion(Prefix(semantic, 2 * topK), Prefix(bm25, 2 * topK), topK, results)
    requires c < |results| && id in Ids(semantic) + Ids(bm25) && id !in Ids(results)
    ensures FusedScore(semantic, bm25, id) <=
              FusedScore(semantic, bm25, results[c].chunkId) + 1.0 / (61 + 2 * topK) as real
  {
    NearOptimal(semantic, bm25, topK, results, c, id);
    WithinOneReciprocal(FusedScore(semantic, bm25, id), FusedScore(semantic, bm25, results[c].chunkId), topK);
  }

  lemma WithinOneReciprocal(a: real, b: real, topK: nat)
    requires a <= b + Reciprocal(2 * topK)
    ensures a <= b + 1.0 / (61 + 2 * topK) as real
  {
    ReciprocalIs(2 * topK);
  }

  lemma LeftOutIsNotBetter(semantic: seq<SearchResult>, bm25: seq<SearchResult>, topK: nat,
                           results: seq<SearchResult>, c: nat, id: string)
    requires IsFusion(semantic, bm25, topK, results)
    requires c < |results| && id in Ids(semantic) + Ids(bm25) && id !in Ids(results)
    ensures FusedScore(semantic, bm25, id) <= results[c].score
  {
  }

  /** 2/(61 + 2k) <= 1/(60 + k) + 1/(61 + 2k). */
  lemma TwiceAtTwiceTheDepth(k: nat)
    requires k > 0
    ensures 2.0 * Reciprocal(2 * k) <= Reciprocal(k - 1) + Reciprocal(2 * k)
  {
  }

  // ---------------------------------------------------------------- dominance and consensus

  /** `a` stands before `b` in this ranking, or `b` is not in it. */
  ghost predicate RankedAbove(hits: seq<SearchResult>, a: string, b: string) {
    b in Ids(hits) ==> exists p, q :: 0 <= p < q < |hits| && hits[p].chunkId == a && hits[q].chunkId == b
  }

  lemma AboveContributesMore(hits: seq<SearchResult>, a: string, b: string)
    requires DistinctIds(hits) && RankedAbove(hits, a, b)
    ensures Contribution(hits, a) >= Contribution(hits, b)
    ensures a in Ids(hits) || b in Ids(hits) ==> Contribution(hits, a) > Contribution(hits, b)
  {
    ContributionIsNonNegative(hits, a);
    ContributionIsNonNegative(hits, b);
    if b in Ids(hits) {
      var p, q :| 0 <= p < q < |hits| && hits[p].chunkId == a && hits[q].chunkId == b;
      ContributionAt(hits, p);
      ContributionAt(hits, q);
      ReciprocalsDecrease(p, q);
    }
  }

  /** A chunk ranked above another in both lists comes strictly before it, and is kept if the other is. */
  lemma RankDominance(semantic: seq<SearchResult>, bm25: seq<SearchResult>, topK: nat,
                      results: seq<SearchResult>, a: string, j: nat)
    requires DistinctIds(semantic) && DistinctIds(bm25) && IsFusion(semantic, bm25, topK, results)
    requires j < |results|
    requires RankedAbove(semantic, a, results[j].chunkId) && RankedAbove(bm25, a, results[j].chunkId)
    ensures exists i :: 0 <= i < j && results[i].chunkId == a
  {
    var b := results[j].chunkId;
    assert IsFusedHit(semantic, bm25, results[j]);
    AboveContributesMore(semantic, a, b);
    AboveContributesMore(bm25, a, b);
    AbovePutsIn(semantic, a, b);
    AbovePutsIn(bm25, a, b);
    assert FusedScore(semantic, bm25, a) > results[j].score;
    var i := ListedHit(results, a);
    assert IsFusedHit(semantic, bm25, results[i]);
  }

  lemma AbovePutsIn(hits: seq<SearchResult>, a: string, b: string)
    requires RankedAbove(hits, a, b)
    ensures b in Ids(hits) ==> a in Ids(hits)
  {
    if b in Ids(hits) {
      var p, q :| 0 <= p < q < |hits| && hits[p].chunkId == a && hits[q].chunkId == b;
      HitIsListed(hits, p);
    }
  }

  /** The list itself, each chunk with twice its reciprocal. */
  function Doubled(hits: seq<SearchResult>, topK: nat): seq<SearchResult> {
    seq(Min(topK, |hits|), i requires 0 <= i < |hits| => hits[i].(score := 2.0 * Reciprocal(i)))
  }

  lemma DoubledIsFused(hits: seq<SearchResult>, topK: nat, i: nat)
    requires DistinctIds(hits) && i < |Doubled(hits, topK)|
    ensures IsFusedHit(hits, hits, Doubled(hits, topK)[i])
  {
    HitIsListed(hits, i);
    ContributionAt(hits, i);
    OnlyHit(hits, i);
  }

  lemma DoubledBeatsTheRest(hits: seq<SearchResult>, topK: nat, id: string, i: nat)
    requires DistinctIds(hits) && id in Ids(hits) && id !in Ids(Doubled(hits, topK)) && i < |Doubled(hits, topK)|
    ensures FusedScore(hits, hits, id) <= Doubled(hits, topK)[i].score
  {
    var p := ListedHit(hits, id);
    ContributionAt(hits, p);
    if p < |Doubled(hits, topK)| { HitIsListed(Doubled(hits, topK), p); }
    if i < p { ReciprocalsDecrease(i, p); }
  }

  lemma DoubledIsFusion(hits: seq<SearchResult>, topK: nat)
    requires DistinctIds(hits)
    ensures IsFusion(hits, hits, topK, Doubled(hits, topK))
  {
    var ideal := Doubled(hits, topK);
    IdsSize(hits);
    assert Ids(hits) + Ids(hits) == Ids(hits);
    forall i | 0 <= i < |ideal| ensures IsFusedHit(hits, hits, ideal[i]) { DoubledIsFused(hits, topK, i); }
    forall i, j | 0 <= i < j < |ideal| ensures ideal[i].score >= ideal[j].score { ReciprocalsDecrease(i, j); }
    forall id, i | id in Ids(hits) && id !in Ids(ideal) && 0 <= i < |ideal|
      ensures FusedScore(hits, hits, id) <= ideal[i].score
    {
      DoubledBeatsTheRest(hits, topK, id, i);
    }
  }

  lemma FusedWithItself(hits: seq<SearchResult>, topK: nat, results: seq<SearchResult>)
    requires DistinctIds(hits) && IsFusion(hits, hits, topK, results)
    ensures |results| == Min(topK, |hits|)
    ensures forall i :: 0 <= i < |results| ==> results[i] == hits[i].(score := 2.0 * Reciprocal(i))
  {
    var ideal := Doubled(hits, topK);
    IdsSize(hits);
    assert Ids(hits) + Ids(hits) == Ids(hits);
    DoubledIsFusion(hits, topK);
    FusedScoresAreDetermined(hits, hits, topK, ideal, results);
    forall i | 0 <= i < |results| ensures results[i] == ideal[i] {
      assert IsFusedHit(hits, hits, results[i]);
      var p := ListedHit(hits, results[i].chunkId);
      ContributionAt(hits, p);
      if p < i { ReciprocalsDecrease(p, i); }
      if i < p { ReciprocalsDecrease(i, p); }
      OnlyHit(hits, i);
    }
  }

  /** Fusing a ranking with itself returns its first topK hits, in order, each worth 2/(61 + i). */
  lemma Consensus(hits: seq<SearchResult>, topK: nat, results: seq<SearchResult>)
    requires DistinctIds(hits) && IsFusion(hits, hits, topK, results)
    ensures |results| == Min(topK, |hits|)
    ensures forall i :: 0 <= i < |results| ==> results[i] == hits[i].(score := 2.0 * (1.0 / (61 + i) as real))
  {
    FusedWithItself(hits, topK, results);
    forall i | 0 <= i < |results| ensures results[i] == hits[i].(score := 2.0 * (1.0 / (61 + i) as real)) {
      ReciprocalIs(i);
    }
  }

  lemma {:induction false} OnlyHit(hits: seq<SearchResult>, p: nat)
    requires DistinctIds(hits) && p < |hits|
    ensures hits[p].chunkId in Ids(hits) && LastHit(hits, hits[p].chunkId) == hits[p]
  {
    HitIsListed(hits, p);
    if p < |hits| - 1 {
      OnlyHit(hits[..|hits| - 1], p);
    }
  }
}
