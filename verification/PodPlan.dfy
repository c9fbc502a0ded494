/**
 What `reconcilePods` is for, stated over the live Pods of one entry: how far
 they are from the wish, and what a successful pass turns them into.
 */
module PodPlan {
  import opened ClusterState

  function HashOf(p: Pod): string {
    if SpecHash in p.labels then p.labels[SpecHash] else ""
  }

  predicate Terminated(p: Pod) {
    p.phase == Failed || p.phase == Succeeded
  }

  /** The Pod counts towards the replicas. */
  predicate Fits(p: Pod, hash: string) {
    !Terminated(p) && HashOf(p) == hash
  }

  function Stale(pods: map<nat, Pod>, hash: string): set<nat> {
    set id | id in pods && !Fits(pods[id], hash)
  }

  function Matching(pods: map<nat, Pod>, hash: string): set<nat> {
    set id | id in pods && Fits(pods[id], hash)
  }

  function Abs(x: int): nat {
    if x < 0 then -x else x
  }

  function Min(a: int, b: int): int {
    if a < b then a else b
  }

  /** Pods to be removed plus replicas missing or too many. */
  function Distance(pods: map<nat, Pod>, hash: string, replicas: nat): nat {
    |Stale(pods, hash)| + Abs(|Matching(pods, hash)| - replicas)
  }

  lemma DropStale(pods: map<nat, Pod>, hash: string, n: nat, id: nat)
    requires id in Stale(pods, hash)
    ensures Distance(pods - {id}, hash, n) == Distance(pods, hash, n) - 1
    ensures Matching(pods - {id}, hash) == Matching(pods, hash)
  {
    assert Stale(pods - {id}, hash) == Stale(pods, hash) - {id};
    assert Matching(pods - {id}, hash) == Matching(pods, hash);
  }

  lemma DropSurplus(pods: map<nat, Pod>, hash: string, n: nat, id: nat)
    requires id in Matching(pods, hash) && |Matching(pods, hash)| > n
    ensures Distance(pods - {id}, hash, n) == Distance(pods, hash, n) - 1
  {
    assert Stale(pods - {id}, hash) == Stale(pods, hash);
    assert Matching(pods - {id}, hash) == Matching(pods, hash) - {id};
  }

  lemma AddMissing(pods: map<nat, Pod>, hash: string, n: nat, id: nat, p: Pod)
    requires id !in pods && Fits(p, hash) && |Matching(pods, hash)| < n
    ensures Distance(pods[id := p], hash, n) == Distance(pods, hash, n) - 1
    ensures Matching(pods[id := p], hash) == Matching(pods, hash) + {id}
    ensures Stale(pods[id := p], hash) == Stale(pods, hash)
  {
    assert Stale(pods[id := p], hash) == Stale(pods, hash);
    assert Matching(pods[id := p], hash) == Matching(pods, hash) + {id};
  }

  /** A pass that stopped anywhere. Pods kept are untouched and never strictly newer
      than a matching Pod that was removed, new ones fit. Never fewer matching Pods
      than wished are kept, never more made than are missing, and nothing is scaled
      before every stale Pod is gone. */
  ghost predicate Partial(before: map<nat, Pod>, after: map<nat, Pod>, hash: string, n: nat) {
    && (forall id :: id in after && id in before ==> after[id] == before[id])
    && (forall id :: id in after && id !in before ==> Fits(after[id], hash))
    && OldestKept(before, after, hash)
    && Measured(before, after, hash, n)
    && (OnlyMatching(before, after, hash) || (after.Keys <= before.Keys && Matching(before, hash) <= after.Keys))
  }

  ghost predicate OldestKept(before: map<nat, Pod>, after: map<nat, Pod>, hash: string) {
    forall kept, gone :: kept in Matching(before, hash) && kept in after &&
                         gone in Matching(before, hash) && gone !in after ==>
      before[kept].created <= before[gone].created
  }

  ghost predicate Measured(before: map<nat, Pod>, after: map<nat, Pod>, hash: string, n: nat) {
    && |Matching(before, hash) * after.Keys| >= Min(|Matching(before, hash)|, n)
    && |after.Keys - before.Keys| <= n - Min(|Matching(before, hash)|, n)
  }

  ghost predicate OnlyMatching(before: map<nat, Pod>, after: map<nat, Pod>, hash: string) {
    forall id :: id in after && id in before ==> id in Matching(before, hash)
  }

  /** The declarative outcome of a successful pass. */
  ghost predicate Outcome(before: map<nat, Pod>, after: map<nat, Pod>, hash: string, n: nat) {
    && Partial(before, after, hash, n)
    && OnlyMatching(before, after, hash)
    && |Matching(before, hash) * after.Keys| == Min(|Matching(before, hash)|, n)
    && |after.Keys - before.Keys| == n - Min(|Matching(before, hash)|, n)
  }

  /** Pods at distance 0 are exactly as many as wished, none has failed or run to its end, and
      all were made from the current hash. */
  lemma SettledMeans(pods: map<nat, Pod>, hash: string, n: nat)
    requires Distance(pods, hash, n) == 0
    ensures |pods| == n
    ensures forall id :: id in pods ==> pods[id].phase != Failed && pods[id].phase != Succeeded
    ensures hash != "" ==> forall id :: id in pods ==> SpecHash in pods[id].labels && pods[id].labels[SpecHash] == hash
  {
    assert Stale(pods, hash) == {};
    NoneStale(pods, hash);
    assert |pods| == |pods.Keys|;
    forall id | id in pods
      ensures pods[id].phase != Failed && pods[id].phase != Succeeded
      ensures hash != "" ==> SpecHash in pods[id].labels && pods[id].labels[SpecHash] == hash
    {
      assert id in Matching(pods, hash);
    }
  }

  /** A Pod made from the current hash that has not ended counts, whether or not it runs already. */
  lemma RunningCounts(pods: map<nat, Pod>, hash: string, id: nat)
    requires id in pods && SpecHash in pods[id].labels && pods[id].labels[SpecHash] == hash
    requires pods[id].phase == Pending || pods[id].phase == Running || pods[id].phase == Unknown
    ensures id in Matching(pods, hash) && id !in Stale(pods, hash)
  {
  }

  /** A Pod that failed, ended or was made from another hash goes in every completed pass. */
  lemma StaleGoes(before: map<nat, Pod>, after: map<nat, Pod>, hash: string, n: nat, id: nat)
    requires Outcome(before, after, hash, n) && id in before
    requires
      || before[id].phase == Failed || before[id].phase == Succeeded
      || (SpecHash in before[id].labels && before[id].labels[SpecHash] != hash)
    ensures id !in after
  {
  }

  /** Settled Pods stay as they are, wherever a pass stops. */
  lemma SettledStays(before: map<nat, Pod>, after: map<nat, Pod>, hash: string, n: nat)
    requires Partial(before, after, hash, n) && Distance(before, hash, n) == 0
    ensures after == before
  {
    assert Stale(before, hash) == {};
    NoneStale(before, hash);
    SubsetOfSameSize(before.Keys * after.Keys, before.Keys);
    assert after.Keys - before.Keys == {};
    assert after.Keys == before.Keys;
  }

  /** After the outcome nothing is left to do. */
  lemma OutcomeIsSettled(before: map<nat, Pod>, after: map<nat, Pod>, hash: string, n: nat)
    requires Outcome(before, after, hash, n)
    ensures Distance(after, hash, n) == 0
  {
    var kept, made := Matching(before, hash) * after.Keys, after.Keys - before.Keys;
    AllFit(before, after, hash);
    assert |kept + made| == |kept| + |made|;
  }

  lemma AllFit(before: map<nat, Pod>, after: map<nat, Pod>, hash: string)
    requires forall id :: id in after && id in before ==> after[id] == before[id] && id in Matching(before, hash)
    requires forall id :: id in after && id !in before ==> Fits(after[id], hash)
    ensures Stale(after, hash) == {}
    ensures Matching(after, hash) == Matching(before, hash) * after.Keys + (after.Keys - before.Keys)
  {
  }

  lemma SubsetOfSameSize<T>(a: set<T>, b: set<T>)
    requires a <= b && |a| == |b|
    ensures a == b
  {
    assert |b - a| == |b| - |a|;
  }

  lemma NoneStale(pods: map<nat, Pod>, hash: string)
    requires Stale(pods, hash) == {}
    ensures Matching(pods, hash) == pods.Keys
  {
    forall id | id in pods ensures id in Matching(pods, hash) {
      assert id !in Stale(pods, hash);
    }
  }

  /** Going from one settled count to another keeps as many Pods as possible. */
  lemma Rescale(before: map<nat, Pod>, after: map<nat, Pod>, hash: string, n: nat, n': nat)
    requires Distance(before, hash, n) == 0
    requires |Matching(before, hash) * after.Keys| == Min(|Matching(before, hash)|, n')
    ensures |before.Keys * after.Keys| == Min(n, n')
    ensures n' >= n ==> before.Keys <= after.Keys
  {
    assert Stale(before, hash) == {} && |Matching(before, hash)| == n;
    NoneStale(before, hash);
    if n' >= n {
      SubsetOfSameSize(before.Keys * after.Keys, before.Keys);
    }
  }

  function Elements(xs: seq<nat>): set<nat> {
    set x | x in xs
  }

  lemma DistinctCount(xs: seq<nat>)
    requires forall i, j :: 0 <= i < j < |xs| ==> xs[i] != xs[j]
    ensures |Elements(xs)| == |xs|
  {
    if xs == [] {
    } else {
      var front, last := xs[..|xs| - 1], xs[|xs| - 1];
      DistinctCount(front);
      assert xs == front + [last];
      assert Elements(xs) == Elements(front) + {last};
    }
  }

  lemma Sizes(xs: seq<nat>, m: nat, made: set<nat>)
    requires m <= |xs| && Elements(xs[..m]) !! made && forall i, j :: 0 <= i < j < |xs| ==> xs[i] != xs[j]
    ensures |Elements(xs)| == |xs| && |Elements(xs[..m])| == m && |Elements(xs[..m]) + made| == m + |made|
  {
    DistinctCount(xs);
    DistinctCount(xs[..m]);
  }

  /** In the middle of scaling: of the counted Pods, oldest first, `m` are left, and `made` are new. */
  ghost predicate Shaped(before: map<nat, Pod>, after: map<nat, Pod>, hash: string, sorted: seq<nat>, m: nat,
                         made: set<nat>) {
    && m <= |sorted|
    && after.Keys == Elements(sorted[..m]) + made
    && made !! before.Keys
    && (forall id :: id in after && id in before ==> after[id] == before[id])
    && (forall id :: id in after && id in made ==> Fits(after[id], hash))
  }

  /** The counted Pods, each once, oldest first. */
  ghost predicate Roll(before: map<nat, Pod>, hash: string, sorted: seq<nat>) {
    && Elements(sorted) == Matching(before, hash)
    && (forall i, j :: 0 <= i < j < |sorted| ==> sorted[i] != sorted[j])
    && OldestFirst(sorted, before)
  }

  lemma ShapedSets(before: map<nat, Pod>, after: map<nat, Pod>, hash: string, sorted: seq<nat>, m: nat, made: set<nat>)
    requires Roll(before, hash, sorted) && Shaped(before, after, hash, sorted, m, made)
    ensures Stale(after, hash) == {} && Matching(after, hash) == Elements(sorted[..m]) + made
    ensures Matching(before, hash) * after.Keys == Elements(sorted[..m])
    ensures after.Keys - before.Keys == made
    ensures Elements(sorted[..m]) !! made
  {
    assert forall id :: id in sorted[..m] ==> id in Elements(sorted);
  }

  lemma ShapedCounts(before: map<nat, Pod>, after: map<nat, Pod>, hash: string, sorted: seq<nat>, m: nat,
                     made: set<nat>)
    requires Roll(before, hash, sorted) && Shaped(before, after, hash, sorted, m, made)
    ensures Stale(after, hash) == {} && |Matching(after, hash)| == m + |made| && |Matching(before, hash)| == |sorted|
    ensures Matching(before, hash) * after.Keys == Elements(sorted[..m]) && |Elements(sorted[..m])| == m
    ensures after.Keys - before.Keys == made
  {
    ShapedSets(before, after, hash, sorted, m, made);
    Sizes(sorted, m, made);
  }

  lemma ShapedPartial(before: map<nat, Pod>, after: map<nat, Pod>, hash: string, n: nat, sorted: seq<nat>, m: nat,
                      made: set<nat>)
    requires Roll(before, hash, sorted) && Shaped(before, after, hash, sorted, m, made)
    requires Min(|sorted|, n) <= m && |made| <= n - Min(|sorted|, n)
    ensures Partial(before, after, hash, n) && OnlyMatching(before, after, hash)
  {
    assert Measured(before, after, hash, n) by {
      ShapedCounts(before, after, hash, sorted, m, made);
    }
    ShapedAges(before, after, hash, sorted, m, made);
    ShapedOnly(before, after, hash, sorted, m, made);
  }

  lemma ShapedOnly(before: map<nat, Pod>, after: map<nat, Pod>, hash: string, sorted: seq<nat>, m: nat, made: set<nat>)
    requires Roll(before, hash, sorted) && Shaped(before, after, hash, sorted, m, made)
    ensures OnlyMatching(before, after, hash)
    ensures forall id :: id in after && id !in before ==> Fits(after[id], hash)
  {
    assert forall id :: id in sorted[..m] ==> id in Elements(sorted);
  }

  lemma ShapedAges(before: map<nat, Pod>, after: map<nat, Pod>, hash: string, sorted: seq<nat>, m: nat, made: set<nat>)
    requires Roll(before, hash, sorted) && Shaped(before, after, hash, sorted, m, made)
    ensures OldestKept(before, after, hash)
  {
    forall kept, gone | kept in Matching(before, hash) && kept in after &&
                        gone in Matching(before, hash) && gone !in after
      ensures before[kept].created <= before[gone].created
    {
      assert kept in Elements(sorted) && gone in Elements(sorted);
      var i :| 0 <= i < m && sorted[..m][i] == kept;
      var j :| 0 <= j < |sorted| && sorted[j] == gone;
      assert gone !in sorted[..m];
    }
  }

  lemma ShapedOutcome(before: map<nat, Pod>, after: map<nat, Pod>, hash: string, n: nat, sorted: seq<nat>, m: nat,
                      made: set<nat>)
    requires Roll(before, hash, sorted) && Shaped(before, after, hash, sorted, m, made)
    requires m == Min(|sorted|, n) && |made| == n - m
    ensures Outcome(before, after, hash, n)
  {
    ShapedPartial(before, after, hash, n, sorted, m, made);
    ShapedCounts(before, after, hash, sorted, m, made);
  }

  lemma ShapedDrop(before: map<nat, Pod>, after: map<nat, Pod>, hash: string, sorted: seq<nat>, m: nat)
    requires 0 < m && Roll(before, hash, sorted) && Shaped(before, after, hash, sorted, m, {})
    ensures sorted[m - 1] in Matching(after, hash) && Shaped(before, after - {sorted[m - 1]}, hash, sorted, m - 1, {})
  {
    var id := sorted[m - 1];
    assert sorted[..m] == sorted[..m - 1] + [id];
    assert id in Elements(sorted);
    assert Elements(sorted[..m - 1]) == Elements(sorted[..m]) - {id};
  }

  lemma ShapedAdd(before: map<nat, Pod>, after: map<nat, Pod>, hash: string, sorted: seq<nat>, m: nat,
                  made: set<nat>, id: nat, p: Pod)
    requires Shaped(before, after, hash, sorted, m, made) && id !in before && id !in after && Fits(p, hash)
    ensures Shaped(before, after[id := p], hash, sorted, m, made + {id})
  {
  }

  ghost predicate OldestFirst(ids: seq<nat>, seen: map<nat, Pod>) {
    && (forall i :: 0 <= i < |ids| ==> ids[i] in seen)
    && (forall i, j :: 0 <= i < j < |ids| ==> seen[ids[i]].created <= seen[ids[j]].created)
  }

  lemma InsertKeepsOrder(a: seq<nat>, id: nat, b: seq<nat>, seen: map<nat, Pod>)
    requires OldestFirst(a + b, seen) && id in seen
    requires forall i :: 0 <= i < |a| ==> a[i] in seen && seen[a[i]].created <= seen[id].created
    requires forall i :: 0 <= i < |b| ==> b[i] in seen && seen[id].created <= seen[b[i]].created
    ensures OldestFirst(a + [id] + b, seen)
  {
    var r := a + [id] + b;
    forall i, j | 0 <= i < j < |r| ensures seen[r[i]].created <= seen[r[j]].created {
      if i != |a| && j != |a| {
        var i', j' := if i < |a| then i else i - 1, if j < |a| then j else j - 1;
        assert (a + b)[i'] == r[i] && (a + b)[j'] == r[j];
      }
    }
  }

  lemma InsertKeepsBag(a: seq<nat>, id: nat, b: seq<nat>)
    ensures multiset(a + [id] + b) == multiset(a + b) + multiset{id}
  {
  }

  /** The place for a Pod among Pods sorted by age. */
  method PlaceByAge(ids: seq<nat>, id: nat, seen: map<nat, Pod>) returns (at: nat)
    requires id in seen && OldestFirst(ids, seen)
    ensures at <= |ids|
    ensures forall i :: 0 <= i < at ==> seen[ids[i]].created <= seen[id].created
    ensures forall i :: at <= i < |ids| ==> seen[id].created <= seen[ids[i]].created
  {
    at := |ids|;
    while at > 0 && seen[id].created < seen[ids[at - 1]].created
      invariant at <= |ids|
      invariant forall i :: at <= i < |ids| ==> seen[id].created <= seen[ids[i]].created
    {
      at := at - 1;
    }
  }

  /** Any order `sort.Slice` may give: callers rely on the contract alone. */
  method SortByAge(ids: seq<nat>, seen: map<nat, Pod>) returns (sorted: seq<nat>)
    requires forall i :: 0 <= i < |ids| ==> ids[i] in seen
    ensures multiset(sorted) == multiset(ids)
    ensures OldestFirst(sorted, seen)
  {
    sorted := [];
    for n := 0 to |ids|
      invariant multiset(sorted) == multiset(ids[..n])
      invariant OldestFirst(sorted, seen)
    {
      assert ids[..n + 1] == ids[..n] + [ids[n]];
      var at := PlaceByAge(sorted, ids[n], seen);
      assert sorted[..at] + sorted[at..] == sorted;
      InsertKeepsOrder(sorted[..at], ids[n], sorted[at..], seen);
      InsertKeepsBag(sorted[..at], ids[n], sorted[at..]);
      sorted := sorted[..at] + [ids[n]] + sorted[at..];
    }
    assert ids[..|ids|] == ids;
  }
}
