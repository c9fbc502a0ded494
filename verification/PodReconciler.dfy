/**
 `reconcilePods`, shared by both controllers: drop terminated and outdated Pods,
 then scale down newest first or scale up, one API call at a time. Calls may fail
 anywhere; if nobody else acts on the entry, every Pod write that takes effect
 brings its Pods exactly one step closer to the wish.
 */
module PodReconciler {
  import opened ClusterState
  import opened ClusterApi
  import opened PodPlan

  /** Time passed, calls were made for this one entry only, and no ConfigMap changed. */
  ghost predicate Steady(a: Ledger, b: Ledger, key: Key, calm: set<Key>) {
    Only(a, b, key, calm) && Later(a.state, b.state, {}) && ConfigMapsSame(a.state, b.state)
  }

  /** Nothing of this entry changed but its Pods. */
  ghost predicate OnlyPods(s: State, t: State, key: Key) {
    SliceOf(t, key) == SliceOf(s, key).(pods := PodsOf(t, key))
  }

  lemma SteadyTrans(a: Ledger, b: Ledger, c: Ledger, key: Key, calm: set<Key>)
    requires Steady(a, b, key, calm) && Steady(b, c, key, calm)
    ensures Steady(a, c, key, calm)
  {
    OnlyTrans(a, b, c, key, calm);
    forall k: ObjKey | k.kind == ConfigMapKind ensures Lookup(a.state.objects, k) == Lookup(c.state.objects, k) {
      assert Lookup(a.state.objects, k) == Lookup(b.state.objects, k);
    }
  }

  /** Pod writes so far and distance left always add up to the distance at the start. */
  ghost predicate Account(a: Ledger, b: Ledger, key: Key, hash: string, n: nat) {
    b.podWrites[key] + Distance(PodsOf(b.state, key), hash, n) ==
    a.podWrites[key] + Distance(PodsOf(a.state, key), hash, n)
  }

  /** These ids, where live, are the entry's own Pods. */
  ghost predicate AllMine(s: State, key: Key, ids: seq<nat>) {
    forall i :: 0 <= i < |ids| ==> Mine(s, key, ids[i])
  }

  lemma AllMineLater(s: State, t: State, key: Key, ids: seq<nat>)
    requires AllMine(s, key, ids) && Shrinks(s, t)
    ensures AllMine(t, key, ids)
  {
  }

  method DeleteFor(c: Cluster, key: Key, id: nat) returns (r: ApiResult, ghost took: bool)
    requires c.Safe() && Mine(c.state, key, id)
    requires key in c.calm ==> id in PodsOf(c.state, key)
    modifies c
    ensures c.Safe() && Steady(old(c.Book()), c.Book(), key, c.calm) && Shrinks(old(c.state), c.state)
    ensures c.podWrites[key] == old(c.podWrites[key]) + (if took then 1 else 0)
    ensures c.faults[key] == old(c.faults[key]) + Blame(r)
    ensures key in c.calm ==> r != NotFound && (r == Done ==> took) && OnlyPods(old(c.state), c.state, key)
    ensures key in c.calm ==>
      PodsOf(c.state, key) == if took then PodsOf(old(c.state), key) - {id} else PodsOf(old(c.state), key)
  {
    r, took := c.DeletePod(key, id);
    assert SliceOf(c.state, key).pods == PodsOf(c.state, key);
    assert SliceOf(old(c.state), key).pods == PodsOf(old(c.state), key);
  }

  /** The listed Pods that count, in listing order. */
  function Counted(ids: seq<nat>, seen: map<nat, Pod>, hash: string): seq<nat> {
    if ids == [] then [] else
      var rest, id := Counted(ids[..|ids| - 1], seen, hash), ids[|ids| - 1];
      if id in seen && !seen[id].deleting && Fits(seen[id], hash) then rest + [id] else rest
  }

  lemma CountedElements(ids: seq<nat>, seen: map<nat, Pod>, hash: string)
    requires Distinct(ids)
    ensures Distinct(Counted(ids, seen, hash))
    ensures forall x :: x in Counted(ids, seen, hash) <==>
                        x in ids && x in seen && !seen[x].deleting && Fits(seen[x], hash)
  {
    if ids == [] {
    } else {
      CountedElements(ids[..|ids| - 1], seen, hash);
      assert ids == ids[..|ids| - 1] + [ids[|ids| - 1]];
    }
  }

  /** The stale Pods among the first `i` listed are gone, everything else is still there. */
  ghost predicate Pruned(before: map<nat, Pod>, after: map<nat, Pod>, hash: string, ids: seq<nat>, i: nat)
    requires i <= |ids|
  {
    && (forall id :: id in after ==> id in before && after[id] == before[id])
    && (forall id :: id in before && Fits(before[id], hash) ==> id in after)
    && (forall j :: 0 <= j < i && ids[j] in before && !Fits(before[ids[j]], hash) ==> ids[j] !in after)
    && (forall j :: i <= j < |ids| && ids[j] in before ==> ids[j] in after)
  }

  lemma PrunedStep(before: map<nat, Pod>, pods: map<nat, Pod>, hash: string, ids: seq<nat>, i: nat)
    requires i < |ids| && Distinct(ids) && Pruned(before, pods, hash, ids, i)
    ensures ids[i] in Stale(before, hash) ==>
      ids[i] in Stale(pods, hash) && Pruned(before, pods - {ids[i]}, hash, ids, i + 1)
    ensures ids[i] !in Stale(before, hash) ==> Pruned(before, pods, hash, ids, i + 1)
  {
  }

  lemma PrunedSome(before: map<nat, Pod>, after: map<nat, Pod>, hash: string, ids: seq<nat>, i: nat)
    requires i <= |ids| && Pruned(before, after, hash, ids, i)
    requires forall id :: id in before ==> id in ids
    ensures Matching(after, hash) == Matching(before, hash)
    ensures i == |ids| ==> Stale(after, hash) == {}
    ensures i == |ids| && Stale(before, hash) == {} ==> after == before
  {
    if i == |ids| && Stale(before, hash) == {} {
      forall id | id in before ensures id in after {
        assert id !in Stale(before, hash);
      }
    }
  }

  ghost predicate Pruning(a: Ledger, b: Ledger, key: Key, hash: string, n: nat, ids: seq<nat>, i: nat)
    requires i <= |ids|
  {
    && OnlyPods(a.state, b.state, key)
    && Account(a, b, key, hash, n)
    && Pruned(PodsOf(a.state, key), PodsOf(b.state, key), hash, ids, i)
  }

  /** Deletes the `i`-th listed Pod, a live one that does not fit. */
  method PruneOne(c: Cluster, key: Key, hash: string, ids: seq<nat>, i: nat, ghost n: nat, ghost a: Ledger)
    returns (r: ApiResult, ghost done: nat)
    requires c.Safe() && Steady(a, c.Book(), key, c.calm) && i < |ids| && Distinct(ids) && AllMine(c.state, key, ids)
    requires key in c.calm ==> Pruning(a, c.Book(), key, hash, n, ids, i) && ids[i] in Stale(PodsOf(a.state, key), hash)
    modifies c
    ensures c.Safe() && Steady(a, c.Book(), key, c.calm) && AllMine(c.state, key, ids)
    ensures i <= done <= i + 1 && (r == Done ==> done == i + 1)
    ensures r != Done ==> c.faults[key] > a.faults[key]
    ensures key in c.calm ==> Pruning(a, c.Book(), key, hash, n, ids, done)
  {
    ghost var b, pods := c.Book(), PodsOf(c.state, key);
    PrunedStepIf(key in c.calm, PodsOf(a.state, key), pods, hash, ids, i);
    ghost var took;
    r, took := DeleteFor(c, key, ids[i]);
    done := if took || key !in c.calm then i + 1 else i;
    SteadyTrans(a, b, c.Book(), key, c.calm);
    AllMineLater(b.state, c.state, key, ids);
    if key in c.calm {
      DropStale(pods, hash, n, ids[i]);
    }
    if r == NotFound {
      r := Done;
    }
  }

  /** Looks at the `i`-th listed Pod as it was listed: deletes it, counts it or passes over it. */
  method PruneNext(c: Cluster, key: Key, hash: string, ids: seq<nat>, i: nat, seen: map<nat, Pod>, current: seq<nat>,
                   ghost n: nat, ghost a: Ledger)
    returns (r: ApiResult, next: seq<nat>, ghost done: nat)
    requires c.Safe() && Steady(a, c.Book(), key, c.calm) && i < |ids| && Distinct(ids) && AllMine(c.state, key, ids)
    requires seen == a.state.pods && ids[i] in seen && Selects(key, seen[ids[i]])
    requires current == Counted(ids[..i], seen, hash)
    requires key in c.calm ==> Pruning(a, c.Book(), key, hash, n, ids, i)
    modifies c
    ensures c.Safe() && Steady(a, c.Book(), key, c.calm) && AllMine(c.state, key, ids)
    ensures i <= done <= i + 1 && (r == Done ==> done == i + 1 && next == Counted(ids[..i + 1], seen, hash))
    ensures r != Done ==> c.faults[key] > a.faults[key]
    ensures key in c.calm ==> Pruning(a, c.Book(), key, hash, n, ids, done)
    ensures ids[i] !in Stale(PodsOf(a.state, key), hash) ==> r == Done && c.calls == old(c.calls)
  {
    var id := ids[i];
    next, r, done := current, Done, i + 1;
    assert ids[..i + 1][..i] == ids[..i];
    assert id in Stale(PodsOf(a.state, key), hash) <==> !seen[id].deleting && !Fits(seen[id], hash);
    if !seen[id].deleting && !Fits(seen[id], hash) {
      r, done := PruneOne(c, key, hash, ids, i, n, a);
      return;
    }
    PassOver(key in c.calm, a, c.Book(), key, hash, n, ids, i);
    if !seen[id].deleting {
      next := current + [id];
    }
  }

  /** Nothing is to be done for a Pod that is not live or fits. */
  lemma PassOver(calm: bool, a: Ledger, b: Ledger, key: Key, hash: string, n: nat, ids: seq<nat>, i: nat)
    requires i < |ids| && Distinct(ids) && ids[i] !in Stale(PodsOf(a.state, key), hash)
    requires calm ==> Pruning(a, b, key, hash, n, ids, i)
    ensures calm ==> Pruning(a, b, key, hash, n, ids, i + 1)
  {
    if calm {
      PrunedStep(PodsOf(a.state, key), PodsOf(b.state, key), hash, ids, i);
    }
  }

  lemma PrunedStepIf(calm: bool, before: map<nat, Pod>, pods: map<nat, Pod>, hash: string, ids: seq<nat>, i: nat)
    requires i < |ids| && Distinct(ids)
    requires (calm ==> Pruned(before, pods, hash, ids, i) && ids[i] in Stale(before, hash))
    ensures calm ==> ids[i] in Stale(pods, hash) && Pruned(before, pods - {ids[i]}, hash, ids, i + 1)
  {
    if calm {
      PrunedStep(before, pods, hash, ids, i);
    }
  }

  method PruneStale(c: Cluster, key: Key, hash: string, ghost n: nat, ids: seq<nat>, seen: map<nat, Pod>)
    returns (r: ApiResult, current: seq<nat>, ghost done: nat)
    requires c.Safe() && Distinct(ids) && seen == c.state.pods
    requires forall id :: id in ids <==> id in c.state.pods && Selects(key, c.state.pods[id])
    modifies c
    ensures c.Safe() && Steady(old(c.Book()), c.Book(), key, c.calm) && AllMine(c.state, key, ids)
    ensures r == Done ==> current == Counted(ids, seen, hash)
    ensures done <= |ids| && (r == Done ==> done == |ids|)
    ensures r != Done ==> c.faults[key] > old(c.faults[key])
    ensures key in c.calm ==> Pruning(old(c.Book()), c.Book(), key, hash, n, ids, done)
    ensures key in c.calm && Stale(PodsOf(old(c.state), key), hash) == {} ==>
      r == Done && c.calls == old(c.calls)
  {
    r, current := Done, [];
    done := 0;
    ghost var a, before := c.Book(), PodsOf(c.state, key);
    var i := 0;
    while i < |ids| && r == Done
      invariant 0 <= i <= |ids| && done <= |ids| && (r == Done ==> done == i)
      invariant r != Done ==> c.faults[key] > a.faults[key]
      invariant c.Safe() && Steady(a, c.Book(), key, c.calm) && AllMine(c.state, key, ids)
      invariant r == Done ==> current == Counted(ids[..i], seen, hash)
      invariant key in c.calm ==> Pruning(a, c.Book(), key, hash, n, ids, done)
      invariant key in c.calm && Stale(before, hash) == {} ==> r == Done && c.calls == old(c.calls)
    {
      r, current, done := PruneNext(c, key, hash, ids, i, seen, current, n, a);
      i := i + 1;
    }
    assert ids[..|ids|] == ids;
  }

  /** Of the counted Pods, oldest first, `m` are left, `made` are new, and not too many were dropped or made. */
  ghost predicate Scaling(a: Ledger, b: Ledger, key: Key, hash: string, n: nat, sorted: seq<nat>, m: nat,
                          made: set<nat>) {
    && OnlyPods(a.state, b.state, key)
    && Account(a, b, key, hash, n)
    && Shaped(PodsOf(a.state, key), PodsOf(b.state, key), hash, sorted, m, made)
    && Min(|sorted|, n) <= m && |made| <= n - Min(|sorted|, n)
  }

  method ScaleDown(c: Cluster, key: Key, hash: string, n: nat, sorted: seq<nat>, ghost a: Ledger)
    returns (r: ApiResult, current: seq<nat>, ghost m: nat)
    requires c.Safe() && Steady(a, c.Book(), key, c.calm) && AllMine(c.state, key, sorted)
    requires key in c.calm ==>
      Roll(PodsOf(a.state, key), hash, sorted) && Scaling(a, c.Book(), key, hash, n, sorted, |sorted|, {})
    modifies c
    ensures c.Safe() && Steady(a, c.Book(), key, c.calm)
    ensures |sorted| <= n ==> r == Done && c.Book() == old(c.Book())
    ensures r == Done ==> m == Min(|sorted|, n) && current == sorted[..m]
    ensures r != Done ==> c.faults[key] > a.faults[key]
    ensures key in c.calm ==> Scaling(a, c.Book(), key, hash, n, sorted, m, {})
  {
    r, current, m := Done, sorted, |sorted|;
    while |current| > n && r == Done
      invariant c.Safe() && Steady(a, c.Book(), key, c.calm) && AllMine(c.state, key, sorted)
      invariant r == Done ==> m == |current| <= |sorted| && current == sorted[..m] && m >= Min(|sorted|, n)
      invariant |sorted| <= n ==> r == Done && c.Book() == old(c.Book())
      invariant r != Done ==> c.faults[key] > a.faults[key]
      invariant key in c.calm ==> Scaling(a, c.Book(), key, hash, n, sorted, m, {})
      decreases |current|
    {
      r, current, m := DropNewest(c, key, hash, n, sorted, m, a, current);
    }
  }

  method DropNewest(c: Cluster, key: Key, hash: string, ghost n: nat, ghost sorted: seq<nat>, ghost m: nat,
                    ghost a: Ledger, current: seq<nat>)
    returns (r: ApiResult, fewer: seq<nat>, ghost m': nat)
    requires c.Safe() && Steady(a, c.Book(), key, c.calm) && AllMine(c.state, key, sorted)
    requires n < m <= |sorted| && current == sorted[..m]
    requires key in c.calm ==>
      Roll(PodsOf(a.state, key), hash, sorted) && Scaling(a, c.Book(), key, hash, n, sorted, m, {})
    modifies c
    ensures c.Safe() && Steady(a, c.Book(), key, c.calm) && AllMine(c.state, key, sorted)
    ensures |fewer| == m - 1 && (r == Done ==> m' == m - 1 && fewer == sorted[..m'])
    ensures r != Done ==> c.faults[key] > a.faults[key]
    ensures key in c.calm ==> Scaling(a, c.Book(), key, hash, n, sorted, m', {})
  {
    ghost var b, before, pods := c.Book(), PodsOf(a.state, key), PodsOf(c.state, key);
    var idx := |current| - 1;
    var id := current[idx];
    fewer := current[..idx];
    assert key in c.calm ==> id in pods && id in Matching(pods, hash) && |Matching(pods, hash)| > n by {
      if key in c.calm {
        ShapedDrop(before, pods, hash, sorted, m);
        ShapedCounts(before, pods, hash, sorted, m, {});
      }
    }
    ghost var took;
    assert Mine(c.state, key, sorted[idx]);
    r, took := DeleteFor(c, key, id);
    m' := if took || key !in c.calm then m - 1 else m;
    SteadyTrans(a, b, c.Book(), key, c.calm);
    AllMineLater(b.state, c.state, key, sorted);
    if key in c.calm {
      DropSurplus(pods, hash, n, id);
      ShapedDrop(before, pods, hash, sorted, m);
    }
    if r == NotFound {
      r := Done;
    }
  }

  method ScaleUp(c: Cluster, e: Entry, hash: string, n: nat, kept: nat, ghost sorted: seq<nat>, ghost a: Ledger)
    returns (r: ApiResult, ghost made: set<nat>)
    requires c.Safe() && Steady(a, c.Book(), e.key, c.calm) && WellNumbered(a.state)
    requires Guarded(a.state, e.key) && ConfigReady(a.state, e) && hash == c.digest(HashInput(e))
    requires e.key in c.calm ==>
      Roll(PodsOf(a.state, e.key), hash, sorted) && Scaling(a, c.Book(), e.key, hash, n, sorted, kept, {})
    modifies c
    ensures c.Safe() && Steady(a, c.Book(), e.key, c.calm)
    ensures kept >= n ==> r == Done && c.Book() == old(c.Book()) && made == {}
    ensures r != Done ==> c.faults[e.key] > a.faults[e.key]
    ensures e.key in c.calm ==> Scaling(a, c.Book(), e.key, hash, n, sorted, kept, made)
    ensures e.key in c.calm && r == Done && kept <= n ==> |made| == n - kept
  {
    r, made := Done, {};
    var count := kept;
    while count < n && r == Done
      invariant c.Safe() && Steady(a, c.Book(), e.key, c.calm) && kept <= count && (count <= n || count == kept)
      invariant kept >= n ==> r == Done && c.Book() == old(c.Book()) && made == {}
      invariant r != Done ==> c.faults[e.key] > a.faults[e.key]
      invariant e.key in c.calm ==> Scaling(a, c.Book(), e.key, hash, n, sorted, kept, made)
      invariant e.key in c.calm && r == Done ==> |made| == count - kept
      decreases n - count
    {
      r, made := MakeOne(c, e, hash, n, kept, sorted, made, a);
      count := count + 1;
    }
  }

  method MakeOne(c: Cluster, e: Entry, hash: string, ghost n: nat, ghost kept: nat, ghost sorted: seq<nat>,
                 ghost made: set<nat>, ghost a: Ledger)
    returns (r: ApiResult, ghost made': set<nat>)
    requires c.Safe() && Steady(a, c.Book(), e.key, c.calm) && WellNumbered(a.state)
    requires Guarded(a.state, e.key) && ConfigReady(a.state, e) && hash == c.digest(HashInput(e))
    requires e.key in c.calm ==>
      Roll(PodsOf(a.state, e.key), hash, sorted) && Scaling(a, c.Book(), e.key, hash, n, sorted, kept, made)
    requires e.key in c.calm ==> kept + |made| < n
    modifies c
    ensures c.Safe() && Steady(a, c.Book(), e.key, c.calm)
    ensures e.key in c.calm ==> Scaling(a, c.Book(), e.key, hash, n, sorted, kept, made')
    ensures e.key in c.calm && r == Done ==> |made'| == |made| + 1
    ensures r != Done ==> c.faults[e.key] > a.faults[e.key]
  {
    ghost var b, before, pods := c.Book(), PodsOf(a.state, e.key), PodsOf(c.state, e.key);
    ConfigKept(a.state, b.state, e);
    c.Now();
    var id;
    ghost var took, pod;
    r, id, took, pod := c.CreatePod(e, hash);
    made' := if took then made + {id} else made;
    SteadyTrans(a, b, c.Book(), e.key, c.calm);
    if e.key in c.calm {
      assert SliceOf(c.state, e.key).pods == PodsOf(c.state, e.key);
      if took {
        MadeOne(before, pods, hash, n, sorted, kept, made, id, pod);
      }
    }
  }

  lemma MadeOne(before: map<nat, Pod>, pods: map<nat, Pod>, hash: string, n: nat, sorted: seq<nat>, kept: nat,
                made: set<nat>, id: nat, pod: Pod)
    requires Roll(before, hash, sorted) && Shaped(before, pods, hash, sorted, kept, made) && kept + |made| < n
    requires id !in before && id !in pods && Fits(pod, hash)
    ensures Shaped(before, pods[id := pod], hash, sorted, kept, made + {id}) && |made + {id}| == |made| + 1
    ensures Distance(pods[id := pod], hash, n) == Distance(pods, hash, n) - 1
  {
    ShapedCounts(before, pods, hash, sorted, kept, made);
    AddMissing(pods, hash, n, id, pod);
    ShapedAdd(before, pods, hash, sorted, kept, made, id, pod);
  }

  /** What was listed, sorted, is the roll of the Pods that count. */
  lemma ListedRoll(s: State, key: Key, hash: string, ids: seq<nat>, sorted: seq<nat>)
    requires Distinct(ids) && forall id :: id in ids <==> id in s.pods && Selects(key, s.pods[id])
    requires multiset(sorted) == multiset(Counted(ids, s.pods, hash)) && OldestFirst(sorted, s.pods)
    ensures Roll(PodsOf(s, key), hash, sorted)
  {
    var current, before := Counted(ids, s.pods, hash), PodsOf(s, key);
    CountedElements(ids, s.pods, hash);
    SameBag(sorted, current);
    assert forall i :: 0 <= i < |sorted| ==> sorted[i] in current;
    assert Elements(sorted) == Matching(before, hash);
  }

  lemma SameBag(a: seq<nat>, b: seq<nat>)
    requires multiset(a) == multiset(b) && Distinct(b)
    ensures Distinct(a) && forall x :: x in a <==> x in b
  {
    forall x ensures x in a <==> x in b {
      assert x in a <==> x in multiset(a);
      assert x in b <==> x in multiset(b);
    }
    if i, j :| 0 <= i < j < |a| && a[i] == a[j] {
      Twice(a, i, j);
      OnceEach(b, a[i]);
    }
  }

  lemma Twice(a: seq<nat>, i: nat, j: nat)
    requires i < j < |a| && a[i] == a[j]
    ensures multiset(a)[a[i]] >= 2
  {
    assert a == a[..j] + [a[j]] + a[j + 1..];
    assert a[..j][i] == a[j];
  }

  lemma OnceEach(b: seq<nat>, x: nat)
    requires Distinct(b)
    ensures multiset(b)[x] <= 1
  {
    if b == [] {
    } else {
      var front, last := b[..|b| - 1], b[|b| - 1];
      OnceEach(front, x);
      assert b == front + [last];
      assert last !in front;
      assert last !in multiset(front);
    }
  }

  lemma PrunedShaped(before: map<nat, Pod>, after: map<nat, Pod>, hash: string, ids: seq<nat>, sorted: seq<nat>)
    requires Pruned(before, after, hash, ids, |ids|) && Roll(before, hash, sorted) && forall id :: id in before ==>
      id in ids
    ensures Shaped(before, after, hash, sorted, |sorted|, {})
  {
    PrunedSome(before, after, hash, ids, |ids|);
    assert sorted[..|sorted|] == sorted;
    assert forall id :: id in after ==> id in Matching(after, hash) || id in Stale(after, hash);
  }

  lemma PrunedPartial(before: map<nat, Pod>, after: map<nat, Pod>, hash: string, n: nat, ids: seq<nat>, i: nat)
    requires i <= |ids| && Pruned(before, after, hash, ids, i)
    ensures Partial(before, after, hash, n)
  {
    assert Measured(before, after, hash, n) by {
      assert Matching(before, hash) * after.Keys == Matching(before, hash);
      assert after.Keys - before.Keys == {};
    }
    assert Matching(before, hash) <= after.Keys && after.Keys <= before.Keys;
  }

  /** What one pass over the Pods of an entry achieves if nobody else acts on it. */
  ghost predicate Progress(before: map<nat, Pod>, after: map<nat, Pod>, hash: string, n: nat, ok: bool) {
    Partial(before, after, hash, n) && (ok ==> Outcome(before, after, hash, n))
  }

  lemma ScalingProgress(before: map<nat, Pod>, after: map<nat, Pod>, hash: string, n: nat, sorted: seq<nat>, m: nat,
                        made: set<nat>, ok: bool)
    requires Roll(before, hash, sorted) && Shaped(before, after, hash, sorted, m, made)
    requires Min(|sorted|, n) <= m && |made| <= n - Min(|sorted|, n)
    requires ok ==> m == Min(|sorted|, n) && |made| == n - m
    ensures Progress(before, after, hash, n, ok)
  {
    ShapedPartial(before, after, hash, n, sorted, m, made);
    if ok {
      ShapedOutcome(before, after, hash, n, sorted, m, made);
    }
  }

  /** A pass over the Pods of a calm entry: only its Pods changed, every write that took effect
      was paid for by the distance, and a pass with nothing to do made no call. */
  ghost predicate PassDone(a: Ledger, b: Ledger, e: Entry, hash: string, ok: bool) {
    var before, after, n := PodsOf(a.state, e.key), PodsOf(b.state, e.key), e.spec.replicas;
    && OnlyPods(a.state, b.state, e.key)
    && Account(a, b, e.key, hash, n)
    && Progress(before, after, hash, n, ok)
    && (Distance(before, hash, n) == 0 ==> b.calls[e.key] == a.calls[e.key] && after == before)
  }

  method Scale(c: Cluster, e: Entry, hash: string, n: nat, sorted: seq<nat>, ghost a: Ledger) returns (r: ApiResult)
    requires c.Safe() && Steady(a, c.Book(), e.key, c.calm) && WellNumbered(a.state) && AllMine(c.state, e.key, sorted)
    requires Guarded(a.state, e.key) && ConfigReady(a.state, e) && hash == c.digest(HashInput(e))
    requires e.key in c.calm ==>
      Roll(PodsOf(a.state, e.key), hash, sorted) && Scaling(a, c.Book(), e.key, hash, n, sorted, |sorted|, {})
    modifies c
    ensures c.Safe() && Steady(a, c.Book(), e.key, c.calm)
    ensures e.key in c.calm ==> OnlyPods(a.state, c.state, e.key) && Account(a, c.Book(), e.key, hash, n)
    ensures e.key in c.calm ==> Progress(PodsOf(a.state, e.key), PodsOf(c.state, e.key), hash, n, r == Done)
    ensures |sorted| == n ==> c.Book() == old(c.Book())
    ensures r != Done ==> c.faults[e.key] > a.faults[e.key]
  {
    var current;
    ghost var m, made := 0, {};
    r, current, m := ScaleDown(c, e.key, hash, n, sorted, a);
    if r == Done {
      r, made := ScaleUp(c, e, hash, n, |current|, sorted, a);
    }
    if e.key in c.calm {
      ScalingProgress(PodsOf(a.state, e.key), PodsOf(c.state, e.key), hash, n, sorted, m, made, r == Done);
    }
  }

  /** Once the stale Pods are gone: the counted ones, oldest first, are scaled to the wish. */
  method ScaleListed(c: Cluster, e: Entry, hash: string, ghost ids: seq<nat>, seen: map<nat, Pod>, current: seq<nat>,
                     ghost a: Ledger)
    returns (r: ApiResult)
    requires c.Safe() && Steady(a, c.Book(), e.key, c.calm) && WellNumbered(a.state) && AllMine(c.state, e.key, ids)
    requires Guarded(a.state, e.key) && ConfigReady(a.state, e) && hash == c.digest(HashInput(e))
    requires Distinct(ids) && seen == a.state.pods
    requires forall id :: id in ids <==> id in a.state.pods && Selects(e.key, a.state.pods[id])
    requires current == Counted(ids, seen, hash)
    requires e.key in c.calm ==> Pruning(a, c.Book(), e.key, hash, e.spec.replicas, ids, |ids|)
    modifies c
    ensures c.Safe() && Steady(a, c.Book(), e.key, c.calm)
    ensures e.key in c.calm ==> OnlyPods(a.state, c.state, e.key) && Account(a, c.Book(), e.key, hash, e.spec.replicas)
    ensures e.key in c.calm ==>
      Progress(PodsOf(a.state, e.key), PodsOf(c.state, e.key), hash, e.spec.replicas, r == Done)
    ensures |Matching(PodsOf(a.state, e.key), hash)| == e.spec.replicas ==> c.Book() == old(c.Book())
    ensures r != Done ==> c.faults[e.key] > a.faults[e.key]
  {
    CountedElements(ids, seen, hash);
    var sorted := SortByAge(current, seen);
    ListedRoll(a.state, e.key, hash, ids, sorted);
    ListedMine(c.state, e.key, hash, ids, seen, sorted);
    DistinctCount(sorted);
    if e.key in c.calm {
      PrunedShaped(PodsOf(a.state, e.key), PodsOf(c.state, e.key), hash, ids, sorted);
    }
    r := Scale(c, e, hash, e.spec.replicas, sorted, a);
  }

  /** Pruned from `a` to `b` and scaled from `b` to `c` is a pass. */
  lemma ScaledPass(a: Ledger, b: Ledger, c: Ledger, e: Entry, hash: string, ok: bool)
    requires OnlyPods(a.state, c.state, e.key) && Account(a, c, e.key, hash, e.spec.replicas)
    requires Progress(PodsOf(a.state, e.key), PodsOf(c.state, e.key), hash, e.spec.replicas, ok)
    requires Stale(PodsOf(a.state, e.key), hash) == {} ==> b.calls == a.calls
    requires |Matching(PodsOf(a.state, e.key), hash)| == e.spec.replicas ==> c == b
    ensures PassDone(a, c, e, hash, ok)
  {
    var before, after := PodsOf(a.state, e.key), PodsOf(c.state, e.key);
    if Distance(before, hash, e.spec.replicas) == 0 {
      assert Stale(before, hash) == {};
      SettledStays(before, after, hash, e.spec.replicas);
    }
  }

  lemma ListedMine(s: State, key: Key, hash: string, ids: seq<nat>, seen: map<nat, Pod>, sorted: seq<nat>)
    requires AllMine(s, key, ids) && Distinct(ids) && multiset(sorted) == multiset(Counted(ids, seen, hash))
    ensures AllMine(s, key, sorted)
  {
    CountedElements(ids, seen, hash);
    SameBag(sorted, Counted(ids, seen, hash));
    forall i | 0 <= i < |sorted| ensures Mine(s, key, sorted[i]) {
      assert sorted[i] in sorted && sorted[i] in Counted(ids, seen, hash);
      var j :| 0 <= j < |ids| && ids[j] == sorted[i];
    }
  }

  method ReconcileListed(c: Cluster, e: Entry, hash: string, ids: seq<nat>, seen: map<nat, Pod>) returns (r: ApiResult)
    requires c.Safe() && Guarded(c.state, e.key) && ConfigReady(c.state, e)
    requires hash == c.digest(HashInput(e))
    requires Distinct(ids) && seen == c.state.pods
    requires forall id :: id in ids <==> id in c.state.pods && Selects(e.key, c.state.pods[id])
    modifies c
    ensures c.Safe() && Steady(old(c.Book()), c.Book(), e.key, c.calm)
    ensures e.key in c.calm ==> PassDone(old(c.Book()), c.Book(), e, hash, r == Done)
    ensures r != Done ==> c.faults[e.key] > old(c.faults[e.key])
  {
    var n, key := e.spec.replicas, e.key;
    ghost var a, before := c.Book(), PodsOf(c.state, key);
    c.Now();
    var current;
    ghost var done;
    r, current, done := PruneStale(c, key, hash, n, ids, seen);
    if r != Done {
      if key in c.calm {
        PrunedPartial(before, PodsOf(c.state, key), hash, n, ids, done);
      }
      return;
    }
    ghost var b := c.Book();
    r := ScaleListed(c, e, hash, ids, seen, current, a);
    if key in c.calm {
      ScaledPass(a, b, c.Book(), e, hash, r == Done);
    }
  }

  /** As many Pods as wished, none of which has ended, all made from this hash. */
  ghost predicate AllAlive(pods: map<nat, Pod>, hash: string, n: nat) {
    && |pods| == n
    && forall id :: id in pods ==>
         && pods[id].phase != Failed && pods[id].phase != Succeeded
         && (hash != "" ==> SpecHash in pods[id].labels && pods[id].labels[SpecHash] == hash)
  }

  method ReconcilePods(c: Cluster, e: Entry, hash: string) returns (r: ApiResult)
    requires c.Safe() && Guarded(c.state, e.key) && ConfigReady(c.state, e)
    requires hash == c.digest(HashInput(e))
    modifies c
    ensures c.Safe() && Steady(old(c.Book()), c.Book(), e.key, c.calm)
    ensures e.key in c.calm ==> PassDone(old(c.Book()), c.Book(), e, hash, r == Done)
    ensures r != Done ==> c.faults[e.key] > old(c.faults[e.key])
    ensures e.key in c.calm && r == Done ==> AllAlive(PodsOf(c.state, e.key), hash, e.spec.replicas)
  {
    var ids, seen;
    r, ids, seen := c.ListPods(e.key);
    ghost var b := c.Book();
    assert e.key in c.calm ==> PodsOf(b.state, e.key) == PodsOf(old(c.state), e.key) by {
      assert SliceOf(b.state, e.key).pods == PodsOf(b.state, e.key);
    }
    if r != Done {
      NoPass(PodsOf(b.state, e.key), hash, e.spec.replicas);
      return;
    }
    ConfigKept(old(c.state), b.state, e);
    r := ReconcileListed(c, e, hash, ids, seen);
    SteadyTrans(old(c.Book()), b, c.Book(), e.key, c.calm);
    if e.key in c.calm && r == Done {
      OutcomeIsSettled(PodsOf(b.state, e.key), PodsOf(c.state, e.key), hash, e.spec.replicas);
      SettledMeans(PodsOf(c.state, e.key), hash, e.spec.replicas);
    }
  }

  lemma NoPass(pods: map<nat, Pod>, hash: string, n: nat)
    ensures Partial(pods, pods, hash, n)
  {
    assert Matching(pods, hash) * pods.Keys == Matching(pods, hash);
    assert pods.Keys - pods.Keys == {};
  }
}
