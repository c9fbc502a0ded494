/**
 The steps the two controllers share besides `reconcilePods`: ensuring the
 ConfigMap and the Service, and cleaning up. Each may be interrupted by users
 between any two API calls, and each call may fail.
 */
module Reconcilers {
  import opened Wrappers
  import opened ClusterState
  import opened ClusterApi
  import opened PodReconciler

  /** What to do about an object that another controller owns. */
  datatype OwnerPolicy = Refuse | TakeOver

  lemma LaterTrans(a: State, b: State, c: State, freed: set<Key>)
    requires Later(a, b, {}) && Later(b, c, freed)
    ensures Later(a, c, freed)
  {
  }

  lemma SnapshotLater(s: State, t: State, freed: set<Key>, e: Entry)
    requires SnapshotOk(s, e) && Later(s, t, freed)
    ensures SnapshotOk(t, e)
  {
  }

  // ---------- ConfigMap and Service ----------

  /** There is an object, and another controller owns it. */
  predicate Foreign(o: Option<Object>, e: Entry) {
    o.Some? && o.value.owner.Some? && o.value.owner.value != e.uid
  }

  /** The entry's own objects and those nobody owns are not foreign. */
  lemma ForeignMeans(o: Object, e: Entry)
    ensures Foreign(Some(o), e) <==> o.owner != None && o.owner != Some(e.uid)
    ensures !Foreign(None, e)
  {
  }

  method EnsureObject(c: Cluster, e: Entry, k: ObjKey, desired: Object, policy: OwnerPolicy) returns (r: ApiResult)
    requires c.Safe() && Guarded(c.state, e.key)
    requires (k == ConfigKey(e.key) || k == ServiceKey(e.key)) && desired.labels == ManagedLabels(e.key.name)
    modifies c
    ensures c.Safe() && Only(old(c.Book()), c.Book(), e.key, c.calm) && Later(old(c.state), c.state, {})
    ensures r == Done ==> k in c.state.objects && c.state.objects[k] == desired
    ensures k != ConfigKey(e.key) ==> ConfigMapsSame(old(c.state), c.state)
    ensures c.podWrites[e.key] == old(c.podWrites[e.key])
    ensures e.key in c.calm && r != Done ==>
      c.faults[e.key] > old(c.faults[e.key]) || (policy == Refuse && Foreign(Lookup(old(c.state).objects, k), e))
    ensures e.key in c.calm ==> var sl := SliceOf(old(c.state), e.key);
      SliceOf(c.state, e.key) == sl || SliceOf(c.state, e.key) == WithObject(sl, k.kind, Some(desired))
    ensures e.key in c.calm && r == Done ==>
      SliceOf(c.state, e.key) == WithObject(SliceOf(old(c.state), e.key), k.kind, Some(desired))
    ensures e.key in c.calm && policy == Refuse && Foreign(Lookup(old(c.state).objects, k), e) ==>
      r != Done && c.calls[e.key] == old(c.calls[e.key]) && SliceOf(c.state, e.key) == SliceOf(old(c.state), e.key)
    ensures e.key in c.calm && Lookup(old(c.state).objects, k) == Some(desired) && desired.owner == Some(e.uid) ==>
      c.calls[e.key] == old(c.calls[e.key]) && SliceOf(c.state, e.key) == SliceOf(old(c.state), e.key)
  {
    var existing;
    r, existing := c.GetObject(e.key, k);
    ghost var b := c.Book();
    assert e.key in c.calm ==> SliceOf(b.state, e.key) == SliceOf(old(c.state), e.key);
    if r == Done {
      if policy == Refuse && Foreign(existing, e) {
        r := Error;
        return;
      }
      if existing.value == desired {
        return;
      }
    } else if r != NotFound {
      return;
    } else {
      existing := None;
    }
    ghost var took;
    r, took := c.PutObjectFor(e.key, k, existing, desired);
    LaterTrans(old(c.state), b.state, c.state, {});
    OnlyTrans(old(c.Book()), b, c.Book(), e.key, c.calm);
    if k != ConfigKey(e.key) {
      SameConfigsTrans(old(c.state), b.state, c.state);
    }
  }

  lemma SameConfigsTrans(a: State, b: State, c: State)
    requires ConfigMapsSame(a, b) && ConfigMapsSame(b, c)
    ensures ConfigMapsSame(a, c)
  {
    forall j: ObjKey | j.kind == ConfigMapKind ensures Lookup(a.objects, j) == Lookup(c.objects, j) {
      assert Lookup(a.objects, j) == Lookup(b.objects, j);
    }
  }

  // ---------- cleanup ----------

  lemma ShrinksTrans(a: State, b: State, c: State)
    requires Shrinks(a, b) && Shrinks(b, c)
    ensures Shrinks(a, c)
  {
  }

  /** Live Pods of the entry are all still to be deleted. */
  ghost predicate Remaining(s: State, key: Key, todo: seq<nat>) {
    forall id :: id in s.pods && !s.pods[id].deleting && Selects(key, s.pods[id]) ==> id in todo
  }

  lemma RemainingStep(s: State, t: State, key: Key, todo: seq<nat>)
    requires Remaining(s, key, todo) && Shrinks(s, t) && todo != []
    requires todo[0] in t.pods ==> t.pods[todo[0]].deleting
    ensures Remaining(t, key, todo[1..])
  {
    assert forall id :: id in todo ==> id == todo[0] || id in todo[1..];
  }

  /** Some Pods are gone, the others as they were. */
  ghost predicate FewerPods(before: map<nat, Pod>, after: map<nat, Pod>) {
    forall id :: id in after ==> id in before && after[id] == before[id]
  }

  /** Objects of the entry went away, none appeared or changed. */
  ghost predicate Fewer(before: Slice, after: Slice) {
    && FewerPods(before.pods, after.pods)
    && (after.config == before.config || after.config == None)
    && (after.service == before.service || after.service == None)
  }

  method CleanupPods(c: Cluster, key: Key) returns (r: ApiResult)
    requires c.Safe()
    modifies c
    ensures c.Safe() && Only(old(c.Book()), c.Book(), key, c.calm) && Later(old(c.state), c.state, {})
    ensures Shrinks(old(c.state), c.state)
    ensures r == Done ==> PodsGone(c.state, key)
    ensures r != Done ==> c.faults[key] > old(c.faults[key])
    ensures key in c.calm ==>
      OnlyPods(old(c.state), c.state, key) && FewerPods(PodsOf(old(c.state), key), PodsOf(c.state, key))
  {
    var ids, seen;
    r, ids, seen := c.ListPods(key);
    ghost var b := c.Book();
    assert key in c.calm ==> SliceOf(b.state, key) == SliceOf(old(c.state), key);
    if r != Done {
      return;
    }
    r := CleanupListed(c, key, ids);
    LaterTrans(old(c.state), b.state, c.state, {});
    ShrinksTrans(old(c.state), b.state, c.state);
    OnlyTrans(old(c.Book()), b, c.Book(), key, c.calm);
  }

  method CleanupListed(c: Cluster, key: Key, ids: seq<nat>) returns (r: ApiResult)
    requires c.Safe() && Remaining(c.state, key, ids) && AllMine(c.state, key, ids)
    modifies c
    ensures c.Safe() && Only(old(c.Book()), c.Book(), key, c.calm) && Later(old(c.state), c.state, {})
    ensures Shrinks(old(c.state), c.state)
    ensures r == Done ==> PodsGone(c.state, key)
    ensures r != Done ==> c.faults[key] > old(c.faults[key])
    ensures key in c.calm ==>
      OnlyPods(old(c.state), c.state, key) && FewerPods(PodsOf(old(c.state), key), PodsOf(c.state, key))
  {
    r := Done;
    var todo := ids;
    while todo != [] && r == Done
      invariant c.Safe() && Only(old(c.Book()), c.Book(), key, c.calm) && Later(old(c.state), c.state, {})
      invariant Shrinks(old(c.state), c.state)
      invariant r == Done ==> Remaining(c.state, key, todo)
      invariant r != Done ==> c.faults[key] > old(c.faults[key])
      invariant AllMine(c.state, key, todo)
      invariant key in c.calm ==>
        OnlyPods(old(c.state), c.state, key) && FewerPods(PodsOf(old(c.state), key), PodsOf(c.state, key))
      decreases |todo|
    {
      ghost var b := c.Book();
      assert Mine(c.state, key, todo[0]);
      r := DeleteListed(c, key, todo[0]);
      LaterTrans(old(c.state), b.state, c.state, {});
      ShrinksTrans(old(c.state), b.state, c.state);
      OnlyTrans(old(c.Book()), b, c.Book(), key, c.calm);
      AllMineLater(b.state, c.state, key, todo);
      if r == Done || r == NotFound {
        RemainingStep(b.state, c.state, key, todo);
        r := Done;
      }
      todo := todo[1..];
    }
  }

  /** One delete of a Pod carrying the entry's labels. */
  method DeleteListed(c: Cluster, key: Key, id: nat) returns (r: ApiResult)
    requires c.Safe() && Mine(c.state, key, id)
    modifies c
    ensures c.Safe() && Only(old(c.Book()), c.Book(), key, c.calm) && Later(old(c.state), c.state, {})
    ensures Shrinks(old(c.state), c.state)
    ensures r == Done || r == NotFound ==> id in c.state.pods ==> c.state.pods[id].deleting
    ensures c.faults[key] == old(c.faults[key]) + Blame(r)
    ensures key in c.calm ==>
      OnlyPods(old(c.state), c.state, key) && FewerPods(PodsOf(old(c.state), key), PodsOf(c.state, key))
  {
    ghost var took;
    r, took := c.DeletePod(key, id);
    assert SliceOf(c.state, key).pods == PodsOf(c.state, key);
    assert SliceOf(old(c.state), key).pods == PodsOf(old(c.state), key);
  }

  method CleanupOwnedResources(c: Cluster, key: Key) returns (r: ApiResult)
    requires c.Safe()
    modifies c
    ensures c.Safe() && Only(old(c.Book()), c.Book(), key, c.calm) && Later(old(c.state), c.state, {})
    ensures r == Done ==> Emptied(c.state, key)
    ensures r != Done ==> c.faults[key] > old(c.faults[key])
    ensures key in c.calm ==> SliceOf(c.state, key).entry == SliceOf(old(c.state), key).entry
    ensures key in c.calm ==> Fewer(SliceOf(old(c.state), key), SliceOf(c.state, key))
    ensures key in c.calm && r == Done ==>
      SliceOf(c.state, key) == Slice(SliceOf(old(c.state), key).entry, map[], None, None)
  {
    r := CleanupPods(c, key);
    if r != Done {
      return;
    }
    ghost var b1 := c.Book();
    r := c.DeleteObject(key, ServiceKey(key));
    ghost var b2 := c.Book();
    LaterTrans(old(c.state), b1.state, b2.state, {});
    OnlyTrans(old(c.Book()), b1, b2, key, c.calm);
    if r != Done && r != NotFound {
      return;
    }
    r := c.DeleteObject(key, ConfigKey(key));
    LaterTrans(old(c.state), b2.state, c.state, {});
    OnlyTrans(old(c.Book()), b2, c.Book(), key, c.calm);
    if r == Done || r == NotFound {
      c.Now();
      NothingLeft(b1.state, b2.state, c.state, key);
      r := Done;
    }
  }

  lemma NothingLeft(s1: State, s2: State, s3: State, key: Key)
    requires PodsGone(s1, key) && Shrinks(s1, s2) && Shrinks(s2, s3) && Named(s3)
    requires ServiceKey(key) !in s2.objects && ConfigKey(key) !in s3.objects
    ensures Emptied(s3, key) && PodsOf(s3, key) == map[]
  {
    forall id | id in s3.pods && !s3.pods[id].deleting ensures !Selects(key, s3.pods[id]) {
      assert id in s2.pods && id in s1.pods;
    }
    forall k | k in s3.objects && Managed(s3.objects[k].labels) ensures OwnerKey(k.ns, s3.objects[k].labels) != key {
      assert k in s2.objects;
    }
  }
}
