/**
 The control loops: the operator's `Reconcile`, the client-go controller's
 `reconcileCR` and `reconcileAll`, and runs of them.
 */
module Controllers {
  import opened Wrappers
  import opened ClusterState
  import opened ClusterApi
  import opened PodPlan
  import opened PodReconciler
  import opened Finalizers
  import opened Reconcilers

  // ---------- one entry's view of the history ----------

  /** What belongs to one entry, and how many write calls, effective Pod writes and failed calls there were for it. */
  datatype View = View(slice: Slice, calls: nat, podWrites: nat, faults: nat)

  ghost function ViewOf(b: Ledger, key: Key): View {
    View(SliceOf(b.state, key), b.calls[key], b.podWrites[key], b.faults[key])
  }

  /** Nothing happened to the entry but, maybe, failed reads. */
  ghost predicate Still(a: View, b: View) {
    b == a.(faults := b.faults)
  }

  function Left(sl: Slice, e: Entry, digest: Digest): nat {
    Distance(sl.pods, digest(HashInput(e)), e.spec.replicas)
  }

  /** Every Pod write that took effect was paid for by the distance to the wish. */
  ghost predicate Balanced(e: Entry, a: View, b: View, digest: Digest) {
    b.podWrites + Left(b.slice, e, digest) == a.podWrites + Left(a.slice, e, digest)
  }

  /** The same entry as its owner sees it; the finalizer may have come. */
  ghost predicate SameWish(e: Entry, e': Entry) {
    e' == e.(rv := e'.rv, finalizers := e'.finalizers) && (Held(e) ==> Held(e'))
  }

  predicate Live(sl: Slice) {
    sl.entry.Some? && !sl.entry.value.deleting
  }

  /** Over any stretch of a run: a live entry keeps its wish, and its Pod writes balance. */
  ghost predicate Course(a: View, b: View, digest: Digest) {
    Live(a.slice) ==>
      && b.slice.entry.Some? && SameWish(a.slice.entry.value, b.slice.entry.value)
      && Balanced(a.slice.entry.value, a, b, digest)
  }

  lemma CourseTrans(a: View, b: View, c: View, digest: Digest)
    requires Course(a, b, digest) && Course(b, c, digest)
    ensures Course(a, c, digest)
  {
    if Live(a.slice) {
      assert HashInput(b.slice.entry.value) == HashInput(a.slice.entry.value);
    }
  }

  // ---------- the two halves of a pass ----------

  /** A deleted entry: nothing live left, and the finalizer gone, with the entry if it was the last one. */
  ghost predicate Deleted(cr: Entry, after: Slice) {
    && after.pods == map[] && after.config == None && after.service == None
    && (after.entry == None <==> Held(cr) && Without(cr.finalizers, FINALIZER) == [])
    && (after.entry.Some? ==>
         after.entry.value == cr.(rv := after.entry.value.rv, finalizers := Without(cr.finalizers, FINALIZER)))
  }

  /** On the way there objects only go away, and the entry is touched last, if at all. */
  ghost predicate Deleting(cr: Entry, before: Slice, after: Slice, ok: bool) {
    && Fewer(before, after)
    && (after.entry == before.entry || Deleted(cr, after))
    && (ok ==> Deleted(cr, after))
  }

  method HandleDeletion(c: Cluster, cr: Entry) returns (r: ApiResult)
    requires c.Safe() && SnapshotOk(c.state, cr) && cr.deleting
    requires cr.key in c.calm ==> Lookup(c.state.entries, cr.key) == Some(cr)
    modifies c
    ensures c.Safe() && Only(old(c.Book()), c.Book(), cr.key, c.calm) && Later(old(c.state), c.state, {cr.key})
    ensures cr.key in c.calm ==> Deleting(cr, SliceOf(old(c.state), cr.key), SliceOf(c.state, cr.key), r == Done)
    ensures cr.key in c.calm && r != Done ==> c.faults[cr.key] > old(c.faults[cr.key])
  {
    r := CleanupOwnedResources(c, cr.key);
    ghost var b := c.Book();
    if r != Done {
      return;
    }
    SnapshotLater(old(c.state), b.state, {}, cr);
    assert cr.key in c.calm ==> SliceOf(b.state, cr.key).entry == Some(cr);
    if FINALIZER in cr.finalizers {
      ghost var took, before;
      r, took, before := RemoveFinalizer(c, cr);
      LaterTrans(old(c.state), b.state, c.state, {cr.key});
      OnlyTrans(old(c.Book()), b, c.Book(), cr.key, c.calm);
    } else {
      WithoutAbsent(cr.finalizers, FINALIZER);
    }
  }

  /** Takes effect only on the very entry that was read, so no edit made meanwhile is lost. */
  method RemoveFinalizer(c: Cluster, cr: Entry) returns (r: ApiResult, ghost took: bool, ghost before: State)
    requires c.Safe() && SnapshotOk(c.state, cr) && cr.deleting && Emptied(c.state, cr.key)
    requires cr.key in c.calm ==> Lookup(c.state.entries, cr.key) == Some(cr)
    modifies c
    ensures c.Safe() && Only(old(c.Book()), c.Book(), cr.key, c.calm) && Later(old(c.state), c.state, {cr.key})
    ensures Env(old(c.state), before) && (r == Done ==> took)
    ensures cr.key in c.calm && r != Done ==> c.faults[cr.key] > old(c.faults[cr.key])
    ensures took ==> Lookup(before.entries, cr.key) == Some(cr)
    ensures c.state == if took then StoreEntry(before, cr.(finalizers := Without(cr.finalizers, FINALIZER))) else before
    ensures cr.key in c.calm ==> var sl := SliceOf(old(c.state), cr.key); var sl' := SliceOf(c.state, cr.key);
      sl' == sl.(entry := sl'.entry) && if !took then sl'.entry == sl.entry else
      if Without(cr.finalizers, FINALIZER) == [] then sl'.entry == None
      else
        && sl'.entry.Some?
        && sl'.entry.value == cr.(rv := sl'.entry.value.rv, finalizers := Without(cr.finalizers, FINALIZER))
  {
    var finalizers := new string[|cr.finalizers|](i requires 0 <= i < |cr.finalizers| => cr.finalizers[i]);
    assert finalizers[..] == cr.finalizers;
    var kept := FilterInPlace(finalizers, FINALIZER);
    WithoutElements(cr.finalizers, FINALIZER);
    var updated := cr.(finalizers := finalizers[..kept]);
    var stored;
    r, stored, took, before := c.UpdateEntry(cr, updated);
    StoreEntrySlices(before, updated, cr.key);
  }

  /** A pass over the objects of a live entry, complete if `ok`. */
  ghost predicate Applied(cr: Entry, before: Slice, after: Slice, hash: string, ok: bool) {
    && after.entry == before.entry
    && Progress(before.pods, after.pods, hash, cr.spec.replicas, ok)
    && Ensured(cr, before, after, ok)
  }

  /** ConfigMap and Service are as they were or as wished, and as wished if `ok`. */
  ghost predicate Ensured(cr: Entry, before: Slice, after: Slice, ok: bool) {
    && (after.config == Some(DesiredConfigMap(cr)) || (!ok && after.config == before.config))
    && (after.service == Some(DesiredService(cr)) || (!ok && after.service == before.service))
  }

  /** The objects of a live entry are as wished. */
  ghost predicate InPlace(cr: Entry, sl: Slice, digest: Digest) {
    && sl.config == Some(DesiredConfigMap(cr)) && sl.service == Some(DesiredService(cr))
    && Left(sl, cr, digest) == 0
  }

  /** An object of the entry belongs to another controller, which this policy respects. */
  predicate Blocked(cr: Entry, policy: OwnerPolicy, sl: Slice) {
    policy == Refuse && (Foreign(sl.config, cr) || Foreign(sl.service, cr))
  }

  /** What serving a calm entry does: a pass, balanced, without a write call if all is in place,
      and successful unless some call fails or another owner is in the way. */
  ghost predicate ServedBy(cr: Entry, policy: OwnerPolicy, a: View, b: View, digest: Digest, ok: bool) {
    && Applied(cr, a.slice, b.slice, digest(HashInput(cr)), ok)
    && Balanced(cr, a, b, digest)
    && (InPlace(cr, a.slice, digest) ==> b.calls == a.calls)
    && (!ok ==> b.faults > a.faults || Blocked(cr, policy, a.slice))
    && (policy == Refuse ==> Respected(cr, a.slice, b.slice, ok))
  }

  /** What another controller owns is left alone, and no Pod is touched then. */
  ghost predicate Respected(cr: Entry, before: Slice, after: Slice, ok: bool) {
    && (Foreign(before.config, cr) ==> !ok && after == before)
    && (Foreign(before.service, cr) ==> !ok && after.service == before.service && after.pods == before.pods)
  }

  lemma NothingServed(cr: Entry, policy: OwnerPolicy, a: View, b: View, digest: Digest)
    requires Still(a, b) && b.faults > a.faults
    ensures ServedBy(cr, policy, a, b, digest, false)
  {
    NoPass(a.slice.pods, digest(HashInput(cr)), cr.spec.replicas);
  }

  /** A successful pass leaves everything in place, and what is in place stays. */
  lemma ServedSettles(cr: Entry, policy: OwnerPolicy, a: View, b: View, digest: Digest, ok: bool)
    requires ServedBy(cr, policy, a, b, digest, ok)
    ensures ok ==> InPlace(cr, b.slice, digest)
    ensures Left(a.slice, cr, digest) == 0 ==> b.slice.pods == a.slice.pods
    ensures InPlace(cr, a.slice, digest) ==> Still(a, b)
  {
    var hash, n := digest(HashInput(cr)), cr.spec.replicas;
    if ok {
      OutcomeIsSettled(a.slice.pods, b.slice.pods, hash, n);
    }
    if Left(a.slice, cr, digest) == 0 {
      SettledStays(a.slice.pods, b.slice.pods, hash, n);
    }
  }

  /** ConfigMap, then Service: as wished on success, and not written when they were already. */
  method EnsureObjects(c: Cluster, cr: Entry, policy: OwnerPolicy) returns (r: ApiResult)
    requires c.Safe() && Guarded(c.state, cr.key)
    modifies c
    ensures c.Safe() && Only(old(c.Book()), c.Book(), cr.key, c.calm) && Later(old(c.state), c.state, {})
    ensures c.podWrites[cr.key] == old(c.podWrites[cr.key])
    ensures r == Done ==> ConfigReady(c.state, cr)
    ensures cr.key in c.calm && r != Done ==>
      c.faults[cr.key] > old(c.faults[cr.key]) || Blocked(cr, policy, SliceOf(old(c.state), cr.key))
    ensures cr.key in c.calm && policy == Refuse ==>
      Respected(cr, SliceOf(old(c.state), cr.key), SliceOf(c.state, cr.key), r == Done)
    ensures cr.key in c.calm ==> var sl, sl' := SliceOf(old(c.state), cr.key), SliceOf(c.state, cr.key);
      && sl' == sl.(config := sl'.config, service := sl'.service)
      && Ensured(cr, sl, sl', r == Done)
      && (sl.config == Some(DesiredConfigMap(cr)) && sl.service == Some(DesiredService(cr)) ==>
           c.calls[cr.key] == old(c.calls[cr.key]) && sl' == sl)
  {
    r := EnsureObject(c, cr, ConfigKey(cr.key), DesiredConfigMap(cr), policy);
    if r != Done {
      return;
    }
    ghost var b := c.Book();
    r := EnsureObject(c, cr, ServiceKey(cr.key), DesiredService(cr), policy);
    LaterTrans(old(c.state), b.state, c.state, {});
    OnlyTrans(old(c.Book()), b, c.Book(), cr.key, c.calm);
    ConfigKept(b.state, c.state, cr);
  }

  method Apply(c: Cluster, cr: Entry, policy: OwnerPolicy) returns (r: ApiResult)
    requires c.Safe() && Guarded(c.state, cr.key)
    modifies c
    ensures c.Safe() && Only(old(c.Book()), c.Book(), cr.key, c.calm) && Later(old(c.state), c.state, {})
    ensures cr.key in c.calm ==>
      ServedBy(cr, policy, ViewOf(old(c.Book()), cr.key), ViewOf(c.Book(), cr.key), c.digest, r == Done)
  {
    var hash := c.digest(HashInput(cr));
    r := EnsureObjects(c, cr, policy);
    ghost var b := c.Book();
    if r != Done {
      NoPass(PodsOf(c.state, cr.key), hash, cr.spec.replicas);
      return;
    }
    r := ReconcilePods(c, cr, hash);
    LaterTrans(old(c.state), b.state, c.state, {});
    OnlyTrans(old(c.Book()), b, c.Book(), cr.key, c.calm);
    if cr.key in c.calm {
      assert PodsOf(b.state, cr.key) == SliceOf(b.state, cr.key).pods;
      assert PodsOf(c.state, cr.key) == SliceOf(c.state, cr.key).pods;
      EnsuredThenPassed(cr, policy, ViewOf(old(c.Book()), cr.key), ViewOf(b, cr.key), ViewOf(c.Book(), cr.key),
                        c.digest, r == Done);
    }
  }

  lemma EnsuredThenPassed(cr: Entry, policy: OwnerPolicy, a: View, b: View, c: View, digest: Digest, ok: bool)
    requires b.slice == a.slice.(config := Some(DesiredConfigMap(cr)), service := Some(DesiredService(cr)))
    requires b.podWrites == a.podWrites && b.faults >= a.faults && (a.slice == b.slice ==> b.calls == a.calls)
    requires c.slice == b.slice.(pods := c.slice.pods) && Balanced(cr, b, c, digest)
    requires Progress(b.slice.pods, c.slice.pods, digest(HashInput(cr)), cr.spec.replicas, ok)
    requires (Left(b.slice, cr, digest) == 0 ==> c.calls == b.calls) && (!ok ==> c.faults > b.faults)
    requires policy == Refuse ==> Respected(cr, a.slice, b.slice, true)
    ensures ServedBy(cr, policy, a, c, digest, ok)
  {
  }

  // ---------- operator ----------

  /** The finalizer was added and nothing else changed. */
  ghost predicate Adopted(e: Entry, before: Slice, after: Slice) {
    && after.entry.Some?
    && after == before.(entry := Some(e.(finalizers := e.finalizers + [FINALIZER], rv := after.entry.value.rv)))
  }

  /** What one operator pass does to a calm entry. It succeeds unless some call fails or another owner is in the way. */
  ghost predicate OperatorPass(a: View, b: View, digest: Digest, ok: bool) {
    match a.slice.entry
    case None => Still(a, b) && (!ok ==> b.faults > a.faults)
    case Some(e) =>
      if e.deleting then Deleting(e, a.slice, b.slice, ok) && (!ok ==> b.faults > a.faults)
      else if !Held(e) then
        && b.podWrites == a.podWrites && (!ok ==> b.faults > a.faults)
        && (Adopted(e, a.slice, b.slice) || (!ok && b.slice == a.slice))
      else ServedBy(e, Refuse, a, b, digest, ok)
  }

  predicate Served(e: Entry) {
    !e.deleting && Held(e)
  }

  method Reconcile(c: Cluster, key: Key) returns (r: ApiResult)
    requires c.Safe()
    modifies c
    ensures c.Safe() && Only(old(c.Book()), c.Book(), key, c.calm) && Later(old(c.state), c.state, {key})
    ensures key in c.calm ==> OperatorPass(ViewOf(old(c.Book()), key), ViewOf(c.Book(), key), c.digest, r == Done)
  {
    var got;
    r, got := c.GetEntry(key);
    ghost var b := c.Book();
    c.Now();
    ghost var v := ViewOf(old(c.Book()), key);
    assert key in c.calm ==> Still(v, ViewOf(b, key));
    if r == NotFound {
      r := Done;
      return;
    }
    if r != Done {
      if key in c.calm {
        NotTried(v, ViewOf(b, key), c.digest);
      }
      return;
    }
    var e := got.value;
    if e.deleting {
      r := HandleDeletion(c, e);
      LaterTrans(old(c.state), b.state, c.state, {key});
    } else if FINALIZER !in e.finalizers {
      var stored;
      ghost var took, before;
      r, stored, took, before := AddFinalizer(c, e);
      LaterTrans(old(c.state), b.state, c.state, {});
    } else {
      r := Apply(c, e, Refuse);
      LaterTrans(old(c.state), b.state, c.state, {});
    }
    OnlyTrans(old(c.Book()), b, c.Book(), key, c.calm);
  }

  lemma NotTried(a: View, b: View, digest: Digest)
    requires Still(a, b) && b.faults > a.faults
    ensures OperatorPass(a, b, digest, false)
  {
    if a.slice.entry.Some? {
      NothingServed(a.slice.entry.value, Refuse, a, b, digest);
    }
  }

  /** Takes effect only on the very entry that was read, so no edit made meanwhile is lost. */
  method AddFinalizer(c: Cluster, e: Entry) returns (r: ApiResult, stored: Entry, ghost took: bool, ghost before: State)
    requires c.Safe() && SnapshotOk(c.state, e) && !e.deleting && !Held(e)
    requires e.key in c.calm ==> Lookup(c.state.entries, e.key) == Some(e)
    modifies c
    ensures c.Safe() && Only(old(c.Book()), c.Book(), e.key, c.calm) && Later(old(c.state), c.state, {})
    ensures r == Done ==> Guarded(c.state, e.key) && stored == c.state.entries[e.key]
    ensures stored == e.(finalizers := e.finalizers + [FINALIZER], rv := stored.rv)
    ensures Env(old(c.state), before)
    ensures took ==> Lookup(before.entries, e.key) == Some(e)
    ensures c.state == if took then StoreEntry(before, e.(finalizers := e.finalizers + [FINALIZER])) else before
    ensures c.podWrites[e.key] == old(c.podWrites[e.key])
    ensures e.key in c.calm && r != Done ==> c.faults[e.key] > old(c.faults[e.key])
    ensures e.key in c.calm ==> var sl, sl' := SliceOf(old(c.state), e.key), SliceOf(c.state, e.key);
      Adopted(e, sl, sl') || (r != Done && sl' == sl)
  {
    var updated := e.(finalizers := e.finalizers + [FINALIZER]);
    assert updated.finalizers[|e.finalizers|] == FINALIZER;
    r, stored, took, before := c.UpdateEntry(e, updated);
    if r != Done {
      stored := updated;
    }
    StoreEntrySlices(before, updated, e.key);
  }

  /** A served entry whose Pods are as wished. */
  ghost predicate AtRest(sl: Slice, digest: Digest) {
    sl.entry.Some? && Served(sl.entry.value) && Left(sl, sl.entry.value, digest) == 0
  }

  /** A served entry with everything in place. */
  ghost predicate Settled(sl: Slice, digest: Digest) {
    sl.entry.Some? && Served(sl.entry.value) && InPlace(sl.entry.value, sl, digest)
  }

  lemma PassKeepsCourse(a: View, b: View, digest: Digest, ok: bool)
    requires OperatorPass(a, b, digest, ok)
    ensures Course(a, b, digest)
    ensures Live(a.slice) && Served(a.slice.entry.value) && ok ==> Settled(b.slice, digest)
    ensures Settled(a.slice, digest) ==> Settled(b.slice, digest)
    ensures Live(a.slice) && !Blocked(a.slice.entry.value, Refuse, a.slice) ==>
      !Blocked(b.slice.entry.value, Refuse, b.slice)
  {
    if Live(a.slice) && Served(a.slice.entry.value) {
      ServedSettles(a.slice.entry.value, Refuse, a, b, digest, ok);
    }
  }

  /** Where an operator run has come to, for one calm entry, after `passes` passes over it; `ok` if one
      succeeded. Unless another owner was in the way from the start, everything is in place
      once there were more passes than failed calls, not counting the pass that adopts the entry. */
  ghost predicate OperatorCourse(a: View, b: View, digest: Digest, passes: nat, ok: bool) {
    && Course(a, b, digest) && a.faults <= b.faults
    && (ok && Live(a.slice) && Served(a.slice.entry.value) ==> Settled(b.slice, digest))
    && (Live(a.slice) && !Blocked(a.slice.entry.value, Refuse, a.slice) ==>
         && !Blocked(b.slice.entry.value, Refuse, b.slice)
         && (|| Settled(b.slice, digest)
             || passes <= b.faults - a.faults + Adoptions(a.slice.entry.value, b.slice.entry.value)))
  }

  function Adoptions(e: Entry, e': Entry): nat {
    if !Held(e) && Held(e') then 1 else 0
  }

  lemma OperatorCourseStep(a: View, b: View, c: View, digest: Digest, passes: nat, before: bool, ok: bool)
    requires OperatorCourse(a, b, digest, passes, before) && OperatorPass(b, c, digest, ok) && b.faults <= c.faults
    ensures OperatorCourse(a, c, digest, passes + 1, before || ok)
  {
    PassKeepsCourse(b, c, digest, ok);
    CourseTrans(a, b, c, digest);
  }

  /** How many of the requests are for this entry. */
  function Passes(requests: seq<Key>, k: Key): nat {
    multiset(requests)[k]
  }

  predicate Succeeded(requests: seq<Key>, results: seq<ApiResult>, k: Key)
    requires |requests| == |results|
  {
    exists i :: 0 <= i < |requests| && requests[i] == k && results[i] == Done
  }

  /** Any sequence of operator passes over any entries, failing anywhere, whatever users do
      meanwhile: every state passed through is good. Entries not asked for see no call.
      A live entry nobody else acts on gets at most as many effective Pod writes as its
      Pods were away from the wish; with more passes than failed calls it has everything in
      place, for good, whatever happens to other entries. */
  method RunOperator(c: Cluster, requests: seq<Key>) returns (results: seq<ApiResult>)
    requires c.Safe()
    modifies c
    ensures c.Safe() && old(c.trail) <= c.trail && |results| == |requests|
    ensures forall k :: k !in requests ==> Untouched(old(c.Book()), c.Book(), k, c.calm)
    ensures forall k :: k in c.calm ==> Fulfils(old(c.Book()), c.Book(), k, c.digest, requests, results)
  {
    results := [];
    ghost var a := c.Book();
    for i := 0 to |requests|
      invariant c.Safe() && a.trail <= c.trail && |results| == i
      invariant forall k :: k !in requests[..i] ==> Untouched(a, c.Book(), k, c.calm)
      invariant forall k :: k in c.calm ==> Fulfils(a, c.Book(), k, c.digest, requests[..i], results)
    {
      ghost var b := c.Book();
      var r := Reconcile(c, requests[i]);
      assert requests[..i + 1] == requests[..i] + [requests[i]];
      RequestStep(requests[..i], results, requests[i], r, a, b, c.Book(), c.digest, c.calm);
      results := results + [r];
    }
    assert requests[..|requests|] == requests;
  }

  /** What a run of requests with these results did to one calm entry. */
  ghost predicate Fulfils(a: Ledger, b: Ledger, k: Key, digest: Digest, requests: seq<Key>, results: seq<ApiResult>) {
    && |requests| == |results|
    && OperatorCourse(ViewOf(a, k), ViewOf(b, k), digest, Passes(requests, k), Succeeded(requests, results, k))
  }

  lemma RequestStep(requests: seq<Key>, results: seq<ApiResult>, key: Key, r: ApiResult,
                    a: Ledger, b: Ledger, b': Ledger, digest: Digest, calm: set<Key>)
    requires Only(b, b', key, calm)
    requires key in calm ==> OperatorPass(ViewOf(b, key), ViewOf(b', key), digest, r == Done)
    requires forall k :: k !in requests ==> Untouched(a, b, k, calm)
    requires forall k :: k in calm ==> Fulfils(a, b, k, digest, requests, results)
    ensures forall k :: k !in requests + [key] ==> Untouched(a, b', k, calm)
    ensures forall k :: k in calm ==> Fulfils(a, b', k, digest, requests + [key], results + [r])
  {
    forall k | k !in requests + [key] ensures Untouched(a, b', k, calm) {
      assert Untouched(a, b, k, calm) && Untouched(b, b', k, calm);
    }
    forall k | k in calm ensures Fulfils(a, b', k, digest, requests + [key], results + [r]) {
      assert Fulfils(a, b, k, digest, requests, results);
      SucceededStep(requests, results, key, r, k);
      if k == key {
        OperatorCourseStep(ViewOf(a, k), ViewOf(b, k), ViewOf(b', k), digest,
                           Passes(requests, k), Succeeded(requests, results, k), r == Done);
      } else {
        assert Untouched(b, b', k, calm);
      }
    }
  }

  lemma SucceededStep(requests: seq<Key>, results: seq<ApiResult>, key: Key, r: ApiResult, k: Key)
    requires |requests| == |results|
    ensures Succeeded(requests + [key], results + [r], k) <==>
            Succeeded(requests, results, k) || (k == key && r == Done)
  {
    var requests', results' := requests + [key], results + [r];
    if Succeeded(requests, results, k) {
      var i :| 0 <= i < |requests| && requests[i] == k && results[i] == Done;
      assert requests'[i] == k && results'[i] == Done;
    }
    if k == key && r == Done {
      assert requests'[|requests|] == k && results'[|requests|] == Done;
    }
  }

  // ---------- client-go controller ----------

  /** The checks of parseSpec. */
  predicate SpecOk(spec: Spec) {
    && spec.targetDB != "" && spec.targetRedis != "" && spec.image != ""
    && 1 <= spec.exportPort <= 65535 && 1 <= spec.replicas
  }

  /** What parseSpec refuses. */
  lemma SpecRefused(spec: Spec)
    ensures !SpecOk(spec) <==>
      || spec.targetDB == "" || spec.targetRedis == "" || spec.image == ""
      || spec.exportPort < 1 || spec.exportPort > 65535 || spec.replicas == 0
  {
  }

  /** A live entry with a valid spec. */
  predicate Wished(sl: Slice) {
    Live(sl) && SpecOk(sl.entry.value.spec)
  }

  /** A live entry with everything in place: a fixed point of reconcileCR. */
  ghost predicate Converged(sl: Slice, digest: Digest) {
    sl.entry.Some? && Served(sl.entry.value) && SpecOk(sl.entry.value.spec) && InPlace(sl.entry.value, sl, digest)
  }

  /** The finalizer was added if it was missing, then the entry served; an invalid spec ends it there. */
  ghost predicate AdoptedAndApplied(cr: Entry, before: Slice, between: Slice, after: Slice, digest: Digest, ok: bool) {
    && (between == before || (!Held(cr) && Adopted(cr, before, between)))
    && Applied(cr, between, after, digest(HashInput(cr)), ok)
    && (!SpecOk(cr.spec) ==> !ok && after == between)
  }

  /** What one reconcileCR does to a calm entry. */
  ghost predicate CRPass(cr: Entry, a: View, b: View, digest: Digest, ok: bool) {
    if cr.deleting then Deleting(cr, a.slice, b.slice, ok)
    else
      && AdoptedAndApplied(cr, a.slice, a.slice.(entry := b.slice.entry), b.slice, digest, ok)
      && Balanced(cr, a, b, digest)
      && (Converged(a.slice, digest) ==> b.calls == a.calls)
      && (ok ==> Converged(b.slice, digest))
  }

  /** A pass succeeds unless some call fails or the spec is invalid. */
  ghost predicate CRPassed(cr: Entry, a: View, b: View, digest: Digest, ok: bool) {
    && CRPass(cr, a, b, digest, ok)
    && (!ok ==> b.faults > a.faults || (!cr.deleting && !SpecOk(cr.spec)))
  }

  /** A converged entry is left alone, whether or not the pass succeeds. */
  lemma ConvergedStays(cr: Entry, a: View, b: View, digest: Digest, ok: bool)
    requires a.slice.entry == Some(cr) && Converged(a.slice, digest) && CRPass(cr, a, b, digest, ok)
    ensures Still(a, b)
  {
    SettledStays(a.slice.pods, b.slice.pods, digest(HashInput(cr)), cr.spec.replicas);
  }

  lemma CRPassKeepsCourse(cr: Entry, a: View, b: View, digest: Digest, ok: bool)
    requires a.slice.entry == Some(cr) && CRPass(cr, a, b, digest, ok)
    ensures Course(a, b, digest)
  {
  }

  method ReconcileCR(c: Cluster, cr: Entry) returns (r: ApiResult)
    requires c.Safe() && SnapshotOk(c.state, cr) && (Held(cr) ==> Guarded(c.state, cr.key))
    requires cr.key in c.calm ==> Lookup(c.state.entries, cr.key) == Some(cr)
    modifies c
    ensures c.Safe() && Only(old(c.Book()), c.Book(), cr.key, c.calm) && Later(old(c.state), c.state, {cr.key})
    ensures cr.key in c.calm ==>
      CRPassed(cr, ViewOf(old(c.Book()), cr.key), ViewOf(c.Book(), cr.key), c.digest, r == Done)
  {
    if cr.deleting {
      r := HandleDeletion(c, cr);
      return;
    }
    var current := cr;
    if FINALIZER !in cr.finalizers {
      ghost var took, before;
      r, current, took, before := AddFinalizer(c, cr);
      if r != Done {
        if cr.key in c.calm {
          NotServed(cr, ViewOf(old(c.Book()), cr.key), ViewOf(c.Book(), cr.key), c.digest);
        }
        return;
      }
    }
    ghost var b := c.Book();
    r := ServeCR(c, current);
    LaterTrans(old(c.state), b.state, c.state, {});
    OnlyTrans(old(c.Book()), b, c.Book(), cr.key, c.calm);
    if cr.key in c.calm {
      ServedIsCRPass(cr, current, ViewOf(old(c.Book()), cr.key), ViewOf(b, cr.key), ViewOf(c.Book(), cr.key),
                     c.digest, r == Done);
    }
  }

  lemma NotServed(cr: Entry, a: View, b: View, digest: Digest)
    requires !cr.deleting && !Held(cr) && a.slice.entry == Some(cr) && b.podWrites == a.podWrites
    requires (b.slice == a.slice || Adopted(cr, a.slice, b.slice)) && b.faults > a.faults
    ensures CRPassed(cr, a, b, digest, false)
  {
    NoPass(b.slice.pods, digest(HashInput(cr)), cr.spec.replicas);
  }

  lemma ServedIsCRPass(cr: Entry, current: Entry, a: View, b: View, c: View, digest: Digest, ok: bool)
    requires !cr.deleting && a.slice.entry == Some(cr)
    requires Held(cr) ==> current == cr && b == a
    requires !Held(cr) ==>
      Adopted(cr, a.slice, b.slice) && b.slice.entry == Some(current) && b.podWrites == a.podWrites
    requires b.faults >= a.faults
    requires if SpecOk(cr.spec) then ServedBy(current, TakeOver, b, c, digest, ok) else !ok && c == b
    ensures CRPassed(cr, a, c, digest, ok)
  {
    assert HashInput(current) == HashInput(cr);
    assert !Held(cr) ==> current.finalizers[|cr.finalizers|] == FINALIZER;
    if SpecOk(cr.spec) {
      ServedSettles(current, TakeOver, b, c, digest, ok);
    } else {
      NoPass(b.slice.pods, digest(HashInput(cr)), cr.spec.replicas);
    }
  }

  /** The rest of reconcileCR, for an entry that carries the finalizer. */
  method ServeCR(c: Cluster, cr: Entry) returns (r: ApiResult)
    requires c.Safe() && Guarded(c.state, cr.key)
    modifies c
    ensures c.Safe() && Only(old(c.Book()), c.Book(), cr.key, c.calm) && Later(old(c.state), c.state, {})
    ensures cr.key in c.calm && SpecOk(cr.spec) ==>
      ServedBy(cr, TakeOver, ViewOf(old(c.Book()), cr.key), ViewOf(c.Book(), cr.key), c.digest, r == Done)
    ensures !SpecOk(cr.spec) ==> r != Done && c.Book() == old(c.Book())
  {
    if !SpecOk(cr.spec) {
      r := Error;
      return;
    }
    r := Apply(c, cr, TakeOver);
  }

  /** Entries still to be processed are the copies listed at the start, current or detectably stale. */
  ghost predicate Pending(s: State, items: seq<Entry>, i: nat) {
    forall j :: i <= j < |items| ==> SnapshotOk(s, items[j]) && (Held(items[j]) ==> Guarded(s, items[j].key))
  }

  lemma PendingStep(s: State, t: State, items: seq<Entry>, i: nat)
    requires i < |items| && Pending(s, items, i) && Later(s, t, {items[i].key})
    requires forall a, b :: 0 <= a < b < |items| ==> items[a].key != items[b].key
    ensures Pending(t, items, i + 1)
  {
    forall j | i + 1 <= j < |items| ensures SnapshotOk(t, items[j]) && (Held(items[j]) ==> Guarded(t, items[j].key)) {
      SnapshotLater(s, t, {items[i].key}, items[j]);
      assert items[i].key != items[j].key;
    }
  }

  /** An entry that was tried went through its own pass, which speaks of its own view alone;
      one that was not tried saw no call. Neither order nor other entries' failures show. */
  ghost predicate Passed(a: Ledger, b: Ledger, k: Key, digest: Digest, calm: set<Key>, results: map<Key, bool>) {
    if k !in results then Untouched(a, b, k, calm)
    else k in calm ==>
      k in a.state.entries && CRPassed(a.state.entries[k], ViewOf(a, k), ViewOf(b, k), digest, results[k])
  }

  ghost predicate AllPassed(a: Ledger, b: Ledger, digest: Digest, calm: set<Key>, results: map<Key, bool>) {
    forall k :: Passed(a, b, k, digest, calm, results)
  }

  lemma PassedStep(a: Ledger, b: Ledger, b': Ledger, digest: Digest, calm: set<Key>, results: map<Key, bool>,
                   cr: Entry, ok: bool)
    requires cr.key !in results && Lookup(a.state.entries, cr.key) == Some(cr)
    requires AllPassed(a, b, digest, calm, results)
    requires Only(b, b', cr.key, calm)
    requires (cr.key in calm ==> CRPassed(cr, ViewOf(b, cr.key), ViewOf(b', cr.key), digest, ok))
    ensures AllPassed(a, b', digest, calm, results[cr.key := ok])
  {
    var after := results[cr.key := ok];
    forall k ensures Passed(a, b', k, digest, calm, after) {
      assert Passed(a, b, k, digest, calm, results);
      if k != cr.key {
        assert Untouched(b, b', k, calm);
      } else {
        assert Untouched(a, b, k, calm);
        assert k in calm ==> ViewOf(a, k) == ViewOf(b, k);
      }
    }
  }

  ghost predicate FaultsGrow(a: Ledger, b: Ledger) {
    forall k :: a.faults[k] <= b.faults[k]
  }

  lemma OnlyFaults(a: Ledger, b: Ledger, key: Key, calm: set<Key>)
    requires Only(a, b, key, calm)
    ensures FaultsGrow(a, b)
  {
    forall k ensures a.faults[k] <= b.faults[k] {
      assert k != key ==> Untouched(a, b, k, calm);
    }
  }

  function KeysOf(items: seq<Entry>): set<Key> {
    set i | 0 <= i < |items| :: items[i].key
  }

  lemma ListingKeys(items: seq<Entry>, s: State)
    requires Listing(items, s) && forall k :: k in s.entries ==> s.entries[k].key == k
    ensures KeysOf(items) == s.entries.Keys
  {
    forall k | k in s.entries ensures k in KeysOf(items) {
      var i :| 0 <= i < |items| && items[i] == s.entries[k];
      assert items[i].key == k;
    }
  }

  method ReconcileAll(c: Cluster) returns (r: ApiResult, results: map<Key, bool>)
    requires c.Safe()
    modifies c
    ensures c.Safe() && old(c.trail) <= c.trail
    ensures AllPassed(old(c.Book()), c.Book(), c.digest, c.calm, results)
    ensures FaultsGrow(old(c.Book()), c.Book())
    ensures r == Done ==> forall k :: k in c.calm ==> (k in results <==> k in old(c.state).entries)
    ensures c.listFaults == old(c.listFaults) + if r == Done then 0 else 1
  {
    var items;
    results := map[];
    r, items := c.ListEntries();
    ghost var b := c.Book();
    assert forall k :: Untouched(old(c.Book()), b, k, c.calm);
    if r != Done {
      return;
    }
    assert Pending(b.state, items, 0) && KeysOf(items) == b.state.entries.Keys by {
      c.Now();
      ListingKeys(items, b.state);
    }
    results := ReconcileItems(c, items);
    PassedSince(old(c.Book()), b, c.Book(), c.digest, c.calm, results);
  }

  lemma PassedSince(a: Ledger, b: Ledger, b': Ledger, digest: Digest, calm: set<Key>, results: map<Key, bool>)
    requires forall k :: Untouched(a, b, k, calm)
    requires AllPassed(b, b', digest, calm, results)
    ensures AllPassed(a, b', digest, calm, results)
    ensures forall k :: k in calm ==> (k in a.state.entries <==> k in b.state.entries)
  {
    forall k
      ensures Passed(a, b', k, digest, calm, results)
      ensures k in calm ==> (k in a.state.entries <==> k in b.state.entries)
    {
      assert Untouched(a, b, k, calm) && Passed(b, b', k, digest, calm, results);
      assert k in calm ==> ViewOf(a, k) == ViewOf(b, k) && SliceOf(a.state, k).entry == SliceOf(b.state, k).entry;
    }
  }

  lemma KeysStep(items: seq<Entry>, i: nat)
    requires i < |items| && forall a, b :: 0 <= a < b < |items| ==> items[a].key != items[b].key
    ensures KeysOf(items[..i + 1]) == KeysOf(items[..i]) + {items[i].key} && items[i].key !in KeysOf(items[..i])
  {
    var now, next := items[..i], items[..i + 1];
    forall k | k in KeysOf(now) ensures k in KeysOf(next) {
      var j :| 0 <= j < i && now[j].key == k;
      assert next[j].key == k;
    }
    assert next[i].key == items[i].key;
  }

  method ReconcileItem(c: Cluster, items: seq<Entry>, i: nat, ghost a: Ledger, ghost results: map<Key, bool>)
    returns (ok: bool)
    requires c.Safe() && a.trail <= c.trail && i < |items| && Listing(items, a.state) && Pending(c.state, items, i)
    requires items[i].key !in results && AllPassed(a, c.Book(), c.digest, c.calm, results)
    modifies c
    ensures c.Safe() && a.trail <= c.trail && Pending(c.state, items, i + 1) && c.listFaults == old(c.listFaults)
    ensures AllPassed(a, c.Book(), c.digest, c.calm, results[items[i].key := ok])
    ensures FaultsGrow(old(c.Book()), c.Book())
  {
    var cr := items[i];
    ghost var b := c.Book();
    assert Passed(a, b, cr.key, c.digest, c.calm, results);
    assert cr.key in c.calm ==> SliceOf(b.state, cr.key).entry == SliceOf(a.state, cr.key).entry;
    var r := ReconcileCR(c, cr);
    ok := r == Done;
    OnlyFaults(b, c.Book(), cr.key, c.calm);
    PendingStep(b.state, c.state, items, i);
    PassedStep(a, b, c.Book(), c.digest, c.calm, results, cr, ok);
  }

  method ReconcileItems(c: Cluster, items: seq<Entry>) returns (results: map<Key, bool>)
    requires c.Safe() && Listing(items, c.state) && Pending(c.state, items, 0)
    modifies c
    ensures c.Safe() && old(c.trail) <= c.trail && results.Keys == KeysOf(items) && c.listFaults == old(c.listFaults)
    ensures FaultsGrow(old(c.Book()), c.Book())
    ensures AllPassed(old(c.Book()), c.Book(), c.digest, c.calm, results)
  {
    results := map[];
    ghost var a := c.Book();
    for i := 0 to |items|
      invariant c.Safe() && a.trail <= c.trail && Pending(c.state, items, i) && results.Keys == KeysOf(items[..i])
      invariant c.listFaults == old(c.listFaults) && FaultsGrow(old(c.Book()), c.Book())
      invariant AllPassed(a, c.Book(), c.digest, c.calm, results)
    {
      KeysStep(items, i);
      var ok := ReconcileItem(c, items, i, a, results);
      results := results[items[i].key := ok];
    }
    assert items[..|items|] == items;
  }

  /** Where the controller has come to, for one calm entry that was tried `tries` times; `ok` if one of
      its passes succeeded. A live valid entry has converged once it was tried more often than calls for it failed. */
  ghost predicate ControllerCourse(a: View, b: View, digest: Digest, tries: nat, ok: bool) {
    && Course(a, b, digest) && a.faults <= b.faults
    && (a.slice.entry == None || Converged(a.slice, digest) ==> Still(a, b))
    && (ok && Live(a.slice) ==> Converged(b.slice, digest))
    && (Wished(a.slice) ==> Converged(b.slice, digest) || tries <= b.faults - a.faults)
  }

  lemma ControllerCourseStep(a: View, b: View, c: View, digest: Digest, tries: nat, before: bool, ok: bool)
    requires ControllerCourse(a, b, digest, tries, before) && b.slice.entry.Some? && b.faults <= c.faults
    requires CRPassed(b.slice.entry.value, b, c, digest, ok)
    ensures ControllerCourse(a, c, digest, tries + 1, before || ok)
  {
    var cr := b.slice.entry.value;
    CRPassKeepsCourse(cr, b, c, digest, ok);
    CourseTrans(a, b, c, digest);
    if Converged(b.slice, digest) {
      ConvergedStays(cr, b, c, digest, ok);
    }
  }

  predicate EverOk(history: seq<map<Key, bool>>, k: Key) {
    exists i :: 0 <= i < |history| && k in history[i] && history[i][k]
  }

  lemma EverOkStep(history: seq<map<Key, bool>>, results: map<Key, bool>, k: Key)
    ensures EverOk(history + [results], k) <==> EverOk(history, k) || (k in results && results[k])
  {
    var longer := history + [results];
    if EverOk(history, k) {
      var i :| 0 <= i < |history| && k in history[i] && history[i][k];
      assert longer[i] == history[i];
    }
    if k in results && results[k] {
      assert longer[|history|] == results;
    }
  }

  /** How often the entry was tried. */
  function Tries(history: seq<map<Key, bool>>, k: Key): nat {
    if history == [] then 0
    else Tries(history[..|history| - 1], k) + if k in history[|history| - 1] then 1 else 0
  }

  lemma TriesStep(history: seq<map<Key, bool>>, results: map<Key, bool>, k: Key)
    ensures Tries(history + [results], k) == Tries(history, k) + if k in results then 1 else 0
  {
    assert (history + [results])[..|history|] == history;
  }

  /** What these ticks did to one calm entry. A live one was tried at every tick at which
      the entries could be listed. */
  ghost predicate Tended(a: Ledger, b: Ledger, k: Key, digest: Digest, history: seq<map<Key, bool>>) {
    && ControllerCourse(ViewOf(a, k), ViewOf(b, k), digest, Tries(history, k), EverOk(history, k))
    && (Live(SliceOf(a.state, k)) ==> |history| <= Tries(history, k) + b.listFaults - a.listFaults)
  }

  lemma TickStep(a: Ledger, b: Ledger, b': Ledger, digest: Digest, calm: set<Key>,
                 history: seq<map<Key, bool>>, results: map<Key, bool>)
    requires forall k :: k in calm ==> Tended(a, b, k, digest, history)
    requires AllPassed(b, b', digest, calm, results) && FaultsGrow(b, b')
    requires b'.listFaults == b.listFaults ==> forall k :: k in calm ==> (k in results <==> k in b.state.entries)
    requires b.listFaults <= b'.listFaults
    ensures forall k :: k in calm ==> Tended(a, b', k, digest, history + [results])
  {
    forall k | k in calm ensures Tended(a, b', k, digest, history + [results]) {
      assert Tended(a, b, k, digest, history) && Passed(b, b', k, digest, calm, results);
      EverOkStep(history, results, k);
      TriesStep(history, results, k);
      if k in results {
        ControllerCourseStep(ViewOf(a, k), ViewOf(b, k), ViewOf(b', k), digest,
                             Tries(history, k), EverOk(history, k), results[k]);
      } else if Live(SliceOf(a.state, k)) {
        assert k in b.state.entries;
      }
    }
  }

  /** The controller's endless loop, for any number of ticks: every state passed through is
      good. A live entry nobody else acts on gets at most as many effective Pod writes as its
      Pods were away from the wish, is converged for good once one of its passes succeeded,
      and if converged at the start sees no write at all, whatever happens to other entries.
      A valid one has converged after more ticks than there were failed calls for it and failed lists. */
  method Run(c: Cluster, ticks: nat) returns (history: seq<map<Key, bool>>)
    requires c.Safe()
    modifies c
    ensures c.Safe() && old(c.trail) <= c.trail && |history| == ticks
    ensures forall k :: k in c.calm ==> Tended(old(c.Book()), c.Book(), k, c.digest, history)
    ensures forall k :: k in c.calm && Wished(SliceOf(old(c.state), k)) ==>
      || Converged(SliceOf(c.state, k), c.digest)
      || ticks <= c.faults[k] - old(c.faults[k]) + c.listFaults - old(c.listFaults)
  {
    history := [];
    ghost var a := c.Book();
    for i := 0 to ticks
      invariant c.Safe() && a.trail <= c.trail && |history| == i
      invariant forall k :: k in c.calm ==> Tended(a, c.Book(), k, c.digest, history)
    {
      ghost var b := c.Book();
      var r, results := ReconcileAll(c);
      TickStep(a, b, c.Book(), c.digest, c.calm, history, results);
      history := history + [results];
    }
    Converges(a, c.Book(), c.digest, c.calm, history);
  }

  lemma Converges(a: Ledger, b: Ledger, digest: Digest, calm: set<Key>, history: seq<map<Key, bool>>)
    requires forall k :: k in calm ==> Tended(a, b, k, digest, history)
    ensures forall k :: k in calm && Wished(SliceOf(a.state, k)) ==>
      || Converged(SliceOf(b.state, k), digest)
      || |history| <= b.faults[k] - a.faults[k] + b.listFaults - a.listFaults
  {
    forall k | k in calm && Wished(SliceOf(a.state, k))
      ensures Converged(SliceOf(b.state, k), digest) ||
        |history| <= b.faults[k] - a.faults[k] + b.listFaults - a.listFaults
    {
      assert Tended(a, b, k, digest, history);
    }
  }

  // ---------- what good states and converged slices mean ----------

  /** At no point of a run has an entry disappeared, or lost its finalizer, while something live of it was left. */
  lemma NoOrphans(c: Cluster, i: nat, key: Key)
    requires c.Safe() && i < |c.trail| && !Guarded(c.trail[i], key)
    ensures var s := c.trail[i];
      && PodsOf(s, key) == map[]
      && (ConfigKey(key) in s.objects ==> s.objects[ConfigKey(key)].labels != ManagedLabels(key.name))
      && (ServiceKey(key) in s.objects ==> s.objects[ServiceKey(key)].labels != ManagedLabels(key.name))
  {
    var s := c.trail[i];
    assert Good(s, c.digest);
    forall id | id in s.pods && !s.pods[id].deleting ensures !Selects(key, s.pods[id]) {
    }
  }

  /** What this Pod runs with is not mistaken for the entry's current input. */
  predicate NoCollision(p: Pod, e: Entry, digest: Digest) {
    p.bootConfig.Some? && digest(RunsWith(p)) == digest(HashInput(e)) ==> RunsWith(p) == HashInput(e)
  }

  /** At any point of a run: a Pod of an entry whose Pods are as wished runs the current image,
      resources and configuration, unless its own input collides with the current one. */
  lemma RolloutComplete(c: Cluster, i: nat, key: Key, id: nat)
    requires c.Safe() && i < |c.trail| && AtRest(SliceOf(c.trail[i], key), c.digest) && id in PodsOf(c.trail[i], key)
    requires NoCollision(c.trail[i].pods[id], c.trail[i].entries[key], c.digest)
    ensures var p, e := c.trail[i].pods[id], c.trail[i].entries[key];
      && p.image == e.spec.image && p.resources == e.spec.resources
      && p.bootConfig.Some? && p.bootConfig.value.targetDB == e.spec.targetDB
      && p.bootConfig.value.targetRedis == e.spec.targetRedis && p.bootConfig.value.exportPort == e.spec.exportPort
      && p.bootConfig.value.secretKey == key && p.bootConfig.value.secretUid == e.uid
      && !p.phase.Failed? && !p.phase.Succeeded?
  {
    var s := c.trail[i];
    var pods, hash := PodsOf(s, key), c.digest(HashInput(s.entries[key]));
    assert Good(s, c.digest);
    assert Stale(pods, hash) == {};
    assert id !in Stale(pods, hash);
    assert Fits(pods[id], hash) && Built(s.pods[id], c.digest);
  }

  /** Editing only the replicas neither changes the hash nor replaces a Pod that is kept. */
  lemma ReplicasEditKeepsPods(e: Entry, e': Entry, before: Slice, after: Slice, digest: Digest)
    requires e' == e.(rv := e'.rv, spec := e.spec.(replicas := e'.spec.replicas))
    requires Left(before, e, digest) == 0
    requires Applied(e', before.(entry := Some(e')), after, digest(HashInput(e')), true)
    ensures HashInput(e') == HashInput(e)
    ensures |before.pods.Keys * after.pods.Keys| == Min(e.spec.replicas, e'.spec.replicas)
    ensures forall id :: id in before.pods && id in after.pods ==> after.pods[id] == before.pods[id]
    ensures e'.spec.replicas >= e.spec.replicas ==> before.pods.Keys <= after.pods.Keys
  {
    Rescale(before.pods, after.pods, digest(HashInput(e)), e.spec.replicas, e'.spec.replicas);
  }
}
