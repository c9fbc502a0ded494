/**
 The API server as a mutable object. Every call first lets the rest of the world
 move (`Interfere`), then answers; a write may also fail, with or without having
 taken effect. `trail` records every state the cluster passes through, so
 `Safe` speaks about whole runs, not only about the states between calls.
 */
module ClusterApi {
  import opened Wrappers
  import opened ClusterState

  /** Rejected: resourceVersion conflict or already exists. Error: any other failure. */
  datatype ApiResult = Done | NotFound | Rejected | Error

  /** A copy of an entry that is either current or detectably out of date. */
  ghost predicate SnapshotOk(s: State, e: Entry) {
    && e.rv < s.clock
    && (e.key in s.entries && s.entries[e.key].rv == e.rv ==> s.entries[e.key] == e)
  }

  /** Time passed: changed entries got fresh resourceVersions, and guarded
      entries outside `freed` are still the same guarded entries. */
  ghost predicate Later(s: State, t: State, freed: set<Key>) {
    && s.clock <= t.clock
    && (forall k :: k in t.entries && !(k in s.entries && s.entries[k] == t.entries[k]) ==> t.entries[k].rv >= s.clock)
    && (forall k :: k !in freed && Guarded(s, k) ==> Guarded(t, k) && t.entries[k].uid == s.entries[k].uid)
  }

  /** No live Pod and no managed object appeared. */
  ghost predicate Shrinks(s: State, t: State) {
    && (forall id :: id in t.pods && !t.pods[id].deleting ==>
          && id in s.pods && !s.pods[id].deleting
          && t.pods[id].ns == s.pods[id].ns && t.pods[id].labels == s.pods[id].labels)
    && (forall k :: k in t.objects && Managed(t.objects[k].labels) ==>
          k in s.objects && s.objects[k].labels == t.objects[k].labels)
  }

  ghost predicate PodsGone(s: State, key: Key) {
    forall id :: id in s.pods && !s.pods[id].deleting ==> !Selects(key, s.pods[id])
  }

  /** Nothing live belongs to the entry any more. */
  ghost predicate Emptied(s: State, key: Key) {
    && PodsGone(s, key)
    && (forall k :: k in s.objects && Managed(s.objects[k].labels) ==> OwnerKey(k.ns, s.objects[k].labels) != key)
  }

  ghost predicate ConfigReady(s: State, e: Entry) {
    ConfigHeld(s, e.key) == Some(DesiredConfigData(e))
  }

  ghost predicate OthersSame(s: State, t: State, key: Key) {
    forall k :: k != key ==> SliceOf(t, k) == SliceOf(s, k)
  }

  /** A live Pod under this id belongs to the entry. */
  ghost predicate Mine(s: State, key: Key, id: nat) {
    id in s.pods && !s.pods[id].deleting ==> Selects(key, s.pods[id])
  }

  // ---------- what happened ----------

  /** The cluster and its history: every state it passed through, and for each entry the write
      calls issued, the Pod writes that took effect and the calls that failed. Failures to
      list the entries are counted apart. */
  datatype Ledger = Ledger(state: State, trail: seq<State>, calls: multiset<Key>, podWrites: multiset<Key>,
                           faults: multiset<Key>, listFaults: nat)

  predicate Fault(r: ApiResult) {
    r == Error || r == Rejected
  }

  function Blame(r: ApiResult): nat {
    if Fault(r) then 1 else 0
  }

  /** No call was made for this entry, and if nobody else acts on it, nothing of it changed. */
  ghost predicate Untouched(a: Ledger, b: Ledger, k: Key, calm: set<Key>) {
    && b.calls[k] == a.calls[k] && b.podWrites[k] == a.podWrites[k] && b.faults[k] == a.faults[k]
    && (k in calm ==> SliceOf(b.state, k) == SliceOf(a.state, k))
  }

  /** History went on, with calls for this one entry only. */
  ghost predicate Only(a: Ledger, b: Ledger, key: Key, calm: set<Key>) {
    && a.trail <= b.trail && b.listFaults == a.listFaults
    && a.calls[key] <= b.calls[key] && a.podWrites[key] <= b.podWrites[key] && a.faults[key] <= b.faults[key]
    && (forall k :: k != key ==> Untouched(a, b, k, calm))
  }

  /** History went on with at most a read for this one entry. */
  ghost predicate Idle(a: Ledger, b: Ledger, key: Key, calm: set<Key>) {
    && Only(a, b, key, calm) && b.calls[key] == a.calls[key] && b.podWrites[key] == a.podWrites[key]
    && (key in calm ==> SliceOf(b.state, key) == SliceOf(a.state, key))
  }

  lemma OnlyTrans(a: Ledger, b: Ledger, c: Ledger, key: Key, calm: set<Key>)
    requires Only(a, b, key, calm) && Only(b, c, key, calm)
    ensures Only(a, c, key, calm)
  {
    forall k | k != key ensures Untouched(a, c, k, calm) {
      assert Untouched(a, b, k, calm) && Untouched(b, c, k, calm);
    }
  }

  predicate Distinct<T(==)>(xs: seq<T>) {
    forall i, j :: 0 <= i < j < |xs| ==> xs[i] != xs[j]
  }

  function WithoutPod(sl: Slice, id: nat): Slice {
    sl.(pods := sl.pods - {id})
  }

  function WithPod(sl: Slice, id: nat, p: Pod): Slice {
    sl.(pods := sl.pods[id := p])
  }

  function WithObject(sl: Slice, kind: Kind, o: Option<Object>): Slice {
    if kind == ConfigMapKind then sl.(config := o) else sl.(service := o)
  }

  lemma EnvIsLater(s: State, t: State)
    requires Env(s, t)
    ensures Later(s, t, {}) && Shrinks(s, t) && ConfigMapsSame(s, t)
  {
  }

  lemma StoreKeepsGood(s: State, seen: Entry, e: Entry, digest: Digest)
    requires Good(s, digest) && seen.key in s.entries && s.entries[seen.key] == seen
    requires e == seen.(finalizers := e.finalizers)
    requires Held(seen) && !Held(e) ==> Emptied(s, seen.key)
    ensures Good(StoreEntry(s, e), digest)
  {
    var t := StoreEntry(s, e);
    assert forall k :: Guarded(s, k) && (k != seen.key || Held(e)) ==> Guarded(t, k);
  }

  lemma StoreIsLater(s0: State, s: State, seen: Entry, e: Entry)
    requires Later(s0, s, {}) && Shrinks(s0, s)
    requires seen.key in s.entries && s.entries[seen.key] == seen && e == seen.(finalizers := e.finalizers)
    ensures Later(s0, StoreEntry(s, e), if Held(e) then {} else {seen.key}) && Shrinks(s0, StoreEntry(s, e))
  {
  }

  lemma StoreFrame(s: State, e: Entry)
    ensures OthersSame(s, StoreEntry(s, e), e.key)
  {
    forall k | k != e.key ensures SliceOf(StoreEntry(s, e), k) == SliceOf(s, k) {
      StoreEntrySlices(s, e, k);
    }
  }

  lemma MineLater(s: State, t: State, key: Key, id: nat)
    requires Mine(s, key, id) && Shrinks(s, t)
    ensures Mine(t, key, id)
    ensures id in SliceOf(s, key).pods && SliceOf(t, key) == SliceOf(s, key) ==> id in t.pods && !t.pods[id].deleting
  {
    assert id in PodsOf(t, key) <==> id in SliceOf(t, key).pods;
  }

  lemma DeleteKeepsGood(s: State, id: nat, digest: Digest)
    requires Good(s, digest) && id in s.pods
    ensures Good(MarkDeleting(s, id), digest)
  {
    var t := MarkDeleting(s, id);
    assert forall k :: Guarded(t, k) == Guarded(s, k);
    assert forall j :: j in t.pods ==> t.pods[j].ns == s.pods[j].ns && t.pods[j].labels == s.pods[j].labels;
  }

  lemma DeleteIsLater(s0: State, s: State, t: State, id: nat)
    requires Later(s0, s, {}) && Shrinks(s0, s) && ConfigMapsSame(s0, s)
    requires t == s || (id in s.pods && t == MarkDeleting(s, id))
    ensures Later(s0, t, {}) && Shrinks(s0, t) && ConfigMapsSame(s0, t)
  {
  }

  lemma DeleteFrame(s: State, key: Key, id: nat)
    requires id in s.pods && Mine(s, key, id)
    ensures OthersSame(s, MarkDeleting(s, id), key)
    ensures SliceOf(MarkDeleting(s, id), key) ==
            if s.pods[id].deleting then SliceOf(s, key) else WithoutPod(SliceOf(s, key), id)
  {
    forall k
      ensures SliceOf(MarkDeleting(s, id), k) ==
              if s.pods[id].deleting || k != key then SliceOf(s, k) else WithoutPod(SliceOf(s, k), id)
    {
      MarkDeletingSlices(s, id, k);
      assert s.pods[id].deleting || k != key ==> PodsOf(s, k) - {id} == PodsOf(s, k);
    }
  }

  lemma ConfigKept(s: State, t: State, e: Entry)
    requires ConfigReady(s, e) && ConfigMapsSame(s, t)
    ensures ConfigReady(t, e)
  {
    assert Lookup(s.objects, ConfigKey(e.key)) == Lookup(t.objects, ConfigKey(e.key));
  }

  lemma AddKeepsGood(s: State, e: Entry, p: Pod, digest: Digest)
    requires Good(s, digest) && Guarded(s, e.key) && Selects(e.key, p) && Built(p, digest)
    ensures Good(AddPod(s, p), digest)
  {
    var t := AddPod(s, p);
    assert forall k :: Guarded(t, k) == Guarded(s, k);
  }

  lemma AddFrame(s: State, key: Key, p: Pod)
    requires WellNumbered(s) && Selects(key, p) && !p.deleting
    ensures OthersSame(s, AddPod(s, p), key) && SliceOf(AddPod(s, p), key) == WithPod(SliceOf(s, key), s.clock, p)
  {
    forall k
      ensures SliceOf(AddPod(s, p), k) == if k == key then WithPod(SliceOf(s, k), s.clock, p) else SliceOf(s, k)
    {
      AddPodSlices(s, p, k);
    }
  }

  lemma PutKeepsGood(s: State, key: Key, k: ObjKey, o: Object, digest: Digest)
    requires Good(s, digest) && Guarded(s, key)
    requires (k == ConfigKey(key) || k == ServiceKey(key)) && o.labels == ManagedLabels(key.name)
    ensures Good(PutObject(s, k, o), digest)
  {
    var t := PutObject(s, k, o);
    assert forall j :: Guarded(t, j) == Guarded(s, j);
  }

  lemma DropKeepsGood(s: State, k: ObjKey, digest: Digest)
    requires Good(s, digest)
    ensures Good(DropObject(s, k), digest)
  {
    var t := DropObject(s, k);
    assert forall j :: Guarded(t, j) == Guarded(s, j);
  }

  lemma ObjectFrame(s: State, key: Key, k: ObjKey, o: Object)
    requires k == ConfigKey(key) || k == ServiceKey(key)
    ensures OthersSame(s, PutObject(s, k, o), key)
    ensures OthersSame(s, DropObject(s, k), key)
    ensures SliceOf(PutObject(s, k, o), key) == WithObject(SliceOf(s, key), k.kind, Some(o))
    ensures SliceOf(DropObject(s, k), key) == WithObject(SliceOf(s, key), k.kind, None)
  {
    forall j
      ensures j != key ==> SliceOf(PutObject(s, k, o), j) == SliceOf(s, j)
      ensures j != key ==> SliceOf(DropObject(s, k), j) == SliceOf(s, j)
    {
      ObjectSlices(s, k, o, j);
      ObjectKeysInjective(j, key);
    }
    ObjectSlices(s, k, o, key);
  }

  lemma AddIsLater(s0: State, s: State, p: Pod)
    requires Later(s0, s, {}) && ConfigMapsSame(s0, s)
    ensures Later(s0, AddPod(s, p), {}) && ConfigMapsSame(s0, AddPod(s, p))
  {
  }

  lemma ObjectIsLater(s0: State, s: State, k: ObjKey, o: Object)
    requires Later(s0, s, {}) && Shrinks(s0, s) && ConfigMapsSame(s0, s)
    ensures Later(s0, PutObject(s, k, o), {})
    ensures k.kind != ConfigMapKind ==> ConfigMapsSame(s0, PutObject(s, k, o))
    ensures Later(s0, DropObject(s, k), {}) && Shrinks(s0, DropObject(s, k))
  {
  }

  class Cluster {
    var state: State
    const digest: Digest
    /** Entries nobody but the controller acts on; of all others anything may change at any time. */
    const calm: set<Key>
    ghost var trail: seq<State>
    /** Write calls issued, for which entry. */
    ghost var calls: multiset<Key>
    /** Pod writes that took effect, for which entry. */
    ghost var podWrites: multiset<Key>
    /** Calls that failed, for which entry. */
    ghost var faults: multiset<Key>
    ghost var listFaults: nat

    ghost function Book(): Ledger
      reads this
    {
      Ledger(state, trail, calls, podWrites, faults, listFaults)
    }

    /** Every state the cluster has been in was good. */
    ghost predicate Safe()
      reads this
    {
      && |trail| > 0
      && trail[|trail| - 1] == state
      && (forall i {:trigger Good(trail[i], digest)} :: 0 <= i < |trail| ==> Good(trail[i], digest))
    }

    constructor (initial: State, digest: Digest, calm: set<Key>)
      requires Good(initial, digest)
      ensures Safe() && state == initial && this.digest == digest && this.calm == calm
      ensures trail == [initial] && calls == podWrites == faults == multiset{} && listFaults == 0
    {
      this.state, this.digest, this.calm := initial, digest, calm;
      this.trail, this.calls, this.podWrites := [initial], multiset{}, multiset{};
      this.faults, this.listFaults := multiset{}, 0;
    }

    /** The one place that writes `state`, and it records it: the trail misses no state. */
    method Advance(t: State)
      requires Safe() && Good(t, digest)
      modifies this`state, this`trail
      ensures Safe() && state == t && trail == old(trail) + [t]
    {
      state := t;
      trail := trail + [t];
    }

    /** The rest of the world takes any number of steps it may take. */
    method Interfere()
      requires Safe()
      modifies this`state, this`trail
      ensures Safe() && old(trail) <= trail
      ensures Env(old(state), state) && SameFor(old(state), state, calm)
    {
      var t: State := *;
      if !Env(state, t) || !SameFor(state, t, calm) {
        t := state;
      }
      Now();
      EnvKeepsGood(state, t, digest);
      Advance(t);
    }

    /** Interference, as far as most calls care. */
    method Pause()
      requires Safe()
      modifies this`state, this`trail
      ensures Safe() && old(trail) <= trail && SameFor(old(state), state, calm)
      ensures Later(old(state), state, {}) && Shrinks(old(state), state) && ConfigMapsSame(old(state), state)
    {
      Interfere();
      EnvIsLater(old(state), state);
    }

    lemma Now()
      requires Safe()
      ensures Good(state, digest)
    {
      assert Good(trail[|trail| - 1], digest);
    }

    method GetEntry(key: Key) returns (r: ApiResult, e: Option<Entry>)
      requires Safe()
      modifies this`state, this`trail, this`faults
      ensures Safe() && Idle(old(Book()), Book(), key, calm)
      ensures faults[key] == old(faults[key]) + Blame(r)
      ensures Later(old(state), state, {}) && Shrinks(old(state), state)
      ensures r == Done ==> e.Some? && key in state.entries && e.value == state.entries[key]
      ensures r == NotFound ==> key !in state.entries
    {
      Pause();
      e := None;
      if * {
        r := Error;
      } else if key in state.entries {
        r, e := Done, Some(state.entries[key]);
      } else {
        r := NotFound;
      }
      Note(key, r, old(Book()));
    }

    /** All entries of the cluster, in some order. */
    method ListEntries() returns (r: ApiResult, items: seq<Entry>)
      requires Safe()
      modifies this`state, this`trail, this`listFaults
      ensures Safe() && old(trail) <= trail && SameFor(old(state), state, calm)
      ensures Later(old(state), state, {}) && Shrinks(old(state), state)
      ensures r == Done ==> Listing(items, state)
      ensures listFaults == old(listFaults) + if r == Done then 0 else 1
    {
      Pause();
      Now();
      items, r := [], Error;
      if * {
        listFaults := listFaults + 1;
        return;
      }
      var todo := state.entries.Keys;
      while todo != {}
        invariant todo <= state.entries.Keys
        invariant forall i :: 0 <= i < |items| ==>
          items[i].key in state.entries && items[i] == state.entries[items[i].key] && items[i].key !in todo
        invariant forall k :: k in state.entries ==> k in todo || state.entries[k] in items
        invariant forall i, j :: 0 <= i < j < |items| ==> items[i].key != items[j].key
        decreases todo
      {
        var k :| k in todo;
        items, todo := items + [state.entries[k]], todo - {k};
      }
      r := Done;
    }

    /** Stores `e`, read as `seen`, unless the entry changed since. */
    method UpdateEntry(seen: Entry, e: Entry)
      returns (r: ApiResult, stored: Entry, ghost took: bool, ghost before: State)
      requires Safe() && SnapshotOk(state, seen)
      requires e == seen.(finalizers := e.finalizers)
      requires Held(seen) && !Held(e) ==> Emptied(state, seen.key)
      modifies this`state, this`trail, this`calls, this`podWrites, this`faults
      ensures Safe() && Only(old(Book()), Book(), seen.key, calm) && podWrites[seen.key] == old(podWrites[seen.key])
      ensures faults[seen.key] == old(faults[seen.key]) + Blame(r)
      ensures seen.key in calm && Lookup(old(state).entries, seen.key) == Some(seen) ==> r == Done || Fault(r)
      ensures Env(old(state), before) && SameFor(old(state), before, calm)
      ensures r == Done ==> took
      ensures !took ==> state == before
      ensures took ==> seen.key in before.entries && before.entries[seen.key] == seen && state == StoreEntry(before, e)
      ensures took && !(e.deleting && e.finalizers == []) ==> stored == state.entries[e.key] == e.(rv := before.clock)
      ensures Later(old(state), state, if Held(e) then {} else {seen.key}) && Shrinks(old(state), state)
      ensures took && Held(e) ==> Guarded(state, e.key)
    {
      Interfere();
      EnvIsLater(old(state), state);
      before, took, stored := state, false, e.(rv := state.clock);
      if seen.key !in state.entries {
        r := NotFound;
      } else if state.entries[seen.key].rv != seen.rv {
        r := Rejected;
      } else if * {
        r := Error;
      } else {
        took := true;
        Now();
        StoreKeepsGood(state, seen, e, digest);
        StoreIsLater(old(state), state, seen, e);
        StoreFrame(state, e);
        Advance(StoreEntry(state, e));
        if * { r := Error; } else { r := Done; }
      }
      Charge(seen.key, false, r, old(Book()), before);
    }

    /** The ids of the entry's Pods, live or not, in some order, and the Pods as listed. */
    method ListPods(key: Key) returns (r: ApiResult, ids: seq<nat>, seen: map<nat, Pod>)
      requires Safe()
      modifies this`state, this`trail, this`faults
      ensures Safe() && Idle(old(Book()), Book(), key, calm)
      ensures r == Done || Fault(r)
      ensures faults[key] == old(faults[key]) + Blame(r)
      ensures Later(old(state), state, {}) && Shrinks(old(state), state) && ConfigMapsSame(old(state), state)
      ensures r == Done ==> Distinct(ids) && seen == state.pods
      ensures r == Done ==> forall id :: id in ids <==> id in state.pods && Selects(key, state.pods[id])
    {
      Pause();
      ids, seen, r := [], state.pods, Error;
      if * {
        Note(key, r, old(Book()));
        return;
      }
      var all := set id | id in state.pods && Selects(key, state.pods[id]);
      var todo := all;
      while todo != {}
        invariant todo <= all
        invariant forall id :: id in ids <==> id in all && id !in todo
        invariant Distinct(ids)
        decreases todo
      {
        var id :| id in todo;
        ids, todo := ids + [id], todo - {id};
      }
      r := Done;
      Note(key, r, old(Book()));
    }

    /** Books the answer to one read for an entry. */
    ghost method Note(key: Key, r: ApiResult, a: Ledger)
      requires a.trail <= trail && a.calls == calls && a.podWrites == podWrites
      requires a.faults == faults && a.listFaults == listFaults && SameFor(a.state, state, calm)
      modifies this`faults
      ensures Idle(a, Book(), key, calm) && faults[key] == a.faults[key] + Blame(r)
    {
      if Fault(r) {
        faults := faults + multiset{key};
      }
    }

    /** Books one call for an entry and its answer; `took` if it is a Pod write that took effect. */
    ghost method Charge(key: Key, took: bool, r: ApiResult, a: Ledger, s: State)
      requires a.trail <= trail && a.calls == calls && a.podWrites == podWrites
      requires a.faults == faults && a.listFaults == listFaults
      requires SameFor(a.state, s, calm) && OthersSame(s, state, key)
      modifies this`calls, this`podWrites, this`faults
      ensures Only(a, Book(), key, calm) && podWrites[key] == a.podWrites[key] + if took then 1 else 0
      ensures faults[key] == a.faults[key] + Blame(r)
    {
      calls := calls + multiset{key};
      if took {
        podWrites := podWrites + multiset{key};
      }
      if Fault(r) {
        faults := faults + multiset{key};
      }
      forall k | k != key ensures Untouched(a, Book(), k, calm) {
        assert SliceOf(state, k) == SliceOf(s, k);
      }
    }

    /** A delete at one instant. */
    method Erase(ghost key: Key, id: nat) returns (r: ApiResult, ghost took: bool)
      requires Safe() && Mine(state, key, id)
      modifies this`state, this`trail
      ensures Safe() && old(trail) <= trail
      ensures state == old(state) || (id in old(state).pods && state == MarkDeleting(old(state), id))
      ensures r == Done || r == NotFound ==> id in state.pods ==> state.pods[id].deleting
      ensures id in old(state).pods && !old(state).pods[id].deleting ==> (r == Done ==> took) && r != NotFound
      ensures OthersSame(old(state), state, key)
      ensures SliceOf(state, key) == if took then WithoutPod(SliceOf(old(state), key), id) else SliceOf(old(state), key)
    {
      took := false;
      if id !in state.pods {
        r := NotFound;
      } else if * {
        r := Error;
      } else {
        took := !state.pods[id].deleting;
        Now();
        DeleteKeepsGood(state, id, digest);
        DeleteFrame(state, key, id);
        Advance(MarkDeleting(state, id));
        if * { r := Error; } else { r := Done; }
      }
    }

    method Add(e: Entry, p: Pod)
      requires Safe() && Guarded(state, e.key) && Selects(e.key, p) && Built(p, digest)
      modifies this`state, this`trail
      ensures Safe() && WellNumbered(old(state)) && state == AddPod(old(state), p) && old(trail) <= trail
    {
      Now();
      AddKeepsGood(state, e, p, digest);
      Advance(AddPod(state, p));
    }

    /** Deletes a Pod that was listed for the entry. */
    method DeletePod(ghost key: Key, id: nat) returns (r: ApiResult, ghost took: bool)
      requires Safe() && Mine(state, key, id)
      modifies this`state, this`trail, this`calls, this`podWrites, this`faults
      ensures Safe() && Only(old(Book()), Book(), key, calm)
      ensures podWrites[key] == old(podWrites[key]) + (if took then 1 else 0)
      ensures faults[key] == old(faults[key]) + Blame(r)
      ensures Later(old(state), state, {}) && Shrinks(old(state), state) && ConfigMapsSame(old(state), state)
      ensures r == Done || r == NotFound ==> id in state.pods ==> state.pods[id].deleting
      ensures key in calm && id in SliceOf(old(state), key).pods ==> (r == Done ==> took) && r != NotFound
      ensures key in calm ==>
        SliceOf(state, key) == if took then WithoutPod(SliceOf(old(state), key), id) else SliceOf(old(state), key)
    {
      Pause();
      ghost var s := state;
      MineLater(old(state), s, key, id);
      r, took := Erase(key, id);
      DeleteIsLater(old(state), s, state, id);
      Charge(key, took, r, old(Book()), s);
    }

    /** The new Pod loads whatever its ConfigMap holds at that moment. */
    method CreatePod(e: Entry, hash: string) returns (r: ApiResult, id: nat, ghost took: bool, ghost pod: Pod)
      requires Safe() && Guarded(state, e.key) && ConfigReady(state, e) && hash == digest(HashInput(e))
      modifies this`state, this`trail, this`calls, this`podWrites, this`faults
      ensures Safe() && Only(old(Book()), Book(), e.key, calm)
      ensures podWrites[e.key] == old(podWrites[e.key]) + (if took then 1 else 0)
      ensures faults[e.key] == old(faults[e.key]) + Blame(r) && (r == Done || Fault(r))
      ensures Later(old(state), state, {}) && ConfigMapsSame(old(state), state)
      ensures r == Done ==> took
      ensures pod == DesiredPod(e, hash, pod.created, ConfigHeld(state, e.key))
      ensures pod.bootConfig == Some(DesiredConfigData(e))
      ensures took ==> id >= old(state).clock && id in state.pods && state.pods[id] == pod
      ensures e.key in calm ==> var sl := SliceOf(old(state), e.key);
        SliceOf(state, e.key) == if took then WithPod(sl, id, pod) else sl
    {
      Pause();
      ghost var s := state;
      var created: int := *;
      var p := DesiredPod(e, hash, created, ConfigHeld(state, e.key));
      ConfigKept(old(state), state, e);
      took, id, pod := false, state.clock, p;
      if * {
        r := Error;
      } else {
        took := true;
        AddIsLater(old(state), state, p);
        Add(e, p);
        AddFrame(s, e.key, p);
        if * { r := Error; } else { r := Done; }
      }
      Charge(e.key, took, r, old(Book()), s);
    }

    method GetObject(ghost key: Key, k: ObjKey) returns (r: ApiResult, o: Option<Object>)
      requires Safe()
      modifies this`state, this`trail, this`faults
      ensures Safe() && Idle(old(Book()), Book(), key, calm)
      ensures faults[key] == old(faults[key]) + Blame(r)
      ensures Later(old(state), state, {}) && Shrinks(old(state), state) && ConfigMapsSame(old(state), state)
      ensures r == Done ==> o.Some? && o == Lookup(state.objects, k)
      ensures r == NotFound ==> k !in state.objects
    {
      Pause();
      o := None;
      if * {
        r := Error;
      } else if k in state.objects {
        r, o := Done, Some(state.objects[k]);
      } else {
        r := NotFound;
      }
      Note(key, r, old(Book()));
    }

    /** A create or update of an object at one instant. */
    method Store(ghost key: Key, k: ObjKey, seen: Option<Object>, o: Object) returns (r: ApiResult, ghost took: bool)
      requires Safe() && Guarded(state, key)
      requires (k == ConfigKey(key) || k == ServiceKey(key)) && o.labels == ManagedLabels(key.name)
      modifies this`state, this`trail
      ensures Safe() && old(trail) <= trail
      ensures took ==> seen == Lookup(old(state).objects, k)
      ensures (r == Done ==> took) && (r == Done || Fault(r))
      ensures state == if took then PutObject(old(state), k, o) else old(state)
    {
      took := false;
      if seen != Lookup(state.objects, k) {
        r := Rejected;
      } else if * {
        r := Error;
      } else {
        took := true;
        Now();
        PutKeepsGood(state, key, k, o, digest);
        Advance(PutObject(state, k, o));
        if * { r := Error; } else { r := Done; }
      }
    }

    /** Create (`seen` is None) or replace an object that still is as it was seen. */
    method PutObjectFor(key: Key, k: ObjKey, seen: Option<Object>, o: Object) returns (r: ApiResult, ghost took: bool)
      requires Safe() && Guarded(state, key)
      requires (k == ConfigKey(key) || k == ServiceKey(key)) && o.labels == ManagedLabels(key.name)
      modifies this`state, this`trail, this`calls, this`podWrites, this`faults
      ensures Safe() && Only(old(Book()), Book(), key, calm) && podWrites[key] == old(podWrites[key])
      ensures faults[key] == old(faults[key]) + Blame(r) && (r == Done || Fault(r))
      ensures Later(old(state), state, {})
      ensures r == Done ==> took
      ensures took ==> k in state.objects && state.objects[k] == o
      ensures k != ConfigKey(key) ==> ConfigMapsSame(old(state), state)
      ensures key in calm ==> var sl := SliceOf(old(state), key);
        SliceOf(state, key) == if took then WithObject(sl, k.kind, Some(o)) else sl
    {
      Pause();
      ghost var s := state;
      r, took := Store(key, k, seen, o);
      ObjectFrame(s, key, k, o);
      ObjectIsLater(old(state), s, k, o);
      Charge(key, false, r, old(Book()), s);
    }

    method DeleteObject(key: Key, k: ObjKey) returns (r: ApiResult)
      requires Safe() && (k == ConfigKey(key) || k == ServiceKey(key))
      modifies this`state, this`trail, this`calls, this`podWrites, this`faults
      ensures Safe() && Only(old(Book()), Book(), key, calm) && podWrites[key] == old(podWrites[key])
      ensures faults[key] == old(faults[key]) + Blame(r)
      ensures Later(old(state), state, {}) && Shrinks(old(state), state)
      ensures r == Done || r == NotFound ==> k !in state.objects
      ensures key in calm ==> var sl := SliceOf(old(state), key);
        SliceOf(state, key) == sl || SliceOf(state, key) == WithObject(sl, k.kind, None)
      ensures key in calm && (r == Done || r == NotFound) ==>
        SliceOf(state, key) == WithObject(SliceOf(old(state), key), k.kind, None)
    {
      Pause();
      ghost var s := state;
      if k !in state.objects {
        r := NotFound;
      } else if * {
        r := Error;
      } else {
        Now();
        DropKeepsGood(state, k, digest);
        ObjectFrame(state, key, k, state.objects[k]);
        ObjectIsLater(old(state), state, k, state.objects[k]);
        Advance(DropObject(state, k));
        if * { r := Error; } else { r := Done; }
      }
      Charge(key, false, r, old(Book()), s);
    }
  }

  /** `items` is exactly the entries of `s`, each once. */
  ghost predicate Listing(items: seq<Entry>, s: State) {
    && (forall i :: 0 <= i < |items| ==> items[i].key in s.entries && items[i] == s.entries[items[i].key])
    && (forall k :: k in s.entries ==> s.entries[k] in items)
    && (forall i, j :: 0 <= i < j < |items| ==> items[i].key != items[j].key)
  }
}
