/**
 The Kubernetes objects the two reconcilers work on, as values: custom
 resources ("entries"), Pods, and the one ConfigMap and one Service per entry.
 The module also says what a good cluster state is and what the rest of the
 world may do to it between two API calls of a reconciler.
 */
module ClusterState {
  import opened Wrappers

  const FINALIZER := "dbcp.shopee.io/dbcp-entry-service-finalizer"
  const CONTROLLER_ID := "dbcp-entry-controller"
  const APP_NAME := "dbcp-entry-service"
  const CONFIG_SUFFIX := "-config"

  datatype Key = Key(ns: string, name: string)

  /** The label keys the controllers use. */
  datatype Label = AppName | Instance | ManagedBy | CRName | SpecHash

  type Labels = map<Label, string>
  type Resources = map<string, string>

  datatype Spec = Spec(targetDB: string, targetRedis: string, exportPort: int,
                       image: string, replicas: nat, resources: Resources)

  /** A custom resource; `rv` is its resourceVersion. */
  datatype Entry = Entry(key: Key, uid: nat, rv: nat, deleting: bool, finalizers: seq<string>, spec: Spec)

  /** The ConfigMap values that depend on the entry. The token secret is a
      digest of namespace, name and uid, which stand for it here. */
  datatype ConfigData =
    ConfigData(targetDB: string, targetRedis: string, exportPort: int, secretKey: Key, secretUid: nat)

  /** What the spec hash is computed from. */
  datatype RolloutInput = RolloutInput(config: ConfigData, image: string, resources: Resources, servicePort: int)

  datatype Phase = Pending | Running | Succeeded | Failed | Unknown

  /** `bootConfig` is what the ConfigMap named by envFrom held when the Pod was created. */
  datatype Pod = Pod(ns: string, labels: Labels, owner: nat, deleting: bool, phase: Phase, created: int,
                     image: string, resources: Resources, bootConfig: Option<ConfigData>)

  datatype Kind = ConfigMapKind | ServiceKind
  datatype ObjKey = ObjKey(kind: Kind, ns: string, name: string)
  datatype Body = ConfigBody(data: ConfigData) | ServiceBody(selector: Labels, port: int)
  datatype Object = Object(labels: Labels, owner: Option<nat>, body: Body)

  /** `clock` is larger than every resourceVersion, uid and pod id handed out so far. */
  datatype State = State(clock: nat, entries: map<Key, Entry>, pods: map<nat, Pod>, objects: map<ObjKey, Object>)

  type Digest = RolloutInput -> string

  // ---------- desired objects ----------

  function ManagedLabels(crName: string): Labels {
    map[AppName := APP_NAME, Instance := crName, ManagedBy := CONTROLLER_ID, CRName := crName]
  }

  function ConfigKey(key: Key): ObjKey {
    ObjKey(ConfigMapKind, key.ns, key.name + CONFIG_SUFFIX)
  }

  function ServiceKey(key: Key): ObjKey {
    ObjKey(ServiceKind, key.ns, key.name)
  }

  function DesiredConfigData(e: Entry): ConfigData {
    ConfigData(e.spec.targetDB, e.spec.targetRedis, e.spec.exportPort, e.key, e.uid)
  }

  function DesiredConfigMap(e: Entry): Object {
    Object(ManagedLabels(e.key.name), Some(e.uid), ConfigBody(DesiredConfigData(e)))
  }

  function DesiredService(e: Entry): Object {
    Object(ManagedLabels(e.key.name), Some(e.uid), ServiceBody(ManagedLabels(e.key.name), e.spec.exportPort))
  }

  function HashInput(e: Entry): RolloutInput {
    RolloutInput(DesiredConfigData(e), e.spec.image, e.spec.resources, e.spec.exportPort)
  }

  function DesiredPod(e: Entry, hash: string, created: int, boot: Option<ConfigData>): Pod {
    Pod(e.key.ns, ManagedLabels(e.key.name)[SpecHash := hash], e.uid, false, Pending, created,
        e.spec.image, e.spec.resources, boot)
  }

  /** Distinct entries never share a ConfigMap or a Service. */
  lemma ObjectKeysInjective(a: Key, b: Key)
    ensures ConfigKey(a) == ConfigKey(b) ==> a == b
    ensures ServiceKey(a) == ServiceKey(b) ==> a == b
    ensures ConfigKey(a) != ServiceKey(b)
    ensures ConfigKey(a).name == a.name + "-config" && ServiceKey(a).name == a.name
    ensures ConfigKey(a).ns == ServiceKey(a).ns == a.ns
  {
    if ConfigKey(a) == ConfigKey(b) {
      assert a.name == (a.name + CONFIG_SUFFIX)[..|a.name|];
      assert b.name == (b.name + CONFIG_SUFFIX)[..|b.name|];
    }
  }

  // ---------- selection ----------

  predicate Managed(labels: Labels) {
    ManagedBy in labels && CRName in labels && labels[ManagedBy] == CONTROLLER_ID
  }

  function OwnerKey(ns: string, labels: Labels): Key
    requires Managed(labels)
  {
    Key(ns, labels[CRName])
  }

  /** The label selector used by both controllers, within one namespace. */
  predicate Selects(key: Key, p: Pod) {
    Managed(p.labels) && OwnerKey(p.ns, p.labels) == key
  }

  predicate Held(e: Entry) {
    FINALIZER in e.finalizers
  }

  predicate Guarded(s: State, key: Key) {
    key in s.entries && Held(s.entries[key])
  }

  function Lookup<K, V>(m: map<K, V>, k: K): Option<V> {
    if k in m then Some(m[k]) else None
  }

  /** The live Pods of one entry. */
  function PodsOf(s: State, key: Key): map<nat, Pod> {
    map id | id in s.pods && !s.pods[id].deleting && Selects(key, s.pods[id]) :: s.pods[id]
  }

  /** Everything in the cluster that belongs to one entry. */
  datatype Slice = Slice(entry: Option<Entry>, pods: map<nat, Pod>, config: Option<Object>, service: Option<Object>)

  function SliceOf(s: State, key: Key): Slice {
    Slice(Lookup(s.entries, key), PodsOf(s, key), Lookup(s.objects, ConfigKey(key)), Lookup(s.objects, ServiceKey(key)))
  }

  /** What makes a rollout: two entries, or two versions of one, have the same hash input exactly if they agree
      on everything but replicas and bookkeeping. */
  lemma HashInputTells(e: Entry, e': Entry)
    ensures HashInput(e) == HashInput(e') <==>
      && e.key == e'.key && e.uid == e'.uid
      && e.spec.(replicas := 0) == e'.spec.(replicas := 0)
  {
  }

  /** A Pod the controller makes is the entry's own: selected for it and for no other, owned by it, and live. */
  lemma MadeForItsEntry(e: Entry, hash: string, created: int, boot: Option<ConfigData>, key: Key)
    ensures var p := DesiredPod(e, hash, created, boot);
      && (Selects(key, p) <==> key == e.key)
      && p.owner == e.uid && !p.deleting && p.phase == Pending && p.created == created
      && p.image == e.spec.image && p.resources == e.spec.resources && p.bootConfig == boot
      && SpecHash in p.labels && p.labels[SpecHash] == hash
      && Instance in p.labels && p.labels[Instance] == e.key.name
      && AppName in p.labels && p.labels[AppName] == "dbcp-entry-service"
  {
  }

  /** A Service reaches a Pod of its namespace that carries all labels of its selector. */
  predicate Reaches(key: Key, service: Object, p: Pod) {
    && service.body.ServiceBody? && p.ns == key.ns
    && forall l :: l in service.body.selector ==> l in p.labels && p.labels[l] == service.body.selector[l]
  }

  /** The Service of an entry listens on the wished port and reaches the Pods made for it and no others. */
  lemma ServiceReachesOwnPods(e: Entry, e': Entry, hash: string, created: int, boot: Option<ConfigData>)
    ensures Reaches(e.key, DesiredService(e), DesiredPod(e', hash, created, boot)) <==> e'.key == e.key
    ensures DesiredService(e).body.port == e.spec.exportPort && DesiredService(e).owner == Some(e.uid)
  {
    var p, selector := DesiredPod(e', hash, created, boot), DesiredService(e).body.selector;
    if e'.key != e.key && e'.key.ns == e.key.ns {
      assert CRName in selector && p.labels[CRName] != selector[CRName];
    }
  }

  /** Whose Pod it is, read off its labels: the managed-by label must be the controllers' own. */
  lemma SelectsMeans(key: Key, p: Pod)
    requires ManagedBy in p.labels && CRName in p.labels
    ensures Selects(key, p) <==>
      p.ns == key.ns && p.labels[ManagedBy] == "dbcp-entry-controller" && p.labels[CRName] == key.name
  {
  }

  // ---------- good states ----------

  ghost predicate WellNumbered(s: State) {
    && (forall k :: k in s.entries ==> s.entries[k].key == k && s.entries[k].rv < s.clock && s.entries[k].uid < s.clock)
    && (forall id :: id in s.pods ==> id < s.clock)
  }

  /** Managed objects sit under the two names the controllers look for. */
  ghost predicate Named(s: State) {
    forall k :: k in s.objects && Managed(s.objects[k].labels) ==>
      var owner := OwnerKey(k.ns, s.objects[k].labels);
      k == ConfigKey(owner) || k == ServiceKey(owner)
  }

  /** Cleanup safety: nothing live is left behind by a missing or unguarded entry. */
  ghost predicate CleanupSafe(s: State) {
    && (forall id :: id in s.pods && !s.pods[id].deleting && Managed(s.pods[id].labels) ==>
          Guarded(s, OwnerKey(s.pods[id].ns, s.pods[id].labels)))
    && (forall k :: k in s.objects && Managed(s.objects[k].labels) ==>
          Guarded(s, OwnerKey(k.ns, s.objects[k].labels)))
  }

  /** What a Pod with a configuration actually runs with. */
  function RunsWith(p: Pod): RolloutInput
    requires p.bootConfig.Some?
  {
    RolloutInput(p.bootConfig.value, p.image, p.resources, p.bootConfig.value.exportPort)
  }

  /** The Pod carries the hash of exactly the configuration, image and resources it runs with. */
  ghost predicate Built(p: Pod, digest: Digest) {
    SpecHash in p.labels && p.bootConfig.Some? && p.labels[SpecHash] == digest(RunsWith(p))
  }

  /** What the ConfigMap of an entry holds, as envFrom would load it. */
  function ConfigHeld(s: State, key: Key): Option<ConfigData> {
    var k := ConfigKey(key);
    if k in s.objects && s.objects[k].body.ConfigBody? then Some(s.objects[k].body.data) else None
  }

  ghost predicate RolloutOk(s: State, digest: Digest) {
    forall id :: id in s.pods && Managed(s.pods[id].labels) ==> Built(s.pods[id], digest)
  }

  ghost predicate Good(s: State, digest: Digest) {
    WellNumbered(s) && Named(s) && CleanupSafe(s) && RolloutOk(s, digest)
  }

  // ---------- what the rest of the world may do ----------

  /** Entries may be created, edited and deleted, but the controllers' finalizer
      is theirs alone, and every change takes a fresh resourceVersion. */
  predicate EntriesMove(s: State, t: State) {
    && (forall k :: k in t.entries ==>
          t.entries[k].key == k && t.entries[k].rv < t.clock && t.entries[k].uid < t.clock)
    && (forall k :: k in t.entries && !(k in s.entries && s.entries[k] == t.entries[k]) ==> t.entries[k].rv >= s.clock)
    && (forall k :: k in s.entries && Guarded(s, k) ==> Guarded(t, k) && t.entries[k].uid == s.entries[k].uid)
    && (forall k :: k in t.entries && Guarded(t, k) ==> Guarded(s, k))
  }

  /** Pods may change phase, start to be deleted, and go away; nobody else makes managed Pods. */
  predicate PodsMove(s: State, t: State) {
    forall id :: id in t.pods ==>
      && id in s.pods
      && t.pods[id] == s.pods[id].(phase := t.pods[id].phase, deleting := t.pods[id].deleting)
      && (s.pods[id].deleting ==> t.pods[id].deleting)
  }

  predicate ConfigMapsSame(s: State, t: State) {
    forall k :: k in s.objects.Keys + t.objects.Keys && k.kind == ConfigMapKind ==>
      Lookup(s.objects, k) == Lookup(t.objects, k)
  }

  /** Services may be edited or removed by others, who do not forge the managed labels. */
  predicate ObjectsMove(s: State, t: State) {
    && ConfigMapsSame(s, t)
    && (forall k :: k in t.objects && Managed(t.objects[k].labels) ==>
          k in s.objects && s.objects[k].labels == t.objects[k].labels)
  }

  predicate Env(s: State, t: State) {
    s.clock <= t.clock && EntriesMove(s, t) && PodsMove(s, t) && ObjectsMove(s, t)
  }

  /** Nothing of these entries was touched. Pods already being deleted do not count. */
  predicate SameFor(s: State, t: State, calm: set<Key>) {
    forall k :: k in calm ==> SliceOf(t, k) == SliceOf(s, k)
  }

  lemma EnvKeepsGood(s: State, t: State, digest: Digest)
    requires Good(s, digest) && Env(s, t)
    ensures Good(t, digest)
  {
  }

  // ---------- effects of the API calls ----------

  function MarkDeleting(s: State, id: nat): State
    requires id in s.pods
  {
    s.(pods := s.pods[id := s.pods[id].(deleting := true)])
  }

  function AddPod(s: State, p: Pod): State {
    s.(clock := s.clock + 1, pods := s.pods[s.clock := p])
  }

  function PutObject(s: State, k: ObjKey, o: Object): State {
    s.(objects := s.objects[k := o])
  }

  function DropObject(s: State, k: ObjKey): State {
    s.(objects := s.objects - {k})
  }

  /** An accepted update; a deleting entry disappears with its last finalizer. */
  function StoreEntry(s: State, e: Entry): State {
    if e.deleting && e.finalizers == [] then
      s.(clock := s.clock + 1, entries := s.entries - {e.key})
    else
      s.(clock := s.clock + 1, entries := s.entries[e.key := e.(rv := s.clock)])
  }

  lemma MarkDeletingSlices(s: State, id: nat, key: Key)
    requires id in s.pods
    ensures SliceOf(MarkDeleting(s, id), key) == SliceOf(s, key).(pods := PodsOf(s, key) - {id})
  {
    assert PodsOf(MarkDeleting(s, id), key) == PodsOf(s, key) - {id};
  }

  lemma AddPodSlices(s: State, p: Pod, key: Key)
    requires WellNumbered(s) && !p.deleting
    ensures SliceOf(AddPod(s, p), key) ==
            SliceOf(s, key).(pods := if Selects(key, p) then PodsOf(s, key)[s.clock := p] else PodsOf(s, key))
  {
    assert PodsOf(AddPod(s, p), key) == if Selects(key, p) then PodsOf(s, key)[s.clock := p] else PodsOf(s, key);
  }

  lemma ObjectSlices(s: State, k: ObjKey, o: Object, key: Key)
    ensures SliceOf(PutObject(s, k, o), key) ==
            SliceOf(s, key).(config := if k == ConfigKey(key) then Some(o) else Lookup(s.objects, ConfigKey(key)),
                             service := if k == ServiceKey(key) then Some(o) else Lookup(s.objects, ServiceKey(key)))
    ensures SliceOf(DropObject(s, k), key) ==
            SliceOf(s, key).(config := if k == ConfigKey(key) then None else Lookup(s.objects, ConfigKey(key)),
                             service := if k == ServiceKey(key) then None else Lookup(s.objects, ServiceKey(key)))
  {
    assert PodsOf(PutObject(s, k, o), key) == PodsOf(s, key);
    assert PodsOf(DropObject(s, k), key) == PodsOf(s, key);
  }

  lemma StoreEntrySlices(s: State, e: Entry, key: Key)
    ensures SliceOf(StoreEntry(s, e), key) ==
            SliceOf(s, key).(entry := if key != e.key then Lookup(s.entries, key)
                                      else if e.deleting && e.finalizers == [] then None
                                      else Some(e.(rv := s.clock)))
  {
    assert PodsOf(StoreEntry(s, e), key) == PodsOf(s, key);
  }
}
