/** What a successful reconcile guarantees: the owned processes, what is left alone, idempotence, and the counters. */
module ControllerLaws {
  import opened Prelude
  import opened Conditions
  import opened ApiTypes
  import opened Selectors
  import opened Controller
  import StatusLaws

  /** Different devices get different process names. */
  ghost predicate DistinctNames(env: Env, devices: seq<Device>) {
    forall i, j :: 0 <= i < j < |devices| ==> env.nameOf(devices[i].name) != env.nameOf(devices[j].name)
  }

  /** The selector leaves the controller's own label keys alone. */
  predicate SparesReserved(s: Selector) {
    DEPLOYMENT !in Mentioned(s) && DEPLOYMENT_UID !in Mentioned(s) && APP !in Mentioned(s)
  }

  /** The matched devices are exactly the switches the selector matches. */
  lemma {:induction false} MatchedExactly(s: Selector, switches: seq<Device>, d: Device)
    ensures d in MatchedDevices(s, switches) <==> d in switches && Matches(s, d.labels)
  {
    hide Matches;
    if switches != [] {
      var n := |switches| - 1;
      MatchedExactly(s, switches[..n], d);
      assert switches == switches[..n] + [switches[n]];
    }
  }

  /** The upsert loop changes exactly the devices' processes, each as one upsert of its own. */
  lemma {:induction false} AppliedAt(env: Env, store: Store, dep: Deployment, devices: seq<Device>, k: Key)
    requires DistinctNames(env, devices)
    ensures var r := Applied(env, store, dep, devices);
            && (forall i :: 0 <= i < |devices| && k == KeyFor(env, dep, devices[i]) ==>
                  Lookup(r, k) == Some(Upserted(Lookup(store, k), BuildDesired(env, dep, devices[i]))))
            && ((forall i :: 0 <= i < |devices| ==> k != KeyFor(env, dep, devices[i])) ==>
                Lookup(r, k) == Lookup(store, k))
    decreases |devices|
  {
    hide BuildDesired, Upserted;
    if devices != [] {
      var n := |devices| - 1;
      AppliedAt(env, store, dep, devices[..n], k);
      if k == KeyFor(env, dep, devices[n]) {
        assert forall i :: 0 <= i < n ==> k != KeyFor(env, dep, devices[..n][i]);
      } else {
        assert forall i :: 0 <= i < n ==> devices[..n][i] == devices[i];
      }
    }
  }

  /** An upserted process is labelled for and controlled by the deployment, and has the template's spec. */
  lemma UpsertedIsOwned(env: Env, was: Option<Process>, dep: Deployment, d: Device)
    requires SparesReserved(dep.selector)
    ensures var p := Upserted(was, BuildDesired(env, dep, d));
            Owned(dep, KeyFor(env, dep, d), p) && p.spec == DesiredSpec(dep, d.name)
  {
    ReservedAre(env, d.labels, dep.selector);
  }

  lemma ReservedAre(env: Env, labels: Labels, s: Selector)
    requires SparesReserved(s)
    ensures DEPLOYMENT !in SelectedDeviceLabels(env, labels, s)
        && DEPLOYMENT_UID !in SelectedDeviceLabels(env, labels, s)
  {
    assert |DEPLOYMENT| > 4 && |DEPLOYMENT_UID| > 4;
    assert |ALL| == 7 && |DEPLOYMENT| != 7 && |DEPLOYMENT_UID| != 7;
  }

  /** The store after a reconcile, key by key. */
  lemma ReconciledAt(env: Env, store: Store, dep: Deployment, devices: seq<Device>, k: Key)
    requires DistinctNames(env, devices) && SparesReserved(dep.selector)
    ensures var r := Reconciled(env, store, dep, devices);
            && (forall i :: 0 <= i < |devices| && k == KeyFor(env, dep, devices[i]) ==>
                  && Lookup(r, k) == Some(Upserted(Lookup(store, k), BuildDesired(env, dep, devices[i])))
                  && Owned(dep, k, r[k]) && r[k].spec == DesiredSpec(dep, devices[i].name))
            && ((forall i :: 0 <= i < |devices| ==> k != KeyFor(env, dep, devices[i])) ==>
                  Lookup(r, k) == if k in store && Owned(dep, k, store[k]) then None else Lookup(store, k))
  {
    hide BuildDesired, Upserted, Owned, Applied, DesiredSpec;
    AppliedAt(env, store, dep, devices, k);
    forall i | 0 <= i < |devices| && k == KeyFor(env, dep, devices[i])
      ensures var p := Upserted(Lookup(store, k), BuildDesired(env, dep, devices[i]));
              Owned(dep, k, p) && p.spec == DesiredSpec(dep, devices[i].name) && k.name in NamesOf(env, devices)
    {
      UpsertedIsOwned(env, Lookup(store, k), dep, devices[i]);
    }
    if (forall i :: 0 <= i < |devices| ==> k != KeyFor(env, dep, devices[i])) && k in store && Owned(dep, k, store[k]) {
      OwnedNamespace(dep, k, store[k]);
      assert k.name !in NamesOf(env, devices);
    }
  }

  lemma OwnedNamespace(dep: Deployment, k: Key, p: Process)
    requires Owned(dep, k, p)
    ensures k.namespace == dep.id.namespace
  {
  }

  /** `k` is the key of the process of one of the devices. */
  ghost predicate IsKeyOf(env: Env, dep: Deployment, devices: seq<Device>, k: Key) {
    exists i :: 0 <= i < |devices| && k == KeyFor(env, dep, devices[i])
  }

  /** The spec runs the deployment's template on the device. */
  predicate RunsTemplate(spec: Spec, t: Template, device: string) {
    && spec.deviceRef.kind == "NetworkSwitch" && spec.deviceRef.name == device && spec.deviceRef.namespace == ""
    && spec.artifact == t.artifact && spec.execution == t.execution
    && spec.restartPolicy == t.restartPolicy && spec.healthCheck == t.healthCheck
  }

  /**
    After a reconcile the processes owned by the deployment are exactly one per matched device,
    each running the template's artifact, execution, restart policy and health check on its own
    device, controlled by the deployment, with the status it had.
   */
  lemma OwnedExactly(env: Env, store: Store, dep: Deployment, switches: seq<Device>, k: Key)
    requires var devices := MatchedDevices(dep.selector, switches); DistinctNames(env, devices)
    requires SparesReserved(dep.selector)
    ensures var devices := MatchedDevices(dep.selector, switches);
            var r := Reconciled(env, store, dep, devices);
            && (k in r && Owned(dep, k, r[k]) <==> IsKeyOf(env, dep, devices, k))
            && (forall i, j :: 0 <= i < j < |devices| ==> KeyFor(env, dep, devices[i]) != KeyFor(env, dep, devices[j]))
            && (forall i :: 0 <= i < |devices| && k == KeyFor(env, dep, devices[i]) ==>
                  && RunsTemplate(r[k].spec, dep.template, devices[i].name) && r[k].controller == Some(dep.uid)
                  && r[k].status == if k in store then store[k].status else EMPTY_STATUS)
  {
    hide BuildDesired, Upserted, Owned, Reconciled, DesiredSpec, MatchedDevices, SparesReserved, RunsTemplate;
    var devices := MatchedDevices(dep.selector, switches);
    ReconciledAt(env, store, dep, devices, k);
    forall i | 0 <= i < |devices| && k == KeyFor(env, dep, devices[i])
      ensures var p := Upserted(Lookup(store, k), BuildDesired(env, dep, devices[i]));
              && RunsTemplate(p.spec, dep.template, devices[i].name) && p.controller == Some(dep.uid)
              && p.status == if k in store then store[k].status else EMPTY_STATUS
    {
      UpsertedRuns(env, Lookup(store, k), dep, devices[i]);
    }
  }

  lemma UpsertedRuns(env: Env, was: Option<Process>, dep: Deployment, d: Device)
    ensures var p := Upserted(was, BuildDesired(env, dep, d));
            && RunsTemplate(p.spec, dep.template, d.name) && p.controller == Some(dep.uid)
            && p.status == if was.Some? then was.value.status else EMPTY_STATUS
  {
    hide Merge, SelectedDeviceLabels;
  }

  /** The device label is copied: the selector mentions it, or it is one of the three usual ones, and it is valid. */
  predicate Copied(env: Env, s: Selector, labels: Labels, l: string) {
    l in labels && (l in IndexKeys(s) || l in {"role", "type", "rack"}) && env.labelOk(l, labels[l])
  }

  /** The controller's own labels. */
  function OwnLabel(dep: Deployment, l: string): Option<string> {
    if l == "app" || l == "deviceprocessdeployment" then Some(dep.id.name)
    else if l == "deviceprocessdeployment-uid" then Some(dep.uid)
    else None
  }

  function LabelOf(labels: Labels, l: string): Option<string> {
    if l in labels then Some(labels[l]) else None
  }

  /**
    The labels of a device's process after a reconcile, each by the first source that has it: a
    copied device label, the controller's own three, the template's, what was there before; and
    annotations by the template's and then what was there.
   */
  lemma LabelsTell(env: Env, store: Store, dep: Deployment, devices: seq<Device>, i: nat, l: string)
    requires DistinctNames(env, devices) && SparesReserved(dep.selector) && i < |devices|
    ensures var k, d, r := KeyFor(env, dep, devices[i]), devices[i], Reconciled(env, store, dep, devices);
            var was := if k in store then store[k].labels else map[];
            var wasNotes := if k in store then store[k].annotations else map[];
            && k in r
            && LabelOf(r[k].labels, l) ==
               (if Copied(env, dep.selector, d.labels, l) then Some(d.labels[l])
                else if OwnLabel(dep, l).Some? then OwnLabel(dep, l)
                else if l in dep.template.labels then Some(dep.template.labels[l])
                else LabelOf(was, l))
            && LabelOf(r[k].annotations, l) ==
               if l in dep.template.annotations then Some(dep.template.annotations[l]) else LabelOf(wasNotes, l)
  {
    hide Reconciled, SparesReserved, DistinctNames, Owned, DesiredSpec, IndexKeys;
    ReconciledAt(env, store, dep, devices, KeyFor(env, dep, devices[i]));
  }

  /**
    A process with another deployment's UID label, another controller or no label of this
    deployment stays as it is.
   */
  lemma OthersAreSpared(env: Env, store: Store, dep: Deployment, devices: seq<Device>, k: Key)
    requires DistinctNames(env, devices) && SparesReserved(dep.selector)
    requires k in store && !Owned(dep, k, store[k]) && !IsKeyOf(env, dep, devices, k)
    ensures var r := Reconciled(env, store, dep, devices); k in r && r[k] == store[k]
  {
    hide BuildDesired, Upserted, Owned, Reconciled, DesiredSpec, SparesReserved;
    ReconciledAt(env, store, dep, devices, k);
  }

  /**
    In particular nothing is changed in another namespace, nor a process that is not labelled with
    the deployment's name, or carries another UID label, or is not controlled by the deployment.
   */
  lemma ForeignIsSpared(env: Env, store: Store, dep: Deployment, devices: seq<Device>, k: Key)
    requires DistinctNames(env, devices) && SparesReserved(dep.selector)
    requires k in store && !IsKeyOf(env, dep, devices, k)
    requires var p := store[k];
             || k.namespace != dep.id.namespace
             || LabelOf(p.labels, "deviceprocessdeployment") != Some(dep.id.name)
             || (LabelOf(p.labels, "deviceprocessdeployment-uid").Some?
                 && LabelOf(p.labels, "deviceprocessdeployment-uid") != Some(dep.uid))
             || p.controller != Some(dep.uid)
    ensures var r := Reconciled(env, store, dep, devices); k in r && r[k] == store[k]
  {
    hide Reconciled, DistinctNames, SparesReserved;
    OthersAreSpared(env, store, dep, devices, k);
  }

  lemma UpsertTwice(was: Option<Process>, desired: Process)
    ensures Upserted(Some(Upserted(was, desired)), desired) == Upserted(was, desired)
  {
    var once := Upserted(was, desired);
    assert Merge(once.labels, desired.labels) == once.labels;
    assert Merge(once.annotations, desired.annotations) == once.annotations;
  }

  /** A second reconcile creates nothing, deletes nothing and changes nothing. */
  lemma SecondReconcileIsIdle(env: Env, store: Store, dep: Deployment, devices: seq<Device>)
    requires DistinctNames(env, devices) && SparesReserved(dep.selector)
    ensures var r := Reconciled(env, store, dep, devices);
            Applied(env, r, dep, devices) == r && Reconciled(env, r, dep, devices) == r
  {
    hide BuildDesired, Upserted, Owned, Reconciled, DesiredSpec, SparesReserved, Applied, KeyFor;
    var r := Reconciled(env, store, dep, devices);
    var a, r2 := Applied(env, r, dep, devices), Reconciled(env, r, dep, devices);
    forall k ensures Lookup(a, k) == Lookup(r, k) && Lookup(r2, k) == Lookup(r, k) {
      ReconciledAt(env, store, dep, devices, k);
      ReconciledAt(env, r, dep, devices, k);
      AppliedAt(env, r, dep, devices, k);
      if i :| 0 <= i < |devices| && k == KeyFor(env, dep, devices[i]) {
        UpsertTwice(Lookup(store, k), BuildDesired(env, dep, devices[i]));
      }
    }
    SameStore(a, r);
    SameStore(r2, r);
  }

  lemma SameStore(a: Store, b: Store)
    requires forall k :: Lookup(a, k) == Lookup(b, k)
    ensures a == b
  {
    forall k ensures k in a <==> k in b {
      assert Lookup(a, k) == Lookup(b, k);
    }
    forall k | k in a ensures a[k] == b[k] {
      assert Lookup(a, k) == Lookup(b, k);
    }
  }

  // ---------- the counters ----------

  /** Every process labelled for the deployment is owned by it, or is about to be. */
  ghost predicate NoForeign(env: Env, store: Store, dep: Deployment, devices: seq<Device>) {
    forall k :: k in store && IsLabelled(dep, k, store[k]) ==> Owned(dep, k, store[k]) || IsKeyOf(env, dep, devices, k)
  }

  /** The labelled list after a reconcile names exactly the devices' processes. */
  lemma LabelledExactly(env: Env, store: Store, dep: Deployment, devices: seq<Device>, k: Key)
    requires DistinctNames(env, devices) && SparesReserved(dep.selector) && NoForeign(env, store, dep, devices)
    ensures var r := Reconciled(env, store, dep, devices);
            k in r && IsLabelled(dep, k, r[k]) <==> IsKeyOf(env, dep, devices, k)
  {
    hide BuildDesired, Upserted, Reconciled, DesiredSpec, SparesReserved, KeyFor;
    ReconciledAt(env, store, dep, devices, k);
  }

  function KeysFor(env: Env, dep: Deployment, devices: seq<Device>): seq<Key> {
    seq(|devices|, i requires 0 <= i < |devices| => KeyFor(env, dep, devices[i]))
  }

  lemma {:induction false} SameLength(a: seq<Key>, b: seq<Key>)
    requires forall i, j :: 0 <= i < j < |a| ==> a[i] != a[j]
    requires forall i, j :: 0 <= i < j < |b| ==> b[i] != b[j]
    requires forall k :: k in a <==> k in b
    ensures |a| == |b|
  {
    SetLength(a);
    SetLength(b);
    assert (set k | k in a) == (set k | k in b);
  }

  lemma {:induction false} SetLength(a: seq<Key>)
    requires forall i, j :: 0 <= i < j < |a| ==> a[i] != a[j]
    ensures |set k | k in a| == |a|
  {
    if a != [] {
      var n := |a| - 1;
      SetLength(a[..n]);
      assert a == a[..n] + [a[n]];
      assert (set k | k in a) == (set k | k in a[..n]) + {a[n]};
      assert a[n] !in a[..n];
    }
  }

  lemma {:induction false} AllReady(store: Store, list: seq<Key>)
    requires forall i :: 0 <= i < |list| ==> list[i] in store
    ensures CountReady(store, list) == |list| <==> forall i :: 0 <= i < |list| ==> ProcessReady(store[list[i]].status)
    decreases |list|
  {
    hide ProcessReady;
    if list != [] {
      AllReady(store, list[..|list| - 1]);
    }
  }

  lemma {:induction false} AllUpdated(hashes: map<string, string>, store: Store, list: seq<Key>)
    requires forall i :: 0 <= i < |list| ==> list[i] in store
    ensures CountUpdated(hashes, store, list) == |list| <==> forall i :: 0 <= i < |list| ==>
        IsUpdated(hashes, list[i], store[list[i]])
    decreases |list|
  {
    hide IsUpdated;
    if list != [] {
      AllUpdated(hashes, store, list[..|list| - 1]);
    }
  }

  /** The expected hash of a device's process is that of its desired spec. */
  lemma {:induction false} HashOfDevice(env: Env, dep: Deployment, devices: seq<Device>, i: nat)
    requires DistinctNames(env, devices) && i < |devices|
    ensures var hashes, name := DesiredHashes(env, dep, devices), env.nameOf(devices[i].name);
            name in hashes && hashes[name] == env.hash(DesiredSpec(dep, devices[i].name))
    decreases |devices|
  {
    hide DesiredSpec;
    if i < |devices| - 1 {
      HashOfDevice(env, dep, devices[..|devices| - 1], i);
    }
  }

  /** The status of the device's process. */
  ghost function StatusOf(env: Env, r: Store, dep: Deployment, d: Device): Status {
    if KeyFor(env, dep, d) in r then r[KeyFor(env, dep, d)].status else EMPTY_STATUS
  }

  predicate HasCondition(s: Rollout, t: ConditionType, status: ConditionStatus) {
    Find(s.conditions, t).Some? && Find(s.conditions, t).value.status == status
  }

  /** What the two conditions say of the counters. */
  lemma ConditionsTell(dep: Deployment, desired: int, current: int, updated: int, available: int, now: Time)
    requires desired >= 0
    ensures var s := RolloutOf(dep, desired, current, updated, available, now);
            && HasCondition(s, Available, if desired > 0 && available == desired then CondTrue else CondFalse)
            && HasCondition(s, Progressing, if desired > 0 && (updated < desired || available < desired) then CondTrue
                else CondFalse)
  {
    hide Set, Find;
    VerdictTypes(desired, updated, available);
    TwoSet(dep.status.conditions, AvailableVerdict(desired, available),
        ProgressingVerdict(desired, updated, available), now);
  }

  /** The two conditions just set read back with their statuses. */
  lemma TwoSet(cs: seq<Condition>, a: Condition, p: Condition, now: Time)
    requires a.ctype == Available && p.ctype == Progressing
    ensures var r := Set(Set(cs, a, now), p, now);
            && Find(r, Available).Some? && Find(r, Available).value.status == a.status
            && Find(r, Progressing).Some? && Find(r, Progressing).value.status == p.status
  {
    SetFind(cs, a, now, Available);
    SetFind(Set(cs, a, now), p, now, Available);
    SetFind(Set(cs, a, now), p, now, Progressing);
  }

  /** The status a reconcile of this store computes, counted over this list. */
  ghost function ComputedAfter(env: Env, store: Store, dep: Deployment, devices: seq<Device>, list: seq<Key>,
                               now: Time): Rollout {
    var r, hashes := Reconciled(env, store, dep, devices), DesiredHashes(env, dep, devices);
    RolloutOf(dep, |devices|, |list|, CountUpdated(hashes, r, list), CountReady(r, list), now)
  }

  /** The status it leaves stored. */
  ghost function StatusAfter(env: Env, store: Store, dep: Deployment, devices: seq<Device>, list: seq<Key>,
                             now: Time): Rollout {
    StoredStatus(dep.status, ComputedAfter(env, store, dep, devices, list, now))
  }

  ghost predicate ReadyAll(env: Env, r: Store, dep: Deployment, devices: seq<Device>) {
    forall i :: 0 <= i < |devices| ==> ProcessReady(StatusOf(env, r, dep, devices[i]))
  }

  ghost predicate UpdatedAll(env: Env, r: Store, dep: Deployment, devices: seq<Device>) {
    forall i :: 0 <= i < |devices| ==>
      StatusOf(env, r, dep, devices[i]).observedSpecHash == env.hash(DesiredSpec(dep, devices[i].name))
  }

  /** What Available and Progressing should say, by what the documentation promises of them. */
  function RightAvailable(targets: bool, ready: bool): ConditionStatus {
    if targets && ready then CondTrue else CondFalse
  }

  function RightProgressing(targets: bool, ready: bool, updated: bool): ConditionStatus {
    if targets && !(ready && updated) then CondTrue else CondFalse
  }

  /**
    With no foreign labelled process, after a reconcile: the stored counters are right, current =
    desired = available + unavailable; and each stored condition says what it should (Available
    True iff there are targets and all are ready, Progressing False iff there are none or all are
    updated and ready) exactly when one of the two types was missing before, or it said so already.
   */
  lemma RolloutTells(env: Env, store: Store, dep: Deployment, devices: seq<Device>, list: seq<Key>, now: Time)
    requires DistinctNames(env, devices) && SparesReserved(dep.selector) && NoForeign(env, store, dep, devices)
    requires forall s :: env.hash(s) != ""
    requires ListsLabelled(Reconciled(env, store, dep, devices), dep, list)
    ensures var r := Reconciled(env, store, dep, devices);
            var s, targets := StatusAfter(env, store, dep, devices, list, now), |devices| > 0;
            var ready, updated := ReadyAll(env, r, dep, devices), UpdatedAll(env, r, dep, devices);
            var written := !BothSet(dep.status.conditions);
            && s.current == s.desired == |devices| == s.available + s.unavailable
            && (s.available == |devices| <==> ready) && (s.updated == |devices| <==> updated)
            && (HasCondition(s, Available, RightAvailable(targets, ready)) <==>
                  written || HasCondition(dep.status, Available, RightAvailable(targets, ready)))
            && (HasCondition(s, Progressing, RightProgressing(targets, ready, updated)) <==>
                  written || HasCondition(dep.status, Progressing, RightProgressing(targets, ready, updated)))
  {
    hide Reconciled, DesiredSpec, SparesReserved, ProcessReady, BuildDesired, Upserted, Owned, RolloutConditions,
        HasCondition, DesiredHashes, NoForeign, DistinctNames, BothSet, ListsLabelled;
    var r, hashes := Reconciled(env, store, dep, devices), DesiredHashes(env, dep, devices);
    CountsTell(env, store, dep, devices, list);
    ConditionsTell(dep, |devices|, |list|, CountUpdated(hashes, r, list), CountReady(r, list), now);
    SameConditions(StatusAfter(env, store, dep, devices, list, now), dep.status,
                   ComputedAfter(env, store, dep, devices, list, now));
  }

  /** A status with another's condition list says the same. */
  lemma SameConditions(s: Rollout, a: Rollout, b: Rollout)
    ensures s.conditions == a.conditions ==> forall t, c :: HasCondition(s, t, c) <==> HasCondition(a, t, c)
    ensures s.conditions == b.conditions ==> forall t, c :: HasCondition(s, t, c) <==> HasCondition(b, t, c)
  {
  }

  /** The stored conditions are the computed ones exactly when a type was missing or nothing changed in them. */
  lemma StoredConditionsIff(was: Rollout, computed: Rollout)
    ensures StoredStatus(was, computed).conditions == computed.conditions <==>
            !BothSet(was.conditions) || was.conditions == computed.conditions
    ensures Patches(was, computed) <==> !BothSet(was.conditions) || StoredStatus(was, computed) != was
  {
  }

  lemma CountsTell(env: Env, store: Store, dep: Deployment, devices: seq<Device>, list: seq<Key>)
    requires DistinctNames(env, devices) && SparesReserved(dep.selector) && NoForeign(env, store, dep, devices)
    requires forall s :: env.hash(s) != ""
    requires ListsLabelled(Reconciled(env, store, dep, devices), dep, list)
    ensures var r := Reconciled(env, store, dep, devices);
            && |list| == |devices|
            && (CountReady(r, list) == |list| <==> forall i :: 0 <= i < |devices| ==>
                ProcessReady(StatusOf(env, r, dep, devices[i])))
            && (CountUpdated(DesiredHashes(env, dep, devices), r, list) == |list| <==>
                  forall i :: 0 <= i < |devices| ==>
                      StatusOf(env, r, dep, devices[i]).observedSpecHash == env.hash(DesiredSpec(dep, devices[i].name)))
  {
    hide Reconciled, DesiredSpec, SparesReserved, ProcessReady, BuildDesired, Upserted, Owned, IsLabelled,
        DesiredHashes, NoForeign;
    var r, hashes, keys := Reconciled(env, store, dep, devices), DesiredHashes(env, dep, devices),
        KeysFor(env, dep, devices);
    forall k ensures k in list <==> k in keys {
      LabelledExactly(env, store, dep, devices, k);
      if i :| 0 <= i < |devices| && k == KeyFor(env, dep, devices[i]) {
        assert keys[i] == k;
      }
    }
    SameLength(list, keys);
    AllReady(r, list);
    AllUpdated(hashes, r, list);
    forall i | 0 <= i < |devices|
      ensures keys[i] in list && StatusOf(env, r, dep, devices[i]) == r[keys[i]].status
      ensures IsUpdated(hashes, keys[i], r[keys[i]]) <==>
          r[keys[i]].status.observedSpecHash == env.hash(DesiredSpec(dep, devices[i].name))
    {
      assert keys[i] in keys;
      HashOfDevice(env, dep, devices, i);
    }
    forall j | 0 <= j < |list| ensures exists i :: 0 <= i < |devices| && keys[i] == list[j] {
      assert list[j] in keys;
    }
  }

  // ---------- counters as sets, and the second reconcile's status ----------

  ghost function ReadySet(store: Store, list: seq<Key>): set<Key> {
    set k | k in list && k in store && ProcessReady(store[k].status)
  }

  ghost function UpdatedSet(hashes: map<string, string>, store: Store, list: seq<Key>): set<Key> {
    set k | k in list && k in store && IsUpdated(hashes, k, store[k])
  }

  /** The counters are the numbers of ready and of updated processes. */
  lemma {:induction false} CountersAreSizes(hashes: map<string, string>, store: Store, list: seq<Key>)
    requires forall i, j :: 0 <= i < j < |list| ==> list[i] != list[j]
    ensures CountReady(store, list) == |ReadySet(store, list)|
    ensures CountUpdated(hashes, store, list) == |UpdatedSet(hashes, store, list)|
    decreases |list|
  {
    hide ProcessReady, IsUpdated, ReadySet, UpdatedSet;
    if list == [] {
      NoneCounted(hashes, store);
    } else {
      var n := |list| - 1;
      CountersAreSizes(hashes, store, list[..n]);
      ReadyOneMore(store, list);
      UpdatedOneMore(hashes, store, list);
    }
  }

  lemma NoneCounted(hashes: map<string, string>, store: Store)
    ensures ReadySet(store, []) == {} && UpdatedSet(hashes, store, []) == {}
  {
  }

  lemma ReadyOneMore(store: Store, list: seq<Key>)
    requires list != [] && forall i, j :: 0 <= i < j < |list| ==> list[i] != list[j]
    ensures var n, k := |list| - 1, list[|list| - 1];
            |ReadySet(store, list)| == |ReadySet(store, list[..n])| + if k in store
                && ProcessReady(store[k].status) then 1 else 0
  {
    hide ProcessReady;
    var n, k := |list| - 1, list[|list| - 1];
    assert list == list[..n] + [k] && k !in list[..n];
    if k in store && ProcessReady(store[k].status) {
      assert ReadySet(store, list) == ReadySet(store, list[..n]) + {k};
    } else {
      assert ReadySet(store, list) == ReadySet(store, list[..n]);
    }
  }

  lemma UpdatedOneMore(hashes: map<string, string>, store: Store, list: seq<Key>)
    requires list != [] && forall i, j :: 0 <= i < j < |list| ==> list[i] != list[j]
    ensures var n, k := |list| - 1, list[|list| - 1];
            |UpdatedSet(hashes, store, list)|
            == |UpdatedSet(hashes, store, list[..n])| + if k in store && IsUpdated(hashes, k, store[k]) then 1 else 0
  {
    hide IsUpdated;
    var n, k := |list| - 1, list[|list| - 1];
    assert list == list[..n] + [k] && k !in list[..n];
    if k in store && IsUpdated(hashes, k, store[k]) {
      assert UpdatedSet(hashes, store, list) == UpdatedSet(hashes, store, list[..n]) + {k};
    } else {
      assert UpdatedSet(hashes, store, list) == UpdatedSet(hashes, store, list[..n]);
    }
  }

  /** So they do not depend on the order in which the API server lists. */
  lemma CountersForgetOrder(hashes: map<string, string>, store: Store, dep: Deployment, a: seq<Key>, b: seq<Key>)
    requires ListsLabelled(store, dep, a) && ListsLabelled(store, dep, b)
    ensures |a| == |b| && CountReady(store, a) == CountReady(store, b)
        && CountUpdated(hashes, store, a) == CountUpdated(hashes, store, b)
  {
    hide ProcessReady, IsUpdated, IsLabelled;
    CountersAreSizes(hashes, store, a);
    CountersAreSizes(hashes, store, b);
    SameLength(a, b);
    assert ReadySet(store, a) == ReadySet(store, b);
    assert UpdatedSet(hashes, store, a) == UpdatedSet(hashes, store, b);
  }

  /** Setting the two conditions again, at any later time, changes nothing. */
  lemma ConditionsSettle(cs: seq<Condition>, desired: int, updated: int, available: int, now: Time, later: Time)
    ensures var once := RolloutConditions(cs, desired, updated, available, now);
            RolloutConditions(once, desired, updated, available, later) == once
  {
    forall a: Condition, p: Condition
      | a.ctype == Available && p.ctype == Progressing
      ensures var once := Set(Set(cs, a, now), p, now);
              Set(Set(once, a, later), p, later) == once
    {
      var once := Set(Set(cs, a, now), p, now);
      SetFind(cs, a, now, Available);
      SetFind(Set(cs, a, now), p, now, Available);
      SetFind(Set(cs, a, now), p, now, Progressing);
      StatusLaws.SetSatisfied(once, a, later);
      StatusLaws.SetSatisfied(once, p, later);
    }
    hide Set;
  }

  /** What a reconcile does to the store and which hashes it expects do not depend on the last status. */
  lemma {:induction false} StatusIsNotRead(env: Env, store: Store, dep: Deployment, devices: seq<Device>, s: Rollout)
    ensures Applied(env, store, dep.(status := s), devices) == Applied(env, store, dep, devices)
    ensures DesiredHashes(env, dep.(status := s), devices) == DesiredHashes(env, dep, devices)
    decreases |devices|
  {
    hide Upsert;
    if devices != [] {
      StatusIsNotRead(env, store, dep, devices[..|devices| - 1], s);
    }
  }

  lemma SameReconciled(env: Env, store: Store, dep: Deployment, devices: seq<Device>, s: Rollout)
    ensures Reconciled(env, store, dep.(status := s), devices) == Reconciled(env, store, dep, devices)
  {
    hide Applied, NamesOf;
    StatusIsNotRead(env, store, dep, devices, s);
  }

  lemma SameListed(store: Store, dep: Deployment, list: seq<Key>, s: Rollout)
    ensures ListsLabelled(store, dep.(status := s), list) <==> ListsLabelled(store, dep, list)
  {
  }

  /**
    A second reconcile with nothing reported in between, whatever the order of its list and however
    late: it stores the same status and patches nothing, and when the first one wrote the
    conditions it also computes the same status.
   */
  lemma SecondStatusIsSame(env: Env, store: Store, dep: Deployment, devices: seq<Device>,
                           list: seq<Key>, again: seq<Key>, now: Time, later: Time)
    requires DistinctNames(env, devices) && SparesReserved(dep.selector)
    requires ListsLabelled(Reconciled(env, store, dep, devices), dep, list)
    requires var r, s := Reconciled(env, store, dep, devices), StatusAfter(env, store, dep, devices, list, now);
             ListsLabelled(Reconciled(env, r, dep.(status := s), devices), dep.(status := s), again)
    ensures var r, s := Reconciled(env, store, dep, devices), StatusAfter(env, store, dep, devices, list, now);
            var computed := ComputedAfter(env, r, dep.(status := s), devices, again, later);
            && StatusAfter(env, r, dep.(status := s), devices, again, later) == s && !Patches(s, computed)
            && (!BothSet(dep.status.conditions) ==> computed == s)
  {
    hide Reconciled, DesiredHashes, RolloutConditions, ListsLabelled, SparesReserved, DistinctNames, ProcessReady,
        IsUpdated, BothSet;
    var r, hashes := Reconciled(env, store, dep, devices), DesiredHashes(env, dep, devices);
    var s := StatusAfter(env, store, dep, devices, list, now);
    var updated, ready := CountUpdated(hashes, r, list), CountReady(r, list);
    SecondReconcileIsIdle(env, store, dep, devices);
    StatusIsNotRead(env, r, dep, devices, s);
    SameReconciled(env, r, dep, devices, s);
    SameListed(r, dep, again, s);
    CountersForgetOrder(hashes, r, dep, list, again);
    ConditionsSettle(dep.status.conditions, |devices|, updated, ready, now, later);
    ComputedBothSet(dep.status.conditions, |devices|, updated, ready, now);
  }

  lemma ComputedBothSet(cs: seq<Condition>, desired: int, updated: int, available: int, now: Time)
    ensures BothSet(RolloutConditions(cs, desired, updated, available, now))
  {
    hide AvailableVerdict, ProgressingVerdict, BothSet, Set;
    VerdictTypes(desired, updated, available);
    SetLengths(cs, AvailableVerdict(desired, available), ProgressingVerdict(desired, updated, available), now);
  }

  // ---------- the conditions over runs of reconciles ----------

  /** What one reconcile counts, under the deployment's generation at that time. */
  datatype Tally = Tally(generation: int, desired: int, current: int, updated: int, available: int, now: Time)

  const NO_STATUS: Rollout := Rollout(0, 0, 0, 0, 0, 0, 0, [])

  function Computed(dep: Deployment, s: Rollout, t: Tally): Rollout {
    RolloutOf(dep.(generation := t.generation, status := s), t.desired, t.current, t.updated, t.available, t.now)
  }

  /** The stored status after reconciles with these tallies, from status `s`. */
  function AfterTallies(dep: Deployment, s: Rollout, ts: seq<Tally>): Rollout
    decreases |ts|
  {
    if ts == [] then s
    else
      var last := AfterTallies(dep, s, ts[..|ts| - 1]);
      StoredStatus(last, Computed(dep, last, ts[|ts| - 1]))
  }

  /**
    Over any run of reconciles from an empty status, the counters are those of the last one, but
    both conditions stay, for good, what the first one wrote.
   */
  lemma {:induction false} FirstVerdictStays(dep: Deployment, ts: seq<Tally>)
    requires ts != []
    ensures var s, last := AfterTallies(dep, NO_STATUS, ts), ts[|ts| - 1];
            && s.conditions == RolloutConditions([], ts[0].desired, ts[0].updated, ts[0].available, ts[0].now)
            && BothSet(s.conditions)
            && s.observedGeneration == last.generation && s.desired == last.desired && s.current == last.current
            && s.updated == last.updated && s.ready == s.available == last.available
    decreases |ts|
  {
    hide RolloutConditions, BothSet;
    ComputedBothSet([], ts[0].desired, ts[0].updated, ts[0].available, ts[0].now);
    var n := |ts| - 1;
    if n > 0 {
      FirstVerdictStays(dep, ts[..n]);
    } else {
      assert ts[..0] == [] && AfterTallies(dep, NO_STATUS, ts[..0]) == NO_STATUS;
      NoneSet();
    }
  }

  lemma NoneSet()
    ensures !BothSet([])
  {
  }

  /**
    The failure: a deployment whose first reconcile found something not ready, and whose second
    finds everything ready and updated. The counters say so; Available stays False and Progressing
    True (and by SecondStatusIsSame the next reconcile patches nothing).
   */
  lemma StuckConditions(env: Env, dep: Deployment, devices: seq<Device>, early: Store, late: Store,
                        list: seq<Key>, again: seq<Key>, now: Time, later: Time)
    requires dep.status == NO_STATUS && DistinctNames(env, devices) && SparesReserved(dep.selector)
    requires forall s :: env.hash(s) != ""
    requires NoForeign(env, early, dep, devices) && ListsLabelled(Reconciled(env, early, dep, devices), dep, list)
    requires NoForeign(env, late, dep, devices) && ListsLabelled(Reconciled(env, late, dep, devices), dep, again)
    requires !ReadyAll(env, Reconciled(env, early, dep, devices), dep, devices)
    requires var r := Reconciled(env, late, dep, devices);
        ReadyAll(env, r, dep, devices) && UpdatedAll(env, r, dep, devices)
    ensures var dep' := dep.(status := StatusAfter(env, early, dep, devices, list, now));
            var s := StatusAfter(env, late, dep', devices, again, later);
            && s.desired == s.available == s.updated == |devices| > 0
            && HasCondition(s, Available, CondFalse) && HasCondition(s, Progressing, CondTrue)
  {
    hide Reconciled, SparesReserved, DistinctNames, ReadyAll, UpdatedAll, HasCondition, NoForeign, ListsLabelled,
        RolloutConditions, BothSet, DesiredHashes;
    NotReadyHasTargets(env, Reconciled(env, early, dep, devices), dep, devices);
    NoneSet();
    RolloutTells(env, early, dep, devices, list, now);
    var first := StatusAfter(env, early, dep, devices, list, now);
    var dep' := dep.(status := first);
    var hashes, r := DesiredHashes(env, dep, devices), Reconciled(env, early, dep, devices);
    ComputedBothSet([], |devices|, CountUpdated(hashes, r, list), CountReady(r, list), now);
    RolloutTells(env, late, dep, devices, again, later);
    SameReconciled(env, late, dep, devices, first);
    StatusIsNotRead(env, late, dep, devices, first);
    SameConditions(StatusAfter(env, late, dep', devices, again, later), first, first);
  }

  /** A process that is ready and runs the given spec. */
  function ReadyStatus(hash: string): Status {
    EMPTY_STATUS.(phase := Running, observedSpecHash := hash,
                  conditions := [Mark(AgentConnected, CondTrue, "", ""), Mark(Healthy, CondTrue, "", "")])
  }

  lemma ReadyIsReady(hash: string)
    ensures ProcessReady(ReadyStatus(hash)) && !ProcessReady(EMPTY_STATUS)
  {
    var cs := ReadyStatus(hash).conditions;
    IndexOfUnique(cs, AgentConnected, 0);
    IndexOfUnique(cs, Healthy, 1);
  }

  /** The key of a single device's process is all that the deployment's list holds after a reconcile. */
  lemma SoleListed(env: Env, store: Store, dep: Deployment, d: Device)
    requires SparesReserved(dep.selector) && NoForeign(env, store, dep, [d])
    ensures var k, r := KeyFor(env, dep, d), Reconciled(env, store, dep, [d]);
            && ListsLabelled(r, dep, [k]) && k in r
            && StatusOf(env, r, dep, d) == if k in store then store[k].status else EMPTY_STATUS
  {
    hide Reconciled, SparesReserved, NoForeign, IsLabelled, Owned;
    var k, r := KeyFor(env, dep, d), Reconciled(env, store, dep, [d]);
    forall x ensures x in r && IsLabelled(dep, x, r[x]) <==> x == k {
      LabelledExactly(env, store, dep, [d], x);
      assert IsKeyOf(env, dep, [d], x) <==> x == k by {
        assert [d][0] == d;
      }
    }
    assert [d][0] == d;
    ReconciledAt(env, store, dep, [d], k);
  }

  /** One device is enough: its process is created, then reports ready, and Available stays False. */
  lemma StuckIsReachable(env: Env, dep: Deployment, d: Device, now: Time, later: Time) returns (late: Store)
    requires dep.status == NO_STATUS && SparesReserved(dep.selector) && forall s :: env.hash(s) != ""
    ensures var k, r := KeyFor(env, dep, d), Reconciled(env, map[], dep, [d]);
            k in r && late == map[k := r[k].(status := ReadyStatus(env.hash(DesiredSpec(dep, d.name))))]
    ensures var k := KeyFor(env, dep, d);
            var dep' := dep.(status := StatusAfter(env, map[], dep, [d], [k], now));
            var s := StatusAfter(env, late, dep', [d], [k], later);
            && s.desired == s.available == s.updated == 1
            && HasCondition(s, Available, CondFalse) && HasCondition(s, Progressing, CondTrue)
  {
    hide Reconciled, SparesReserved, HasCondition, ListsLabelled, ProcessReady, DesiredSpec, StatusAfter, ReadyStatus,
        StatusOf, Owned;
    var k, hash := KeyFor(env, dep, d), env.hash(DesiredSpec(dep, d.name));
    var r := Reconciled(env, map[], dep, [d]);
    SoleListed(env, map[], dep, d);
    late := map[k := r[k].(status := ReadyStatus(hash))];
    assert IsKeyOf(env, dep, [d], k) by {
      assert [d][0] == d;
    }
    assert NoForeign(env, late, dep, [d]);
    SoleListed(env, late, dep, d);
    ReadyIsReady(hash);
    ReadyHash(hash);
    assert [d][0] == d;
    StuckConditions(env, dep, [d], map[], late, [k], [k], now, later);
  }

  lemma ReadyHash(hash: string)
    ensures ReadyStatus(hash).observedSpecHash == hash
  {
  }

  lemma NotReadyHasTargets(env: Env, r: Store, dep: Deployment, devices: seq<Device>)
    ensures !ReadyAll(env, r, dep, devices) ==> |devices| > 0
  {
  }

  // ---------- whom the controller counts ----------

  /** A name with an expected hash is that of a device's process. */
  lemma {:induction false} HashedIsDevice(env: Env, dep: Deployment, devices: seq<Device>, name: string)
    requires name in DesiredHashes(env, dep, devices)
    ensures exists i :: 0 <= i < |devices| && name == env.nameOf(devices[i].name)
    decreases |devices|
  {
    hide DesiredSpec;
    var n := |devices| - 1;
    if name == env.nameOf(devices[n].name) {
      assert name == env.nameOf(devices[n].name);
    } else {
      HashedIsDevice(env, dep, devices[..n], name);
      var i :| 0 <= i < n && name == env.nameOf(devices[..n][i].name);
      assert name == env.nameOf(devices[i].name);
    }
  }

  /** Every process that CountUpdated counts over the labelled list is the process of a device. */
  lemma CountedIsDevice(env: Env, store: Store, dep: Deployment, devices: seq<Device>, list: seq<Key>, k: Key)
    requires ListsLabelled(store, dep, list) && k in UpdatedSet(DesiredHashes(env, dep, devices), store, list)
    ensures IsKeyOf(env, dep, devices, k)
  {
    hide DesiredHashes;
    HashedIsDevice(env, dep, devices, k.name);
    var i :| 0 <= i < |devices| && k.name == env.nameOf(devices[i].name);
    assert k == KeyFor(env, dep, devices[i]);
  }
}
