/**
  One reconcile of a deployment (deviceprocessdeployment_controller.go): one process per matched
  switch is upserted, stale ones are deleted, and the rollout status is counted. Applying a
  process is one upsert; `Env` holds the functions the model takes as given.
 */
module Controller {
  import opened Prelude
  import opened Text
  import opened Conditions
  import opened ApiTypes
  import opened Selectors

  /** deviceProcessName for this deployment, label validation, and the hash of a spec. */
  datatype Env = Env(nameOf: string -> string, labelOk: (string, string) -> bool, hash: Spec -> string)

  datatype Template = Template(
    labels: Labels, annotations: Labels,
    artifact: Artifact, execution: Execution, restartPolicy: RestartPolicy, healthCheck: Option<HealthCheck>)

  datatype Rollout = Rollout(
    observedGeneration: int, desired: int, current: int, updated: int, ready: int, available: int, unavailable: int,
    conditions: seq<Condition>)

  datatype Deployment = Deployment(
    id: Key, uid: string, generation: int, selector: Selector, template: Template, status: Rollout)

  datatype Device = Device(name: string, labels: Labels)

  /** A stored process; `controller` is the UID of its controlling owner. */
  datatype Process = Process(labels: Labels, annotations: Labels, controller: Option<string>, spec: Spec,
      status: Status)

  type Store = map<Key, Process>

  const APP: string := "app"
  const DEPLOYMENT: string := "deviceprocessdeployment"
  const DEPLOYMENT_UID: string := "deviceprocessdeployment-uid"

  // ---------- the desired process ----------

  /** mergeStringMaps. */
  function Merge(base: Labels, extras: Labels): Labels {
    base + extras
  }

  /** The device labels copied onto a process. */
  function SelectedDeviceLabels(env: Env, labels: Labels, s: Selector): Labels {
    map k | k in labels && (k in IndexKeys(s) || k == "role" || k == "type" || k == "rack")
        && env.labelOk(k, labels[k]) :: labels[k]
  }

  function DesiredSpec(dep: Deployment, device: string): Spec {
    Spec(DeviceRef("NetworkSwitch", device, ""), dep.template.artifact, dep.template.execution,
        dep.template.restartPolicy, dep.template.healthCheck)
  }

  /** buildDesiredDeviceProcess with its controller reference. */
  function BuildDesired(env: Env, dep: Deployment, d: Device): Process {
    var own := map[APP := dep.id.name, DEPLOYMENT := dep.id.name, DEPLOYMENT_UID := dep.uid];
    Process(Merge(Merge(dep.template.labels, own), SelectedDeviceLabels(env, d.labels, dep.selector)),
            dep.template.annotations, Some(dep.uid), DesiredSpec(dep, d.name), EMPTY_STATUS)
  }

  function KeyFor(env: Env, dep: Deployment, d: Device): Key {
    Key(dep.id.namespace, env.nameOf(d.name))
  }

  /**
    The stored process after an upsert: labels and annotations merge, spec and owner are replaced,
    the status stays.
   */
  function Upserted(was: Option<Process>, desired: Process): Process {
    match was
    case None => desired
    case Some(p) =>
      Process(Merge(p.labels, desired.labels), Merge(p.annotations, desired.annotations), desired.controller,
          desired.spec, p.status)
  }

  function Lookup(store: Store, k: Key): Option<Process> {
    if k in store then Some(store[k]) else None
  }

  function Upsert(store: Store, k: Key, desired: Process): Store {
    store[k := Upserted(Lookup(store, k), desired)]
  }

  /** The switches of the namespace that the selector matches. */
  function MatchedDevices(s: Selector, switches: seq<Device>): seq<Device> {
    if switches == [] then []
    else
      var n := |switches| - 1;
      MatchedDevices(s, switches[..n]) + if Matches(s, switches[n].labels) then [switches[n]] else []
  }

  /** The upsert loop. */
  function Applied(env: Env, store: Store, dep: Deployment, devices: seq<Device>): Store {
    if devices == [] then store
    else
      var n := |devices| - 1;
      Upsert(Applied(env, store, dep, devices[..n]), KeyFor(env, dep, devices[n]), BuildDesired(env, dep, devices[n]))
  }

  // ---------- cleanup ----------

  /** The process is listed for the deployment. */
  predicate IsLabelled(dep: Deployment, k: Key, p: Process) {
    k.namespace == dep.id.namespace && DEPLOYMENT in p.labels && p.labels[DEPLOYMENT] == dep.id.name
  }

  /** Listed, carrying no other deployment's UID, and controlled by this deployment. */
  predicate Owned(dep: Deployment, k: Key, p: Process) {
    && IsLabelled(dep, k, p)
    && (DEPLOYMENT_UID in p.labels ==> p.labels[DEPLOYMENT_UID] == dep.uid)
    && p.controller == Some(dep.uid)
  }

  function NamesOf(env: Env, devices: seq<Device>): set<string> {
    set i | 0 <= i < |devices| :: env.nameOf(devices[i].name)
  }

  function WithoutStale(store: Store, dep: Deployment, names: set<string>): Store {
    map k | k in store && !(Owned(dep, k, store[k]) && k.name !in names) :: store[k]
  }

  /** The store after a successful reconcile. */
  function Reconciled(env: Env, store: Store, dep: Deployment, devices: seq<Device>): Store {
    WithoutStale(Applied(env, store, dep, devices), dep, NamesOf(env, devices))
  }

  // ---------- the rollout status ----------

  /** The hash the controller expects of each named process. */
  function DesiredHashes(env: Env, dep: Deployment, devices: seq<Device>): map<string, string> {
    if devices == [] then map[]
    else
      var n := |devices| - 1;
      DesiredHashes(env, dep, devices[..n])[env.nameOf(devices[n].name) := env.hash(DesiredSpec(dep, devices[n].name))]
  }

  /** The process counts as updated: its observed hash is the non-empty desired one. */
  predicate IsUpdated(hashes: map<string, string>, k: Key, p: Process) {
    k.name in hashes && hashes[k.name] != "" && p.status.observedSpecHash == hashes[k.name]
  }

  function CountUpdated(hashes: map<string, string>, store: Store, list: seq<Key>): (n: nat)
    ensures n <= |list|
  {
    if list == [] then 0
    else
      var m, k := |list| - 1, list[|list| - 1];
      CountUpdated(hashes, store, list[..m]) + if k in store && IsUpdated(hashes, k, store[k]) then 1 else 0
  }

  function CountReady(store: Store, list: seq<Key>): (n: nat)
    ensures n <= |list|
  {
    if list == [] then 0
    else
      var m, k := |list| - 1, list[|list| - 1];
      CountReady(store, list[..m]) + if k in store && ProcessReady(store[k].status) then 1 else 0
  }

  function Verdict(t: ConditionType, on: bool, reason: string, message: string): Condition {
    Mark(t, if on then CondTrue else CondFalse, reason, message)
  }

  function AvailableVerdict(desired: int, available: int): Condition {
    if desired == 0 then Verdict(Available, false, "NoTargets", "no devices matched selector")
    else if available == desired then Verdict(Available, true, "AllAvailable", "all device processes are available")
    else Verdict(Available, false, "NotEnoughAvailable", FormatInt(available) + "/" + FormatInt(desired) + " available")
  }

  function ProgressingVerdict(desired: int, updated: int, available: int): Condition {
    if desired == 0 then Verdict(Progressing, false, "NoTargets", "no devices matched selector")
    else if updated < desired || available < desired then
      Verdict(Progressing, true, "Updating",
              "updated=" + FormatInt(updated) + " available=" + FormatInt(available) + " desired=" + FormatInt(desired))
    else Verdict(Progressing, false, "Updated", "all device processes updated")
  }

  /** The condition list computed for these counters. */
  function RolloutConditions(cs: seq<Condition>, desired: int, updated: int, available: int,
                             now: Time): seq<Condition> {
    Set(Set(cs, AvailableVerdict(desired, available), now), ProgressingVerdict(desired, updated, available), now)
  }

  /** The status computed from the counters and the last one. */
  function RolloutOf(dep: Deployment, desired: int, current: int, updated: int, available: int, now: Time): Rollout {
    Rollout(dep.generation, desired, current, updated, available, available,
            if desired < available then 0 else desired - available,
            RolloutConditions(dep.status.conditions, desired, updated, available, now))
  }

  // ---------- what of it is stored ----------

  predicate BothSet(cs: seq<Condition>) {
    Has(cs, Available) && Has(cs, Progressing)
  }

  /**
    The stored status: the counters are the computed ones, the conditions only when one of the two
    types was missing. When both are there, they are overwritten in the array that the deployment
    read from the server shares, and neither the comparison nor the patch sees a difference.
   */
  function StoredStatus(was: Rollout, computed: Rollout): Rollout {
    computed.(conditions := if BothSet(was.conditions) then was.conditions else computed.conditions)
  }

  /** A patch is sent: a condition type was missing, or a counter or the generation differs. */
  predicate Patches(was: Rollout, computed: Rollout) {
    !BothSet(was.conditions) || was.(conditions := []) != computed.(conditions := [])
  }

  /** A merge patch carries the fields in which the two statuses differ. */
  function MergePatched(stored: Rollout, base: Rollout, modified: Rollout): Rollout {
    Rollout(
      if base.observedGeneration == modified.observedGeneration then stored.observedGeneration
      else modified.observedGeneration,
      if base.desired == modified.desired then stored.desired else modified.desired,
      if base.current == modified.current then stored.current else modified.current,
      if base.updated == modified.updated then stored.updated else modified.updated,
      if base.ready == modified.ready then stored.ready else modified.ready,
      if base.available == modified.available then stored.available else modified.available,
      if base.unavailable == modified.unavailable then stored.unavailable else modified.unavailable,
      if base.conditions == modified.conditions then stored.conditions else modified.conditions)
  }

  lemma SetLengths(cs: seq<Condition>, a: Condition, p: Condition, now: Time)
    requires a.ctype == Available && p.ctype == Progressing
    ensures |Set(Set(cs, a, now), p, now)| == |cs| <==> BothSet(cs)
    ensures Has(Set(cs, a, now), Progressing) <==> Has(cs, Progressing)
    ensures BothSet(Set(Set(cs, a, now), p, now))
  {
    SetFind(cs, a, now, Available);
    SetFind(cs, a, now, Progressing);
    SetFind(Set(cs, a, now), p, now, Available);
    SetFind(Set(cs, a, now), p, now, Progressing);
  }

  // ---------- the code ----------

  ghost predicate ListsLabelled(store: Store, dep: Deployment, list: seq<Key>) {
    && (forall i, j :: 0 <= i < j < |list| ==> list[i] != list[j])
    && (forall k :: k in list <==> k in store && IsLabelled(dep, k, store[k]))
  }

  lemma StaleGone(store: Store, dep: Deployment, names: set<string>, gone: set<Key>)
    requires forall k :: k in gone <==> k in store && Owned(dep, k, store[k]) && k.name !in names
    ensures store - gone == WithoutStale(store, dep, names) && store.Keys - (store - gone).Keys == gone
  {
    hide Owned;
  }

  lemma AppliedNone(env: Env, store: Store, dep: Deployment, devices: seq<Device>)
    ensures Applied(env, store, dep, devices[..0]) == store && NamesOf(env, devices[..0]) == {}
  {
  }

  lemma AppliedMore(env: Env, store: Store, dep: Deployment, devices: seq<Device>, i: nat)
    requires i < |devices|
    ensures Applied(env, store, dep, devices[..i + 1])
         == Upsert(Applied(env, store, dep, devices[..i]), KeyFor(env, dep, devices[i]),
             BuildDesired(env, dep, devices[i]))
    ensures NamesOf(env, devices[..i + 1]) == NamesOf(env, devices[..i]) + {env.nameOf(devices[i].name)}
  {
    hide Upsert, BuildDesired;
    assert devices[..i + 1][..i] == devices[..i];
  }

  lemma VerdictTypes(desired: int, updated: int, available: int)
    ensures AvailableVerdict(desired, available).ctype == Available
    ensures ProgressingVerdict(desired, updated, available).ctype == Progressing
  {
  }

  class Cluster {
    var store: Store

    /** The labelled list of the API server, in some order. */
    method ListLabelled(dep: Deployment) returns (list: seq<Key>)
      ensures ListsLabelled(store, dep, list)
    {
      list := [];
      var todo := store.Keys;
      while todo != {}
        invariant todo <= store.Keys
        invariant forall i, j :: 0 <= i < j < |list| ==> list[i] != list[j]
        invariant forall k :: k in list <==> k in store && k !in todo && IsLabelled(dep, k, store[k])
        decreases |todo|
      {
        var k :| k in todo;
        if IsLabelled(dep, k, store[k]) { list := list + [k]; }
        todo := todo - {k};
      }
    }

    /** applyDeviceProcess as one upsert. */
    method ApplyDeviceProcess(env: Env, dep: Deployment, d: Device) returns (created: bool)
      modifies this
      ensures created == (KeyFor(env, dep, d) !in old(store))
      ensures store == Upsert(old(store), KeyFor(env, dep, d), BuildDesired(env, dep, d))
    {
      hide BuildDesired;
      var k, desired := KeyFor(env, dep, d), BuildDesired(env, dep, d);
      created := k !in store;
      if created {
        store := store[k := desired];
      } else {
        var current := store[k];
        current := current.(labels := Merge(current.labels, desired.labels),
            annotations := Merge(current.annotations, desired.annotations));
        current := current.(spec := desired.spec, controller := desired.controller);
        store := store[k := current];
      }
    }

    method CleanupStale(dep: Deployment, names: set<string>) returns (deleted: nat)
      modifies this
      ensures store == WithoutStale(old(store), dep, names)
      ensures deleted == |old(store).Keys - store.Keys|
    {
      hide IsLabelled, WithoutStale;
      deleted := 0;
      var list := ListLabelled(dep);
      ghost var was: Store, gone: set<Key> := store, {};
      for i := 0 to |list|
        invariant store == was - gone && deleted == |gone|
        invariant forall k :: k in gone <==> k in list[..i] && Owned(dep, k, was[k]) && k.name !in names
      {
        var k := list[i];
        assert list[..i + 1] == list[..i] + [k];
        assert k in list && k !in list[..i];
        if k.name in names { continue; }
        var p := store[k];
        if DEPLOYMENT_UID in p.labels && p.labels[DEPLOYMENT_UID] != dep.uid { continue; }
        if p.controller != Some(dep.uid) { continue; }
        store := store - {k};
        deleted := deleted + 1;
        gone := gone + {k};
      }
      assert list[..|list|] == list;
      StaleGone(was, dep, names, gone);
    }

    /**
      updateStatus: the status it computes, the one stored afterwards, and whether it patched.
      `spare` is the unused capacity of the deployment's condition slice.
     */
    method UpdateStatus(env: Env, dep: Deployment, devices: seq<Device>, spare: nat, now: Time)
      returns (status: Rollout, stored: Rollout, patched: bool, list: seq<Key>)
      ensures ListsLabelled(store, dep, list)
      ensures status == RolloutOf(dep, |devices|, |list|, CountUpdated(DesiredHashes(env, dep, devices), store, list),
          CountReady(store, list), now)
      ensures stored == StoredStatus(dep.status, status) && (patched <==> Patches(dep.status, status))
    {
      hide RolloutConditions, DesiredSpec, IsUpdated, ProcessReady, IsLabelled;
      var hashes: map<string, string> := map[];
      for i := 0 to |devices|
        invariant hashes == DesiredHashes(env, dep, devices[..i])
      {
        assert devices[..i + 1][..i] == devices[..i];
        hashes := hashes[env.nameOf(devices[i].name) := env.hash(DesiredSpec(dep, devices[i].name))];
      }
      assert devices[..|devices|] == devices;
      var keys := ListLabelled(dep);
      list := keys;
      var updated, available := 0, 0;
      for i := 0 to |keys|
        invariant updated == CountUpdated(hashes, store, keys[..i]) && available == CountReady(store, keys[..i])
      {
        assert keys[..i + 1][..i] == keys[..i];
        assert keys[i] in keys;
        var proc := store[keys[i]];
        if IsUpdated(hashes, keys[i], proc) { updated := updated + 1; }
        if ProcessReady(proc.status) { available := available + 1; }
      }
      assert keys[..|keys|] == keys;
      var unavailable := |devices| - available;
      if unavailable < 0 { unavailable := 0; }
      var seen, conditions := ComputeConditions(dep.status.conditions, spare, |devices|, updated, available, now);
      status := Rollout(dep.generation, |devices|, |keys|, updated, available, available, unavailable, conditions);
      var base := dep.status.(conditions := seen);
      patched := base != status;
      stored := if patched then MergePatched(dep.status, base, status) else dep.status;
    }

    /**
      The two marks on a copy of the slice header: what the deployment's own header then shows, and
      the new list.
     */
    method ComputeConditions(cs: seq<Condition>, spare: nat, desired: int, updated: int, available: int, now: Time)
      returns (seen: seq<Condition>, conditions: seq<Condition>)
      ensures conditions == RolloutConditions(cs, desired, updated, available, now)
      ensures seen == conditions <==> BothSet(cs)
    {
      hide AvailableVerdict, ProgressingVerdict, Has, Set;
      var a, p := AvailableVerdict(desired, available), ProgressingVerdict(desired, updated, available);
      VerdictTypes(desired, updated, available);
      SetLengths(cs, a, p, now);
      var held := new Condition[|cs| + spare](i => if 0 <= i < |cs| then cs[i] else a);
      assert held[..|cs|] == cs;
      var arr, len := SetConditionShared(held, |cs|, a, now);
      assert arr[..len] == Set(cs, a, now);
      arr, len := SetConditionShared(arr, len, p, now);
      seen, conditions := held[..|cs|], arr[..len];
    }

    /** The upsert loop of Reconcile. */
    method ApplyAll(env: Env, dep: Deployment, devices: seq<Device>) returns (names: set<string>, created: nat)
      modifies this
      ensures store == Applied(env, old(store), dep, devices)
      ensures names == NamesOf(env, devices) && created == |store.Keys - old(store).Keys|
    {
      hide Applied, Upserted, BuildDesired, KeyFor, NamesOf;
      AppliedNone(env, store, dep, devices);
      names, created := {}, 0;
      ghost var was: Store, new_: set<Key> := store, {};
      for i := 0 to |devices|
        invariant store == Applied(env, was, dep, devices[..i])
        invariant forall k :: k in was ==> k in store
        invariant forall k :: k in new_ <==> k in store && k !in was
        invariant created == |new_|
        invariant names == NamesOf(env, devices[..i])
      {
        AppliedMore(env, was, dep, devices, i);
        names := names + {env.nameOf(devices[i].name)};
        ghost var k := KeyFor(env, dep, devices[i]);
        var createdNow := ApplyDeviceProcess(env, dep, devices[i]);
        if createdNow {
          assert k !in new_;
          created, new_ := created + 1, new_ + {k};
        }
      }
      assert devices[..|devices|] == devices;
      assert store.Keys - was.Keys == new_;
    }

    /** Reconcile, when every API call succeeds: None when the deployment is skipped. */
    method Reconcile(env: Env, dep: Deployment, switches: seq<Device>, spare: nat, now: Time)
      returns (stored: Option<Rollout>, patched: bool, created: nat, deleted: nat, ghost list: seq<Key>)
      modifies this
      ensures stored.Some? == (Parses(dep.selector) && Supported(dep.selector))
      ensures stored.None? ==> store == old(store) && created == deleted == 0 && !patched
      ensures var devices := MatchedDevices(dep.selector, switches);
              var applied := Applied(env, old(store), dep, devices);
              stored.Some? ==>
                && store == Reconciled(env, old(store), dep, devices)
                && created == |applied.Keys - old(store).Keys| && deleted == |applied.Keys - store.Keys|
                && ListsLabelled(store, dep, list)
                && var computed :=
                     RolloutOf(dep, |devices|, |list|, CountUpdated(DesiredHashes(env, dep, devices), store, list),
                               CountReady(store, list), now);
                   stored.value == StoredStatus(dep.status, computed) && (patched <==> Patches(dep.status, computed))
    {
      hide Applied, WithoutStale, NamesOf, MatchedDevices, Parses, Supported, ListsLabelled, RolloutOf, CountUpdated,
          CountReady, DesiredHashes, StoredStatus, Patches;
      stored, patched, created, deleted, list := None, false, 0, 0, [];
      var ok := Parses(dep.selector);
      if !ok { return; }
      var unsupported := HasUnsupportedSelector(dep.selector);
      if unsupported { return; }
      var devices := ListSwitches(dep.selector, switches);
      var names;
      names, created := ApplyAll(env, dep, devices);
      deleted := CleanupStale(dep, names);
      var _, s, changed, listed := UpdateStatus(env, dep, devices, spare, now);
      stored, patched, list := Some(s), changed, listed;
    }

    /** listNetworkSwitches over the namespace's switches. */
    method ListSwitches(s: Selector, switches: seq<Device>) returns (devices: seq<Device>)
      ensures devices == MatchedDevices(s, switches)
    {
      hide Matches;
      devices := [];
      for i := 0 to |switches|
        invariant devices == MatchedDevices(s, switches[..i])
      {
        assert switches[..i + 1][..i] == switches[..i];
        if Matches(s, switches[i].labels) { devices := devices + [switches[i]]; }
      }
      assert switches[..|switches|] == switches;
    }
  }
}
