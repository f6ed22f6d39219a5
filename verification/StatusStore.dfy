/**
  Any number of observation, connect and disconnect handlers running concurrently against the
  versioned API store (gateway/server.go: updateStatusForObservation with its retry loop,
  markDeviceConnected, markDeviceDisconnected). Every API call is one step; the computation
  between two calls is local to the handler. A patch carries the version that was read and goes
  through only while the stored version is still that one.
 */
module StatusStore {
  import opened Prelude
  import opened ApiTypes
  import opened StatusTransform
  import opened StatusLaws

  const MAX_ATTEMPTS: nat := 3

  datatype Obj = Obj(version: nat, spec: Spec, status: Status)

  datatype Outcome = NilError | NotFound | BadRequest | Conflict | ApiError

  datatype Handler =
    | Observing(device: string, obs: Observation, reportedAt: Option<string>, attempt: nat)
    | Patching(device: string, obs: Observation, reportedAt: Option<string>, attempt: nat, clock: Clock, snap: Obj)
    | Listing(device: string, connected: bool)
    | Marking(device: string, connected: bool, todo: seq<(Key, Obj)>)
    | Done(request: Option<(string, Observation)>, outcome: Outcome)

  /**
    How an operation ended well: with a patch, or without one because it changes nothing in the
    object it read, the current one or an older one from the cache.
   */
  datatype Mode = Patched | NoOp | StaleNoOp

  /** The ghost log: what took effect, in the order in which it did. */
  datatype Entry =
    | Created(key: Key)
    | Deleted(key: Key)
    | Effect(id: nat, device: string, key: Key, op: Op, mode: Mode)

  datatype World = World(
    revision: nat,
    objs: map<Key, Obj>,
    past: set<(Key, Obj)>,
    handlers: map<nat, Handler>,
    gets: map<nat, nat>,
    log: seq<Entry>,
    events: seq<Event>)

  /** A read goes to the server, or to a cache that holds any earlier object or misses it. */
  datatype Read = Fresh | Cached(found: Option<Obj>)

  datatype Step =
    | Spawn(id: nat, handler: Handler)
    | Get(id: nat, clock: Clock, read: Read)
    | Patch(id: nat)
    | List(id: nat, listing: seq<(Key, Obj)>)
    | MarkOne(id: nat, at: Time)
    | Abort(id: nat)
    | Create(key: Key, spec: Spec)
    | ChangeSpec(key: Key, spec: Spec)
    | Delete(key: Key)

  // ---------- the steps ----------

  /** The observation a handler was started for, and its device. */
  function Request(h: Handler): Option<(string, Observation)> {
    match h
    case Observing(device, obs, _, _) => Some((device, obs))
    case Patching(device, obs, _, _, _, _) => Some((device, obs))
    case Done(request, _) => request
    case _ => None
  }

  function Become(w: World, id: nat, h: Handler): World {
    w.(handlers := w.handlers[id := h])
  }

  /** A store write: the object gets a version no reader has seen. */
  function Store(w: World, key: Key, spec: Spec, status: Status): World {
    var o := Obj(w.revision + 1, spec, status);
    w.(revision := w.revision + 1, objs := w.objs[key := o], past := w.past + {(key, o)})
  }

  /** The events of a patched operation on a status `s`. */
  function EventsOf(s: Status, device: string, op: Op): seq<Event> {
    match op
    case Observe(obs, reportedAt, _) => ObservedEvents(s, device, obs, reportedAt)
    case MarkDevice(true, _) => [Event(false, "AgentConnected", "device connected")]
    case MarkDevice(false, _) => [Event(true, "AgentDisconnected", "device " + device + " stale")]
  }

  /** The patch that goes through: status and events as computed from the object that was read. */
  function Commit(w: World, id: nat, device: string, key: Key, op: Op, snap: Obj): World
    requires key in w.objs
  {
    Store(w, key, w.objs[key].spec, ApplyOp(snap.status, op)).(
      log := w.log + [Effect(id, device, key, op, Patched)],
      events := w.events + EventsOf(snap.status, device, op))
  }

  /** The object is or was stored under the key. */
  predicate Held(w: World, key: Key, o: Obj) {
    (key in w.objs && w.objs[key] == o) || (key, o) in w.past
  }

  function Seen(w: World, key: Key, read: Read): Option<Obj> {
    match read
    case Fresh => if key in w.objs then Some(w.objs[key]) else None
    case Cached(found) => found
  }

  /** The Get of one attempt, and the computation up to the decision whether to patch. */
  function DoGet(w: World, id: nat, clock: Clock, read: Read): World {
    if !(id in w.handlers && w.handlers[id].Observing?) then w
    else
      var h := w.handlers[id];
      var w1 := w.(gets := w.gets[id := (if id in w.gets then w.gets[id] else 0) + 1]);
      var key := h.obs.key;
      var seen := Seen(w, key, read);
      if seen.None? then Become(w1, id, Done(Request(h), NotFound))
      else if !Held(w, key, seen.value) then w
      else if seen.value.spec.deviceRef.name != h.device then Become(w1, id, Done(Request(h), BadRequest))
      else
        var after := ObservedStatus(seen.value.status, h.obs, h.reportedAt, clock);
        if after.None? then Become(w1, id, Done(Request(h), BadRequest))
        else if StatusEqual(seen.value.status, after.value) then
          var mode := if key in w.objs && w.objs[key] == seen.value then NoOp else StaleNoOp;
          Become(w1, id, Done(Request(h), NilError)).(
            log := w.log + [Effect(id, h.device, key, Observe(h.obs, h.reportedAt, clock), mode)])
        else Become(w1, id, Patching(h.device, h.obs, h.reportedAt, h.attempt, clock, seen.value))
  }

  function DoPatch(w: World, id: nat): World {
    if !(id in w.handlers && w.handlers[id].Patching?) then w
    else
      var h := w.handlers[id];
      var key := h.obs.key;
      if key !in w.objs then Become(w, id, Done(Request(h), NotFound))
      else if w.objs[key].version != h.snap.version then
        Become(w, id, if h.attempt + 1 < MAX_ATTEMPTS then Observing(h.device, h.obs, h.reportedAt, h.attempt + 1)
                      else Done(Request(h), Conflict))
      else
        Become(Commit(w, id, h.device, key, Observe(h.obs, h.reportedAt, h.clock), h.snap), id,
            Done(Request(h), NilError))
  }

  /** Every listed object is or was stored, for this device; a cache may list old ones or miss some. */
  predicate ListsDevice(w: World, device: string, listing: seq<(Key, Obj)>) {
    forall i :: 0 <= i < |listing| ==> Held(w, listing[i].0, listing[i].1) && listing[i].1.spec.deviceRef.name == device
  }

  function DoList(w: World, id: nat, listing: seq<(Key, Obj)>): World {
    if !(id in w.handlers && w.handlers[id].Listing? && ListsDevice(w, w.handlers[id].device, listing)) then w
    else
      var h := w.handlers[id];
      Become(w, id, Marking(h.device, h.connected, listing))
  }

  function DoMark(w: World, id: nat, at: Time): World {
    if !(id in w.handlers && w.handlers[id].Marking?) then w
    else
      var h := w.handlers[id];
      if h.todo == [] then Become(w, id, Done(None, NilError))
      else
        var (key, snap) := h.todo[0];
        var rest := Marking(h.device, h.connected, h.todo[1..]);
        if !ConnectionChanges(snap.status, if h.connected then CONNECTED else DISCONNECTED) then Become(w, id, rest)
        else if key !in w.objs then Become(w, id, Done(None, NotFound))
        else if w.objs[key].version != snap.version then Become(w, id, Done(None, Conflict))
        else Become(Commit(w, id, h.device, key, MarkDevice(h.connected, at), snap), id, rest)
  }

  ghost function Next(w: World, step: Step): World {
    match step
    case Spawn(id, h) =>
      if id !in w.handlers && ((h.Observing? && h.attempt == 0) || h.Listing?) then Become(w, id, h) else w
    case Get(id, clock, read) => DoGet(w, id, clock, read)
    case Patch(id) => DoPatch(w, id)
    case List(id, listing) => DoList(w, id, listing)
    case MarkOne(id, at) => DoMark(w, id, at)
    case Abort(id) =>
      if id in w.handlers && !w.handlers[id].Done? then
        Become(w, id, Done(Request(w.handlers[id]), ApiError))
      else w
    case Create(key, spec) =>
      if key in w.objs then w else Store(w, key, spec, EMPTY_STATUS).(log := w.log + [Created(key)])
    case ChangeSpec(key, spec) =>
      if key in w.objs then Store(w, key, spec, w.objs[key].status) else w
    case Delete(key) =>
      if key in w.objs then w.(objs := w.objs - {key}, log := w.log + [Deleted(key)]) else w
  }

  ghost function Run(w: World, steps: seq<Step>): World
    decreases |steps|
  {
    if steps == [] then w else Next(Run(w, steps[..|steps| - 1]), steps[|steps| - 1])
  }

  // ---------- the serial reading of the log ----------

  /** The entry counts: the patches that went through do, and with `all` the no-ops on current objects do too. */
  predicate Counts(e: Entry, all: bool) {
    !e.Effect? || e.mode.Patched? || (all && e.mode.NoOp?)
  }

  /** The statuses after the counting entries of the log, one after another. */
  function Replay(base: map<Key, Status>, log: seq<Entry>, all: bool): map<Key, Status>
    decreases |log|
  {
    if log == [] then base
    else
      var m, e := Replay(base, log[..|log| - 1], all), log[|log| - 1];
      if !Counts(e, all) then m
      else
        match e
        case Created(key) => m[key := EMPTY_STATUS]
        case Deleted(key) => m - {key}
        case Effect(_, _, key, op, _) => if key in m then m[key := ApplyOp(m[key], op)] else m
  }

  /** The events of the logged patches, each computed from the status the serial replay has there. */
  function ReplayEvents(base: map<Key, Status>, log: seq<Entry>, all: bool): seq<Event>
    decreases |log|
  {
    if log == [] then []
    else
      var es := ReplayEvents(base, log[..|log| - 1], all);
      var m := Replay(base, log[..|log| - 1], all);
      match log[|log| - 1]
      case Effect(_, device, key, op, Patched) => if key in m then es + EventsOf(m[key], device, op) else es
      case _ => es
  }

  function Statuses(objs: map<Key, Obj>): map<Key, Status> {
    map k | k in objs :: objs[k].status
  }

  // ---------- invariant 1: a version identifies what was read ----------

  ghost predicate SnapOk(w: World, key: Key, snap: Obj) {
    && snap.version <= w.revision
    && (key in w.objs && w.objs[key].version == snap.version ==> w.objs[key] == snap)
  }

  ghost predicate HandlerOk(w: World, h: Handler) {
    match h
    case Patching(device, obs, reportedAt, _, clock, snap) =>
      && SnapOk(w, obs.key, snap)
      && ObservedStatus(snap.status, obs, reportedAt, clock).Some?
    case Marking(_, _, todo) => forall i :: 0 <= i < |todo| ==> SnapOk(w, todo[i].0, todo[i].1)
    case _ => true
  }

  ghost predicate VersionsOk(w: World) {
    && (forall k :: k in w.objs ==> w.objs[k].version <= w.revision)
    && (forall id :: id in w.handlers ==> HandlerOk(w, w.handlers[id]))
    && (forall p :: p in w.past ==> SnapOk(w, p.0, p.1))
  }

  /** A write under a fresh version keeps every held snapshot truthful. */
  lemma StoreKeepsHandlers(w: World, key: Key, spec: Spec, status: Status, h: Handler)
    requires VersionsOk(w) && HandlerOk(w, h)
    ensures HandlerOk(Store(w, key, spec, status), h)
  {
  }

  lemma StoreKeepsVersions(w: World, key: Key, spec: Spec, status: Status)
    requires VersionsOk(w)
    ensures VersionsOk(Store(w, key, spec, status))
  {
    forall id | id in w.handlers
      ensures HandlerOk(Store(w, key, spec, status), w.handlers[id])
    {
      StoreKeepsHandlers(w, key, spec, status, w.handlers[id]);
    }
  }

  /** HandlerOk depends only on the objects and the revision. */
  lemma SameStoreSameHandlers(w: World, w': World)
    requires VersionsOk(w) && w'.objs == w.objs && w'.revision == w.revision && w'.past == w.past
    ensures forall h :: HandlerOk(w, h) ==> HandlerOk(w', h)
  {
  }

  lemma BecomeKeepsVersions(w: World, id: nat, h: Handler)
    requires VersionsOk(w) && HandlerOk(w, h)
    ensures VersionsOk(Become(w, id, h))
  {
    SameStoreSameHandlers(w, Become(w, id, h));
  }

  lemma RelabelKeepsVersions(w: World, gets: map<nat, nat>, log: seq<Entry>, events: seq<Event>)
    requires VersionsOk(w)
    ensures VersionsOk(w.(gets := gets, log := log, events := events))
  {
    SameStoreSameHandlers(w, w.(gets := gets, log := log, events := events));
  }

  lemma CommitKeepsVersions(w: World, id: nat, device: string, key: Key, op: Op, snap: Obj, h: Handler)
    requires VersionsOk(w) && key in w.objs && HandlerOk(w, h)
    ensures VersionsOk(Become(Commit(w, id, device, key, op, snap), id, h))
  {
    var o := w.objs[key];
    var s := ApplyOp(snap.status, op);
    var w1 := Store(w, key, o.spec, s);
    StoreKeepsVersions(w, key, o.spec, s);
    StoreKeepsHandlers(w, key, o.spec, s, h);
    var w2 := Commit(w, id, device, key, op, snap);
    RelabelKeepsVersions(w1, w2.gets, w2.log, w2.events);
    SameStoreSameHandlers(w1, w2);
    BecomeKeepsVersions(w2, id, h);
  }

  lemma NextKeepsVersions(w: World, step: Step)
    requires VersionsOk(w)
    ensures VersionsOk(Next(w, step))
  {
    match step
    case Spawn(id, h) =>
      if Next(w, step) != w {
        BecomeKeepsVersions(w, id, h);
      }
    case Get(id, clock, read) => GetKeepsVersions(w, id, clock, read);
    case Patch(id) =>
      if id in w.handlers && w.handlers[id].Patching? {
        var h := w.handlers[id];
        if h.obs.key in w.objs && w.objs[h.obs.key].version == h.snap.version {
          CommitKeepsVersions(w, id, h.device, h.obs.key, Observe(h.obs, h.reportedAt, h.clock), h.snap,
              Done(Request(h), NilError));
        } else {
          BecomeKeepsVersions(w, id, DoPatch(w, id).handlers[id]);
        }
      }
    case List(id, listing) =>
      if DoList(w, id, listing) != w {
        BecomeKeepsVersions(w, id, DoList(w, id, listing).handlers[id]);
      }
    case MarkOne(id, at) => MarkKeepsVersions(w, id, at);
    case Abort(id) =>
      if id in w.handlers && !w.handlers[id].Done? {
        BecomeKeepsVersions(w, id, Next(w, step).handlers[id]);
      }
    case Create(key, spec) =>
      if key !in w.objs {
        StoreKeepsVersions(w, key, spec, EMPTY_STATUS);
        RelabelKeepsVersions(Store(w, key, spec, EMPTY_STATUS), w.gets, w.log + [Created(key)], w.events);
      }
    case ChangeSpec(key, spec) =>
      if key in w.objs {
        StoreKeepsVersions(w, key, spec, w.objs[key].status);
      }
    case Delete(key) =>
  }

  /** What a read leaves the handler with is truthful: the snapshot is or was stored. */
  lemma SeenIsOk(w: World, id: nat, clock: Clock, read: Read)
    requires VersionsOk(w) && id in w.handlers && w.handlers[id].Observing?
    ensures id in DoGet(w, id, clock, read).handlers
    ensures HandlerOk(w, DoGet(w, id, clock, read).handlers[id])
  {
    hide ObservedStatus, StatusEqual;
  }

  /** A read changes only the reads, the log, the events and its handler. */
  lemma GetIsLocal(w: World, id: nat, clock: Clock, read: Read)
    requires id in w.handlers && w.handlers[id].Observing?
    ensures var w' := DoGet(w, id, clock, read);
            && id in w'.handlers
            && w' == Become(w.(gets := w'.gets, log := w'.log, events := w'.events), id, w'.handlers[id])
  {
    hide ObservedStatus, StatusEqual, Held;
    var w' := DoGet(w, id, clock, read);
    assert w'.handlers == w.handlers[id := w'.handlers[id]];
  }

  lemma GetKeepsVersions(w: World, id: nat, clock: Clock, read: Read)
    requires VersionsOk(w)
    ensures VersionsOk(DoGet(w, id, clock, read))
  {
    if id in w.handlers && w.handlers[id].Observing? {
      hide DoGet, VersionsOk, HandlerOk;
      var w' := DoGet(w, id, clock, read);
      var w1 := w.(gets := w'.gets, log := w'.log, events := w'.events);
      GetIsLocal(w, id, clock, read);
      RelabelKeepsVersions(w, w'.gets, w'.log, w'.events);
      SeenIsOk(w, id, clock, read);
      SameStoreSameHandlers(w, w1);
      BecomeKeepsVersions(w1, id, w'.handlers[id]);
    }
  }

  lemma MarkKeepsVersions(w: World, id: nat, at: Time)
    requires VersionsOk(w)
    ensures VersionsOk(DoMark(w, id, at))
  {
    if id in w.handlers && w.handlers[id].Marking? {
      var h := w.handlers[id];
      var w' := DoMark(w, id, at);
      if h.todo == [] {
        BecomeKeepsVersions(w, id, Done(None, NilError));
      } else {
        var (key, snap) := h.todo[0];
        var rest := Marking(h.device, h.connected, h.todo[1..]);
        assert HandlerOk(w, rest);
        if ConnectionChanges(snap.status, if h.connected then CONNECTED else DISCONNECTED)
           && key in w.objs && w.objs[key].version == snap.version {
          CommitKeepsVersions(w, id, h.device, key, MarkDevice(h.connected, at), snap, rest);
        } else {
          BecomeKeepsVersions(w, id, w'.handlers[id]);
        }
      }
    }
  }

  // ---------- invariant 2: the store is the serial replay of the log ----------

  /** Replaying the no-ops too needs statuses on which the comparison is sound. */
  ghost predicate SerialOk(base: map<Key, Status>, w: World, all: bool) {
    && Statuses(w.objs) == Replay(base, w.log, all)
    && w.events == ReplayEvents(base, w.log, all)
    && (all ==> AllGenerationFree(w.objs))
  }

  ghost predicate AllGenerationFree(objs: map<Key, Obj>) {
    forall k :: k in objs ==> GenerationFree(objs[k].status)
  }

  lemma CommitSerial(base: map<Key, Status>, all: bool, w: World, id: nat, device: string, key: Key, op: Op, snap: Obj)
    requires SerialOk(base, w, all) && key in w.objs
    requires SnapOk(w, key, snap) && w.objs[key].version == snap.version
    ensures SerialOk(base, Commit(w, id, device, key, op, snap), all)
  {
    hide ObservedStatus, StatusEqual, ConnectionChanges, EventsOf, ObservedEvents, GenerationFree, ApplyOp;
    var w' := Commit(w, id, device, key, op, snap);
    assert w'.log[..|w'.log| - 1] == w.log;
    assert Statuses(w'.objs) == Statuses(w.objs)[key := ApplyOp(w.objs[key].status, op)];
    if all {
      OpKeepsGenerationFree(w.objs[key].status, op);
    }
  }

  /** A Get writes no object; it logs, as a no-op, an observation that changes nothing. */
  lemma GetWrites(w: World, id: nat, clock: Clock, read: Read)
    ensures var w' := DoGet(w, id, clock, read);
            && w'.objs == w.objs && w'.events == w.events
            && (w'.log != w.log ==> id in w.handlers && w.handlers[id].Observing?)
            && (w'.log != w.log ==>
                  var h := w.handlers[id];
                  var op := Observe(h.obs, h.reportedAt, clock);
                  && |w'.log| == |w.log| + 1
                  && var e := w'.log[|w.log|];
                     && w'.log == w.log + [e] && e == Effect(id, h.device, h.obs.key, op, e.mode) && !e.mode.Patched?
                     && (e.mode.NoOp? ==> h.obs.key in w.objs)
                     && (e.mode.NoOp? && AllGenerationFree(w.objs) ==>
                           ApplyOp(w.objs[h.obs.key].status, op) == w.objs[h.obs.key].status))
  {
    hide StatusEqual, GenerationFree, StatusFrom, ConditionCalls, SpecHashChanges;
    if DoGet(w, id, clock, read).log != w.log {
      var h := w.handlers[id];
      if AllGenerationFree(w.objs) && DoGet(w, id, clock, read).log[|w.log|].mode.NoOp? {
        ComparisonSound(w.objs[h.obs.key].status, h.obs, h.reportedAt, clock);
      }
    }
  }

  lemma GetSerial(base: map<Key, Status>, all: bool, w: World, id: nat, clock: Clock, read: Read)
    requires SerialOk(base, w, all)
    ensures SerialOk(base, DoGet(w, id, clock, read), all)
  {
    hide DoGet, EventsOf, GenerationFree, ApplyOp;
    var w' := DoGet(w, id, clock, read);
    GetWrites(w, id, clock, read);
    if w'.log != w.log {
      var k := w.handlers[id].obs.key;
      assert w'.log[..|w'.log| - 1] == w.log;
      if k in w.objs {
        assert Statuses(w.objs) == Statuses(w.objs)[k := w.objs[k].status];
      }
    }
  }

  /** Steps that write neither the store nor the log. */
  lemma QuietSerial(base: map<Key, Status>, all: bool, w: World, w': World)
    requires SerialOk(base, w, all)
    requires w'.objs == w.objs && w'.log == w.log && w'.events == w.events
    ensures SerialOk(base, w', all)
  {
  }

  lemma PatchSerial(base: map<Key, Status>, all: bool, w: World, id: nat)
    requires VersionsOk(w) && SerialOk(base, w, all)
    ensures SerialOk(base, DoPatch(w, id), all)
  {
    if id in w.handlers && w.handlers[id].Patching? {
      var h := w.handlers[id];
      if h.obs.key in w.objs && w.objs[h.obs.key].version == h.snap.version {
        var op := Observe(h.obs, h.reportedAt, h.clock);
        CommitSerial(base, all, w, id, h.device, h.obs.key, op, h.snap);
        QuietSerial(base, all, Commit(w, id, h.device, h.obs.key, op, h.snap), DoPatch(w, id));
      } else {
        QuietSerial(base, all, w, DoPatch(w, id));
      }
    }
  }

  lemma MarkSerial(base: map<Key, Status>, all: bool, w: World, id: nat, at: Time)
    requires VersionsOk(w) && SerialOk(base, w, all)
    ensures SerialOk(base, DoMark(w, id, at), all)
  {
    hide ConnectionChanges, EventsOf, ApplyOp, SerialOk, SnapOk;
    var w' := DoMark(w, id, at);
    if w'.log == w.log {
      QuietSerial(base, all, w, w');
    } else {
      var h := w.handlers[id];
      var (key, snap) := h.todo[0];
      var op := MarkDevice(h.connected, at);
      CommitSerial(base, all, w, id, h.device, key, op, snap);
      QuietSerial(base, all, Commit(w, id, h.device, key, op, snap), w');
    }
  }

  /** Writers other than the gateway: creates, spec changes and deletes. */
  lemma OtherWriterSerial(base: map<Key, Status>, all: bool, w: World, step: Step)
    requires SerialOk(base, w, all)
    requires step.Create? || step.ChangeSpec? || step.Delete?
    ensures SerialOk(base, Next(w, step), all)
  {
    hide SerialOk, Statuses, GenerationFree, DoGet, DoPatch, DoMark, DoList;
    var w' := Next(w, step);
    if w' != w {
      OtherWriterStatuses(w, step);
      OtherWriterFree(base, all, w, step);
      if step.ChangeSpec? {
        UnloggedSerial(base, all, w, w');
      } else {
        EntrySerial(base, all, w, w', if step.Create? then Created(step.key) else Deleted(step.key));
      }
    }
  }

  lemma OtherWriterFree(base: map<Key, Status>, all: bool, w: World, step: Step)
    requires SerialOk(base, w, all)
    requires step.Create? || step.ChangeSpec? || step.Delete?
    ensures all ==> AllGenerationFree(Next(w, step).objs)
  {
    hide GenerationFree, DoGet, DoPatch, DoMark, DoList, Replay, ReplayEvents;
    EmptyGenerationFree();
  }

  lemma EntrySerial(base: map<Key, Status>, all: bool, w: World, w': World, e: Entry)
    requires SerialOk(base, w, all) && !e.Effect? && w'.log == w.log + [e] && w'.events == w.events
    requires Statuses(w'.objs) ==
             if e.Created? then Statuses(w.objs)[e.key := EMPTY_STATUS] else Statuses(w.objs) - {e.key}
    requires all ==> AllGenerationFree(w'.objs)
    ensures SerialOk(base, w', all)
  {
    hide Statuses, AllGenerationFree, ApplyOp, EventsOf;
    assert w'.log[..|w'.log| - 1] == w.log;
  }

  lemma UnloggedSerial(base: map<Key, Status>, all: bool, w: World, w': World)
    requires SerialOk(base, w, all) && w'.log == w.log && w'.events == w.events
    requires Statuses(w'.objs) == Statuses(w.objs) && (all ==> AllGenerationFree(w'.objs))
    ensures SerialOk(base, w', all)
  {
    hide Statuses, AllGenerationFree, Replay, ReplayEvents;
  }

  lemma EmptyGenerationFree()
    ensures GenerationFree(EMPTY_STATUS)
  {
  }

  lemma OtherWriterStatuses(w: World, step: Step)
    requires step.Create? || step.ChangeSpec? || step.Delete?
    ensures var w' := Next(w, step);
            w' == w || Statuses(w'.objs) ==
                       (if step.Create? then Statuses(w.objs)[step.key := EMPTY_STATUS]
                        else if step.Delete? then Statuses(w.objs) - {step.key}
                        else Statuses(w.objs))
  {
  }

  lemma NextSerial(base: map<Key, Status>, all: bool, w: World, step: Step)
    requires VersionsOk(w) && SerialOk(base, w, all)
    ensures SerialOk(base, Next(w, step), all)
  {
    match step
    case Get(id, clock, read) => GetSerial(base, all, w, id, clock, read);
    case Patch(id) => PatchSerial(base, all, w, id);
    case MarkOne(id, at) => MarkSerial(base, all, w, id, at);
    case Create(_, _) => OtherWriterSerial(base, all, w, step);
    case ChangeSpec(_, _) => OtherWriterSerial(base, all, w, step);
    case Delete(_) => OtherWriterSerial(base, all, w, step);
    case _ => QuietSerial(base, all, w, Next(w, step));
  }

  // ---------- invariant 3: at most three reads, exactly one effect ----------

  /** The effects a handler has had so far. */
  function EffectsBy(log: seq<Entry>, id: nat): seq<Entry>
    decreases |log|
  {
    if log == [] then []
    else
      var e := log[|log| - 1];
      EffectsBy(log[..|log| - 1], id) + (if e.Effect? && e.id == id then [e] else [])
  }

  function Gets(w: World, id: nat): nat {
    if id in w.gets then w.gets[id] else 0
  }

  ghost predicate AttemptOk(w: World, id: nat) {
    if id !in w.handlers then Gets(w, id) == 0 && EffectsBy(w.log, id) == []
    else match w.handlers[id]
      case Observing(_, _, _, attempt) => Gets(w, id) == attempt < MAX_ATTEMPTS && EffectsBy(w.log, id) == []
      case Patching(_, _, _, attempt, _, _) => Gets(w, id) == attempt + 1 <= MAX_ATTEMPTS && EffectsBy(w.log, id) == []
      case Done(Some(r), outcome) =>
        && Gets(w, id) <= MAX_ATTEMPTS && (outcome == Conflict ==> Gets(w, id) == MAX_ATTEMPTS)
        && if outcome == NilError then TookEffectOnce(w.log, id, r.0, r.1) else EffectsBy(w.log, id) == []
      case _ => true
  }

  ghost predicate TookEffectOnce(log: seq<Entry>, id: nat, device: string, obs: Observation) {
    var es := EffectsBy(log, id);
    && |es| == 1 && es[0].Effect? && es[0].device == device && es[0].key == obs.key
    && es[0].op.Observe? && es[0].op.obs == obs
  }

  ghost predicate AttemptsOk(w: World) {
    forall id: nat :: AttemptOk(w, id)
  }

  /** The handler a step belongs to; other writers' steps belong to none. */
  function Owner(step: Step): Option<nat> {
    match step
    case Create(_, _) => None
    case ChangeSpec(_, _) => None
    case Delete(_) => None
    case _ => Some(step.id)
  }

  lemma EffectsByAppend(log: seq<Entry>, e: Entry, id: nat)
    ensures EffectsBy(log + [e], id) == EffectsBy(log, id) + (if e.Effect? && e.id == id then [e] else [])
  {
    assert (log + [e])[..|log|] == log;
  }

  /** What `AttemptOk` looks at for `id` is the same in both worlds. */
  ghost predicate SameFor(w: World, w': World, id: nat) {
    && (id in w.handlers <==> id in w'.handlers) && (id in w.handlers ==> w.handlers[id] == w'.handlers[id])
    && Gets(w, id) == Gets(w', id)
    && EffectsBy(w.log, id) == EffectsBy(w'.log, id)
  }

  lemma CommitSameFor(w: World, own: nat, device: string, key: Key, op: Op, snap: Obj, h: Handler, id: nat)
    requires key in w.objs && own != id
    ensures SameFor(w, Become(Commit(w, own, device, key, op, snap), own, h), id)
  {
    EffectsByAppend(w.log, Effect(own, device, key, op, Patched), id);
  }

  lemma GetSameFor(w: World, own: nat, clock: Clock, read: Read, id: nat)
    requires own != id
    ensures SameFor(w, DoGet(w, own, clock, read), id)
  {
    hide ObservedStatus, StatusEqual, EffectsBy;
    var w' := DoGet(w, own, clock, read);
    if w'.log != w.log {
      EffectsByAppend(w.log, w'.log[|w.log|], id);
    }
  }

  lemma PatchSameFor(w: World, own: nat, id: nat)
    requires own != id
    ensures SameFor(w, DoPatch(w, own), id)
  {
    hide EventsOf, ApplyOp, EffectsBy;
    if DoPatch(w, own).log != w.log {
      var h := w.handlers[own];
      CommitSameFor(w, own, h.device, h.obs.key, Observe(h.obs, h.reportedAt, h.clock), h.snap,
          Done(Request(h), NilError), id);
    }
  }

  lemma MarkSameFor(w: World, own: nat, at: Time, id: nat)
    requires own != id
    ensures SameFor(w, DoMark(w, own, at), id)
  {
    hide ConnectionChanges, EventsOf, ApplyOp, EffectsBy;
    if DoMark(w, own, at).log != w.log {
      var h := w.handlers[own];
      CommitSameFor(w, own, h.device, h.todo[0].0, MarkDevice(h.connected, at), h.todo[0].1,
                    Marking(h.device, h.connected, h.todo[1..]), id);
    }
  }

  /** A step changes the log, the reads and the state of at most the handler it belongs to. */
  lemma OthersUntouched(w: World, step: Step, id: nat)
    requires Owner(step) != Some(id)
    ensures SameFor(w, Next(w, step), id)
  {
    hide EffectsBy, DoGet, DoPatch, DoMark;
    match step
    case Get(own, clock, read) => GetSameFor(w, own, clock, read, id);
    case Patch(own) => PatchSameFor(w, own, id);
    case MarkOne(own, at) => MarkSameFor(w, own, at, id);
    case Create(key, _) => EffectsByAppend(w.log, Created(key), id);
    case Delete(key) => EffectsByAppend(w.log, Deleted(key), id);
    case _ =>
  }

  lemma OwnGet(w: World, id: nat, clock: Clock, read: Read)
    requires AttemptOk(w, id)
    ensures AttemptOk(DoGet(w, id, clock, read), id)
  {
    hide ObservedStatus, StatusEqual, EffectsBy;
    var w' := DoGet(w, id, clock, read);
    if w'.log != w.log {
      EffectsByAppend(w.log, w'.log[|w.log|], id);
    }
  }

  lemma OwnPatch(w: World, id: nat)
    requires AttemptOk(w, id)
    ensures AttemptOk(DoPatch(w, id), id)
  {
    hide EventsOf, ApplyOp, EffectsBy;
    var w' := DoPatch(w, id);
    if w'.log != w.log {
      EffectsByAppend(w.log, w'.log[|w.log|], id);
    }
  }

  lemma OwnStep(w: World, step: Step)
    requires Owner(step).Some? && AttemptOk(w, step.id)
    ensures AttemptOk(Next(w, step), step.id)
  {
    hide ObservedStatus, StatusEqual, ConnectionChanges, EventsOf, ApplyOp, EffectsBy, DoGet, DoPatch;
    match step
    case Get(id, clock, read) => OwnGet(w, id, clock, read);
    case Patch(id) => OwnPatch(w, id);
    case _ =>
  }

  lemma NextAttempts(w: World, step: Step)
    requires AttemptsOk(w)
    ensures AttemptsOk(Next(w, step))
  {
    forall id: nat
      ensures AttemptOk(Next(w, step), id)
    {
      assert AttemptOk(w, id);
      if Owner(step) == Some(id) {
        OwnStep(w, step);
      } else {
        OthersUntouched(w, step, id);
      }
    }
  }

  // ---------- main results ----------

  /** A world in which no handler runs yet; its statuses, and the older objects caches may hold, are arbitrary. */
  ghost predicate Start(w: World) {
    && w.handlers == map[] && w.gets == map[] && w.log == [] && w.events == []
    && (forall k :: k in w.objs ==> w.objs[k].version <= w.revision)
    && (forall p :: p in w.past ==> SnapOk(w, p.0, p.1))
  }

  lemma {:induction false} RunInvariants(w: World, steps: seq<Step>)
    requires Start(w)
    ensures var w' := Run(w, steps); VersionsOk(w') && SerialOk(Statuses(w.objs), w', false) && AttemptsOk(w')
    decreases |steps|
  {
    hide Next, SerialOk, VersionsOk, AttemptsOk;
    if steps == [] {
      StartInvariants(w);
    } else {
      var n := |steps| - 1;
      RunInvariants(w, steps[..n]);
      var w1 := Run(w, steps[..n]);
      NextKeepsVersions(w1, steps[n]);
      NextSerial(Statuses(w.objs), false, w1, steps[n]);
      NextAttempts(w1, steps[n]);
    }
  }

  lemma StartInvariants(w: World)
    requires Start(w)
    ensures VersionsOk(w) && AttemptsOk(w) && SerialOk(Statuses(w.objs), w, false)
    ensures AllGenerationFree(w.objs) ==> SerialOk(Statuses(w.objs), w, true)
  {
  }

  /**
    From every store and in every interleaving, the stored statuses are those of the patches
    that went through, their transforms applied one after another in commit order, and the
    emitted events are exactly the events of those patches in that serial order.
   */
  lemma Serializable(w: World, steps: seq<Step>)
    requires Start(w)
    ensures var w' := Run(w, steps);
            && Statuses(w'.objs) == Replay(Statuses(w.objs), w'.log, false)
            && w'.events == ReplayEvents(Statuses(w.objs), w'.log, false)
  {
    RunInvariants(w, steps);
  }

  /**
    From statuses no foreign writer has put generations on, the observations that were found to
    change nothing in the current object can be replayed as well: their handlers have a place in
    the serial order. (With reads from the server those are all that returned nil without a patch.)
   */
  lemma {:induction false} SerializableWithNoOps(w: World, steps: seq<Step>)
    requires Start(w) && AllGenerationFree(w.objs)
    ensures var w' := Run(w, steps);
            && SerialOk(Statuses(w.objs), w', true)
            && Statuses(w'.objs) == Replay(Statuses(w.objs), w'.log, true)
            && w'.events == ReplayEvents(Statuses(w.objs), w'.log, true)
    decreases |steps|
  {
    hide Next, VersionsOk, AttemptsOk, Replay, ReplayEvents;
    if steps == [] {
      StartInvariants(w);
    } else {
      var n := |steps| - 1;
      SerializableWithNoOps(w, steps[..n]);
      RunInvariants(w, steps[..n]);
      NextSerial(Statuses(w.objs), true, Run(w, steps[..n]), steps[n]);
    }
  }

  /**
    In every interleaving, an observation handler reads at most three times; one that returned
    without error took effect exactly once, with its own observation on its own process: by a
    patch, or because it changes nothing in the object it read. One that returned an error, or has
    not returned yet, has had no effect, and one that returned a conflict read exactly three times.
   */
  lemma ExactlyOnce(w: World, steps: seq<Step>, id: nat)
    requires Start(w)
    requires id in Run(w, steps).handlers && Request(Run(w, steps).handlers[id]).Some?
    ensures var w' := Run(w, steps);
            var h := w'.handlers[id];
            && Gets(w', id) <= MAX_ATTEMPTS
            && (h.Done? && h.outcome == NilError ==>
                  TookEffectOnce(w'.log, id, h.request.value.0, h.request.value.1))
            && (!(h.Done? && h.outcome == NilError) ==> EffectsBy(w'.log, id) == [])
            && (h.Done? && h.outcome == Conflict ==> Gets(w', id) == MAX_ATTEMPTS)
  {
    RunInvariants(w, steps);
    assert AttemptOk(Run(w, steps), id);
  }

  // ---------- a device writes only to its own processes ----------

  /** What a handler is about to write to was its device's when it was read. */
  predicate OwnSnaps(h: Handler) {
    match h
    case Patching(device, _, _, _, _, snap) => snap.spec.deviceRef.name == device
    case Marking(device, _, todo) => forall i :: 0 <= i < |todo| ==> todo[i].1.spec.deviceRef.name == device
    case _ => true
  }

  ghost predicate AllOwnSnaps(w: World) {
    forall id :: id in w.handlers ==> OwnSnaps(w.handlers[id])
  }

  lemma NextOwnSnaps(w: World, step: Step)
    requires AllOwnSnaps(w)
    ensures AllOwnSnaps(Next(w, step))
  {
    hide Next, OwnSnaps, EffectsBy, Gets;
    forall id | id in Next(w, step).handlers ensures OwnSnaps(Next(w, step).handlers[id]) {
      if Owner(step) == Some(id) {
        OwnStepSnaps(w, step);
      } else {
        OthersUntouched(w, step, id);
      }
    }
  }

  lemma OwnStepSnaps(w: World, step: Step)
    requires Owner(step).Some? && (step.id in w.handlers ==> OwnSnaps(w.handlers[step.id]))
    ensures step.id in Next(w, step).handlers ==> OwnSnaps(Next(w, step).handlers[step.id])
  {
    hide ObservedStatus, StatusEqual, ConnectionChanges, Commit, Held;
  }

  lemma {:induction false} RunOwnSnaps(w: World, steps: seq<Step>)
    requires Start(w)
    ensures AllOwnSnaps(Run(w, steps))
    decreases |steps|
  {
    hide Next, AllOwnSnaps;
    if steps == [] {
      assert AllOwnSnaps(w) by { StartOwnSnaps(w); }
    } else {
      RunOwnSnaps(w, steps[..|steps| - 1]);
      NextOwnSnaps(Run(w, steps[..|steps| - 1]), steps[|steps| - 1]);
    }
  }

  lemma StartOwnSnaps(w: World)
    requires Start(w)
    ensures AllOwnSnaps(w)
  {
  }

  /** The device a handler works for, while it does. */
  function DeviceOf(h: Handler): Option<string> {
    if h.Done? then None else Some(h.device)
  }

  /**
    At any point of any run, a handler's step changes at most one object, only one that belongs to
    the handler's device at that moment, and only its status.
   */
  lemma OnlyOwnProcesses(start: World, steps: seq<Step>, step: Step, key: Key)
    requires Start(start) && Owner(step).Some?
    requires var w := Run(start, steps); key in w.objs
    ensures var w := Run(start, steps);
            var w', id := Next(w, step), step.id;
            && key in w'.objs && w'.objs[key].spec == w.objs[key].spec
            && (w'.objs[key] != w.objs[key] ==>
                  id in w.handlers && DeviceOf(w.handlers[id]) == Some(w.objs[key].spec.deviceRef.name))
  {
    hide Run, ObservedStatus, StatusEqual, ConnectionChanges, EventsOf, ApplyOp;
    RunInvariants(start, steps);
    RunOwnSnaps(start, steps);
    var w := Run(start, steps);
    if step.id in w.handlers {
      assert HandlerOk(w, w.handlers[step.id]) && OwnSnaps(w.handlers[step.id]);
    }
  }

  lemma NextStale(w: World, step: Step)
    requires step.Get? ==> step.read == Fresh
    ensures var log := Next(w, step).log;
            log == w.log || (|log| == |w.log| + 1 && log[..|w.log|] == w.log
                             && (log[|w.log|].Effect? ==> !log[|w.log|].mode.StaleNoOp?))
  {
    hide ObservedStatus, StatusEqual, ConnectionChanges, EventsOf, ApplyOp;
  }

  /** With reads from the server, what a nil return found to change nothing was the current object. */
  lemma {:induction false} FreshReadsAreCurrent(w: World, steps: seq<Step>, i: nat)
    requires Start(w) && forall n :: 0 <= n < |steps| && steps[n].Get? ==> steps[n].read == Fresh
    requires i < |Run(w, steps).log| && Run(w, steps).log[i].Effect?
    ensures !Run(w, steps).log[i].mode.StaleNoOp?
    decreases |steps|
  {
    hide Next;
    if steps != [] {
      var n := |steps| - 1;
      var before := Run(w, steps[..n]);
      NextStale(before, steps[n]);
      if i < |before.log| {
        assert before.log[i] == Run(w, steps).log[..|before.log|][i];
        FreshReadsAreCurrent(w, steps[..n], i);
      }
    }
  }

  /**
    At any point of any run, a conflicting patch changes no object, logs nothing and emits no
    event; its handler gives up exactly when it has read three times, and reads again otherwise.
   */
  lemma ConflictIsHarmless(start: World, steps: seq<Step>, id: nat)
    requires Start(start)
    requires var w := Run(start, steps);
             && id in w.handlers && w.handlers[id].Patching? && w.handlers[id].obs.key in w.objs
             && w.objs[w.handlers[id].obs.key].version != w.handlers[id].snap.version
    ensures var w := Run(start, steps);
            var w', h := Next(w, Patch(id)), w.handlers[id];
            && w'.(handlers := w.handlers) == w
            && w'.handlers[id] == (if Gets(w, id) == MAX_ATTEMPTS then Done(Some((h.device, h.obs)), Conflict)
                                   else Observing(h.device, h.obs, h.reportedAt, Gets(w, id)))
  {
    hide Run;
    RunInvariants(start, steps);
    assert AttemptOk(Run(start, steps), id);
  }

  lemma NextLog(w: World, step: Step)
    ensures w.log <= Next(w, step).log
  {
    hide ObservedStatus, StatusEqual, ConnectionChanges, EventsOf, ApplyOp;
  }

  /** Effects are never withdrawn or reordered: later logs extend earlier ones. */
  lemma {:induction false} LogOnlyGrows(w: World, steps: seq<Step>, more: seq<Step>)
    ensures Run(w, steps).log <= Run(w, steps + more).log
    decreases |more|
  {
    hide Next;
    var all := steps + more;
    if more == [] {
      assert all == steps;
    } else {
      var n := |more| - 1;
      LogOnlyGrows(w, steps, more[..n]);
      assert all[..|all| - 1] == steps + more[..n];
      NextLog(Run(w, steps + more[..n]), more[n]);
    }
  }
}
