/**
  Controller, gateway and agents together: specs are applied and removed, agents poll through
  their cache, reconcile and report, and the gateway applies reports that arrive late, several
  times or never. What the controller counts as updated was really served.
 */
module EndToEnd {
  import opened Prelude
  import opened ApiTypes
  import opened StatusTransform
  import StatusLaws
  import Sorting
  import Desired
  import AgentPass
  import AgentLaws
  import Controller
  import ControllerLaws

  datatype Stored = Stored(uid: string, generation: int, spec: Spec, status: Status)

  /** One device's agent. */
  datatype Side = Side(cache: Desired.Cache, state: AgentLaws.AgentState)

  /** An observation on its way to the gateway. */
  datatype Sent = Sent(device: string, obs: Observation)

  /** The gateway has put this spec of this process into a response to this device. */
  datatype Served = Served(device: string, key: Key, spec: Spec)

  datatype World = World(procs: map<Key, Stored>, agents: map<string, Side>, sent: set<Sent>, served: set<Served>)

  const START: World := World(map[], map[], {}, {})

  datatype Step =
    | Apply(key: Key, uid: string, generation: int, spec: Spec)
    | Remove(key: Key)
    | Poll(device: string, list: seq<Desired.Proc>, net: Desired.Net, answers: seq<AgentPass.Answers>)
    | Restart(device: string)
    | Deliver(sent: Sent, reportedAt: Option<string>, clock: Clock)
    | Mark(key: Key, connected: bool, at: Time)

  /** The functions the model takes as given: spec hash, text digest, unit base names. */
  datatype Given = Given(hash: Spec -> string, digest: string -> string, base: Key -> string)

  ghost function ProcsOf(w: World): map<Key, Desired.Proc> {
    map k | k in w.procs :: Desired.Proc(w.procs[k].uid, k, w.procs[k].generation, w.procs[k].spec)
  }

  function AgentOf(w: World, device: string): Side {
    if device in w.agents then w.agents[device] else Side(Desired.NO_CACHE, AgentLaws.AgentState(map[], map[]))
  }

  function ServedBy(device: string, reply: Desired.Reply): set<Served> {
    if reply.NotModified? then {}
    else set i | 0 <= i < |reply.items| :: Served(device, reply.items[i].key, reply.items[i].spec)
  }

  function ReplyTo(g: Given, w: World, device: string, list: seq<Desired.Proc>): Desired.Reply {
    Desired.Answer(g.hash, g.digest, list, device, AgentOf(w, device).cache.lastETag)
  }

  /** A poll: the gateway answers, the agent updates its cache and, when it acts, reconciles and reports. */
  ghost function Polled(g: Given, w: World, device: string, list: seq<Desired.Proc>, net: Desired.Net,
                        answers: seq<AgentPass.Answers>): World {
    var side, reply := AgentOf(w, device), ReplyTo(g, w, device, list);
    var (cache, acted) := Desired.Polled(side.cache, Desired.Delivered(reply, net));
    var w' := w.(served := w.served + ServedBy(device, reply));
    if acted.None? || |answers| != |acted.value| then w'.(agents := w.agents[device := Side(cache, side.state)])
    else
      var round := AgentLaws.Round(acted.value, answers);
      var obs := AgentLaws.Items(g.base, side.state, round).obs;
      w'.(agents := w.agents[device := Side(cache, AgentLaws.Pass(g.base, side.state, round))],
          sent := w.sent + set i | 0 <= i < |obs| :: Sent(device, obs[i]))
  }

  /** The gateway applies an observation to the process it names, if that is the device's. */
  function Delivered(w: World, m: Sent, reportedAt: Option<string>, clock: Clock): World {
    var k := m.obs.key;
    if k !in w.procs || w.procs[k].spec.deviceRef.name != m.device then w
    else
      var after := ObservedStatus(w.procs[k].status, m.obs, reportedAt, clock);
      if after.None? || StatusEqual(w.procs[k].status, after.value) then w
      else w.(procs := w.procs[k := w.procs[k].(status := after.value)])
  }

  ghost function Next(g: Given, w: World, step: Step): World {
    match step
    case Apply(k, uid, generation, spec) =>
      w.(procs := w.procs[k := Stored(uid, generation, spec, if k in w.procs then w.procs[k].status else EMPTY_STATUS)])
    case Remove(k) => w.(procs := w.procs - {k})
    case Poll(device, list, net, answers) => if Desired.Lists(ProcsOf(w), list)
        then Polled(g, w, device, list, net, answers) else w
    case Restart(device) => w.(agents := w.agents[device := AgentOf(w, device).(cache := Desired.NO_CACHE)])
    case Deliver(m, reportedAt, clock) => if m in w.sent then Delivered(w, m, reportedAt, clock) else w
    case Mark(k, connected, at) =>
      if k !in w.procs then w
      else w.(procs := w.procs[k := w.procs[k].(status := MarkedStatus(w.procs[k].status, connected, at))])
  }

  ghost function Run(g: Given, steps: seq<Step>): World
    decreases |steps|
  {
    if steps == [] then START else Next(g, Run(g, steps[..|steps| - 1]), steps[|steps| - 1])
  }

  // ---------- the invariant ----------

  /** The hash is that of a spec served under this key. */
  ghost predicate Known(g: Given, w: World, key: Key, hash: string) {
    exists device, spec :: Served(device, key, spec) in w.served && hash == g.hash(spec)
  }

  ghost predicate CacheServed(g: Given, w: World, device: string, items: seq<DesiredItem>) {
    forall i :: 0 <= i < |items| ==>
      Served(device, items[i].key, items[i].spec) in w.served && items[i].specHash == g.hash(items[i].spec)
  }

  ghost predicate Inv(g: Given, w: World) {
    && (forall s :: s in w.served ==> s.spec.deviceRef.name == s.device)
    && (forall d :: d in w.agents && w.agents[d].cache.lastDesired.Some? ==>
        CacheServed(g, w, d, w.agents[d].cache.lastDesired.value))
    && (forall m :: m in w.sent ==> Known(g, w, m.obs.key, m.obs.observedSpecHash))
    && (forall k :: k in w.procs ==>
          w.procs[k].status.observedSpecHash == "" || Known(g, w, k, w.procs[k].status.observedSpecHash))
  }

  /** What the gateway lists comes from the store and belongs to the device. */
  lemma ItemFromStore(g: Given, w: World, device: string, list: seq<Desired.Proc>, i: nat)
    requires Desired.Lists(ProcsOf(w), list) && i < |Desired.ItemsFor(g.hash, list, device)|
    ensures var item := Desired.ItemsFor(g.hash, list, device)[i];
            && item.key in w.procs && w.procs[item.key].spec == item.spec
            && item.spec.deviceRef.name == device && item.specHash == g.hash(item.spec)
  {
    var of, items := Desired.OfDevice(g.hash, list, device), Desired.ItemsFor(g.hash, list, device);
    Desired.OfDeviceFacts(g.hash, list, device);
    Sorting.SortFacts(of, Desired.SortKey);
    assert items[i] in multiset(items);
    assert items[i] in of;
    var j :| 0 <= j < |list| && list[j].spec.deviceRef.name == device && items[i] == Desired.ItemOf(g.hash, list[j]);
    assert list[j] in list;
  }

  /** An observation leaves the observed hash alone or sets it to its own. */
  lemma HashAfter(s: Status, obs: Observation, reportedAt: Option<string>, clock: Clock)
    requires !obs.startTime.Malformed?
    ensures var h := ObservedStatus(s, obs, reportedAt, clock).value.observedSpecHash;
        h == s.observedSpecHash || h == obs.observedSpecHash
  {
    hide ConditionCalls;
  }

  lemma ReplyServes(g: Given, w: World, device: string, list: seq<Desired.Proc>)
    requires Desired.Lists(ProcsOf(w), list)
    ensures var reply := ReplyTo(g, w, device, list);
            && (forall s :: s in ServedBy(device, reply) ==>
                  && s.device == device && s.spec.deviceRef.name == device
                  && s.key in w.procs && w.procs[s.key].spec == s.spec)
            && (reply.Fresh? ==> forall i :: 0 <= i < |reply.items| ==>
                  && Served(device, reply.items[i].key, reply.items[i].spec) in ServedBy(device, reply)
                  && reply.items[i].specHash == g.hash(reply.items[i].spec))
  {
    hide Desired.ItemsFor, Desired.ETag, Desired.Lists, ProcsOf;
    var reply := ReplyTo(g, w, device, list);
    if reply.Fresh? {
      forall i | 0 <= i < |reply.items|
        ensures var item := reply.items[i];
                && item.key in w.procs && w.procs[item.key].spec == item.spec
                && item.spec.deviceRef.name == device && item.specHash == g.hash(item.spec)
      {
        ItemFromStore(g, w, device, list, i);
      }
    }
  }

  /** Served specs stay served, so what is known stays known. */
  lemma KnownGrows(g: Given, w: World, w': World, key: Key, hash: string)
    requires w.served <= w'.served && Known(g, w, key, hash)
    ensures Known(g, w', key, hash)
  {
    var device, spec :| Served(device, key, spec) in w.served && hash == g.hash(spec);
    assert Served(device, key, spec) in w'.served;
  }

  lemma PollKeepsInv(g: Given, w: World, device: string, list: seq<Desired.Proc>, net: Desired.Net,
                     answers: seq<AgentPass.Answers>)
    requires Inv(g, w) && Desired.Lists(ProcsOf(w), list)
    ensures Inv(g, Polled(g, w, device, list, net, answers))
  {
    hide ReplyTo, ServedBy, AgentLaws.Items, AgentLaws.Pass, Known;
    var w' := Polled(g, w, device, list, net, answers);
    var side, reply := AgentOf(w, device), ReplyTo(g, w, device, list);
    ReplyServes(g, w, device, list);
    var (cache, acted) := Desired.Polled(side.cache, Desired.Delivered(reply, net));
    assert cache.lastDesired.Some? ==> CacheServed(g, w', device, cache.lastDesired.value);
    assert acted.Some? ==> CacheServed(g, w', device, acted.value);
    forall m | m in w'.sent ensures Known(g, w', m.obs.key, m.obs.observedSpecHash) {
      if m in w.sent {
        KnownGrows(g, w, w', m.obs.key, m.obs.observedSpecHash);
      } else {
        ReportKnown(g, w', device, side.state, AgentLaws.Round(acted.value, answers), m);
      }
    }
    forall k | k in w'.procs
      ensures w'.procs[k].status.observedSpecHash == "" || Known(g, w', k, w'.procs[k].status.observedSpecHash)
    {
      if w.procs[k].status.observedSpecHash != "" {
        KnownGrows(g, w, w', k, w.procs[k].status.observedSpecHash);
      }
    }
  }

  /** A pass over served items reports only hashes of served specs. */
  lemma ReportKnown(g: Given, w: World, device: string, s: AgentLaws.AgentState, r: AgentLaws.Round, m: Sent)
    requires AgentLaws.Sized(r) && CacheServed(g, w, device, r.items)
    requires var obs := AgentLaws.Items(g.base, s, r).obs; exists i :: 0 <= i < |obs| && m == Sent(device, obs[i])
    ensures Known(g, w, m.obs.key, m.obs.observedSpecHash)
  {
    hide AgentLaws.Items, StatusLaws.AgentMade;
    AgentLaws.PassObserves(g.base, s, r);
    var obs := AgentLaws.Items(g.base, s, r).obs;
    var i :| 0 <= i < |obs| && m == Sent(device, obs[i]);
    assert Served(device, r.items[i].key, r.items[i].spec) in w.served;
  }

  lemma DeliverKeepsInv(g: Given, w: World, m: Sent, reportedAt: Option<string>, clock: Clock)
    requires Inv(g, w) && m in w.sent
    ensures Inv(g, Delivered(w, m, reportedAt, clock))
  {
    hide ObservedStatus, StatusEqual, MarkedStatus;
    var k := m.obs.key;
    if k in w.procs && !m.obs.startTime.Malformed? {
      HashAfter(w.procs[k].status, m.obs, reportedAt, clock);
    }
    MalformedRefused(EMPTY_STATUS, m.obs, reportedAt, clock);
    if k in w.procs {
      MalformedRefused(w.procs[k].status, m.obs, reportedAt, clock);
    }
    SameServed(g, w, Delivered(w, m, reportedAt, clock));
  }

  lemma MalformedRefused(s: Status, obs: Observation, reportedAt: Option<string>, clock: Clock)
    ensures ObservedStatus(s, obs, reportedAt, clock).None? <==> obs.startTime.Malformed?
  {
    hide ConditionCalls, StatusFrom;
  }

  lemma SameServed(g: Given, w: World, w': World)
    requires w'.served == w.served
    ensures forall key, hash :: Known(g, w, key, hash) ==> Known(g, w', key, hash)
    ensures forall device, items :: CacheServed(g, w, device, items) ==> CacheServed(g, w', device, items)
  {
  }

  lemma StepKeepsInv(g: Given, w: World, step: Step)
    requires Inv(g, w)
    ensures Inv(g, Next(g, w, step))
  {
    match step
    case Poll(device, list, net, answers) =>
      hide Inv, Polled;
      if Desired.Lists(ProcsOf(w), list) {
        PollKeepsInv(g, w, device, list, net, answers);
      }
    case Deliver(m, reportedAt, clock) =>
      hide Inv, Delivered;
      DeliverHelper(g, w, m, reportedAt, clock);
    case _ =>
      hide Known, CacheServed, Polled, Delivered;
      SameServed(g, w, Next(g, w, step));
  }

  lemma DeliverHelper(g: Given, w: World, m: Sent, reportedAt: Option<string>, clock: Clock)
    requires Inv(g, w)
    ensures m in w.sent ==> Inv(g, Delivered(w, m, reportedAt, clock))
  {
    hide Inv, Delivered;
    if m in w.sent {
      assert Inv(g, w) && m in w.sent;
      DeliverKeepsInv(g, w, m, reportedAt, clock);
    }
  }

  lemma {:induction false} RunKeepsInv(g: Given, steps: seq<Step>)
    ensures Inv(g, Run(g, steps))
    decreases |steps|
  {
    hide Next;
    if steps != [] {
      RunKeepsInv(g, steps[..|steps| - 1]);
      StepKeepsInv(g, Run(g, steps[..|steps| - 1]), steps[|steps| - 1]);
    }
  }

  // ---------- served at an earlier step ----------

  /** In this step the gateway answers the device with this spec, which the process has at that moment. */
  ghost predicate ServesAt(g: Given, w: World, step: Step, s: Served) {
    && step.Poll? && step.device == s.device && Desired.Lists(ProcsOf(w), step.list)
    && s in ServedBy(s.device, ReplyTo(g, w, s.device, step.list))
    && s.key in w.procs && w.procs[s.key].spec == s.spec
  }

  lemma {:induction false} ServedEarlier(g: Given, steps: seq<Step>, s: Served)
    requires s in Run(g, steps).served
    ensures exists m :: 0 <= m < |steps| && ServesAt(g, Run(g, steps[..m]), steps[m], s)
    decreases |steps|
  {
    hide ReplyTo, ServedBy, AgentLaws.Items, AgentLaws.Pass, Desired.Lists, ProcsOf;
    if steps != [] {
      var n := |steps| - 1;
      var w := Run(g, steps[..n]);
      if s in w.served {
        ServedEarlier(g, steps[..n], s);
        var m :| 0 <= m < n && ServesAt(g, Run(g, steps[..n][..m]), steps[..n][m], s);
        assert steps[..n][..m] == steps[..m];
        assert ServesAt(g, Run(g, steps[..m]), steps[m], s);
      } else {
        var step := steps[n];
        assert step.Poll? && Desired.Lists(ProcsOf(w), step.list)
            && s in ServedBy(step.device, ReplyTo(g, w, step.device, step.list));
        ReplyServes(g, w, step.device, step.list);
        assert ServesAt(g, Run(g, steps[..n]), steps[n], s);
      }
    }
  }

  /**
    In every run, a device's process that the controller counts as updated carries the hash of
    exactly the desired spec, and at an earlier step the gateway served that spec, under that
    namespace and name, to that device.
   */
  lemma UpdatedWasServed(g: Given, steps: seq<Step>, env: Controller.Env, dep: Controller.Deployment,
                         devices: seq<Controller.Device>, i: nat, p: Controller.Process)
    requires Desired.Injective(g.hash) && env.hash == g.hash
    requires ControllerLaws.DistinctNames(env, devices) && i < |devices|
    requires var k := Controller.KeyFor(env, dep, devices[i]);
             && k in Run(g, steps).procs && p.status == Run(g, steps).procs[k].status
             && Controller.IsUpdated(Controller.DesiredHashes(env, dep, devices), k, p)
    ensures p.status.observedSpecHash == g.hash(Controller.DesiredSpec(dep, devices[i].name))
    ensures var s := Served(devices[i].name, Controller.KeyFor(env, dep, devices[i]),
        Controller.DesiredSpec(dep, devices[i].name));
            exists m :: 0 <= m < |steps| && ServesAt(g, Run(g, steps[..m]), steps[m], s)
  {
    hide Run, ServesAt, Controller.DesiredHashes;
    var k, spec := Controller.KeyFor(env, dep, devices[i]), Controller.DesiredSpec(dep, devices[i].name);
    RunKeepsInv(g, steps);
    ControllerLaws.HashOfDevice(env, dep, devices, i);
    var device, was :| Served(device, k, was) in Run(g, steps).served && p.status.observedSpecHash == g.hash(was);
    assert was == spec;
    ServedEarlier(g, steps, Served(device, k, was));
  }

  /**
    The same for whatever the controller counts: each process in its updated set, over any store
    whose statuses are the run's, is a device's, and its desired spec was served to that device.
   */
  lemma CountedWasServed(g: Given, steps: seq<Step>, env: Controller.Env, dep: Controller.Deployment,
                         devices: seq<Controller.Device>, store: Controller.Store, list: seq<Key>, k: Key)
    requires Desired.Injective(g.hash) && env.hash == g.hash && ControllerLaws.DistinctNames(env, devices)
    requires Controller.ListsLabelled(store, dep, list)
    requires forall x :: x in store ==> x in Run(g, steps).procs && store[x].status == Run(g, steps).procs[x].status
    requires k in ControllerLaws.UpdatedSet(Controller.DesiredHashes(env, dep, devices), store, list)
    ensures exists i, m ::
              && 0 <= i < |devices| && k == Controller.KeyFor(env, dep, devices[i])
              && 0 <= m < |steps|
              && ServesAt(g, Run(g, steps[..m]), steps[m],
                  Served(devices[i].name, k, Controller.DesiredSpec(dep, devices[i].name)))
  {
    hide Run, ServesAt, Controller.DesiredHashes, Controller.ListsLabelled, Controller.IsUpdated,
        Controller.DesiredSpec;
    ControllerLaws.CountedIsDevice(env, store, dep, devices, list, k);
    var i :| 0 <= i < |devices| && k == Controller.KeyFor(env, dep, devices[i]);
    UpdatedWasServed(g, steps, env, dep, devices, i, store[k]);
  }

  // ---------- statuses of the whole system ----------

  /** Observations under way come from a pass of an agent, and every status is coherent. */
  ghost predicate Sound(w: World) {
    && (forall m :: m in w.sent ==> StatusLaws.AgentMade(m.obs))
    && (forall k :: k in w.procs ==> StatusLaws.Coherent(w.procs[k].status))
  }

  lemma StepKeepsSound(g: Given, w: World, step: Step)
    requires Sound(w)
    ensures Sound(Next(g, w, step))
  {
    hide StatusLaws.AgentMade, StatusLaws.Coherent;
    match step
    case Apply(k, uid, generation, spec) =>
      FreshIsCoherent();
    case Remove(k) =>
    case Poll(device, list, net, answers) =>
      hide Polled;
      PollKeepsSound(g, w, device, list, net, answers);
    case Restart(device) =>
    case Deliver(m, reportedAt, clock) =>
      if m in w.sent && m.obs.key in w.procs {
        hide ObservedStatus, StatusEqual;
        MalformedRefused(w.procs[m.obs.key].status, m.obs, reportedAt, clock);
        StatusLaws.ObservationCoherent(w.procs[m.obs.key].status, m.obs, reportedAt, clock);
      }
    case Mark(k, connected, at) =>
      if k in w.procs {
        hide MarkedStatus;
        StatusLaws.MarkingCoherent(w.procs[k].status, connected, at);
      }
  }

  lemma PollKeepsSound(g: Given, w: World, device: string, list: seq<Desired.Proc>, net: Desired.Net,
                       answers: seq<AgentPass.Answers>)
    requires Sound(w)
    ensures Sound(Polled(g, w, device, list, net, answers))
  {
    hide StatusLaws.AgentMade, StatusLaws.Coherent, AgentLaws.Items, AgentLaws.Pass, ReplyTo, ServedBy;
    var side := AgentOf(w, device);
    var (_, acted) := Desired.Polled(side.cache, Desired.Delivered(ReplyTo(g, w, device, list), net));
    if acted.Some? && |answers| == |acted.value| {
      AgentLaws.PassObserves(g.base, side.state, AgentLaws.Round(acted.value, answers));
    }
  }

  lemma FreshIsCoherent()
    ensures StatusLaws.Coherent(EMPTY_STATUS)
  {
  }

  /**
    In every run, the phase of every process is Running exactly when ProcessStarted is True, when
    Healthy is True and when the PID is positive, and a start time means Running.
   */
  lemma {:induction false} StatusesCoherent(g: Given, steps: seq<Step>)
    ensures var w := Run(g, steps);
            Sound(w) && forall k :: k in w.procs ==> StatusLaws.Coherent(w.procs[k].status)
    decreases |steps|
  {
    hide Next, StatusLaws.Coherent, StatusLaws.AgentMade;
    if steps != [] {
      StatusesCoherent(g, steps[..|steps| - 1]);
      StepKeepsSound(g, Run(g, steps[..|steps| - 1]), steps[|steps| - 1]);
    }
  }
}
