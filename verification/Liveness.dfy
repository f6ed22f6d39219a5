/**
  The gateway's liveness tracker (gateway/server.go): the lastSeen, lastReport and
  heartbeatHints maps, the handlers that update them, and the sweep that marks the processes of
  stale devices disconnected. Every handler reads the clock once and is atomic; `api` says which
  status patches the API server accepts.
 */
module Liveness {
  import opened Prelude
  import opened Conditions
  import opened ApiTypes
  import opened StatusTransform
  import StatusLaws

  const DEFAULT_HEARTBEAT: int := 15

  datatype Config = Config(defaultInterval: Time, multiplier: int)

  datatype Tracker = Tracker(lastSeen: map<string, Time>, lastReport: map<string, Time>, hints: map<string, int>)

  datatype Proc = Proc(device: string, status: Status)

  datatype State = State(tracker: Tracker, procs: map<Key, Proc>)

  type Api = Key -> bool

  // ---------- the tracker ----------

  /** normalizeHeartbeat: the hint, else the default interval in whole seconds, else 15. */
  function Normalize(c: Config, hb: int): (r: int)
    ensures r > 0 && (hb > 0 ==> r == hb)
    ensures hb <= 0 && c.defaultInterval >= SECOND ==> r * SECOND <= c.defaultInterval < (r + 1) * SECOND
    ensures hb <= 0 && c.defaultInterval < SECOND ==> r == 15
  {
    if hb > 0 then hb
    else if c.defaultInterval / SECOND > 0 then c.defaultInterval / SECOND
    else DEFAULT_HEARTBEAT
  }

  function Hint(t: Tracker, d: string): int {
    if d in t.hints then t.hints[d] else 0
  }

  function StaleAfter(c: Config, t: Tracker, d: string): Time {
    Normalize(c, Hint(t, d)) * c.multiplier * SECOND
  }

  /** The device was not heard of within its allowance. */
  predicate Silent(c: Config, t: Tracker, d: string, now: Time) {
    d in t.lastSeen && now - t.lastSeen[d] > StaleAfter(c, t, d)
  }

  /** A report or a connect. */
  function Contacted(c: Config, t: Tracker, d: string, now: Time): Tracker {
    Tracker(t.lastSeen[d := now], t.lastReport[d := now], t.hints[d := Normalize(c, Hint(t, d))])
  }

  /** A desired poll: it settles the hint, and counts as a heartbeat only after a recent report. */
  function PolledBy(c: Config, t: Tracker, d: string, now: Time): Tracker {
    var t' := t.(hints := t.hints[d := if Hint(t, d) > 0 then Hint(t, d) else DEFAULT_HEARTBEAT]);
    if d in t'.lastReport && now - t'.lastReport[d] <= StaleAfter(c, t', d)
    then t'.(lastSeen := t'.lastSeen[d := now])
    else t'
  }

  // ---------- marking processes ----------

  function Goal(connected: bool): Condition {
    if connected then CONNECTED else DISCONNECTED
  }

  /** The keys of the device's processes, as the API server lists them. */
  ghost predicate Lists(procs: map<Key, Proc>, d: string, list: seq<Key>) {
    && (forall i, j :: 0 <= i < j < |list| ==> list[i] != list[j])
    && (forall k :: k in list <==> k in procs && procs[k].device == d)
  }

  /** markDeviceConnected or markDeviceDisconnected along the list, up to the first refused patch. */
  function MarkAlong(procs: map<Key, Proc>, list: seq<Key>, connected: bool, at: Time,
                     api: Api): (r: (map<Key, Proc>, bool))
    requires forall i :: 0 <= i < |list| ==> list[i] in procs
    ensures r.0.Keys == procs.Keys
    decreases |list|
  {
    if list == [] then (procs, true)
    else
      var n := |list| - 1;
      var (procs', ok) := MarkAlong(procs, list[..n], connected, at, api);
      if !ok then (procs', false)
      else
        var p := procs'[list[n]];
        if !ConnectionChanges(p.status, Goal(connected)) then (procs', true)
        else if !api(list[n]) then (procs', false)
        else (procs'[list[n] := p.(status := MarkedStatus(p.status, connected, at))], true)
  }

  /** The process' status after marking, whatever the API server refuses elsewhere. */
  predicate MarkedOrKept(was: Proc, now: Proc, connected: bool, at: Time) {
    now == was || now == was.(status := MarkedStatus(was.status, connected, at))
  }

  /** Only listed processes change, and only by the mark. */
  lemma {:induction false} MarkAlongTouches(procs: map<Key, Proc>, list: seq<Key>, connected: bool, at: Time,
                                            api: Api, k: Key)
    requires forall i :: 0 <= i < |list| ==> list[i] in procs
    requires forall i, j :: 0 <= i < j < |list| ==> list[i] != list[j]
    requires k in procs
    ensures var (procs', _) := MarkAlong(procs, list, connected, at, api);
            && (k !in list ==> procs'[k] == procs[k])
            && MarkedOrKept(procs[k], procs'[k], connected, at)
    decreases |list|
  {
    hide MarkedStatus, ConnectionChanges;
    if list != [] {
      var n := |list| - 1;
      MarkAlongTouches(procs, list[..n], connected, at, api, k);
      if list[n] == k {
        assert k !in list[..n];
      }
    }
  }

  /** When no patch is refused the marking succeeds, and then every listed process carries the mark. */
  lemma {:induction false} MarkAlongMarks(procs: map<Key, Proc>, list: seq<Key>, connected: bool, at: Time, api: Api)
    requires forall i :: 0 <= i < |list| ==> list[i] in procs
    requires forall i, j :: 0 <= i < j < |list| ==> list[i] != list[j]
    ensures var (procs', ok) := MarkAlong(procs, list, connected, at, api);
            && ((forall i :: 0 <= i < |list| ==> api(list[i])) ==> ok)
            && (ok ==> forall i :: 0 <= i < |list| ==>
                  procs'[list[i]] == procs[list[i]].(status := MarkedStatus(procs[list[i]].status, connected, at)))
    decreases |list|
  {
    hide MarkedStatus, ConnectionChanges;
    if list != [] {
      var n := |list| - 1;
      MarkAlongMarks(procs, list[..n], connected, at, api);
      MarkAlongTouches(procs, list[..n], connected, at, api, list[n]);
      assert list[n] !in list[..n];
      MarkUnneeded(procs[list[n]].status, connected, at);
    }
  }

  lemma MarkUnneeded(s: Status, connected: bool, at: Time)
    ensures !ConnectionChanges(s, Goal(connected)) ==> MarkedStatus(s, connected, at) == s
  {
  }

  /** The patch of the `i`-th listed process is needed and refused. */
  predicate Refused(procs: map<Key, Proc>, list: seq<Key>, i: nat, connected: bool, api: Api)
    requires i < |list| && list[i] in procs
  {
    ConnectionChanges(procs[list[i]].status, Goal(connected)) && !api(list[i])
  }

  /** The marking does not get past position `j`. */
  ghost predicate Stopped(procs: map<Key, Proc>, list: seq<Key>, j: nat, connected: bool, api: Api)
    requires forall i :: 0 <= i < |list| ==> list[i] in procs
  {
    exists i: nat :: i <= j && i < |list| && Refused(procs, list, i, connected, api)
  }

  /**
    A listed process keeps its status exactly when a patch up to its own is needed and refused,
    and carries the mark otherwise.
   */
  lemma {:induction false} MarkAlongExact(procs: map<Key, Proc>, list: seq<Key>, connected: bool, at: Time, api: Api,
                                          j: nat)
    requires forall i :: 0 <= i < |list| ==> list[i] in procs
    requires forall i, j :: 0 <= i < j < |list| ==> list[i] != list[j]
    requires j < |list|
    ensures var (procs', ok) := MarkAlong(procs, list, connected, at, api);
            && (ok <==> !Stopped(procs, list, |list| - 1, connected, api))
            && procs'[list[j]] == if Stopped(procs, list, j, connected, api) then procs[list[j]]
                                  else procs[list[j]].(status := MarkedStatus(procs[list[j]].status, connected, at))
    decreases |list|
  {
    hide MarkedStatus, ConnectionChanges, Stopped, Refused;
    var n := |list| - 1;
    var init := list[..n];
    StoppedOneMore(procs, list, j, connected, api);
    RefusedIs(procs, list, n, connected, api);
    MarkAlongTouches(procs, init, connected, at, api, list[n]);
    MarkUnneeded(procs[list[n]].status, connected, at);
    assert list[n] !in init;
    if n > 0 {
      MarkAlongExact(procs, init, connected, at, api, if j < n then j else 0);
    }
  }

  lemma RefusedIs(procs: map<Key, Proc>, list: seq<Key>, i: nat, connected: bool, api: Api)
    requires i < |list| && list[i] in procs
    ensures Refused(procs, list, i, connected, api) <==>
            ConnectionChanges(procs[list[i]].status, Goal(connected)) && !api(list[i])
  {
  }

  lemma StoppedOneMore(procs: map<Key, Proc>, list: seq<Key>, j: nat, connected: bool, api: Api)
    requires list != [] && (forall i :: 0 <= i < |list| ==> list[i] in procs)
    ensures var n := |list| - 1;
            && (j < n ==> (Stopped(procs, list[..n], j, connected, api) <==> Stopped(procs, list, j, connected, api)))
            && (Stopped(procs, list, n, connected, api) <==>
                  || (n > 0 && Stopped(procs, list[..n], n - 1, connected, api))
                  || Refused(procs, list, n, connected, api))
  {
    hide ConnectionChanges;
    var n := |list| - 1;
    forall i: nat | i < n
      ensures Refused(procs, list[..n], i, connected, api) <==> Refused(procs, list, i, connected, api)
    {
    }
  }

  lemma MarkTells(s: Status, connected: bool, at: Time)
    ensures var e := Find(MarkedStatus(s, connected, at).conditions, AgentConnected);
            e.Some? && e.value.status == if connected then CondTrue else CondFalse
  {
    SetFind(s.conditions, Goal(connected), at, AgentConnected);
  }

  // ---------- observations of a report ----------

  /** A report; `failsAt` is the observation whose update ends in an API error or a lasting conflict, if any. */
  datatype Report = Report(
    observations: seq<Observation>, reportedAt: Option<string>, clock: Clock, failsAt: Option<nat>)

  /** One observation, unless the comparison finds nothing new. */
  function ObservedProc(p: Proc, obs: Observation, r: Report): Proc {
    var s := ObservedStatus(p.status, obs, r.reportedAt, r.clock);
    if s.None? || StatusEqual(p.status, s.value) then p else p.(status := s.value)
  }

  /** The loop over the observations: unknown processes are skipped, a bad request or an API error ends it. */
  function ObservedAlong(procs: map<Key, Proc>, d: string, r: Report, n: nat): (map<Key, Proc>, bool)
    requires n <= |r.observations|
  {
    if n == 0 then (procs, true)
    else
      var (procs', ok) := ObservedAlong(procs, d, r, n - 1);
      var obs := r.observations[n - 1];
      if !ok || r.failsAt == Some(n - 1) then (procs', false)
      else if obs.key !in procs' then (procs', true)
      else if procs'[obs.key].device != d || obs.startTime.Malformed? then (procs', false)
      else (procs'[obs.key := ObservedProc(procs'[obs.key], obs, r)], true)
  }

  lemma {:induction false} SameConnection(a: seq<Condition>, b: seq<Condition>)
    requires ConditionsEqual(a, b)
    ensures var x, y := Find(a, AgentConnected), Find(b, AgentConnected);
            x.Some? == y.Some? && (x.Some? ==> x.value.status == y.value.status)
  {
    var i := IndexOf(b, AgentConnected);
    IndexOfUnique(a, AgentConnected, i);
  }

  lemma ObservedConnects(p: Proc, obs: Observation, r: Report)
    requires !obs.startTime.Malformed?
    ensures ObservedProc(p, obs, r).device == p.device && IsTrue(ObservedProc(p, obs, r).status, AgentConnected)
  {
    hide StatusFrom, ConditionCalls;
    var s := ObservedStatus(p.status, obs, r.reportedAt, r.clock).value;
    StatusLaws.MarksStand(p.status, obs, r.reportedAt, r.clock, CONNECTED);
    FromConditions(p.status, obs, r.reportedAt, r.clock);
    if StatusEqual(p.status, s) {
      SameConnection(p.status.conditions, s.conditions);
    }
  }

  lemma FromConditions(s: Status, obs: Observation, reportedAt: Option<string>, clock: Clock)
    requires !obs.startTime.Malformed?
    ensures ObservedStatus(s, obs, reportedAt, clock).value.conditions
        == SetAll(s.conditions, ConditionCalls(s, obs, reportedAt, clock))
  {
    hide ConditionCalls;
  }

  /** Observations leave other devices' processes alone and never disconnect one. */
  lemma {:induction false} ObservedAlongFacts(procs: map<Key, Proc>, d: string, r: Report, n: nat)
    requires n <= |r.observations|
    ensures var (procs', _) := ObservedAlong(procs, d, r, n);
            && procs'.Keys == procs.Keys
            && (forall k :: k in procs ==> procs'[k].device == procs[k].device)
            && (forall k :: k in procs ==>
                  procs'[k] == procs[k] || (procs[k].device == d && IsTrue(procs'[k].status, AgentConnected)))
    decreases n
  {
    hide ObservedProc, IsTrue;
    if n > 0 {
      ObservedAlongFacts(procs, d, r, n - 1);
      var (procs', ok) := ObservedAlong(procs, d, r, n - 1);
      var obs := r.observations[n - 1];
      if ok && obs.key in procs' && procs'[obs.key].device == d && !obs.startTime.Malformed? {
        ObservedConnects(procs'[obs.key], obs, r);
      }
    }
  }

  /** The report ends at this observation, with a bad request or an API error. */
  predicate Bad(procs: map<Key, Proc>, d: string, r: Report, i: nat)
    requires i < |r.observations|
  {
    var obs := r.observations[i];
    r.failsAt == Some(i) || (obs.key in procs && (procs[obs.key].device != d || obs.startTime.Malformed?))
  }

  /** One of the first `n` observations is for this process, with no end of the report up to it. */
  ghost predicate Heard(procs: map<Key, Proc>, d: string, r: Report, n: nat, k: Key) {
    exists m: nat :: m < n && m < |r.observations| && r.observations[m].key == k && AllGood(procs, d, r, m + 1)
  }

  predicate AllGood(procs: map<Key, Proc>, d: string, r: Report, n: nat) {
    forall i: nat :: i < n && i < |r.observations| ==> !Bad(procs, d, r, i)
  }

  /** A process that was heard of reads connected, and any other keeps its status. */
  lemma {:induction false} ObservedAlongExact(procs: map<Key, Proc>, d: string, r: Report, n: nat, k: Key)
    requires n <= |r.observations| && k in procs
    ensures var (procs', ok) := ObservedAlong(procs, d, r, n);
            && (ok <==> AllGood(procs, d, r, n))
            && k in procs'
            && (if Heard(procs, d, r, n, k) then IsTrue(procs'[k].status, AgentConnected) else procs'[k] == procs[k])
    decreases n
  {
    hide ObservedProc, IsTrue, Heard, AllGood;
    HeardOneMore(procs, d, r, n, k);
    if n > 0 {
      ObservedAlongExact(procs, d, r, n - 1, k);
      ObservedAlongFacts(procs, d, r, n - 1);
      var procs' := ObservedAlong(procs, d, r, n - 1).0;
      var obs := r.observations[n - 1];
      if obs.key in procs && AllGood(procs, d, r, n) {
        ObservedConnects(procs'[obs.key], obs, r);
      }
    }
  }

  lemma HeardOneMore(procs: map<Key, Proc>, d: string, r: Report, n: nat, k: Key)
    requires n <= |r.observations|
    ensures n == 0 ==> AllGood(procs, d, r, n) && !Heard(procs, d, r, n, k)
    ensures n > 0 ==> var obs := r.observations[n - 1];
                      && (AllGood(procs, d, r, n) <==> AllGood(procs, d, r, n - 1) && !Bad(procs, d, r, n - 1))
                      && (Heard(procs, d, r, n, k) <==>
                            Heard(procs, d, r, n - 1, k) || (obs.key == k && AllGood(procs, d, r, n)))
  {
    hide Bad;
  }

  // ---------- the handlers ----------

  /** handleConnect. */
  function Connected(c: Config, s: State, d: string, now: Time, list: seq<Key>, api: Api): State
    requires forall i :: 0 <= i < |list| ==> list[i] in s.procs
  {
    State(Contacted(c, s.tracker, d, now), MarkAlong(s.procs, list, true, now, api).0)
  }

  /** handleReport: the processes are marked only after a silence, and observations follow only a complete marking. */
  function Reported(c: Config, s: State, d: string, now: Time, list: seq<Key>, api: Api, r: Report): State
    requires forall i :: 0 <= i < |list| ==> list[i] in s.procs
  {
    var t := Contacted(c, s.tracker, d, now);
    var (procs, ok) :=
      if d !in s.tracker.lastSeen || Silent(c, s.tracker, d, now) then MarkAlong(s.procs, list, true, now, api)
      else (s.procs, true);
    if !ok then State(t, procs) else State(t, ObservedAlong(procs, d, r, |r.observations|).0)
  }

  ghost predicate ListsAll(procs: map<Key, Proc>, order: seq<string>, lists: map<string, seq<Key>>) {
    forall i :: 0 <= i < |order| ==> order[i] in lists && Lists(procs, order[i], lists[order[i]])
  }

  /** markStaleDevices, over the devices seen so far in some order. */
  ghost function SweepAlong(c: Config, s: State, now: Time, order: seq<string>, lists: map<string, seq<Key>>,
                            api: Api): (r: map<Key, Proc>)
    requires ListsAll(s.procs, order, lists)
    ensures r.Keys == s.procs.Keys
    decreases |order|
  {
    if order == [] then s.procs
    else
      var n := |order| - 1;
      var procs := SweepAlong(c, s, now, order[..n], lists, api);
      if !Silent(c, s.tracker, order[n], now) then procs
      else
        assert forall i :: 0 <= i < |lists[order[n]]| ==> lists[order[n]][i] in s.procs;
        MarkAlong(procs, lists[order[n]], false, now, api).0
  }

  /** The devices are swept in some order, each once. */
  ghost predicate Enumerates(order: seq<string>, devices: set<string>) {
    && (forall i, j :: 0 <= i < j < |order| ==> order[i] != order[j])
    && (forall d :: d in order <==> d in devices)
  }

  class Gateway {
    var lastSeen: map<string, Time>
    var lastReport: map<string, Time>
    var heartbeatHints: map<string, int>
    var procs: map<Key, Proc>
    const config: Config

    function Snapshot(): State
      reads this
    {
      State(Tracker(lastSeen, lastReport, heartbeatHints), procs)
    }

    method RecordHeartbeat(d: string, hint: int, now: Time)
      modifies this`lastSeen, this`heartbeatHints
      ensures lastSeen == old(lastSeen)[d := now]
      ensures heartbeatHints == if hint > 0 then old(heartbeatHints)[d := hint] else old(heartbeatHints)
    {
      lastSeen := lastSeen[d := now];
      if hint > 0 { heartbeatHints := heartbeatHints[d := hint]; }
    }

    method RecordReport(d: string, now: Time)
      modifies this`lastReport
      ensures lastReport == old(lastReport)[d := now]
    {
      lastReport := lastReport[d := now];
    }

    /** The loop of markDeviceConnected and markDeviceDisconnected. */
    method MarkProcesses(list: seq<Key>, connected: bool, now: Time, api: Api) returns (ok: bool)
      requires forall i :: 0 <= i < |list| ==> list[i] in procs
      modifies this`procs
      ensures (procs, ok) == MarkAlong(old(procs), list, connected, now, api)
    {
      hide MarkedStatus, ConnectionChanges;
      for i := 0 to |list|
        invariant procs.Keys == old(procs).Keys
        invariant (procs, true) == MarkAlong(old(procs), list[..i], connected, now, api)
      {
        assert list[..i + 1][..i] == list[..i];
        var p := procs[list[i]];
        if ConnectionChanges(p.status, Goal(connected)) {
          if !api(list[i]) {
            MarkStops(old(procs), list, i, connected, now, api);
            return false;
          }
          procs := procs[list[i] := p.(status := MarkedStatus(p.status, connected, now))];
        }
      }
      assert list[..|list|] == list;
      return true;
    }

    method HandleConnect(d: string, now: Time, list: seq<Key>, api: Api)
      requires Lists(procs, d, list)
      modifies this
      ensures Snapshot() == Connected(config, old(Snapshot()), d, now, list, api)
    {
      hide MarkAlong, Normalize;
      var hb := Normalize(config, if d in heartbeatHints then heartbeatHints[d] else 0);
      RecordHeartbeat(d, hb, now);
      RecordReport(d, now);
      var ok := MarkProcesses(list, true, now, api);
      if ok {
        RecordReport(d, now);
        assert lastReport == old(lastReport)[d := now];
      }
    }

    method HandleReport(d: string, now: Time, list: seq<Key>, api: Api, report: Report)
      requires Lists(procs, d, list)
      modifies this
      ensures Snapshot() == Reported(config, old(Snapshot()), d, now, list, api, report)
    {
      hide MarkAlong, Normalize, ObservedAlong;
      var hb := Normalize(config, if d in heartbeatHints then heartbeatHints[d] else 0);
      var staleAfter := hb * config.multiplier * SECOND;
      var isStale := d !in lastSeen || now - lastSeen[d] > staleAfter;
      RecordHeartbeat(d, hb, now);
      RecordReport(d, now);
      if isStale {
        var ok := MarkProcesses(list, true, now, api);
        if !ok { return; }
        RecordReport(d, now);
      }
      assert lastReport == old(lastReport)[d := now];
      ApplyObservations(d, report);
    }

    /** The observation loop, each update atomic. */
    method ApplyObservations(d: string, report: Report)
      modifies this`procs
      ensures procs == ObservedAlong(old(procs), d, report, |report.observations|).0
    {
      hide ObservedProc;
      for i := 0 to |report.observations|
        invariant (procs, true) == ObservedAlong(old(procs), d, report, i)
      {
        var obs := report.observations[i];
        if report.failsAt == Some(i) {
          ObservationStops(old(procs), d, report, i);
          return;
        }
        if obs.key in procs {
          if procs[obs.key].device != d || obs.startTime.Malformed? {
            ObservationStops(old(procs), d, report, i);
            return;
          }
          procs := procs[obs.key := ObservedProc(procs[obs.key], obs, report)];
        }
      }
    }

    /** The tracker's part of handleDesired. */
    method HandleDesired(d: string, now: Time)
      modifies this
      ensures Snapshot() == State(PolledBy(config, old(Snapshot()).tracker, d, now), old(procs))
    {
      var heartbeat := DEFAULT_HEARTBEAT;
      if d in heartbeatHints && heartbeatHints[d] > 0 { heartbeat := heartbeatHints[d]; }
      heartbeatHints := heartbeatHints[d := heartbeat];
      ghost var hints := heartbeatHints;

      if d !in lastReport { return; }
      heartbeat := Normalize(config, heartbeatHints[d]);
      var staleAfter := heartbeat * config.multiplier * SECOND;
      if now - lastReport[d] > staleAfter { return; }
      RecordHeartbeat(d, heartbeat, now);
      assert heartbeatHints == hints;
    }

    method MarkStaleDevices(now: Time, order: seq<string>, lists: map<string, seq<Key>>, api: Api)
      requires Enumerates(order, lastSeen.Keys) && ListsAll(procs, order, lists)
      modifies this`procs
      ensures procs == SweepAlong(config, old(Snapshot()), now, order, lists, api)
    {
      hide MarkAlong, Normalize;
      for i := 0 to |order|
        invariant procs.Keys == old(procs).Keys
        invariant procs == SweepAlong(config, old(Snapshot()), now, order[..i], lists, api)
      {
        assert order[..i + 1][..i] == order[..i];
        var d := order[i];
        assert d in order;
        var hb := Normalize(config, if d in heartbeatHints then heartbeatHints[d] else 0);
        var staleAfter := hb * config.multiplier * SECOND;
        if now - lastSeen[d] > staleAfter {
          assert forall j :: 0 <= j < |lists[d]| ==> lists[d][j] in old(procs);
          var _ := MarkProcesses(lists[d], false, now, api);
        }
      }
      assert order[..|order|] == order;
    }
  }

  lemma {:induction false} MarkStops(procs: map<Key, Proc>, list: seq<Key>, n: nat, connected: bool, at: Time, api: Api)
    requires n < |list| && forall i :: 0 <= i < |list| ==> list[i] in procs
    requires var (procs', ok) := MarkAlong(procs, list[..n], connected, at, api);
             ok && ConnectionChanges(procs'[list[n]].status, Goal(connected)) && !api(list[n])
    ensures MarkAlong(procs, list, connected, at, api) == (MarkAlong(procs, list[..n], connected, at, api).0, false)
    decreases |list|
  {
    hide ConnectionChanges, MarkedStatus;
    var m := |list| - 1;
    if n < m {
      assert list[..m][..n] == list[..n];
      MarkStops(procs, list[..m], n, connected, at, api);
    }
  }

  lemma {:induction false} ObservationStops(procs: map<Key, Proc>, d: string, r: Report, n: nat)
    requires n < |r.observations|
    requires var (procs', ok) := ObservedAlong(procs, d, r, n);
             var obs := r.observations[n];
             && ok
             && (r.failsAt == Some(n)
                 || (obs.key in procs' && (procs'[obs.key].device != d || obs.startTime.Malformed?)))
    ensures ObservedAlong(procs, d, r, |r.observations|) == (ObservedAlong(procs, d, r, n).0, false)
  {
    hide ObservedProc;
    for m := n + 1 to |r.observations|
      invariant ObservedAlong(procs, d, r, m) == (ObservedAlong(procs, d, r, n).0, false)
    {
    }
  }
}
