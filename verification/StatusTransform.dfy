/**
  What one observation, connect or disconnect does to a process status
  (gateway/server.go: updateStatusForObservation without its retry loop, markDeviceConnected,
  markDeviceDisconnected, setAgentConnected, and the comparison that decides whether to patch).
 */
module StatusTransform {
  import opened Prelude
  import opened Text
  import opened Conditions
  import opened ApiTypes

  /** The times at which one handler run sets each of its conditions. */
  datatype Clock = Clock(
    connected: Time, observed: Time, downloaded: Time, verified: Time,
    started: Time, warning: Time, healthy: Time)

  datatype Event = Event(warning: bool, reason: string, message: string)

  // ---------- the conditions an observation sets ----------

  const CONNECTED: Condition := Mark(AgentConnected, CondTrue, "AgentConnected", "device reported")
  const DISCONNECTED: Condition :=
    Mark(AgentConnected, CondFalse, "AgentDisconnected", "device stale (no recent reports)")

  predicate SpecHashChanges(s: Status, obs: Observation) {
    obs.observedSpecHash != "" && s.observedSpecHash != obs.observedSpecHash
  }

  function ObservedMark(obs: Observation, reportedAt: Option<string>): Condition {
    var msg := "hash=" + obs.observedSpecHash;
    Mark(SpecObserved, CondTrue, "SpecObserved",
         if reportedAt.Some? then msg + " reportedAt=" + reportedAt.value else msg)
  }

  /** The mark of an artifact step (download or verify), from its outcome, reason, message and last error. */
  function ArtifactMark(
    t: ConditionType, ok: bool, reason: string, message: string, lastError: string,
    okReason: string, okMessage: string, failReason: string, failMessage: string): Condition
  {
    var reason' := if Trim(reason) == "" then okReason else Trim(reason);
    var msg := Trim(message);
    if ok then
      Mark(t, CondTrue, reason', if msg == "" then okMessage else msg)
    else
      var reason'' := if reason' == okReason then failReason else reason';
      var msg' := if msg == "" then Trim(lastError) else msg;
      Mark(t, CondFalse, reason'', if msg' == "" then failMessage else msg')
  }

  function DownloadedMark(obs: Observation): Condition {
    ArtifactMark(ArtifactDownloaded, obs.artifactDownloaded == Some(true), obs.artifactDownloadReason,
                 obs.artifactDownloadMessage, obs.artifactLastError, "ArtifactDownloaded",
                 "artifact downloaded", "ArtifactDownloadFailed", "artifact download failed")
  }

  function VerifiedMark(obs: Observation): Condition {
    ArtifactMark(ArtifactVerified, obs.artifactVerified == Some(true), obs.artifactVerifyReason,
                 obs.artifactVerifyMessage, obs.artifactLastError, "ArtifactVerified",
                 "artifact verified", "ArtifactVerifyFailed", "artifact verification failed")
  }

  /** An optional message pointer, trimmed; blank when missing. */
  function Message(m: Option<string>): string {
    if m.Some? then Trim(m.value) else ""
  }

  function StartedMark(obs: Observation): Condition {
    if obs.processStarted == Some(true) then Mark(ProcessStarted, CondTrue, "ProcessStarted", "process started")
    else if Message(obs.errorMessage) != ""
        then Mark(ProcessStarted, CondFalse, "ReconcileError", Message(obs.errorMessage))
    else Mark(ProcessStarted, CondFalse, "ProcessNotStarted", "process not started")
  }

  function WarningMark(obs: Observation): Condition {
    if Message(obs.warningMessage) != "" then Mark(SpecWarning, CondTrue, "SpecWarning", Message(obs.warningMessage))
    else Mark(SpecWarning, CondFalse, "NoSpecWarning", "no spec warning")
  }

  /** A warning condition is only cleared, never introduced, by an observation without a warning. */
  predicate SetsWarning(s: Status, obs: Observation) {
    Message(obs.warningMessage) != "" || Find(s.conditions, SpecWarning).Some?
  }

  function HealthyMark(obs: Observation): Condition {
    if obs.healthy == Some(true) then Mark(Healthy, CondTrue, "Healthy", "process healthy")
    else Mark(Healthy, CondFalse, "Unhealthy", "process reported unhealthy")
  }

  /** One more SetCondition call, when `on`. */
  function Then(calls: seq<SetCall>, on: bool, c: Condition, at: Time): seq<SetCall> {
    if on then calls + [SetCall(c, at)] else calls
  }

  /** The SetCondition calls one observation makes, in order: the connection and the spec hash first... */
  function HashCalls(s: Status, obs: Observation, reportedAt: Option<string>, clock: Clock): seq<SetCall> {
    Then([SetCall(CONNECTED, clock.connected)], SpecHashChanges(s, obs), ObservedMark(obs, reportedAt), clock.observed)
  }

  function DownloadCalls(s: Status, obs: Observation, reportedAt: Option<string>, clock: Clock): seq<SetCall> {
    Then(HashCalls(s, obs, reportedAt, clock), obs.artifactDownloaded.Some?, DownloadedMark(obs), clock.downloaded)
  }

  function SpecCalls(s: Status, obs: Observation, reportedAt: Option<string>, clock: Clock): seq<SetCall> {
    Then(DownloadCalls(s, obs, reportedAt, clock), obs.artifactVerified.Some?, VerifiedMark(obs), clock.verified)
  }

  function StartCalls(s: Status, obs: Observation, reportedAt: Option<string>, clock: Clock): seq<SetCall> {
    Then(SpecCalls(s, obs, reportedAt, clock), obs.processStarted.Some?, StartedMark(obs), clock.started)
  }

  function WarningCalls(s: Status, obs: Observation, reportedAt: Option<string>, clock: Clock): seq<SetCall> {
    Then(StartCalls(s, obs, reportedAt, clock), SetsWarning(s, obs), WarningMark(obs), clock.warning)
  }

  /** ... and the health last. */
  function ConditionCalls(s: Status, obs: Observation, reportedAt: Option<string>, clock: Clock): seq<SetCall> {
    Then(WarningCalls(s, obs, reportedAt, clock), obs.healthy.Some?, HealthyMark(obs), clock.healthy)
  }

  function PhaseOf(obs: Observation): Phase {
    if Message(obs.errorMessage) != "" then Failed
    else if obs.processStarted == Some(true) || obs.healthy == Some(true) then Running
    else Pending
  }

  /** The scalar fields an observation overwrites, around the new conditions. */
  function StatusFrom(s: Status, obs: Observation, hashChanges: bool, conditions: seq<Condition>): Status {
    s.(phase := PhaseOf(obs),
       conditions := conditions,
       observedSpecHash := if hashChanges then obs.observedSpecHash else s.observedSpecHash,
       runtimeSemantics := "DaemonSet",
       artifactDigest := Trim(obs.artifactDigest),
       artifactDownloadAttempts := obs.artifactDownloadAttempts,
       lastArtifactAttemptTime := Trim(obs.lastArtifactAttemptTime),
       artifactLastError := Trim(obs.artifactLastError),
       pid := obs.pid,
       startTime := if obs.startTime.At? then Some(obs.startTime.instant) else None)
  }

  /** The status an observation computes from the one read; no status for an unparseable start time. */
  function ObservedStatus(s: Status, obs: Observation, reportedAt: Option<string>, clock: Clock): Option<Status> {
    if obs.startTime.Malformed? then None
    else Some(StatusFrom(s, obs, SpecHashChanges(s, obs),
        SetAll(s.conditions, ConditionCalls(s, obs, reportedAt, clock))))
  }

  /** setAgentConnected: whether the entry is new or differs in status, reason or message. */
  predicate ConnectionChanges(s: Status, c: Condition) {
    var e := Find(s.conditions, AgentConnected);
    e.None? || e.value.status != c.status || e.value.reason != c.reason || e.value.message != c.message
  }

  /** The status after markDeviceConnected or markDeviceDisconnected on one process. */
  function MarkedStatus(s: Status, connected: bool, at: Time): Status {
    var c := if connected then CONNECTED else DISCONNECTED;
    if !ConnectionChanges(s, c) then s
    else s.(conditions := Set(s.conditions, c, at),
            phase := if !connected && s.phase == NoPhase then Pending else s.phase)
  }

  /** The warning entry is missing, not True, or carries another message. */
  predicate WarningChanges(s: Status, obs: Observation) {
    var e := Find(s.conditions, SpecWarning);
    e.None? || e.value.status != CondTrue || e.value.message != Message(obs.warningMessage)
  }

  function ThenEvent(es: seq<Event>, on: bool, e: Event): seq<Event> {
    if on then es + [e] else es
  }

  /** The events a committed observation emits. */
  function ObservedEvents(s: Status, device: string, obs: Observation, reportedAt: Option<string>): seq<Event> {
    var hash := "hash " + obs.observedSpecHash;
    var e0 := ThenEvent([], ConnectionChanges(s, CONNECTED),
        Event(false, "AgentConnected", "device " + device + " connected"));
    var e1 := ThenEvent(e0, SpecHashChanges(s, obs),
                        Event(false, "SpecObserved", if reportedAt.Some? then hash + " at " + reportedAt.value
                            else hash));
    var e2 := ThenEvent(e1, Message(obs.warningMessage) != "" && WarningChanges(s, obs),
                        Event(true, "SpecWarning", Message(obs.warningMessage)));
    var e3 := ThenEvent(e2, obs.processStarted == Some(true), Event(false, "ProcessStarted", "process started"));
    ThenEvent(e3, obs.healthy.Some?, Event(obs.healthy == Some(false), "Healthy", "process health reported"))
  }

  // ---------- the comparison ----------

  predicate ConditionsEqual(a: seq<Condition>, b: seq<Condition>) {
    && |a| == |b|
    && forall i :: 0 <= i < |a| ==>
      a[i].ctype == b[i].ctype && a[i].status == b[i].status && a[i].reason == b[i].reason
          && a[i].message == b[i].message
  }

  /** reflectDeepEqualStatus. */
  predicate StatusEqual(a: Status, b: Status) {
    && ConditionsEqual(a.conditions, b.conditions)
    && a.(conditions := []) == b.(conditions := [])
  }

  // ---------- the code, step by step ----------

  method ConditionsEqualLoop(a: seq<Condition>, b: seq<Condition>) returns (r: bool)
    ensures r == ConditionsEqual(a, b)
  {
    if |a| != |b| { return false; }
    var i := 0;
    while i < |a|
      invariant 0 <= i <= |a| == |b|
      invariant forall j :: 0 <= j < i ==>
        a[j].ctype == b[j].ctype && a[j].status == b[j].status && a[j].reason == b[j].reason
            && a[j].message == b[j].message
    {
      if a[i].ctype != b[i].ctype || a[i].status != b[i].status || a[i].reason != b[i].reason
          || a[i].message != b[i].message {
        return false;
      }
      i := i + 1;
    }
    return true;
  }

  /** reflectDeepEqualStatus. */
  method ReflectDeepEqualStatus(a: Status, b: Status) returns (r: bool)
    ensures r == StatusEqual(a, b)
  {
    var conditions := ConditionsEqualLoop(a.conditions, b.conditions);
    r := a.(conditions := []) == b.(conditions := []) && conditions;
  }

  /** setAgentConnected on the caller's condition list. */
  method SetAgentConnected(list: ConditionList, connected: bool, now: Time) returns (changed: bool)
    modifies list
    ensures list.items == Set(old(list.items), if connected then CONNECTED else DISCONNECTED, now)
    ensures changed == ConnectionChanges(EMPTY_STATUS.(conditions := old(list.items)), if connected then CONNECTED
        else DISCONNECTED)
  {
    var c := if connected then CONNECTED else DISCONNECTED;
    var before := list.FindCondition(AgentConnected);
    list.SetCondition(c, now);
    var after := list.FindCondition(AgentConnected);
    SetFind(old(list.items), c, now, AgentConnected);
    if before.None? || after.None? { return true; }
    changed := before.value.status != after.value.status || before.value.reason != after.value.reason
        || before.value.message != after.value.message;
  }

  /** The condition updates of lines 436-497, on the list being built. */
  method MarkSpec(list: ConditionList, before: Status, obs: Observation, reportedAt: Option<string>, clock: Clock)
    returns (connectedChanged: bool, specObservedChanged: bool)
    requires list.items == before.conditions
    modifies list
    ensures list.items == SetAll(before.conditions, SpecCalls(before, obs, reportedAt, clock))
    ensures connectedChanged == ConnectionChanges(before, CONNECTED)
    ensures specObservedChanged == SpecHashChanges(before, obs)
  {
    connectedChanged := SetAgentConnected(list, true, clock.connected);
    ghost var calls := [SetCall(CONNECTED, clock.connected)];
    assert SetAll(before.conditions, []) == before.conditions;

    specObservedChanged := false;
    if obs.observedSpecHash != "" && before.observedSpecHash != obs.observedSpecHash {
      var msg := "hash=" + obs.observedSpecHash;
      if reportedAt.Some? { msg := msg + " reportedAt=" + reportedAt.value; }
      list.MarkTrue(SpecObserved, "SpecObserved", msg, clock.observed);
      specObservedChanged := true;
    }
    calls := Extended(before.conditions, calls, SpecHashChanges(before, obs), ObservedMark(obs, reportedAt),
        clock.observed);

    if obs.artifactDownloaded.Some? {
      list.SetCondition(DownloadedMark(obs), clock.downloaded);
    }
    calls := Extended(before.conditions, calls, obs.artifactDownloaded.Some?, DownloadedMark(obs), clock.downloaded);

    if obs.artifactVerified.Some? {
      list.SetCondition(VerifiedMark(obs), clock.verified);
    }
    calls := Extended(before.conditions, calls, obs.artifactVerified.Some?, VerifiedMark(obs), clock.verified);
  }

  /** The process-started condition of lines 504-516. */
  method MarkStarted(list: ConditionList, obs: Observation, now: Time)
    modifies list
    ensures list.items == if obs.processStarted.Some? then Set(old(list.items), StartedMark(obs), now)
        else old(list.items)
  {
    if obs.processStarted.Some? {
      if obs.processStarted.value {
        list.MarkTrue(ProcessStarted, "ProcessStarted", "process started", now);
      } else if obs.errorMessage.Some? && Trim(obs.errorMessage.value) != "" {
        list.MarkFalse(ProcessStarted, "ReconcileError", Trim(obs.errorMessage.value), now);
      } else {
        list.MarkFalse(ProcessStarted, "ProcessNotStarted", "process not started", now);
      }
    }
  }

  /** The health condition of lines 551-562. */
  method MarkHealthy(list: ConditionList, obs: Observation, now: Time)
    modifies list
    ensures list.items == if obs.healthy.Some? then Set(old(list.items), HealthyMark(obs), now) else old(list.items)
  {
    if obs.healthy.Some? {
      if obs.healthy.value {
        list.MarkTrue(Healthy, "Healthy", "process healthy", now);
      } else {
        list.MarkFalse(Healthy, "Unhealthy", "process reported unhealthy", now);
      }
    }
  }

  /** The spec-warning condition of lines 532-549. */
  method MarkWarning(list: ConditionList, before: Status, obs: Observation, now: Time)
    returns (specWarningChanged: bool)
    requires Find(list.items, SpecWarning) == Find(before.conditions, SpecWarning)
    modifies list
    ensures list.items == if SetsWarning(before, obs) then Set(old(list.items), WarningMark(obs), now)
        else old(list.items)
    ensures Message(obs.warningMessage) != "" ==> specWarningChanged == WarningChanges(before, obs)
  {
    specWarningChanged := false;
    var warnMsg := if obs.warningMessage.Some? then Trim(obs.warningMessage.value) else "";
    var existing := list.FindCondition(SpecWarning);
    if warnMsg != "" {
      specWarningChanged := existing.None? || existing.value.status != CondTrue || existing.value.message != warnMsg;
      list.MarkTrue(SpecWarning, "SpecWarning", warnMsg, now);
    } else if existing.Some? {
      list.MarkFalse(SpecWarning, "NoSpecWarning", "no spec warning", now);
    }
  }

  /** The condition updates of lines 504-562; the phase update they carry is in ComputePhase. */
  method MarkProcess(list: ConditionList, before: Status, obs: Observation, reportedAt: Option<string>, clock: Clock)
    returns (specWarningChanged: bool)
    requires list.items == SetAll(before.conditions, SpecCalls(before, obs, reportedAt, clock))
    modifies list
    ensures list.items == SetAll(before.conditions, ConditionCalls(before, obs, reportedAt, clock))
    ensures Message(obs.warningMessage) != "" ==> specWarningChanged == WarningChanges(before, obs)
  {
    MarkStarted(list, obs, clock.started);
    ghost var calls := Extended(before.conditions, SpecCalls(before, obs, reportedAt, clock),
                                obs.processStarted.Some?, StartedMark(obs), clock.started);
    StartCallsRanked(before, obs, reportedAt, clock);
    NoOtherWarning(before.conditions, calls);
    specWarningChanged := MarkWarning(list, before, obs, clock.warning);
    calls := Extended(before.conditions, calls, SetsWarning(before, obs), WarningMark(obs), clock.warning);

    MarkHealthy(list, obs, clock.healthy);
    calls := Extended(before.conditions, calls, obs.healthy.Some?, HealthyMark(obs), clock.healthy);
  }

  /** The phase: lines 518-530, then the promotion of lines 555-557. */
  method ComputePhase(obs: Observation) returns (phase: Phase)
    ensures phase == PhaseOf(obs)
  {
    var errMsg := if obs.errorMessage.Some? then Trim(obs.errorMessage.value) else "";
    if errMsg != "" {
      phase := Failed;
    } else if obs.processStarted.Some? && obs.processStarted.value {
      phase := Running;
    } else {
      phase := Pending;
    }
    if obs.healthy.Some? && obs.healthy.value && (phase == Pending || phase == NoPhase) {
      phase := Running;
    }
  }

  /** The events of lines 587-609, emitted once the patch has gone through. */
  method EventsFor(before: Status, device: string, obs: Observation, reportedAt: Option<string>,
                   connectedChanged: bool, specObservedChanged: bool, specWarningChanged: bool)
    returns (events: seq<Event>)
    requires connectedChanged == ConnectionChanges(before, CONNECTED)
    requires specObservedChanged == SpecHashChanges(before, obs)
    requires Message(obs.warningMessage) != "" ==> specWarningChanged == WarningChanges(before, obs)
    ensures events == ObservedEvents(before, device, obs, reportedAt)
  {
    events := [];
    if connectedChanged {
      events := events + [Event(false, "AgentConnected", "device " + device + " connected")];
    }
    if specObservedChanged {
      var msg := "hash " + obs.observedSpecHash;
      if reportedAt.Some? { msg := msg + " at " + reportedAt.value; }
      events := events + [Event(false, "SpecObserved", msg)];
    }
    if specWarningChanged && obs.warningMessage.Some? && Trim(obs.warningMessage.value) != "" {
      events := events + [Event(true, "SpecWarning", Trim(obs.warningMessage.value))];
    }
    if obs.processStarted.Some? && obs.processStarted.value {
      events := events + [Event(false, "ProcessStarted", "process started")];
    }
    if obs.healthy.Some? {
      events := events + [Event(!obs.healthy.value, "Healthy", "process health reported")];
    }
  }

  /** The scalar fields, overwritten one after another on the object that was read. */
  method SetFields(before: Status, obs: Observation, specObservedChanged: bool, conditions: seq<Condition>)
    returns (s: Status)
    requires !obs.startTime.Malformed?
    ensures s == StatusFrom(before, obs, specObservedChanged, conditions)
  {
    s := before;
    if s.phase == NoPhase { s := s.(phase := Pending); }
    s := s.(runtimeSemantics := "DaemonSet");
    if specObservedChanged { s := s.(observedSpecHash := obs.observedSpecHash); }
    s := s.(artifactDigest := Trim(obs.artifactDigest));
    s := s.(artifactDownloadAttempts := obs.artifactDownloadAttempts);
    s := s.(lastArtifactAttemptTime := Trim(obs.lastArtifactAttemptTime));
    s := s.(artifactLastError := Trim(obs.artifactLastError));
    var phase := ComputePhase(obs);
    s := s.(phase := phase);
    s := s.(pid := obs.pid);
    if obs.startTime.Blank? {
      s := s.(startTime := None);
    } else {
      s := s.(startTime := Some(obs.startTime.instant));
    }
    s := s.(conditions := conditions);
  }

  /**
    One attempt of updateStatusForObservation between its Get and its Patch: the fields of the
    status are overwritten one after another on the object that was read.
   */
  method ComputeStatus(before: Status, device: string, obs: Observation, reportedAt: Option<string>, clock: Clock)
    returns (r: Option<Status>, events: seq<Event>)
    ensures r == ObservedStatus(before, obs, reportedAt, clock)
    ensures r.Some? ==> events == ObservedEvents(before, device, obs, reportedAt)
  {
    var list := new ConditionList(before.conditions);
    var connectedChanged, specObservedChanged := MarkSpec(list, before, obs, reportedAt, clock);
    var specWarningChanged := MarkProcess(list, before, obs, reportedAt, clock);
    if obs.startTime.Malformed? { return None, []; }
    var s := SetFields(before, obs, specObservedChanged, list.items);
    r := Some(s);
    events := EventsFor(before, device, obs, reportedAt, connectedChanged, specObservedChanged, specWarningChanged);
  }

  /** One more call at the end of a history, when `on`. */
  ghost function Extended(cs: seq<Condition>, calls: seq<SetCall>, on: bool, c: Condition, at: Time): (r: seq<SetCall>)
    ensures r == Then(calls, on, c, at)
    ensures SetAll(cs, r) == if on then Set(SetAll(cs, calls), c, at) else SetAll(cs, calls)
  {
    var r := Then(calls, on, c, at);
    assert on ==> r[..|r| - 1] == calls;
    r
  }

  // ---------- an observation sets each condition type at most once ----------

  /** The order in which an observation sets its conditions. */
  function Rank(t: ConditionType): nat {
    match t
    case AgentConnected => 0
    case SpecObserved => 1
    case ArtifactDownloaded => 2
    case ArtifactVerified => 3
    case ProcessStarted => 4
    case SpecWarning => 5
    case Healthy => 6
    case _ => 7
  }

  /** Types strictly ascend, all below rank `r`: in particular no type is set twice. */
  ghost predicate Ascending(calls: seq<SetCall>, r: nat)
    decreases |calls|
  {
    calls != [] ==>
      var n := |calls| - 1;
      Rank(calls[n].cond.ctype) < r && Ascending(calls[..n], Rank(calls[n].cond.ctype))
  }

  lemma ThenAscending(calls: seq<SetCall>, on: bool, c: Condition, at: Time, r: nat)
    requires Ascending(calls, r) && Rank(c.ctype) == r
    ensures Ascending(Then(calls, on, c, at), r + 1)
  {
    assert (calls + [SetCall(c, at)])[..|calls|] == calls;
  }

  lemma HashCallsRanked(s: Status, obs: Observation, reportedAt: Option<string>, clock: Clock)
    ensures Ascending(HashCalls(s, obs, reportedAt, clock), 2)
  {
    var c0 := [SetCall(CONNECTED, clock.connected)];
    assert Ascending(c0, 1);
    ThenAscending(c0, SpecHashChanges(s, obs), ObservedMark(obs, reportedAt), clock.observed, 1);
  }

  lemma DownloadCallsRanked(s: Status, obs: Observation, reportedAt: Option<string>, clock: Clock)
    ensures Ascending(DownloadCalls(s, obs, reportedAt, clock), 3)
  {
    hide Ascending, HashCalls;
    HashCallsRanked(s, obs, reportedAt, clock);
    ThenAscending(HashCalls(s, obs, reportedAt, clock), obs.artifactDownloaded.Some?, DownloadedMark(obs),
        clock.downloaded, 2);
  }

  lemma SpecCallsRanked(s: Status, obs: Observation, reportedAt: Option<string>, clock: Clock)
    ensures Ascending(SpecCalls(s, obs, reportedAt, clock), 4)
  {
    hide Ascending, DownloadCalls;
    DownloadCallsRanked(s, obs, reportedAt, clock);
    ThenAscending(DownloadCalls(s, obs, reportedAt, clock), obs.artifactVerified.Some?, VerifiedMark(obs),
        clock.verified, 3);
  }

  lemma StartCallsRanked(s: Status, obs: Observation, reportedAt: Option<string>, clock: Clock)
    ensures Ascending(StartCalls(s, obs, reportedAt, clock), 5)
  {
    hide Ascending, SpecCalls;
    SpecCallsRanked(s, obs, reportedAt, clock);
    ThenAscending(SpecCalls(s, obs, reportedAt, clock), obs.processStarted.Some?, StartedMark(obs), clock.started, 4);
  }

  lemma WarningCallsRanked(s: Status, obs: Observation, reportedAt: Option<string>, clock: Clock)
    ensures Ascending(WarningCalls(s, obs, reportedAt, clock), 6)
  {
    hide Ascending, StartCalls;
    StartCallsRanked(s, obs, reportedAt, clock);
    ThenAscending(StartCalls(s, obs, reportedAt, clock), SetsWarning(s, obs), WarningMark(obs), clock.warning, 5);
  }

  lemma ConditionCallsRanked(s: Status, obs: Observation, reportedAt: Option<string>, clock: Clock)
    ensures Ascending(ConditionCalls(s, obs, reportedAt, clock), 7)
  {
    hide Ascending, WarningCalls;
    WarningCallsRanked(s, obs, reportedAt, clock);
    ThenAscending(WarningCalls(s, obs, reportedAt, clock), obs.healthy.Some?, HealthyMark(obs), clock.healthy, 6);
  }

  lemma {:induction false} NoOtherWarning(cs: seq<Condition>, calls: seq<SetCall>)
    requires Ascending(calls, 5)
    ensures Find(SetAll(cs, calls), SpecWarning) == Find(cs, SpecWarning)
    decreases |calls|
  {
    if calls != [] {
      var init, last := calls[..|calls| - 1], calls[|calls| - 1];
      NoOtherWarning(cs, init);
      SetFind(SetAll(cs, init), last.cond, last.at, SpecWarning);
    }
  }
}
