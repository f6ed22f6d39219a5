/**
  What one observation, connect or disconnect puts into a status and which events it emits, said
  field by field, condition by condition and event by event, without the transform that computes
  them (gateway/server.go).
 */
module StatusMeaning {
  import opened Prelude
  import opened Text
  import opened Conditions
  import opened ApiTypes
  import opened StatusTransform
  import opened StatusLaws
  import StatusStore

  /** The entry of this type reads so. */
  ghost predicate Reads(s: Status, t: ConditionType, status: ConditionStatus, reason: string, message: string) {
    var e := Find(s.conditions, t);
    e.Some? && e.value.status == status && e.value.reason == reason && e.value.message == message
  }

  ghost predicate Untouched(was: Status, s: Status, t: ConditionType) {
    Find(s.conditions, t) == Find(was.conditions, t)
  }

  /** The scalar fields after an observation, and the observation field each one holds. */
  lemma FieldsTell(was: Status, obs: Observation, reportedAt: Option<string>, clock: Clock)
    requires !obs.startTime.Malformed?
    ensures var s := ObservedStatus(was, obs, reportedAt, clock).value;
            && s.pid == obs.pid
            && (s.startTime.Some? <==> obs.startTime.At?)
            && (s.startTime.Some? ==> obs.startTime == At(s.startTime.value))
            && s.artifactDigest == Trim(obs.artifactDigest)
            && s.artifactDownloadAttempts == obs.artifactDownloadAttempts
            && s.lastArtifactAttemptTime == Trim(obs.lastArtifactAttemptTime)
            && s.artifactLastError == Trim(obs.artifactLastError)
            && s.observedSpecHash == (if obs.observedSpecHash == "" then was.observedSpecHash else obs.observedSpecHash)
            && s.runtimeSemantics == "DaemonSet"
            && s.artifactVersion == was.artifactVersion && s.lastTransitionTime == was.lastTransitionTime
            && s.restartCount == was.restartCount && s.lastTerminationReason == was.lastTerminationReason
  {
    hide ConditionCalls, Trim;
  }

  /** The phase after an observation: an error means Failed, else a started or healthy process means Running. */
  lemma PhaseExact(was: Status, obs: Observation, reportedAt: Option<string>, clock: Clock)
    requires !obs.startTime.Malformed?
    ensures var s, error := ObservedStatus(was, obs, reportedAt, clock).value, Message(obs.errorMessage) != "";
            var runs := obs.processStarted == Some(true) || obs.healthy == Some(true);
            && (s.phase == Failed <==> error)
            && (s.phase == Running <==> !error && runs)
            && (s.phase == Pending <==> !error && !runs)
  {
    hide ConditionCalls, Message;
  }

  /** A type for which the observation sets no condition keeps its entry. */
  lemma NotSetUntouched(was: Status, obs: Observation, reportedAt: Option<string>, clock: Clock, t: ConditionType)
    requires !obs.startTime.Malformed?
    requires forall c :: c in Marks(was, obs, reportedAt) ==> c.ctype != t
    ensures Untouched(was, ObservedStatus(was, obs, reportedAt, clock).value, t)
  {
    hide ConditionCalls, Marks;
    var calls := ConditionCalls(was, obs, reportedAt, clock);
    CallsAreMarks(was, obs, reportedAt, clock);
    forall i | 0 <= i < |calls| ensures calls[i].cond.ctype != t {
      assert calls[i].cond in Conds(calls);
    }
    FindUntouched(was.conditions, calls, t);
  }

  lemma MarkStands(was: Status, obs: Observation, reportedAt: Option<string>, clock: Clock, c: Condition)
    requires !obs.startTime.Malformed? && c in Marks(was, obs, reportedAt)
    ensures Reads(ObservedStatus(was, obs, reportedAt, clock).value, c.ctype, c.status, c.reason, c.message)
  {
    hide ConditionCalls, Marks;
    MarksStand(was, obs, reportedAt, clock, c);
  }

  /** The conditions about the process after an observation. */
  lemma ProcessConditionsTell(was: Status, obs: Observation, reportedAt: Option<string>, clock: Clock)
    requires !obs.startTime.Malformed?
    ensures var s, error := ObservedStatus(was, obs, reportedAt, clock).value, Message(obs.errorMessage);
            && Reads(s, AgentConnected, CondTrue, "AgentConnected", "device reported")
            && (match obs.processStarted
                case None => Untouched(was, s, ProcessStarted)
                case Some(true) => Reads(s, ProcessStarted, CondTrue, "ProcessStarted", "process started")
                case Some(false) =>
                  if error != "" then Reads(s, ProcessStarted, CondFalse, "ReconcileError", error)
                  else Reads(s, ProcessStarted, CondFalse, "ProcessNotStarted", "process not started"))
            && (match obs.healthy
                case None => Untouched(was, s, Healthy)
                case Some(true) => Reads(s, Healthy, CondTrue, "Healthy", "process healthy")
                case Some(false) => Reads(s, Healthy, CondFalse, "Unhealthy", "process reported unhealthy"))
  {
    hide ObservedStatus, Message, Reads, Untouched, SetsWarning, SpecHashChanges, ObservedMark, DownloadedMark,
        VerifiedMark, WarningMark;
    MarkTypes(obs, reportedAt);
    MarkStands(was, obs, reportedAt, clock, CONNECTED);
    if obs.processStarted.Some? {
      MarkStands(was, obs, reportedAt, clock, StartedMark(obs));
    } else {
      NotSetUntouched(was, obs, reportedAt, clock, ProcessStarted);
    }
    if obs.healthy.Some? {
      MarkStands(was, obs, reportedAt, clock, HealthyMark(obs));
    } else {
      NotSetUntouched(was, obs, reportedAt, clock, Healthy);
    }
  }

  /** The conditions about the spec after an observation. */
  lemma SpecConditionsTell(was: Status, obs: Observation, reportedAt: Option<string>, clock: Clock)
    requires !obs.startTime.Malformed?
    ensures var s, warning := ObservedStatus(was, obs, reportedAt, clock).value, Message(obs.warningMessage);
            && (if obs.observedSpecHash == "" || obs.observedSpecHash == was.observedSpecHash then
                  Untouched(was, s, SpecObserved)
                else
                  Reads(s, SpecObserved, CondTrue, "SpecObserved",
                        if reportedAt.Some? then "hash=" + obs.observedSpecHash + " reportedAt=" + reportedAt.value
                        else "hash=" + obs.observedSpecHash))
            && (if warning != "" then Reads(s, SpecWarning, CondTrue, "SpecWarning", warning)
                else if Find(was.conditions, SpecWarning).Some? then
                  Reads(s, SpecWarning, CondFalse, "NoSpecWarning", "no spec warning")
                else Find(s.conditions, SpecWarning).None?)
  {
    hide ObservedStatus, Message, Reads, DownloadedMark, VerifiedMark, StartedMark, HealthyMark, Find;
    MarkTypes(obs, reportedAt);
    if SpecHashChanges(was, obs) {
      MarkStands(was, obs, reportedAt, clock, ObservedMark(obs, reportedAt));
    } else {
      NotSetUntouched(was, obs, reportedAt, clock, SpecObserved);
    }
    if SetsWarning(was, obs) {
      MarkStands(was, obs, reportedAt, clock, WarningMark(obs));
    } else {
      NotSetUntouched(was, obs, reportedAt, clock, SpecWarning);
    }
  }

  /** What the entry of an artifact step says of its outcome: a success never reads as a failure, nor the reverse. */
  ghost predicate StepReads(was: Status, s: Status, t: ConditionType, outcome: Option<bool>, reason: string,
                            message: string, okReason: string) {
    var e := Find(s.conditions, t);
    match outcome
    case None => e == Find(was.conditions, t)
    case Some(ok) =>
      && e.Some? && e.value.status == (if ok then CondTrue else CondFalse)
      && (!ok ==> e.value.reason != okReason)
      && (Trim(reason) != "" && Trim(reason) != okReason ==> e.value.reason == Trim(reason))
      && (ok && Trim(reason) == "" ==> e.value.reason == okReason)
      && (Trim(message) != "" ==> e.value.message == Trim(message))
  }

  /** The artifact conditions after an observation. */
  lemma ArtifactConditionsTell(was: Status, obs: Observation, reportedAt: Option<string>, clock: Clock)
    requires !obs.startTime.Malformed?
    ensures var s := ObservedStatus(was, obs, reportedAt, clock).value;
            && StepReads(was, s, ArtifactDownloaded, obs.artifactDownloaded, obs.artifactDownloadReason,
                         obs.artifactDownloadMessage, "ArtifactDownloaded")
            && StepReads(was, s, ArtifactVerified, obs.artifactVerified, obs.artifactVerifyReason,
                         obs.artifactVerifyMessage, "ArtifactVerified")
            && (obs.artifactDownloaded == Some(false) && Trim(obs.artifactDownloadMessage) == ""
                && Trim(obs.artifactLastError) != "" ==>
                  Find(s.conditions, ArtifactDownloaded).value.message == Trim(obs.artifactLastError))
            && (obs.artifactVerified == Some(false) && Trim(obs.artifactVerifyMessage) == ""
                && Trim(obs.artifactLastError) != "" ==>
                  Find(s.conditions, ArtifactVerified).value.message == Trim(obs.artifactLastError))
  {
    hide ObservedStatus, Trim, StartedMark, HealthyMark, WarningMark, ObservedMark, Find, SetsWarning, SpecHashChanges;
    MarkTypes(obs, reportedAt);
    if obs.artifactDownloaded.Some? {
      MarkStands(was, obs, reportedAt, clock, DownloadedMark(obs));
    } else {
      NotSetUntouched(was, obs, reportedAt, clock, ArtifactDownloaded);
    }
    if obs.artifactVerified.Some? {
      MarkStands(was, obs, reportedAt, clock, VerifiedMark(obs));
    } else {
      NotSetUntouched(was, obs, reportedAt, clock, ArtifactVerified);
    }
  }

  // ---------- events ----------

  /** Five events, each there when its flag is on. */
  function Five(b0: bool, e0: Event, b1: bool, e1: Event, b2: bool, e2: Event, b3: bool, e3: Event,
                b4: bool, e4: Event): seq<Event> {
    ThenEvent(ThenEvent(ThenEvent(ThenEvent(ThenEvent([], b0, e0), b1, e1), b2, e2), b3, e3), b4, e4)
  }

  lemma FiveHas(b0: bool, e0: Event, b1: bool, e1: Event, b2: bool, e2: Event, b3: bool, e3: Event,
                b4: bool, e4: Event, x: Event)
    ensures x in Five(b0, e0, b1, e1, b2, e2, b3, e3, b4, e4) <==>
            (b0 && x == e0) || (b1 && x == e1) || (b2 && x == e2) || (b3 && x == e3) || (b4 && x == e4)
  {
  }

  /** The reasons of the five events differ. */
  predicate Differ(r0: string, r1: string, r2: string, r3: string, r4: string) {
    r0 != r1 && r0 != r2 && r0 != r3 && r0 != r4 && r1 != r2 && r1 != r3 && r1 != r4 && r2 != r3 && r2 != r4 && r3 != r4
  }

  lemma FiveExact(b0: bool, e0: Event, b1: bool, e1: Event, b2: bool, e2: Event, b3: bool, e3: Event,
                  b4: bool, e4: Event, x: Event)
    requires Differ(e0.reason, e1.reason, e2.reason, e3.reason, e4.reason) && x.reason == e4.reason
    ensures var es := Five(b0, e0, b1, e1, b2, e2, b3, e3, b4, e4);
            && (e0 in es <==> b0) && (e1 in es <==> b1) && (e2 in es <==> b2) && (e3 in es <==> b3)
            && (x in es <==> b4 && x == e4)
  {
    hide Five;
    FiveHas(b0, e0, b1, e1, b2, e2, b3, e3, b4, e4, e0);
    FiveHas(b0, e0, b1, e1, b2, e2, b3, e3, b4, e4, e1);
    FiveHas(b0, e0, b1, e1, b2, e2, b3, e3, b4, e4, e2);
    FiveHas(b0, e0, b1, e1, b2, e2, b3, e3, b4, e4, e3);
    FiveHas(b0, e0, b1, e1, b2, e2, b3, e3, b4, e4, x);
  }

  /** No event has this reason yet, so one with it can be added. */
  ghost predicate Once(es: seq<Event>) {
    forall i, j :: 0 <= i < j < |es| ==> es[i].reason != es[j].reason
  }

  lemma OnceMore(es: seq<Event>, b: bool, e: Event)
    requires Once(es) && forall x :: x in es ==> x.reason != e.reason
    ensures Once(ThenEvent(es, b, e))
    ensures forall x :: x in ThenEvent(es, b, e) ==> x in es || x == e
  {
    if b {
      var all := es + [e];
      forall i, j | 0 <= i < j < |all| ensures all[i].reason != all[j].reason {
        assert all[i] in es;
      }
    }
  }

  lemma FiveOnce(b0: bool, e0: Event, b1: bool, e1: Event, b2: bool, e2: Event, b3: bool, e3: Event,
                 b4: bool, e4: Event)
    requires Differ(e0.reason, e1.reason, e2.reason, e3.reason, e4.reason)
    ensures Once(Five(b0, e0, b1, e1, b2, e2, b3, e3, b4, e4))
  {
    hide ThenEvent;
    var s1 := ThenEvent([], b0, e0);
    OnceMore([], b0, e0);
    var s2 := ThenEvent(s1, b1, e1);
    OnceMore(s1, b1, e1);
    var s3 := ThenEvent(s2, b2, e2);
    OnceMore(s2, b2, e2);
    var s4 := ThenEvent(s3, b3, e3);
    OnceMore(s3, b3, e3);
    OnceMore(s4, b4, e4);
  }

  /**
    The events of a patched observation: one for the connection when its entry changes, one for a
    new spec hash, a warning for a new spec warning, one for a started process, and one for a
    reported health, a warning when it is bad; in that order and no others.
   */
  lemma EventsTell(s: Status, device: string, obs: Observation, reportedAt: Option<string>)
    ensures var es, warning := ObservedEvents(s, device, obs, reportedAt), Message(obs.warningMessage);
            && (Event(false, "AgentConnected", "device " + device + " connected") in es <==>
                  !Reads(s, AgentConnected, CondTrue, "AgentConnected", "device reported"))
            && (Event(false, "SpecObserved",
                      if reportedAt.Some? then "hash " + obs.observedSpecHash + " at " + reportedAt.value
                      else "hash " + obs.observedSpecHash) in es <==>
                  obs.observedSpecHash != "" && obs.observedSpecHash != s.observedSpecHash)
            && (Event(true, "SpecWarning", warning) in es <==>
                  warning != "" && !(Find(s.conditions, SpecWarning).Some?
                                     && Find(s.conditions, SpecWarning).value.status == CondTrue
                                     && Find(s.conditions, SpecWarning).value.message == warning))
            && (Event(false, "ProcessStarted", "process started") in es <==> obs.processStarted == Some(true))
            && (Event(false, "Healthy", "process health reported") in es <==> obs.healthy == Some(true))
            && (Event(true, "Healthy", "process health reported") in es <==> obs.healthy == Some(false))
            && Once(es)
  {
    hide Message, Find, Five, ObservedEvents, ConnectionChanges, SpecHashChanges, WarningChanges, Differ, Reads, Once;
    var hash, warning := "hash " + obs.observedSpecHash, Message(obs.warningMessage);
    var b0, e0 := ConnectionChanges(s, CONNECTED), Event(false, "AgentConnected", "device " + device + " connected");
    var b1 := SpecHashChanges(s, obs);
    var e1 := Event(false, "SpecObserved", if reportedAt.Some? then hash + " at " + reportedAt.value else hash);
    var b2, e2 := warning != "" && WarningChanges(s, obs), Event(true, "SpecWarning", warning);
    var b3, e3 := obs.processStarted == Some(true), Event(false, "ProcessStarted", "process started");
    var b4, e4 := obs.healthy.Some?, Event(obs.healthy == Some(false), "Healthy", "process health reported");
    EventsAreFive(s, device, obs, reportedAt);
    assert obs.healthy == Some(true) <==> obs.healthy.Some? && obs.healthy.value;
    assert obs.healthy == Some(false) <==> obs.healthy.Some? && !obs.healthy.value;
    ChangesTell(s, obs);
    ReasonsDiffer();
    FiveOnce(b0, e0, b1, e1, b2, e2, b3, e3, b4, e4);
    FiveExact(b0, e0, b1, e1, b2, e2, b3, e3, b4, e4, Event(false, "Healthy", "process health reported"));
    FiveExact(b0, e0, b1, e1, b2, e2, b3, e3, b4, e4, Event(true, "Healthy", "process health reported"));
  }

  lemma EventsAreFive(s: Status, device: string, obs: Observation, reportedAt: Option<string>)
    ensures var hash, warning := "hash " + obs.observedSpecHash, Message(obs.warningMessage);
            ObservedEvents(s, device, obs, reportedAt) ==
            Five(ConnectionChanges(s, CONNECTED), Event(false, "AgentConnected", "device " + device + " connected"),
                 SpecHashChanges(s, obs),
                 Event(false, "SpecObserved", if reportedAt.Some? then hash + " at " + reportedAt.value else hash),
                 warning != "" && WarningChanges(s, obs), Event(true, "SpecWarning", warning),
                 obs.processStarted == Some(true), Event(false, "ProcessStarted", "process started"),
                 obs.healthy.Some?, Event(obs.healthy == Some(false), "Healthy", "process health reported"))
  {
    hide ThenEvent, ConnectionChanges, SpecHashChanges, WarningChanges, Message;
  }

  lemma ChangesTell(s: Status, obs: Observation)
    ensures ConnectionChanges(s, CONNECTED) <==>
        !Reads(s, AgentConnected, CondTrue, "AgentConnected", "device reported")
    ensures SpecHashChanges(s, obs) <==> obs.observedSpecHash != "" && obs.observedSpecHash != s.observedSpecHash
    ensures WarningChanges(s, obs) <==>
            !(Find(s.conditions, SpecWarning).Some? && Find(s.conditions, SpecWarning).value.status == CondTrue
              && Find(s.conditions, SpecWarning).value.message == Message(obs.warningMessage))
  {
    hide Find, Message;
  }

  lemma ReasonsDiffer()
    ensures Differ("AgentConnected", "SpecObserved", "SpecWarning", "ProcessStarted", "Healthy")
  {
    assert "AgentConnected"[0] == 'A' && "SpecObserved"[4] == 'O' && "SpecWarning"[4] == 'W';
    assert "ProcessStarted"[0] == 'P' && "Healthy"[0] == 'H' && "SpecObserved"[0] == "SpecWarning"[0] == 'S';
  }

  // ---------- connects and disconnects ----------

  /** A process that was marked says so in its AgentConnected entry, and in nothing else but an empty phase. */
  lemma MarkingTells(was: Status, connected: bool, at: Time)
    ensures var s := MarkedStatus(was, connected, at);
            && (if connected then Reads(s, AgentConnected, CondTrue, "AgentConnected", "device reported")
                else Reads(s, AgentConnected, CondFalse, "AgentDisconnected", "device stale (no recent reports)"))
            && (forall t :: t != AgentConnected ==> Untouched(was, s, t))
            && (s.phase == was.phase || (!connected && was.phase == NoPhase && s.phase == Pending))
            && s.(phase := was.phase, conditions := was.conditions) == was
  {
    var c := if connected then CONNECTED else DISCONNECTED;
    forall t ensures t != AgentConnected ==> Untouched(was, MarkedStatus(was, connected, at), t) {
      SetFind(was.conditions, c, at, t);
    }
    SetFind(was.conditions, c, at, AgentConnected);
  }

  /** What the store's operations do to a status is what the lemmas here speak of. */
  lemma OpsTell(s: Status, obs: Observation, reportedAt: Option<string>, clock: Clock, connected: bool, at: Time)
    ensures !obs.startTime.Malformed? ==>
              Some(ApplyOp(s, Observe(obs, reportedAt, clock))) == ObservedStatus(s, obs, reportedAt, clock)
    ensures ApplyOp(s, MarkDevice(connected, at)) == MarkedStatus(s, connected, at)
    ensures forall d ::
              StatusStore.EventsOf(s, d, Observe(obs, reportedAt, clock)) == ObservedEvents(s, d, obs, reportedAt)
  {
    hide StatusFrom, ConditionCalls, MarkedStatus, ObservedEvents;
  }

  /** A patched connect is announced as normal, a patched disconnect as a warning that names the device. */
  lemma MarkEventsTell(s: Status, device: string, at: Time)
    ensures StatusStore.EventsOf(s, device, MarkDevice(true, at))
        == [Event(false, "AgentConnected", "device connected")]
    ensures StatusStore.EventsOf(s, device, MarkDevice(false, at))
         == [Event(true, "AgentDisconnected", "device " + device + " stale")]
  {
  }
}
