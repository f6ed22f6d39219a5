/**
  Laws of the status transforms: observations are idempotent, the comparison that suppresses
  patches is sound, and the phase, conditions and PID of every reachable status agree.
 */
module StatusLaws {
  import opened Prelude
  import opened Conditions
  import opened ApiTypes
  import opened StatusTransform

  // ---------- lists of calls ----------

  ghost function Conds(calls: seq<SetCall>): set<Condition> {
    set i | 0 <= i < |calls| :: calls[i].cond
  }

  lemma ThenConds(calls: seq<SetCall>, on: bool, c: Condition, at: Time)
    ensures Conds(Then(calls, on, c, at)) == if on then Conds(calls) + {c} else Conds(calls)
  {
    if on {
      var r := calls + [SetCall(c, at)];
      assert r[|calls|].cond == c;
      forall x | x in Conds(calls)
        ensures x in Conds(r)
      {
        var i :| 0 <= i < |calls| && calls[i].cond == x;
        assert r[i].cond == x;
      }
    }
  }

  /** The connection, and those of the six other conditions that are switched on. */
  function Chosen(observed: Condition, o: bool, downloaded: Condition, d: bool, verified: Condition, v: bool,
                  started: Condition, p: bool, warning: Condition, w: bool, healthy: Condition, h: bool): set<Condition>
  {
    {CONNECTED} + (if o then {observed} else {}) + (if d then {downloaded} else {}) + (if v then {verified} else {})
    + (if p then {started} else {}) + (if w then {warning} else {}) + (if h then {healthy} else {})
  }

  /** The conditions an observation asserts, as a set. */
  function Marks(s: Status, obs: Observation, reportedAt: Option<string>): set<Condition> {
    Chosen(ObservedMark(obs, reportedAt), SpecHashChanges(s, obs),
           DownloadedMark(obs), obs.artifactDownloaded.Some?,
           VerifiedMark(obs), obs.artifactVerified.Some?,
           StartedMark(obs), obs.processStarted.Some?,
           WarningMark(obs), SetsWarning(s, obs),
           HealthyMark(obs), obs.healthy.Some?)
  }

  lemma CallsAreMarks(s: Status, obs: Observation, reportedAt: Option<string>, clock: Clock)
    ensures Conds(ConditionCalls(s, obs, reportedAt, clock)) == Marks(s, obs, reportedAt)
  {
    hide ObservedMark, DownloadedMark, VerifiedMark, StartedMark, WarningMark, HealthyMark, SetsWarning,
        SpecHashChanges;
    hide Conds;
    var c0 := [SetCall(CONNECTED, clock.connected)];
    OneCond(CONNECTED, clock.connected);
    ThenConds(c0, SpecHashChanges(s, obs), ObservedMark(obs, reportedAt), clock.observed);
    ThenConds(HashCalls(s, obs, reportedAt, clock), obs.artifactDownloaded.Some?, DownloadedMark(obs),
        clock.downloaded);
    ThenConds(DownloadCalls(s, obs, reportedAt, clock), obs.artifactVerified.Some?, VerifiedMark(obs), clock.verified);
    ThenConds(SpecCalls(s, obs, reportedAt, clock), obs.processStarted.Some?, StartedMark(obs), clock.started);
    ThenConds(StartCalls(s, obs, reportedAt, clock), SetsWarning(s, obs), WarningMark(obs), clock.warning);
    ThenConds(WarningCalls(s, obs, reportedAt, clock), obs.healthy.Some?, HealthyMark(obs), clock.healthy);
  }

  lemma OneCond(c: Condition, at: Time)
    ensures Conds([SetCall(c, at)]) == {c}
  {
    assert [SetCall(c, at)][0].cond == c;
  }

  lemma {:induction false} AscendingBelow(calls: seq<SetCall>, r: nat, i: nat)
    requires Ascending(calls, r) && i < |calls|
    ensures Rank(calls[i].cond.ctype) < r
    decreases |calls|
  {
    var n := |calls| - 1;
    if i < n {
      AscendingBelow(calls[..n], Rank(calls[n].cond.ctype), i);
    }
  }

  /** The list has an entry that says what `c` says. */
  ghost predicate Satisfied(cs: seq<Condition>, c: Condition) {
    var e := Find(cs, c.ctype);
    e.Some? && e.value == c.(lastTransitionTime := e.value.lastTransitionTime)
  }

  lemma SetSatisfied(cs: seq<Condition>, c: Condition, now: Time)
    requires Satisfied(cs, c)
    ensures Set(cs, c, now) == cs
  {
  }

  lemma {:induction false} SetAllSatisfied(cs: seq<Condition>, calls: seq<SetCall>)
    requires forall i :: 0 <= i < |calls| ==> Satisfied(cs, calls[i].cond)
    ensures SetAll(cs, calls) == cs
    decreases |calls|
  {
    if calls != [] {
      var n := |calls| - 1;
      SetAllSatisfied(cs, calls[..n]);
      SetSatisfied(cs, calls[n].cond, calls[n].at);
    }
  }

  /** No type is set twice, so every call's condition still stands at the end. */
  lemma {:induction false} CallsStand(cs: seq<Condition>, calls: seq<SetCall>, r: nat, i: nat)
    requires Ascending(calls, r) && i < |calls|
    ensures Satisfied(SetAll(cs, calls), calls[i].cond)
    decreases |calls|
  {
    hide Set, IndexOf, Find;
    var n := |calls| - 1;
    var init, last := calls[..n], calls[n];
    SetFind(SetAll(cs, init), last.cond, last.at, calls[i].cond.ctype);
    if i < n {
      AscendingBelow(init, Rank(last.cond.ctype), i);
      CallsStand(cs, init, Rank(last.cond.ctype), i);
    }
  }

  lemma MarksStand(s: Status, obs: Observation, reportedAt: Option<string>, clock: Clock, c: Condition)
    requires c in Marks(s, obs, reportedAt)
    ensures Satisfied(SetAll(s.conditions, ConditionCalls(s, obs, reportedAt, clock)), c)
  {
    var calls := ConditionCalls(s, obs, reportedAt, clock);
    CallsAreMarks(s, obs, reportedAt, clock);
    ConditionCallsRanked(s, obs, reportedAt, clock);
    assert c in Conds(calls);
    var i :| 0 <= i < |calls| && calls[i].cond == c;
    CallsStand(s.conditions, calls, 7, i);
  }

  lemma {:induction false} FindUntouched(cs: seq<Condition>, calls: seq<SetCall>, t: ConditionType)
    requires forall i :: 0 <= i < |calls| ==> calls[i].cond.ctype != t
    ensures Find(SetAll(cs, calls), t) == Find(cs, t)
    decreases |calls|
  {
    if calls != [] {
      var n := |calls| - 1;
      FindUntouched(cs, calls[..n], t);
      SetFind(SetAll(cs, calls[..n]), calls[n].cond, calls[n].at, t);
    }
  }

  /** `c` sets a condition of type `t` and carries no generation. */
  predicate MarkOf(c: Condition, t: ConditionType) {
    c.ctype == t && c.observedGeneration == 0
  }

  lemma MarkTypes(obs: Observation, reportedAt: Option<string>)
    ensures MarkOf(CONNECTED, AgentConnected)
    ensures MarkOf(ObservedMark(obs, reportedAt), SpecObserved)
    ensures MarkOf(DownloadedMark(obs), ArtifactDownloaded)
    ensures MarkOf(VerifiedMark(obs), ArtifactVerified)
    ensures MarkOf(StartedMark(obs), ProcessStarted)
    ensures MarkOf(WarningMark(obs), SpecWarning)
    ensures MarkOf(HealthyMark(obs), Healthy)
  {
  }

  lemma MarkType(s: Status, obs: Observation, reportedAt: Option<string>, c: Condition)
    requires c in Marks(s, obs, reportedAt)
    ensures c.observedGeneration == 0
    ensures c.ctype == SpecWarning ==> SetsWarning(s, obs)
  {
    MarkTypes(obs, reportedAt);
    ChosenType(ObservedMark(obs, reportedAt), SpecHashChanges(s, obs), DownloadedMark(obs),
        obs.artifactDownloaded.Some?,
               VerifiedMark(obs), obs.artifactVerified.Some?, StartedMark(obs), obs.processStarted.Some?,
               WarningMark(obs), SetsWarning(s, obs), HealthyMark(obs), obs.healthy.Some?, c);
  }

  lemma ChosenType(observed: Condition, o: bool, downloaded: Condition, d: bool, verified: Condition, v: bool,
                   started: Condition, p: bool, warning: Condition, w: bool, healthy: Condition, h: bool, c: Condition)
    requires c in Chosen(observed, o, downloaded, d, verified, v, started, p, warning, w, healthy, h)
    requires MarkOf(observed, SpecObserved) && MarkOf(downloaded, ArtifactDownloaded)
    requires MarkOf(verified, ArtifactVerified) && MarkOf(started, ProcessStarted)
    requires MarkOf(warning, SpecWarning) && MarkOf(healthy, Healthy)
    ensures c.observedGeneration == 0
    ensures c.ctype == SpecWarning ==> w
  {
  }

  // ---------- an observation applied twice ----------

  lemma WarningNotIntroduced(s: Status, obs: Observation, reportedAt: Option<string>, clock: Clock)
    requires !SetsWarning(s, obs)
    ensures Find(SetAll(s.conditions, ConditionCalls(s, obs, reportedAt, clock)), SpecWarning).None?
  {
    var calls := ConditionCalls(s, obs, reportedAt, clock);
    CallsAreMarks(s, obs, reportedAt, clock);
    forall i | 0 <= i < |calls|
      ensures calls[i].cond.ctype != SpecWarning
    {
      assert calls[i].cond in Conds(calls);
      MarkType(s, obs, reportedAt, calls[i].cond);
    }
    FindUntouched(s.conditions, calls, SpecWarning);
  }

  /**
    Applying one observation to its own result computes that result again, at any later time:
    the comparison then says "equal", so the second run patches nothing and emits nothing.
   */
  lemma ObserveTwice(s: Status, obs: Observation, first: Option<string>, second: Option<string>, c1: Clock, c2: Clock)
    requires !obs.startTime.Malformed?
    ensures var s1 := ObservedStatus(s, obs, first, c1).value;
            && ObservedStatus(s1, obs, second, c2) == Some(s1)
            && StatusEqual(s1, ObservedStatus(s1, obs, second, c2).value)
  {
    var s1 := ObservedStatus(s, obs, first, c1).value;
    var calls := ConditionCalls(s1, obs, second, c2);
    if !SetsWarning(s, obs) {
      WarningNotIntroduced(s, obs, first, c1);
    }
    assert Marks(s1, obs, second) <= Marks(s, obs, first);
    CallsAreMarks(s1, obs, second, c2);
    forall i | 0 <= i < |calls|
      ensures Satisfied(s1.conditions, calls[i].cond)
    {
      assert calls[i].cond in Conds(calls);
      MarksStand(s, obs, first, c1, calls[i].cond);
    }
    SetAllSatisfied(s1.conditions, calls);
  }

  // ---------- the API server keeps whole seconds ----------

  function Cut(t: Time): Time {
    t / SECOND * SECOND
  }

  function CutAll(cs: seq<Condition>): seq<Condition> {
    seq(|cs|, i requires 0 <= i < |cs| => cs[i].(lastTransitionTime := Cut(cs[i].lastTransitionTime)))
  }

  function CutOption(t: Option<Time>): Option<Time> {
    if t.Some? then Some(Cut(t.value)) else None
  }

  /** A status as it is read back: its times are serialised without fractions of a second. */
  function Persisted(s: Status): Status {
    s.(conditions := CutAll(s.conditions),
       startTime := CutOption(s.startTime), lastTransitionTime := CutOption(s.lastTransitionTime))
  }

  lemma FindCut(cs: seq<Condition>, t: ConditionType)
    ensures var e := Find(cs, t);
            Find(CutAll(cs), t) ==
              if e.Some? then Some(e.value.(lastTransitionTime := Cut(e.value.lastTransitionTime))) else None
  {
    IndexOfUnique(CutAll(cs), t, IndexOf(cs, t));
  }

  /** The text names a whole second, or none at all. */
  predicate WholeSecond(obs: Observation) {
    obs.startTime.At? ==> obs.startTime.instant % SECOND == 0
  }

  /**
    Applied again to its result as the API server stored it, an observation is found to change
    nothing exactly when its start time is a whole second; otherwise it is patched, and its events
    are emitted, on every report.
   */
  lemma ObserveStoredIff(s: Status, obs: Observation, first: Option<string>, second: Option<string>, c1: Clock,
                         c2: Clock)
    requires !obs.startTime.Malformed?
    ensures var p := Persisted(ObservedStatus(s, obs, first, c1).value);
            StatusEqual(p, ObservedStatus(p, obs, second, c2).value) <==> WholeSecond(obs)
  {
    hide ConditionCalls, CutAll, Find;
    var s1 := ObservedStatus(s, obs, first, c1).value;
    var p := Persisted(s1);
    StoredMarksStand(s, obs, first, second, c1, c2);
    assert ConditionsEqual(p.conditions, p.conditions);
    if obs.startTime.At? {
      assert obs.startTime.instant == Cut(obs.startTime.instant) + obs.startTime.instant % SECOND;
    }
  }

  lemma StoredMarksStand(s: Status, obs: Observation, first: Option<string>, second: Option<string>, c1: Clock,
                         c2: Clock)
    requires !obs.startTime.Malformed?
    ensures var p := Persisted(ObservedStatus(s, obs, first, c1).value);
            SetAll(p.conditions, ConditionCalls(p, obs, second, c2)) == p.conditions
  {
    hide ConditionCalls, CutAll, Find, ObservedMark, DownloadedMark, VerifiedMark, StartedMark, WarningMark,
        HealthyMark;
    var s1 := ObservedStatus(s, obs, first, c1).value;
    var p := Persisted(s1);
    var calls := ConditionCalls(p, obs, second, c2);
    FindCut(s1.conditions, SpecWarning);
    if !SetsWarning(s, obs) {
      WarningNotIntroduced(s, obs, first, c1);
    }
    assert Marks(p, obs, second) <= Marks(s, obs, first);
    CallsAreMarks(p, obs, second, c2);
    forall i | 0 <= i < |calls|
      ensures Satisfied(p.conditions, calls[i].cond)
    {
      assert calls[i].cond in Conds(calls);
      MarksStand(s, obs, first, c1, calls[i].cond);
      FindCut(s1.conditions, calls[i].cond.ctype);
    }
    SetAllSatisfied(p.conditions, calls);
  }

  // ---------- what the comparison does not look at ----------

  lemma {:induction false} TypesKept(cs: seq<Condition>, calls: seq<SetCall>)
    ensures |cs| <= |SetAll(cs, calls)|
    ensures forall k :: 0 <= k < |cs| ==> SetAll(cs, calls)[k].ctype == cs[k].ctype
    decreases |calls|
  {
    if calls != [] {
      TypesKept(cs, calls[..|calls| - 1]);
    }
  }

  /** An entry of the old list is either untouched or overwritten once, by the one call for its type. */
  lemma {:induction false} EntryAfter(cs: seq<Condition>, calls: seq<SetCall>, r: nat, i: nat)
    requires Ascending(calls, r) && i < |cs|
    ensures i < |SetAll(cs, calls)|
    ensures SetAll(cs, calls)[i] == cs[i]
            || exists j :: 0 <= j < |calls| && calls[j].cond.ctype == cs[i].ctype && IndexOf(cs, cs[i].ctype) == i
                           && SetAll(cs, calls)[i] == Stamped(calls[j].cond, Some(cs[i]), calls[j].at)
    ensures (forall j :: 0 <= j < |calls| ==> calls[j].cond.ctype != cs[i].ctype) ==> SetAll(cs, calls)[i] == cs[i]
    decreases |calls|
  {
    if calls != [] {
      var n := |calls| - 1;
      var init, last := calls[..n], calls[n];
      var mid := SetAll(cs, init);
      EntryAfter(cs, init, Rank(last.cond.ctype), i);
      TypesKept(cs, init);
      if IndexOf(mid, last.cond.ctype) == i {
        forall j | 0 <= j < n
          ensures init[j].cond.ctype != cs[i].ctype
        {
          AscendingBelow(init, Rank(last.cond.ctype), j);
        }
        IndexOfUnique(cs, cs[i].ctype, i);
        assert SetAll(cs, calls)[i] == Stamped(calls[n].cond, Some(cs[i]), calls[n].at);
      } else if mid[i] != cs[i] {
        var j :| 0 <= j < |init| && init[j].cond.ctype == cs[i].ctype && IndexOf(cs, cs[i].ctype) == i
                 && mid[i] == Stamped(init[j].cond, Some(cs[i]), init[j].at);
        assert calls[j] == init[j];
      } else {
        assert forall j :: 0 <= j < n ==> calls[j] == init[j];
      }
    }
  }

  /** No entry carries an observed generation: true of every status the gateway writes. */
  ghost predicate GenerationFree(s: Status) {
    forall i :: 0 <= i < |s.conditions| ==> s.conditions[i].observedGeneration == 0
  }

  /** The entries an observation overwrites carry no observed generation. */
  ghost predicate TouchedGenerationFree(s: Status, obs: Observation, reportedAt: Option<string>) {
    forall c :: c in Marks(s, obs, reportedAt) && Find(s.conditions, c.ctype).Some? ==>
      Find(s.conditions, c.ctype).value.observedGeneration == 0
  }

  /**
    When the comparison calls the new status equal to the old one, the two are equal in every
    field, transition times included, exactly when no overwritten entry carried a generation.
   */
  lemma ComparisonExact(s: Status, obs: Observation, reportedAt: Option<string>, clock: Clock)
    requires !obs.startTime.Malformed?
    requires StatusEqual(s, ObservedStatus(s, obs, reportedAt, clock).value)
    ensures ObservedStatus(s, obs, reportedAt, clock).value == s <==> TouchedGenerationFree(s, obs, reportedAt)
  {
    var s' := ObservedStatus(s, obs, reportedAt, clock).value;
    if s' == s {
      forall c | c in Marks(s, obs, reportedAt)
        ensures Find(s.conditions, c.ctype).Some? && Find(s.conditions, c.ctype).value.observedGeneration == 0
      {
        MarksStand(s, obs, reportedAt, clock, c);
        MarkType(s, obs, reportedAt, c);
      }
    }
    if TouchedGenerationFree(s, obs, reportedAt) {
      forall i | 0 <= i < |s.conditions|
        ensures s'.conditions[i] == s.conditions[i]
      {
        EqualEntryIsSame(s, obs, reportedAt, clock, i);
      }
    }
  }

  lemma EqualEntryIsSame(s: Status, obs: Observation, reportedAt: Option<string>, clock: Clock, i: nat)
    requires !obs.startTime.Malformed?
    requires StatusEqual(s, ObservedStatus(s, obs, reportedAt, clock).value)
    requires TouchedGenerationFree(s, obs, reportedAt)
    requires i < |s.conditions|
    ensures ObservedStatus(s, obs, reportedAt, clock).value.conditions[i] == s.conditions[i]
  {
    var calls := ConditionCalls(s, obs, reportedAt, clock);
    var cs, cs' := s.conditions, SetAll(s.conditions, calls);
    ConditionCallsRanked(s, obs, reportedAt, clock);
    EntryAfter(cs, calls, 7, i);
    if cs'[i] != cs[i] {
      var j :| 0 <= j < |calls| && calls[j].cond.ctype == cs[i].ctype && IndexOf(cs, cs[i].ctype) == i
               && cs'[i] == Stamped(calls[j].cond, Some(cs[i]), calls[j].at);
      CallsAreMarks(s, obs, reportedAt, clock);
      assert calls[j].cond in Conds(calls);
      MarkType(s, obs, reportedAt, calls[j].cond);
    }
  }

  lemma ComparisonSound(s: Status, obs: Observation, reportedAt: Option<string>, clock: Clock)
    requires GenerationFree(s)
    requires !obs.startTime.Malformed?
    requires StatusEqual(s, ObservedStatus(s, obs, reportedAt, clock).value)
    ensures ObservedStatus(s, obs, reportedAt, clock).value == s
  {
    ComparisonExact(s, obs, reportedAt, clock);
  }

  /** A foreign writer's generation on one entry is erased by a run that the comparison calls a no-op. */
  lemma ComparisonBlindSpot(obs: Observation, reportedAt: Option<string>, clock: Clock)
    requires !obs.startTime.Malformed?
    ensures exists s :: StatusEqual(s, ObservedStatus(s, obs, reportedAt, clock).value)
                        && ObservedStatus(s, obs, reportedAt, clock).value != s
  {
    var s0 := ObservedStatus(EMPTY_STATUS, obs, reportedAt, clock).value;
    MarksStand(EMPTY_STATUS, obs, reportedAt, clock, CONNECTED);
    var i := IndexOf(s0.conditions, AgentConnected);
    var s := s0.(conditions := s0.conditions[i := s0.conditions[i].(observedGeneration := 7)]);
    IndexOfUnique(s.conditions, AgentConnected, i);
    GenerationIrrelevant(s0, s, obs, reportedAt, clock, i);
  }

  /** The calls depend on the old status only through the spec hash and the presence of a warning. */
  lemma SameCalls(s: Status, s0: Status, obs: Observation, reportedAt: Option<string>, clock: Clock)
    requires s.observedSpecHash == s0.observedSpecHash
    requires Find(s.conditions, SpecWarning) == Find(s0.conditions, SpecWarning)
    ensures ConditionCalls(s, obs, reportedAt, clock) == ConditionCalls(s0, obs, reportedAt, clock)
    ensures var calls := ConditionCalls(s, obs, reportedAt, clock);
            calls != [] && calls[0] == SetCall(CONNECTED, clock.connected)
  {
    hide ObservedMark, DownloadedMark, VerifiedMark, StartedMark, WarningMark, HealthyMark;
    assert HashCalls(s, obs, reportedAt, clock)[0] == SetCall(CONNECTED, clock.connected);
    assert SpecCalls(s, obs, reportedAt, clock)[0] == SetCall(CONNECTED, clock.connected);
  }

  lemma GenerationIrrelevant(s0: Status, s: Status, obs: Observation, reportedAt: Option<string>, clock: Clock, i: nat)
    requires !obs.startTime.Malformed?
    requires s0 == ObservedStatus(EMPTY_STATUS, obs, reportedAt, clock).value
    requires i < |s0.conditions| && i == IndexOf(s0.conditions, AgentConnected) == IndexOf(s.conditions, AgentConnected)
    requires Satisfied(s0.conditions, CONNECTED)
    requires s == s0.(conditions := s0.conditions[i := s0.conditions[i].(observedGeneration := 7)])
    ensures ObservedStatus(s, obs, reportedAt, clock) == Some(s0)
    ensures StatusEqual(s, s0) && s != s0
  {
    hide StatusFrom, SpecHashChanges, ConditionCalls;
    var calls := ConditionCalls(s, obs, reportedAt, clock);
    ObserveTwice(EMPTY_STATUS, obs, reportedAt, reportedAt, clock, clock);
    SameButGeneration(s.conditions, s0.conditions, clock.connected, i);
    SameCalls(s, s0, obs, reportedAt, clock);
    FirstCallOnly(s.conditions, s0.conditions, calls);
    SameFrom(s, s0, obs, SetAll(s0.conditions, calls));
  }

  lemma SameFrom(s: Status, s0: Status, obs: Observation, cs: seq<Condition>)
    requires s == s0.(conditions := s.conditions)
    ensures StatusFrom(s, obs, SpecHashChanges(s, obs), cs) == StatusFrom(s0, obs, SpecHashChanges(s0, obs), cs)
  {
  }

  lemma SameButGeneration(cs: seq<Condition>, cs0: seq<Condition>, at: Time, i: nat)
    requires i < |cs0| && i == IndexOf(cs0, AgentConnected) == IndexOf(cs, AgentConnected)
    requires Satisfied(cs0, CONNECTED) && cs == cs0[i := cs0[i].(observedGeneration := 7)]
    ensures Set(cs, CONNECTED, at) == Set(cs0, CONNECTED, at) == cs0
    ensures Find(cs, SpecWarning) == Find(cs0, SpecWarning)
    ensures ConditionsEqual(cs, cs0) && cs != cs0
  {
    SetSatisfied(cs0, CONNECTED, at);
    assert Set(cs, CONNECTED, at) == cs0;
    SetFind(cs, CONNECTED, at, SpecWarning);
    assert cs[i].observedGeneration == 7;
  }

  /** Two lists that agree after the first call agree after all of them. */
  lemma {:induction false} FirstCallOnly(a: seq<Condition>, b: seq<Condition>, calls: seq<SetCall>)
    requires calls != [] && Set(a, calls[0].cond, calls[0].at) == Set(b, calls[0].cond, calls[0].at)
    ensures SetAll(a, calls) == SetAll(b, calls)
    decreases |calls|
  {
    if |calls| > 1 {
      FirstCallOnly(a, b, calls[..|calls| - 1]);
    } else {
      assert calls[..0] == [];
    }
  }

  // ---------- every status the gateway can write ----------

  /** One write of the gateway to one status. */
  datatype Op =
    | Observe(obs: Observation, reportedAt: Option<string>, clock: Clock)
    | MarkDevice(connected: bool, at: Time)

  function ApplyOp(s: Status, op: Op): Status {
    match op
    case Observe(obs, reportedAt, clock) =>
      var r := ObservedStatus(s, obs, reportedAt, clock);
      if r.Some? then r.value else s
    case MarkDevice(connected, at) => MarkedStatus(s, connected, at)
  }

  function ApplyOps(s: Status, ops: seq<Op>): Status
    decreases |ops|
  {
    if ops == [] then s else ApplyOp(ApplyOps(s, ops[..|ops| - 1]), ops[|ops| - 1])
  }

  lemma {:induction false} SetAllGenerationFree(cs: seq<Condition>, calls: seq<SetCall>)
    requires forall i :: 0 <= i < |cs| ==> cs[i].observedGeneration == 0
    requires forall i :: 0 <= i < |calls| ==> calls[i].cond.observedGeneration == 0
    ensures forall i :: 0 <= i < |SetAll(cs, calls)| ==> SetAll(cs, calls)[i].observedGeneration == 0
    decreases |calls|
  {
    if calls != [] {
      SetAllGenerationFree(cs, calls[..|calls| - 1]);
    }
  }

  /** The gateway's writes keep statuses generation-free, so on its own statuses the comparison is exact. */
  lemma OpKeepsGenerationFree(s: Status, op: Op)
    requires GenerationFree(s)
    ensures GenerationFree(ApplyOp(s, op))
  {
    match op
    case Observe(obs, reportedAt, clock) =>
      var calls := ConditionCalls(s, obs, reportedAt, clock);
      CallsAreMarks(s, obs, reportedAt, clock);
      forall i | 0 <= i < |calls|
        ensures calls[i].cond.observedGeneration == 0
      {
        assert calls[i].cond in Conds(calls);
        MarkType(s, obs, reportedAt, calls[i].cond);
      }
      SetAllGenerationFree(s.conditions, calls);
    case MarkDevice(connected, at) =>
  }

  // ---------- phase, conditions and PID agree ----------

  /** What the agent's reconcile can put into an observation (proved of it in AgentLaws). */
  predicate AgentMade(obs: Observation) {
    && obs.processStarted.Some?
    && obs.healthy == obs.processStarted
    && (obs.pid > 0) == obs.processStarted.value
    && (obs.startTime.At? ==> obs.processStarted.value)
    && !obs.startTime.Malformed?
    && (Message(obs.errorMessage) != "" ==> !obs.processStarted.value)
  }

  /** The reason of the ProcessStarted entry; none before the first observation. */
  function StartReason(s: Status): Option<string> {
    var e := Find(s.conditions, ProcessStarted);
    if e.Some? then Some(e.value.reason) else None
  }

  /** The phase says what the ProcessStarted entry says; before the first observation it is empty or Pending. */
  predicate PhaseTells(s: Status) {
    match StartReason(s)
    case None => s.phase == Pending || s.phase == NoPhase
    case Some(reason) =>
      || (s.phase == Failed && reason == "ReconcileError")
      || (s.phase == Pending && reason == "ProcessNotStarted")
      || (s.phase == Running && reason == "ProcessStarted")
  }

  predicate Coherent(s: Status) {
    && (s.phase == Running) == IsTrue(s, ProcessStarted)
    && (s.phase == Running) == IsTrue(s, Healthy)
    && (s.phase == Running) == (s.pid > 0)
    && (s.startTime.Some? ==> s.phase == Running)
    && PhaseTells(s)
  }

  lemma ObservationCoherent(s: Status, obs: Observation, reportedAt: Option<string>, clock: Clock)
    requires AgentMade(obs)
    ensures Coherent(ObservedStatus(s, obs, reportedAt, clock).value)
  {
    MarksStand(s, obs, reportedAt, clock, StartedMark(obs));
    MarksStand(s, obs, reportedAt, clock, HealthyMark(obs));
  }

  lemma MarkingCoherent(s: Status, connected: bool, at: Time)
    requires Coherent(s)
    ensures Coherent(MarkedStatus(s, connected, at))
  {
    var c := if connected then CONNECTED else DISCONNECTED;
    SetFind(s.conditions, c, at, ProcessStarted);
    SetFind(s.conditions, c, at, Healthy);
  }

  /**
    In every status reached from an empty one by agent-made observations, connects and
    disconnects, the phase is Running exactly when ProcessStarted is True, when Healthy is True
    and when the PID is positive; a start time means Running; once observed, it is Failed exactly
    when ProcessStarted has reason ReconcileError and Pending exactly when ProcessNotStarted; and
    the controller's readiness test is Running plus AgentConnected.
   */
  lemma {:induction false} ReachableCoherent(ops: seq<Op>)
    requires forall i :: 0 <= i < |ops| && ops[i].Observe? ==> AgentMade(ops[i].obs)
    ensures var s := ApplyOps(EMPTY_STATUS, ops);
            && Coherent(s)
            && (ProcessReady(s) <==> s.phase == Running && IsTrue(s, AgentConnected))
    decreases |ops|
  {
    if ops != [] {
      var n := |ops| - 1;
      ReachableCoherent(ops[..n]);
      var s := ApplyOps(EMPTY_STATUS, ops[..n]);
      match ops[n]
      case Observe(obs, reportedAt, clock) => ObservationCoherent(s, obs, reportedAt, clock);
      case MarkDevice(connected, at) => MarkingCoherent(s, connected, at);
    }
  }
}
