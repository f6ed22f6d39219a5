/**
  Safety of the liveness tracker over every run of connects, reports, polls, sweeps and process
  changes, with a clock that never runs backwards and a positive stale multiplier.
 */
module LivenessLaws {
  import opened Prelude
  import opened Conditions
  import opened ApiTypes
  import opened StatusTransform
  import opened Liveness

  datatype Step =
    | Connect(device: string, now: Time, list: seq<Key>, api: Api)
    | Receive(device: string, now: Time, list: seq<Key>, api: Api, report: Report)
    | Poll(device: string, now: Time)
    | Sweep(now: Time, order: seq<string>, lists: map<string, seq<Key>>, api: Api)
    | Put(key: Key, proc: Proc)
    | Drop(key: Key)

  /** The gateway with the time of its last clock reading. */
  datatype World = World(state: State, clock: Time)

  /** The step's lists are what the API server holds, and time has not run backwards. */
  ghost predicate Enabled(w: World, step: Step) {
    match step
    case Connect(d, now, list, _) => now >= w.clock && Lists(w.state.procs, d, list)
    case Receive(d, now, list, _, _) => now >= w.clock && Lists(w.state.procs, d, list)
    case Poll(_, now) => now >= w.clock
    case Sweep(now, order, lists, _) =>
      now >= w.clock && Enumerates(order, w.state.tracker.lastSeen.Keys) && ListsAll(w.state.procs, order, lists)
    case Put(_, _) => true
    case Drop(_) => true
  }

  ghost function Next(c: Config, w: World, step: Step): World
    requires Enabled(w, step)
  {
    var s := w.state;
    match step
    case Connect(d, now, list, api) => World(Connected(c, s, d, now, list, api), now)
    case Receive(d, now, list, api, report) => World(Reported(c, s, d, now, list, api, report), now)
    case Poll(d, now) => World(State(PolledBy(c, s.tracker, d, now), s.procs), now)
    case Sweep(now, order, lists, api) => World(State(s.tracker, SweepAlong(c, s, now, order, lists, api)), now)
    case Put(key, proc) => w.(state := s.(procs := s.procs[key := proc]))
    case Drop(key) => w.(state := s.(procs := s.procs - {key}))
  }

  /** A run as the list of worlds it passes through. */
  ghost predicate IsRun(c: Config, worlds: seq<World>, steps: seq<Step>) {
    && |worlds| == |steps| + 1
    && worlds[0].state.tracker == Tracker(map[], map[], map[])
    && forall n :: 0 <= n < |steps| ==> Enabled(worlds[n], steps[n]) && worlds[n + 1] == Next(c, worlds[n], steps[n])
  }

  // ---------- the tracker ----------

  ghost predicate DeviceOk(c: Config, w: World, d: string) {
    var t := w.state.tracker;
    && d in t.lastSeen && d in t.lastReport && Hint(t, d) > 0
    && t.lastReport[d] <= t.lastSeen[d] <= t.lastReport[d] + StaleAfter(c, t, d)
    && t.lastSeen[d] <= w.clock
  }

  ghost predicate Inv(c: Config, w: World) {
    var t := w.state.tracker;
    && t.lastSeen.Keys == t.lastReport.Keys
    && forall d :: d in t.lastSeen ==> DeviceOk(c, w, d)
  }

  lemma StaleAfterPositive(c: Config, t: Tracker, d: string)
    requires c.multiplier > 0
    ensures StaleAfter(c, t, d) > 0
  {
  }

  /** A hint, once positive, is never changed. */
  lemma HintFixed(c: Config, w: World, step: Step, d: string)
    requires Enabled(w, step)
    ensures var t, t' := w.state.tracker, Next(c, w, step).state.tracker;
            Hint(t, d) > 0 ==> Hint(t', d) == Hint(t, d) && StaleAfter(c, t', d) == StaleAfter(c, t, d)
  {
    hide MarkAlong, ObservedAlong, SweepAlong, Lists, ListsAll, Enumerates;
  }

  /** A device without a hint gets the default interval with its first contact, but 15 seconds with its first poll. */
  lemma FirstHint(c: Config, w: World, step: Step, d: string)
    requires Enabled(w, step) && Hint(w.state.tracker, d) <= 0
    ensures var hint := Hint(Next(c, w, step).state.tracker, d);
            && (Contact(step, d) ==> hint == Normalize(c, 0))
            && (step.Poll? && step.device == d ==> hint == 15)
            && (!Contact(step, d) && !(step.Poll? && step.device == d) ==> hint == Hint(w.state.tracker, d))
  {
    hide MarkAlong, ObservedAlong, SweepAlong, Lists, ListsAll, Enumerates;
    assert Normalize(c, Hint(w.state.tracker, d)) == Normalize(c, 0);
  }

  predicate Contact(step: Step, d: string) {
    (step.Connect? || step.Receive?) && step.device == d
  }

  /** A contact resets both times; a poll moves lastSeen only within the allowance; nothing else moves them. */
  lemma StepTimes(c: Config, w: World, step: Step, d: string)
    requires Enabled(w, step)
    ensures var t, w' := w.state.tracker, Next(c, w, step);
            var t' := w'.state.tracker;
            && w.clock <= w'.clock
            && (Contact(step, d) ==>
                  && d in t'.lastSeen && d in t'.lastReport && Hint(t', d) > 0
                  && t'.lastSeen[d] == t'.lastReport[d] == w'.clock == step.now)
            && (!Contact(step, d) ==>
                  && (d in t'.lastReport <==> d in t.lastReport)
                  && (d in t'.lastReport ==> t'.lastReport[d] == t.lastReport[d])
                  && (d in t.lastSeen ==> d in t'.lastSeen))
            && (!Contact(step, d) && d in t'.lastSeen ==>
                  || (d in t.lastSeen && t'.lastSeen[d] == t.lastSeen[d])
                  || (d in t.lastReport && t'.lastSeen[d] == w'.clock <= t.lastReport[d] + StaleAfter(c, t', d)))
  {
    hide MarkAlong, ObservedAlong, SweepAlong, Lists, ListsAll, Enumerates;
  }

  lemma StepKeepsInv(c: Config, w: World, step: Step)
    requires c.multiplier > 0 && Inv(c, w) && Enabled(w, step)
    ensures Inv(c, Next(c, w, step))
  {
    hide Next, StaleAfter, Enabled, Hint;
    var t, t' := w.state.tracker, Next(c, w, step).state.tracker;
    forall d
      ensures (d in t'.lastSeen <==> d in t'.lastReport) && (d in t'.lastSeen ==> DeviceOk(c, Next(c, w, step), d))
    {
      StepTimes(c, w, step, d);
      HintFixed(c, w, step, d);
      StaleAfterPositive(c, t', d);
    }
  }

  lemma {:induction false} RunKeepsInv(c: Config, worlds: seq<World>, steps: seq<Step>, n: nat)
    requires c.multiplier > 0 && IsRun(c, worlds, steps) && n <= |steps|
    ensures Inv(c, worlds[n])
    decreases n
  {
    hide Next, Enabled;
    if n > 0 {
      RunKeepsInv(c, worlds, steps, n - 1);
      assert worlds[n - 1 + 1] == Next(c, worlds[n - 1], steps[n - 1]);
      StepKeepsInv(c, worlds[n - 1], steps[n - 1]);
    }
  }

  /**
    In every reachable state lastSeen and lastReport have the same keys, each has a positive
    hint, and lastReport <= lastSeen <= lastReport + S with S = hint * multiplier.
   */
  lemma TrackerInvariant(c: Config, worlds: seq<World>, steps: seq<Step>, n: nat, d: string)
    requires c.multiplier > 0 && IsRun(c, worlds, steps) && n <= |steps|
    ensures var t := worlds[n].state.tracker;
            && (d in t.lastSeen <==> d in t.lastReport)
            && (d in t.lastSeen ==>
                  && Hint(t, d) > 0 && StaleAfter(c, t, d) == t.hints[d] * c.multiplier * SECOND
                  && t.lastReport[d] <= t.lastSeen[d] <= t.lastReport[d] + StaleAfter(c, t, d))
  {
    hide Next, Enabled, IsRun;
    RunKeepsInv(c, worlds, steps, n);
  }

  /** Steps `m` up to `n` bring no report and no connect of the device. */
  ghost predicate NoContact(steps: seq<Step>, m: nat, n: nat, d: string)
    requires n <= |steps|
  {
    forall i :: m <= i < n ==> !Contact(steps[i], d)
  }

  /** lastReport is the time of the device's latest report or connect, and S has not changed since. */
  lemma {:induction false} LastContact(c: Config, worlds: seq<World>, steps: seq<Step>, m: nat, n: nat, d: string)
    requires IsRun(c, worlds, steps) && m < n <= |steps|
    requires Contact(steps[m], d) && NoContact(steps, m + 1, n, d)
    ensures var t := worlds[n].state.tracker;
            && d in t.lastReport && t.lastReport[d] == steps[m].now
            && Hint(t, d) > 0 && StaleAfter(c, t, d) == StaleAfter(c, worlds[m + 1].state.tracker, d)
    decreases n
  {
    hide Next, Enabled, StaleAfter, Hint;
    assert worlds[n - 1 + 1] == Next(c, worlds[n - 1], steps[n - 1]);
    StepTimes(c, worlds[n - 1], steps[n - 1], d);
    if n - 1 > m {
      LastContact(c, worlds, steps, m, n - 1, d);
      HintFixed(c, worlds[n - 1], steps[n - 1], d);
    }
  }

  /**
    A device silent on reports for more than 2S is found stale by a sweep at that time however
    often it polled, and one that reported within S never is.
   */
  lemma SilenceIsFound(c: Config, worlds: seq<World>, steps: seq<Step>, m: nat, n: nat, d: string, now: Time)
    requires c.multiplier > 0 && IsRun(c, worlds, steps) && m < n <= |steps| && now >= worlds[n].clock
    requires Contact(steps[m], d) && NoContact(steps, m + 1, n, d)
    ensures var S := StaleAfter(c, worlds[m + 1].state.tracker, d);
            && (now - steps[m].now > 2 * S ==> Silent(c, worlds[n].state.tracker, d, now))
            && (now - steps[m].now <= S ==> !Silent(c, worlds[n].state.tracker, d, now))
  {
    hide IsRun, StaleAfter;
    LastContact(c, worlds, steps, m, n, d);
    TrackerInvariant(c, worlds, steps, n, d);
  }

  // ---------- sweeps and reconnection ----------

  /** What a sweep does to one process: nothing unless its device is silent, and then at most the mark. */
  lemma {:induction false} SweepTouches(c: Config, s: State, now: Time, order: seq<string>,
                                        lists: map<string, seq<Key>>, api: Api, k: Key)
    requires ListsAll(s.procs, order, lists) && k in s.procs
    requires forall i, j :: 0 <= i < j < |order| ==> order[i] != order[j]
    ensures var procs := SweepAlong(c, s, now, order, lists, api);
            && MarkedOrKept(s.procs[k], procs[k], false, now)
            && (!(Silent(c, s.tracker, s.procs[k].device, now) && s.procs[k].device in order) ==>
                procs[k] == s.procs[k])
            && (Silent(c, s.tracker, s.procs[k].device, now) && s.procs[k].device in order && (forall x :: api(x)) ==>
                  procs[k] == s.procs[k].(status := MarkedStatus(s.procs[k].status, false, now)))
    decreases |order|
  {
    hide MarkAlong, MarkedStatus, Silent;
    if order != [] {
      var n := |order| - 1;
      var d := order[n];
      SweepTouches(c, s, now, order[..n], lists, api, k);
      if Silent(c, s.tracker, d, now) {
        var before := SweepAlong(c, s, now, order[..n], lists, api);
        assert forall i :: 0 <= i < |lists[d]| ==> lists[d][i] in s.procs;
        MarkAlongTouches(before, lists[d], false, now, api, k);
        MarkAlongMarks(before, lists[d], false, now, api);
        assert k in lists[d] <==> s.procs[k].device == d;
        assert d !in order[..n];
      }
    }
  }

  /**
    After a sweep whose patches go through, exactly the silent devices' processes were marked, and
    they read disconnected.
   */
  lemma SweepExact(c: Config, w: World, step: Step, k: Key)
    requires Enabled(w, step) && step.Sweep? && k in w.state.procs && (forall x :: step.api(x))
    ensures var was, p := w.state.procs[k], Next(c, w, step).state.procs[k];
            if Silent(c, w.state.tracker, was.device, step.now)
            then p.device == was.device && Disconnected(p)
            else p == was
  {
    hide SweepAlong, MarkedStatus, Lists;
    SweepTouches(c, w.state, step.now, step.order, step.lists, step.api, k);
    MarkTells(w.state.procs[k].status, false, step.now);
  }

  /** The process says its agent is gone. */
  predicate Disconnected(p: Proc) {
    var e := Find(p.status.conditions, AgentConnected);
    e.Some? && e.value.status == CondFalse
  }

  /** Once silent, a device stays silent, whatever is polled, until its next report or connect. */
  lemma SilentStep(c: Config, w: World, step: Step, d: string)
    requires c.multiplier > 0 && Inv(c, w) && Enabled(w, step)
    requires Silent(c, w.state.tracker, d, w.clock) && !Contact(step, d)
    ensures var w' := Next(c, w, step);
            && Silent(c, w'.state.tracker, d, w'.clock)
            && w'.state.tracker.lastSeen[d] == w.state.tracker.lastSeen[d]
  {
    hide Next, Enabled, StaleAfter, Hint;
    StepTimes(c, w, step, d);
    HintFixed(c, w, step, d);
  }

  lemma {:induction false} SilentUntilContact(c: Config, worlds: seq<World>, steps: seq<Step>, m: nat, n: nat,
                                              d: string)
    requires c.multiplier > 0 && IsRun(c, worlds, steps) && m <= n <= |steps|
    requires Silent(c, worlds[m].state.tracker, d, worlds[m].clock) && NoContact(steps, m, n, d)
    ensures Silent(c, worlds[n].state.tracker, d, worlds[n].clock)
    ensures worlds[n].state.tracker.lastSeen[d] == worlds[m].state.tracker.lastSeen[d]
    decreases n
  {
    hide Next, Enabled, Inv, StaleAfter;
    if n > m {
      SilentUntilContact(c, worlds, steps, m, n - 1, d);
      RunKeepsInv(c, worlds, steps, n - 1);
      assert worlds[n - 1 + 1] == Next(c, worlds[n - 1], steps[n - 1]);
      SilentStep(c, worlds[n - 1], steps[n - 1], d);
    }
  }

  /** A connect, or a report after a silence, with its patches going through. */
  lemma ContactConnects(c: Config, w: World, step: Step, d: string, k: Key)
    requires Enabled(w, step) && Contact(step, d) && (forall x :: step.api(x))
    requires step.Connect? || d !in w.state.tracker.lastSeen || Silent(c, w.state.tracker, d, step.now)
    requires k in w.state.procs && w.state.procs[k].device == d
    ensures var procs := Next(c, w, step).state.procs;
            k in procs && procs[k].device == d && IsTrue(procs[k].status, AgentConnected)
  {
    hide MarkAlong, MarkedStatus, ObservedAlong, Silent, Contacted;
    var procs := w.state.procs;
    MarkAlongMarks(procs, step.list, true, step.now, step.api);
    MarkTells(procs[k].status, true, step.now);
    assert k in step.list;
    if step.Receive? {
      ObservedAlongFacts(MarkAlong(procs, step.list, true, step.now, step.api).0, d, step.report,
          |step.report.observations|);
    }
  }

  /**
    Once a sweep finds a device stale, no number of polls refreshes lastSeen, and its next report
    or connect, patches going through, sets AgentConnected True on every process of the device.
   */
  lemma NextContactReconnects(c: Config, worlds: seq<World>, steps: seq<Step>, m: nat, n: nat, d: string, k: Key)
    requires c.multiplier > 0 && IsRun(c, worlds, steps) && m < n < |steps|
    requires steps[m].Sweep? && Silent(c, worlds[m].state.tracker, d, steps[m].now)
    requires NoContact(steps, m, n, d) && Contact(steps[n], d) && (forall x :: steps[n].api(x))
    requires k in worlds[n].state.procs && worlds[n].state.procs[k].device == d
    ensures d in worlds[n].state.tracker.lastSeen
        && worlds[n].state.tracker.lastSeen[d] == worlds[m].state.tracker.lastSeen[d]
    ensures var procs := worlds[n + 1].state.procs;
            k in procs && procs[k].device == d && IsTrue(procs[k].status, AgentConnected)
  {
    hide SweepAlong, Connected, Reported, PolledBy, Lists, ListsAll, Enumerates, StaleAfter, IsTrue;
    assert worlds[m + 1] == Next(c, worlds[m], steps[m]);
    SilentUntilContact(c, worlds, steps, m + 1, n, d);
    ContactConnects(c, worlds[n], steps[n], d, k);
  }

  // ---------- what AgentConnected False means ----------

  /** The contact marks the device's processes: a connect always, a report only after a silence. */
  predicate MarksAll(c: Config, w: World, step: Step)
    requires step.Connect? || step.Receive?
  {
    step.Connect? || step.device !in w.state.tracker.lastSeen || Silent(c, w.state.tracker, step.device, step.now)
  }

  /**
    Exactly when a contact leaves a process disconnected. A marking one: it was disconnected and a
    patch up to its own was needed and refused. A report that does not mark: it was disconnected
    and the report has no observation of it before one that ends the report.
   */
  lemma ContactLeavesExactly(c: Config, w: World, step: Step, j: nat)
    requires Enabled(w, step) && (step.Connect? || step.Receive?) && j < |step.list|
    ensures var procs, k := w.state.procs, step.list[j];
            && k in procs && k in Next(c, w, step).state.procs
            && (Disconnected(Next(c, w, step).state.procs[k]) <==>
                  && Disconnected(procs[k])
                  && if MarksAll(c, w, step) then Stopped(procs, step.list, j, true, step.api)
                     else !Heard(procs, step.device, step.report, |step.report.observations|, k))
  {
    hide MarkAlong, ObservedAlong, Contacted, StaleAfter, MarkedStatus, Heard, Silent, Refused;
    var d, procs, list, k := step.device, w.state.procs, step.list, step.list[j];
    assert k in list;
    MarkAlongExact(procs, list, true, step.now, step.api, j);
    MarkTells(procs[k].status, true, step.now);
    if step.Receive? {
      var n := |step.report.observations|;
      ObservedAlongFacts(MarkAlong(procs, list, true, step.now, step.api).0, d, step.report, n);
      ObservedAlongExact(procs, d, step.report, n, k);
    }
  }

  /** A process reads disconnected only while its device is silent. */
  ghost predicate Truthful(c: Config, w: World) {
    forall k :: k in w.state.procs && Disconnected(w.state.procs[k]) ==>
        Silent(c, w.state.tracker, w.state.procs[k].device, w.clock)
  }

  /**
    The step breaks that: a contact whose marking stops at or before a disconnected process, or a
    process put from outside that reads disconnected although its device is not silent.
   */
  ghost predicate Leaves(c: Config, w: World, step: Step)
    requires Enabled(w, step)
  {
    match step
    case Connect(_, _, list, api) => LeavesListed(w.state.procs, list, api)
    case Receive(_, _, list, api, _) => LeavesListed(w.state.procs, list, api)
    case Put(_, proc) => Disconnected(proc) && !Silent(c, w.state.tracker, proc.device, w.clock)
    case _ => false
  }

  ghost predicate LeavesListed(procs: map<Key, Proc>, list: seq<Key>, api: Api)
    requires forall i :: 0 <= i < |list| ==> list[i] in procs
  {
    exists j: nat :: j < |list| && Disconnected(procs[list[j]]) && Stopped(procs, list, j, true, api)
  }

  lemma LaterSilent(c: Config, t: Tracker, d: string, before: Time, now: Time)
    requires before <= now
    ensures Silent(c, t, d, before) ==> Silent(c, t, d, now)
  {
  }

  /** A contacted device is not silent. */
  lemma ContactEndsSilence(c: Config, w: World, step: Step)
    requires c.multiplier > 0 && Enabled(w, step) && (step.Connect? || step.Receive?)
    ensures !Silent(c, Next(c, w, step).state.tracker, step.device, Next(c, w, step).clock)
  {
    hide Next, Enabled, StaleAfter, Hint;
    StepTimes(c, w, step, step.device);
    StaleAfterPositive(c, Next(c, w, step).state.tracker, step.device);
  }

  /** A contact leaves the processes of other devices alone. */
  lemma ContactSparesOthers(c: Config, w: World, step: Step, k: Key)
    requires Enabled(w, step) && (step.Connect? || step.Receive?)
    ensures var procs, procs' := w.state.procs, Next(c, w, step).state.procs;
            && (k in procs <==> k in procs')
            && (k in procs ==> procs'[k].device == procs[k].device)
            && (k in procs && procs[k].device != step.device ==> procs'[k] == procs[k])
  {
    hide MarkAlong, ObservedAlong, Contacted, Silent, MarkedStatus, IsTrue;
    var procs := w.state.procs;
    var marked := MarkAlong(procs, step.list, true, step.now, step.api).0;
    if k in procs {
      MarkAlongTouches(procs, step.list, true, step.now, step.api, k);
    }
    if step.Receive? {
      ObservedAlongFacts(procs, step.device, step.report, |step.report.observations|);
      ObservedAlongFacts(marked, step.device, step.report, |step.report.observations|);
    }
  }

  lemma ContactTruthfulIff(c: Config, w: World, step: Step)
    requires c.multiplier > 0 && Inv(c, w) && Truthful(c, w) && Enabled(w, step) && (step.Connect? || step.Receive?)
    ensures Truthful(c, Next(c, w, step)) <==> !LeavesListed(w.state.procs, step.list, step.api)
  {
    hide Next, Silent, Inv, StaleAfter, Disconnected, Stopped, Heard, ListsAll, Enumerates;
    var w', procs, list := Next(c, w, step), w.state.procs, step.list;
    ContactEndsSilence(c, w, step);
    forall j: nat | j < |list|
      ensures list[j] in procs && list[j] in w'.state.procs && w'.state.procs[list[j]].device == step.device
      ensures Disconnected(w'.state.procs[list[j]]) <==>
              Disconnected(procs[list[j]]) && Stopped(procs, list, j, true, step.api)
    {
      ContactLeavesExactly(c, w, step, j);
      ContactSparesOthers(c, w, step, list[j]);
      assert list[j] in list;
      LaterSilent(c, w.state.tracker, step.device, w.clock, step.now);
    }
    if !LeavesListed(procs, list, step.api) {
      forall k | k in procs && procs[k].device == step.device
        ensures k in w'.state.procs && !Disconnected(w'.state.procs[k])
      {
        var j :| 0 <= j < |list| && list[j] == k;
      }
      forall k | k in w'.state.procs && Disconnected(w'.state.procs[k])
        ensures Silent(c, w'.state.tracker, w'.state.procs[k].device, w'.clock)
      {
        ContactSparesOthers(c, w, step, k);
        SilentStep(c, w, step, procs[k].device);
      }
    }
  }

  /** Each step keeps the reading truthful exactly when it does not leave such a process. */
  lemma StepTruthfulIff(c: Config, w: World, step: Step)
    requires c.multiplier > 0 && Inv(c, w) && Truthful(c, w) && Enabled(w, step)
    ensures Truthful(c, Next(c, w, step)) <==> !Leaves(c, w, step)
  {
    hide Connected, Reported, PolledBy, SweepAlong, Lists, ListsAll, Silent, Inv, StaleAfter, Disconnected,
        LeavesListed;
    var w' := Next(c, w, step);
    match step
    case Connect(_, _, _, _) => ContactTruthfulIff(c, w, step);
    case Receive(_, _, _, _, _) => ContactTruthfulIff(c, w, step);
    case Sweep(_, _, _, _) => SweepTruthful(c, w, step);
    case Poll(_, _) => PollTruthful(c, w, step);
    case Put(key, proc) =>
      assert w'.state.procs[key] == proc;
    case Drop(_) =>
  }

  lemma SweepTruthful(c: Config, w: World, step: Step)
    requires Truthful(c, w) && Enabled(w, step) && step.Sweep?
    ensures Truthful(c, Next(c, w, step))
  {
    hide SweepAlong, Lists, Silent, MarkedStatus, Disconnected;
    var w' := Next(c, w, step);
    forall k | k in w'.state.procs && Disconnected(w'.state.procs[k])
      ensures Silent(c, w'.state.tracker, w'.state.procs[k].device, w'.clock)
    {
      SweepTouches(c, w.state, step.now, step.order, step.lists, step.api, k);
      LaterSilent(c, w.state.tracker, w.state.procs[k].device, w.clock, step.now);
    }
  }

  lemma PollTruthful(c: Config, w: World, step: Step)
    requires c.multiplier > 0 && Inv(c, w) && Truthful(c, w) && Enabled(w, step) && step.Poll?
    ensures Truthful(c, Next(c, w, step))
  {
    hide PolledBy, Silent, Inv, Disconnected;
    var w' := Next(c, w, step);
    forall k | k in w'.state.procs && Disconnected(w'.state.procs[k])
      ensures Silent(c, w'.state.tracker, w'.state.procs[k].device, w'.clock)
    {
      SilentStep(c, w, step, w.state.procs[k].device);
    }
  }

  /**
    In a run, a process reads AgentConnected False only while its device is silent, in every state,
    exactly when no step leaves a disconnected process behind: no connect or report whose marking
    is refused a needed patch at or before a disconnected process, and no false reading from outside.
   */
  lemma {:induction false} TruthfulRunIff(c: Config, worlds: seq<World>, steps: seq<Step>)
    requires c.multiplier > 0 && IsRun(c, worlds, steps) && Truthful(c, worlds[0])
    ensures (forall n :: 0 <= n < |worlds| ==> Truthful(c, worlds[n])) <==>
            (forall n :: 0 <= n < |steps| ==> !Leaves(c, worlds[n], steps[n]))
  {
    hide Next, Enabled, Leaves, Inv, Truthful;
    forall n | 0 <= n < |steps|
      ensures Truthful(c, worlds[n]) ==> (Truthful(c, worlds[n + 1]) <==> !Leaves(c, worlds[n], steps[n]))
    {
      if Truthful(c, worlds[n]) {
        RunKeepsInv(c, worlds, steps, n);
        StepTruthfulIff(c, worlds[n], steps[n]);
      }
    }
    if forall n :: 0 <= n < |worlds| ==> Truthful(c, worlds[n]) {
      forall n | 0 <= n < |steps| ensures !Leaves(c, worlds[n], steps[n]) {
        assert Truthful(c, worlds[n]) && Truthful(c, worlds[n + 1]);
      }
    }
    if forall n :: 0 <= n < |steps| ==> !Leaves(c, worlds[n], steps[n]) {
      TruthfulUpTo(c, worlds, steps, |steps|);
    }
  }

  lemma {:induction false} TruthfulUpTo(c: Config, worlds: seq<World>, steps: seq<Step>, m: nat)
    requires c.multiplier > 0 && IsRun(c, worlds, steps) && Truthful(c, worlds[0]) && m <= |steps|
    requires forall n :: 0 <= n < m ==> !Leaves(c, worlds[n], steps[n])
    ensures forall n :: 0 <= n <= m ==> Truthful(c, worlds[n])
    decreases m
  {
    hide Next, Enabled, Leaves, Inv, Truthful;
    if m > 0 {
      TruthfulUpTo(c, worlds, steps, m - 1);
      RunKeepsInv(c, worlds, steps, m - 1);
      assert !Leaves(c, worlds[m - 1], steps[m - 1]);
      StepTruthfulIff(c, worlds[m - 1], steps[m - 1]);
      assert worlds[m - 1 + 1] == Next(c, worlds[m - 1], steps[m - 1]);
    }
  }

  /** Every patch of the step goes through, and a process put from outside does not read disconnected. */
  ghost predicate Clean(step: Step) {
    match step
    case Connect(_, _, _, api) => forall x :: api(x)
    case Receive(_, _, _, api, _) => forall x :: api(x)
    case Sweep(_, _, _, api) => forall x :: api(x)
    case Put(_, proc) => !Disconnected(proc)
    case _ => true
  }

  lemma CleanLeavesNone(c: Config, w: World, step: Step)
    requires Enabled(w, step) && Clean(step)
    ensures !Leaves(c, w, step)
  {
    hide Silent;
  }

  /** In particular in every run whose status patches all go through. */
  lemma DisconnectedMeansSilent(c: Config, worlds: seq<World>, steps: seq<Step>, n: nat, k: Key)
    requires c.multiplier > 0 && IsRun(c, worlds, steps) && n <= |steps|
    requires worlds[0].state.procs == map[] && forall i :: 0 <= i < |steps| ==> Clean(steps[i])
    requires k in worlds[n].state.procs && Disconnected(worlds[n].state.procs[k])
    ensures Silent(c, worlds[n].state.tracker, worlds[n].state.procs[k].device, worlds[n].clock)
  {
    hide Next, Enabled, Clean, Leaves, Silent;
    forall i | 0 <= i < |steps| ensures !Leaves(c, worlds[i], steps[i]) {
      CleanLeavesNone(c, worlds[i], steps[i]);
    }
    TruthfulRunIff(c, worlds, steps);
    assert Truthful(c, worlds[n]);
  }

  /**
    Why the patches must go through: a connect whose patch is refused still counts as a sign of
    life, so the process keeps reading disconnected through the next report although its device
    is not silent.
   */
  lemma RefusedMarkLingers(c: Config, w: World, first: Step, second: Step, k: Key)
    requires Enabled(w, first) && first.Connect? && first.list == [k] && !first.api(k) && Disconnected(w.state.procs[k])
    requires Enabled(Next(c, w, first), second) && second.Receive? && second.device == first.device
    requires second.report.observations == []
    requires second.now - first.now <= StaleAfter(c, Next(c, w, first).state.tracker, first.device)
    ensures var w' := Next(c, Next(c, w, first), second);
            && k in w'.state.procs && Disconnected(w'.state.procs[k])
            && !Silent(c, w'.state.tracker, first.device, w'.clock)
  {
    hide StaleAfter, Disconnected, Hint, Next;
    var w1 := Next(c, w, first);
    assert k in first.list;
    NeedsPatch(w, k, first.api);
    ContactLeavesExactly(c, w, first, 0);
    ContactSparesOthers(c, w, first, k);
    StepTimes(c, w, first, first.device);
    var j :| 0 <= j < |second.list| && second.list[j] == k;
    ContactLeavesExactly(c, w1, second, j);
    StepTimes(c, w1, second, first.device);
    HintFixed(c, w1, second, first.device);
  }

  lemma NeedsPatch(w: World, k: Key, api: Api)
    requires k in w.state.procs && Disconnected(w.state.procs[k]) && !api(k)
    ensures Stopped(w.state.procs, [k], 0, true, api)
  {
    assert Refused(w.state.procs, [k], 0, true, api);
  }

  /** The device has this one process. */
  ghost predicate Sole(w: World, d: string, k: Key) {
    w.state.procs.Keys == {k} && w.state.procs[k].device == d
  }

  lemma SoleListed(w: World, d: string, k: Key)
    requires Sole(w, d, k)
    ensures Lists(w.state.procs, d, [k])
  {
  }

  /** Some process reads disconnected past a sweep that found its device silent. */
  lemma SweptIsReachable(c: Config, d: string, k: Key) returns (worlds: seq<World>, steps: seq<Step>)
    requires c.multiplier > 0
    ensures IsRun(c, worlds, steps) && |steps| == 3 && worlds[0].state.procs == map[]
    ensures Sole(worlds[3], d, k) && Disconnected(worlds[3].state.procs[k])
  {
    hide MarkAlong, SweepAlong, StaleAfter, MarkedStatus, Normalize;
    var w0 := World(State(Tracker(map[], map[], map[]), map[]), 0);
    var s0 := Put(k, Proc(d, EMPTY_STATUS));
    var w1 := Next(c, w0, s0);
    var s1 := Connect(d, 0, [k], (x: Key) => true);
    SoleListed(w1, d, k);
    var w2 := Next(c, w1, s1);
    ContactSparesOthers(c, w1, s1, k);
    assert Sole(w2, d, k);
    SoleListed(w2, d, k);
    StaleAfterPositive(c, w2.state.tracker, d);
    var s2 := Sweep(StaleAfter(c, w2.state.tracker, d) + 1, [d], map[d := [k]], (x: Key) => true);
    assert w2.state.tracker.lastSeen == map[d := 0];
    assert Enumerates([d], {d}) && ListsAll(w2.state.procs, [d], map[d := [k]]);
    var w3 := Next(c, w2, s2);
    SweepExact(c, w2, s2, k);
    worlds, steps := [w0, w1, w2, w3], [s0, s1, s2];
  }

  /** From the start, for every device and process, such a lingering process is reached. */
  lemma LingeringIsReachable(c: Config, d: string, k: Key) returns (worlds: seq<World>, steps: seq<Step>)
    requires c.multiplier > 0
    ensures IsRun(c, worlds, steps) && |steps| == 5 && worlds[0].state.procs == map[]
    ensures var w := worlds[5];
            && k in w.state.procs && Disconnected(w.state.procs[k])
            && !Silent(c, w.state.tracker, d, w.clock)
  {
    hide Next, StaleAfter, Disconnected, Silent, Lists;
    worlds, steps := SweptIsReachable(c, d, k);
    var w3 := worlds[3];
    SoleListed(w3, d, k);
    var s3 := Connect(d, w3.clock, [k], (x: Key) => false);
    var w4 := Next(c, w3, s3);
    ContactSole(c, w3, s3, k);
    SoleListed(w4, d, k);
    var s4 := Receive(d, w3.clock, [k], (x: Key) => true, Report([], None, Clock(0, 0, 0, 0, 0, 0, 0), None));
    StepTimes(c, w3, s3, d);
    StaleAfterPositive(c, w4.state.tracker, d);
    RefusedMarkLingers(c, w3, s3, s4, k);
    worlds, steps := worlds + [w4, Next(c, w4, s4)], steps + [s3, s4];
  }

  lemma ContactSole(c: Config, w: World, step: Step, k: Key)
    requires Enabled(w, step) && (step.Connect? || step.Receive?) && Sole(w, step.device, k)
    ensures Sole(Next(c, w, step), step.device, k)
  {
    hide Next, Enabled;
    forall x ensures x in Next(c, w, step).state.procs <==> x == k {
      ContactSparesOthers(c, w, step, x);
    }
    ContactSparesOthers(c, w, step, k);
  }
}
