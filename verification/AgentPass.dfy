/**
  One pass of the agent's reconcile (agent/main.go) over the items the gateway desires: the
  managed-item map, the unit and environment files, the systemctl calls and the observations.
  Answers of the outside world (artifact fetch, systemctl, file errors, the clock) are inputs.
 */
module AgentPass {
  import opened Prelude
  import opened Text
  import opened ApiTypes
  import opened Render
  import opened Units

  // ---------- managed items and rate limiting ----------

  /** LastActionAt: blank, a whole second, or a text that does not parse. */
  datatype ActionTime = NoAction | ActedAt(second: int) | Garbled

  datatype Managed = Managed(unitName: string, lastActionAt: ActionTime, lastActionSpecHash: string,
      lastActionDescription: string)

  /** The zero value a missing map entry reads as. */
  const UNMANAGED: Managed := Managed("", NoAction, "", "")

  function CarryManaged(prev: Managed, unitName: string): Managed {
    prev.(unitName := unitName)
  }

  /** markAction: the time is kept in whole seconds. */
  function MarkAction(mi: Managed, specHash: string, description: string, now: Time): Managed {
    mi.(lastActionAt := ActedAt(now / SECOND), lastActionSpecHash := specHash, lastActionDescription := description)
  }

  const MIN_INTERVAL: Time := 5 * SECOND

  predicate ShouldAttemptAction(mi: Managed, specHash: string, now: Time) {
    || !mi.lastActionAt.ActedAt?
    || (mi.lastActionSpecHash != "" && mi.lastActionSpecHash != specHash)
    || now - mi.lastActionAt.second * SECOND >= MIN_INTERVAL
  }

  // ---------- the outside world ----------

  /** systemctl show: whether ActiveState is "active", the main PID and its start time. */
  datatype Shown = ShowErr(msg: string) | Shown(pid: int, start: Option<Time>, active: bool)

  /** The artifact fetch and the resolution of the command against its root. */
  datatype Fetched = Fetched(
    error: Option<string>, resolved: Result<seq<string>, string>,
    digest: string, attempts: int, lastAttemptTime: string, lastError: string,
    downloaded: bool, verified: bool,
    downloadReason: string, downloadMessage: string, verifyReason: string, verifyMessage: string)

  datatype Answers = Answers(
    fetched: Fetched,
    renderError: string, unitRemove: bool, envRemove: bool,
    files: FileAnswers,
    enable: Ran, restart: Ran, actionAt: Time,
    show: Shown, checkAt: Time, drift: Ran, driftAt: Time, showAgain: Shown)

  /** What the pass did to systemd and the disk. */
  datatype Call =
    | Enable(unit: string)
    | Restart(unit: string)
    | Disable(unit: string)
    | DaemonReload
    | Write(path: Path)
    | Remove(path: Path)

  datatype ItemResult = ItemResult(disk: Disk, managed: Managed, obs: Observation, calls: seq<Call>, drifted: bool)

  // ---------- observations ----------

  const NEVER_WARNING: string :=
    "DaemonSet semantics: agent will start service when stopped even if Restart=no; RestartPolicy affects systemd only."

  function BlankObservation(item: DesiredItem): Observation {
    Observation(item.key, item.specHash, None, None, 0, Blank, None,
                if item.spec.restartPolicy == Never then Some(NEVER_WARNING) else None,
                "", 0, "", "", None, None, "", "", "", "")
  }

  function Started(obs: Observation, started: bool): Observation {
    obs.(processStarted := Some(started), healthy := Some(started))
  }

  function FailedWith(obs: Observation, msg: string): Observation {
    Started(obs, false).(errorMessage := Some(msg))
  }

  function DefaultString(val: string, fallback: string): string {
    if Trim(val) == "" then fallback else val
  }

  function NoArtifact(obs: Observation): Observation {
    obs.(artifactDownloaded := Some(false), artifactVerified := Some(false),
         artifactDownloadReason := "NotApplicable", artifactDownloadMessage := "artifact type not oci",
         artifactVerifyReason := "NotApplicable", artifactVerifyMessage := "artifact type not oci")
  }

  function WithArtifact(obs: Observation, f: Fetched): Observation {
    obs.(artifactDigest := f.digest, artifactDownloadAttempts := f.attempts,
         lastArtifactAttemptTime := f.lastAttemptTime, artifactLastError := f.lastError,
         artifactDownloaded := Some(f.downloaded), artifactVerified := Some(f.verified),
         artifactDownloadReason := DefaultString(f.downloadReason, "ArtifactDownloaded"),
         artifactDownloadMessage := DefaultString(f.downloadMessage, "artifact downloaded"),
         artifactVerifyReason := DefaultString(f.verifyReason, "ArtifactVerified"),
         artifactVerifyMessage := DefaultString(f.verifyMessage, "artifact verified"))
  }

  // ---------- one item ----------

  /** The item is not driven further: its observation, and whether its unit is stopped. */
  datatype Prepared = Skip(obs: Observation, stop: bool) | Go(obs: Observation, execution: Execution)

  /** Backend and artifact handling, up to the execution to render. */
  function Prepare(item: DesiredItem, a: Answers): Prepared {
    var obs := BlankObservation(item);
    var e := item.spec.execution;
    if e.backend != Systemd then Skip(Started(obs, false), false)
    else if item.spec.artifact.atype != Oci then Go(NoArtifact(obs), e)
    else
      var obs' := WithArtifact(obs, a.fetched);
      if a.fetched.error.Some? then
        Skip(FailedWith(obs', if Trim(a.fetched.lastError) != "" then a.fetched.lastError else a.fetched.error.value),
            true)
      else if a.fetched.resolved.Err? then Skip(FailedWith(obs', a.fetched.resolved.error), true)
      else Go(obs', e.(command := a.fetched.resolved.value))
  }

  function RemoveCalls(disk: Disk, base: string, a: Answers): seq<Call> {
    if !a.unitRemove then []
    else
      (if UnitPath(base) in disk then [Remove(UnitPath(base))] else [])
      + (if a.envRemove && EnvPath(base) in disk then [Remove(EnvPath(base))] else [])
      + (if a.envRemove && UnitPath(base) in disk then [DaemonReload] else [])
  }

  function EnvFilePath(base: string): string {
    "/etc/apollo/env/" + base + ".env"
  }

  function TextsOf(base: string, item: DesiredItem, e: Execution): Files {
    FilesOf(item.key.namespace, item.key.name, EnvFilePath(base), e, item.spec.restartPolicy)
  }

  /** The observation from the unit state last shown; the start time is printed in whole seconds. */
  function Reported(obs: Observation, pid: int, start: Option<Time>, active: bool): Observation {
    var started := active && pid > 0;
    Started(obs, started).(
      pid := if started then pid else 0,
      startTime := if started && start.Some? then At(start.value / SECOND * SECOND) else Blank)
  }

  /** Show, correct drift at most once, show again. */
  function Settle(disk: Disk, m: Managed, base: string, specHash: string, obs: Observation, a: Answers): ItemResult {
    match a.show
    case ShowErr(msg) => ItemResult(disk, m, FailedWith(obs, msg), [], false)
    case Shown(pid, start, active) =>
      if !((!active || pid == 0) && ShouldAttemptAction(m, specHash, a.checkAt)) then
        ItemResult(disk, m, Reported(obs, pid, start, active), [], false)
      else
        var act := if active && pid == 0 then Restart(UnitName(base)) else Enable(UnitName(base));
        var description := if active && pid == 0 then "restart-drift" else "enable-and-start-drift";
        var m' := MarkAction(m, specHash, description, a.driftAt);
        if a.drift.RanErr? then
          ItemResult(disk, m', Reported(FailedWith(obs, a.drift.msg), pid, start, active),
              [act, Disable(UnitName(base))], true)
        else
          match a.showAgain
          case ShowErr(msg) => ItemResult(disk, m', Reported(obs.(errorMessage := Some(msg)), 0, None, false), [act],
              true)
          case Shown(pid', start', active') => ItemResult(disk, m', Reported(obs, pid', start', active'), [act], true)
  }

  function After(calls: seq<Call>, r: ItemResult): ItemResult {
    r.(calls := calls + r.calls)
  }

  /** Start a new unit, restart a changed one, leave an unchanged one alone; then settle. */
  function StartOrRestart(disk: Disk, prev: Option<Managed>, base: string, item: DesiredItem, obs: Observation,
                          changed: bool, m: Managed, a: Answers): ItemResult {
    var unit := UnitName(base);
    if prev.None? then
      if a.enable.RanErr? then ItemResult(disk, m, FailedWith(obs, a.enable.msg), [Enable(unit), Disable(unit)], false)
      else After([Enable(unit)], Settle(disk, MarkAction(m, item.specHash, "enable-and-start", a.actionAt), base,
          item.specHash, obs, a))
    else if changed then
      if a.restart.RanErr? then ItemResult(disk, m, FailedWith(obs, a.restart.msg), [Restart(unit), Disable(unit)],
          false)
      else After([Restart(unit)], Settle(disk, MarkAction(m, item.specHash, "restart", a.actionAt), base,
          item.specHash, obs, a))
    else Settle(disk, m, base, item.specHash, obs, a)
  }

  function WriteCalls(w: Ensured, base: string): seq<Call> {
    (if w.unitChanged then [Write(UnitPath(base))] else []) + (if w.envChanged then [Write(EnvPath(base))] else [])
  }

  /** Write the files, reload, then start or restart and settle. */
  function Drive(disk: Disk, prev: Option<Managed>, base: string, item: DesiredItem, obs: Observation, texts: Files,
                 a: Answers): ItemResult {
    var unit := UnitName(base);
    var m := CarryManaged(if prev.Some? then prev.value else UNMANAGED, unit);
    var w := Ensure(disk, base, texts.unit, texts.env, a.files);
    if w.error.Some? then
      ItemResult(w.disk, m, FailedWith(obs, w.error.value), WriteCalls(w, base) + [Disable(unit)], false)
    else
      After(WriteCalls(w, base) + (if w.unitChanged then [DaemonReload] else []),
            StartOrRestart(w.disk, prev, base, item, obs, w.unitChanged || w.envChanged, m, a))
  }

  function PassItem(disk: Disk, prev: Option<Managed>, base: string, item: DesiredItem, a: Answers): ItemResult {
    var m := CarryManaged(if prev.Some? then prev.value else UNMANAGED, UnitName(base));
    match Prepare(item, a)
    case Skip(obs, stop) => ItemResult(disk, m, obs, if stop then [Disable(UnitName(base))] else [], false)
    case Go(obs, e) =>
      if !Renderable(e) then
        ItemResult(Removed(disk, base, a.unitRemove, a.envRemove), m, FailedWith(obs, a.renderError),
                   [Disable(UnitName(base))] + RemoveCalls(disk, base, a), false)
      else Drive(disk, prev, base, item, obs, TextsOf(base, item, e), a)
  }

  // ---------- the whole pass ----------

  datatype PassState = PassState(disk: Disk, now: map<string, Managed>, obs: seq<Observation>, calls: seq<Call>)

  function Prev(managed: map<string, Managed>, key: Key): Option<Managed> {
    if ItemKey(key) in managed then Some(managed[ItemKey(key)]) else None
  }

  /** The item loop. */
  function PassItems(base: Key -> string, disk: Disk, managed: map<string, Managed>, items: seq<DesiredItem>,
                     answers: seq<Answers>): PassState
    requires |answers| == |items|
    decreases |items|
  {
    if items == [] then PassState(disk, map[], [], [])
    else
      var n := |items| - 1;
      var p := PassItems(base, disk, managed, items[..n], answers[..n]);
      var r := PassItem(p.disk, Prev(managed, items[n].key), base(items[n].key), items[n], answers[n]);
      PassState(r.disk, p.now[ItemKey(items[n].key) := r.managed], p.obs + [r.obs], p.calls + r.calls)
  }

  ghost function PassNothing(base: Key -> string, disk: Disk, managed: map<string, Managed>): (p: PassState)
    ensures p == PassItems(base, disk, managed, [], []) == PassState(disk, map[], [], [])
  {
    PassState(disk, map[], [], [])
  }

  ghost function PassOneMore(base: Key -> string, disk: Disk, managed: map<string, Managed>, items: seq<DesiredItem>,
                             answers: seq<Answers>, i: nat): (p: PassState)
    requires |answers| == |items| && i < |items|
    ensures p == PassItems(base, disk, managed, items[..i + 1], answers[..i + 1])
    ensures var q := PassItems(base, disk, managed, items[..i], answers[..i]);
            var r := PassItem(q.disk, Prev(managed, items[i].key), base(items[i].key), items[i], answers[i]);
            && p.disk == r.disk && p.now == q.now[ItemKey(items[i].key) := r.managed]
            && p.obs == q.obs + [r.obs] && p.calls == q.calls + r.calls
  {
    assert items[..i + 1][..i] == items[..i] && answers[..i + 1][..i] == answers[..i];
    hide PassItem;
    PassItems(base, disk, managed, items[..i + 1], answers[..i + 1])
  }

  /** `p` is the unit or environment file of the managed key `k`. */
  predicate FileOf(base: Key -> string, k: string, p: Path) {
    SplitKey(k).Some? && (p == UnitPath(base(SplitKey(k).value)) || p == EnvPath(base(SplitKey(k).value)))
  }

  predicate FileOfSome(base: Key -> string, keys: set<string>, p: Path) {
    exists k :: k in keys && FileOf(base, k, p)
  }

  /** The disk after the cleanup loop. */
  function AfterCleanup(base: Key -> string, disk: Disk, dropped: set<string>): Disk {
    map p | p in disk && !FileOfSome(base, dropped, p) :: disk[p]
  }

  /** The calls of a cleanup: they name only units and files of dropped keys. */
  ghost predicate CleanupCall(base: Key -> string, managed: map<string, Managed>, dropped: set<string>, c: Call) {
    match c
    case Disable(u) => exists k :: k in dropped && k in managed && SplitKey(k).Some? && managed[k].unitName == u
    case Remove(p) => FileOfSome(base, dropped, p)
    case DaemonReload => dropped != {}
    case _ => false
  }

  ghost predicate CleanupCalls(base: Key -> string, managed: map<string, Managed>, dropped: set<string>,
                               calls: seq<Call>) {
    forall i :: 0 <= i < |calls| ==> CleanupCall(base, managed, dropped, calls[i])
  }

  /** At `i` the unit recorded for the dropped key is stopped. */
  ghost predicate StopsAt(managed: map<string, Managed>, k: string, calls: seq<Call>, i: nat) {
    i < |calls| && k in managed && calls[i] == Disable(managed[k].unitName)
  }

  /**
    What a cleanup must do: stop the unit of every dropped key that splits, remove each of its
    files that was there, only after the unit was stopped, and reload after a removed unit file.
   */
  ghost predicate CleanupDone(base: Key -> string, managed: map<string, Managed>, disk: Disk, dropped: set<string>,
                              calls: seq<Call>) {
    && (forall k :: k in dropped && k in managed && SplitKey(k).Some? ==>
        exists i: nat :: StopsAt(managed, k, calls, i))
    && (forall p :: p in disk && FileOfSome(base, dropped, p) ==> Remove(p) in calls)
    && (forall j: nat :: j < |calls| && calls[j].Remove? ==>
          exists k, i: nat :: k in dropped && FileOf(base, k, calls[j].path) && i < j && StopsAt(managed, k, calls, i))
    && (forall j: nat :: j < |calls| && calls[j].Remove? && calls[j].path.UnitFile? ==>
          exists i: nat :: j < i < |calls| && calls[i] == DaemonReload)
  }

  // ---------- the code ----------

  class Agent {
    var managed: map<string, Managed>
    const fs: FileSystem
    var calls: seq<Call>

    constructor (disk: FileSystem, managed: map<string, Managed>)
      ensures this.fs == disk && this.managed == managed && calls == []
    {
      this.fs := disk;
      this.managed := managed;
      this.calls := [];
    }

    /** Show, correct drift when due, and fill the observation. */
    method SettleUnit(m: Managed, base: string, specHash: string, obs: Observation, a: Answers)
      returns (m': Managed, obs': Observation, drifted: bool)
      modifies this`calls
      ensures var r := Settle(fs.files, m, base, specHash, obs, a);
              r.disk == fs.files && r.managed == m' && r.obs == obs' && r.drifted == drifted
                  && calls == old(calls) + r.calls
    {
      m', obs', drifted := m, obs, false;
      if a.show.ShowErr? {
        obs' := FailedWith(obs, a.show.msg);
        return;
      }
      var pid, start, active := a.show.pid, a.show.start, a.show.active;
      var needStart := !active || pid == 0;
      if needStart && ShouldAttemptAction(m, specHash, a.checkAt) {
        drifted := true;
        if active && pid == 0 {
          calls := calls + [Restart(UnitName(base))];
          m' := MarkAction(m, specHash, "restart-drift", a.driftAt);
        } else {
          calls := calls + [Enable(UnitName(base))];
          m' := MarkAction(m, specHash, "enable-and-start-drift", a.driftAt);
        }
        if a.drift.RanErr? {
          obs' := FailedWith(obs, a.drift.msg);
          calls := calls + [Disable(UnitName(base))];
        } else if a.showAgain.ShowErr? {
          pid, start, active := 0, None, false;
          obs' := obs.(errorMessage := Some(a.showAgain.msg));
        } else {
          pid, start, active := a.showAgain.pid, a.showAgain.start, a.showAgain.active;
        }
      }
      obs' := Reported(obs', pid, start, active);
    }

    method DriveUnit(prev: Option<Managed>, base: string, item: DesiredItem, obs: Observation, texts: Files, a: Answers)
      returns (m: Managed, obs': Observation, drifted: bool)
      modifies this`calls, fs
      ensures var r := Drive(old(fs.files), prev, base, item, obs, texts, a);
              && r.disk == fs.files && r.managed == m && r.obs == obs' && r.drifted == drifted
              && calls == old(calls) + r.calls
    {
      hide StartOrRestart, Ensure, UnitName, WriteCalls, FailedWith, CarryManaged;
      var unit := UnitName(base);
      m, obs', drifted := CarryManaged(if prev.Some? then prev.value else UNMANAGED, unit), obs, false;

      var unitChanged, envChanged, error := fs.EnsureUnit(base, texts.unit, texts.env, a.files);
      var made := WriteCalls(Ensured(fs.files, unitChanged, envChanged, error), base);
      if error.Some? {
        obs' := FailedWith(obs, error.value);
        calls := calls + (made + [Disable(unit)]);
        return;
      }
      if unitChanged { made := made + [DaemonReload]; }
      calls := calls + made;
      m, obs', drifted := StartUnit(prev, base, item, obs, unitChanged || envChanged, m, a);
    }

    /** Start a new unit, restart a changed one, leave an unchanged one alone; then settle. */
    method StartUnit(prev: Option<Managed>, base: string, item: DesiredItem, obs: Observation, changed: bool,
                     m0: Managed, a: Answers)
      returns (m: Managed, obs': Observation, drifted: bool)
      modifies this`calls
      ensures var r := StartOrRestart(fs.files, prev, base, item, obs, changed, m0, a);
              r.disk == fs.files && r.managed == m && r.obs == obs' && r.drifted == drifted
                  && calls == old(calls) + r.calls
    {
      var unit := UnitName(base);
      m, obs', drifted := m0, obs, false;
      if prev.None? {
        calls := calls + [Enable(unit)];
        if a.enable.RanErr? {
          obs' := FailedWith(obs, a.enable.msg);
          calls := calls + [Disable(unit)];
          return;
        }
        m := MarkAction(m, item.specHash, "enable-and-start", a.actionAt);
      } else if changed {
        calls := calls + [Restart(unit)];
        if a.restart.RanErr? {
          obs' := FailedWith(obs, a.restart.msg);
          calls := calls + [Disable(unit)];
          return;
        }
        m := MarkAction(m, item.specHash, "restart", a.actionAt);
      }
      m, obs', drifted := SettleUnit(m, base, item.specHash, obs, a);
    }

    /** One iteration of the item loop. */
    method ReconcileItem(base: string, item: DesiredItem, a: Answers)
      returns (m: Managed, obs: Observation, drifted: bool)
      modifies this`calls, fs
      ensures var r := PassItem(old(fs.files), Prev(managed, item.key), base, item, a);
              && r.disk == fs.files && r.managed == m && r.obs == obs && r.drifted == drifted
              && calls == old(calls) + r.calls
    {
      hide Drive, Prepare, Renderable, FilesOf, Removed, UnitName, UnitPath, EnvPath, FailedWith, EnvFilePath;
      var prev := Prev(managed, item.key);
      m, drifted := CarryManaged(if prev.Some? then prev.value else UNMANAGED, UnitName(base)), false;
      var prepared := Prepare(item, a);
      obs := prepared.obs;
      if prepared.Skip? {
        if prepared.stop { calls := calls + [Disable(UnitName(base))]; }
        return;
      }
      var texts := RenderUnitFiles(item.key.namespace, item.key.name, EnvFilePath(base), prepared.execution,
          item.spec.restartPolicy);
      if texts.None? {
        obs := FailedWith(obs, a.renderError);
        var more := [Disable(UnitName(base))];
        var unitRemoved, envRemoved, failed := fs.RemoveUnit(base, a.unitRemove, a.envRemove);
        if unitRemoved { more := more + [Remove(UnitPath(base))]; }
        if envRemoved { more := more + [Remove(EnvPath(base))]; }
        if !failed && unitRemoved { more := more + [DaemonReload]; }
        calls := calls + more;
        return;
      }
      m, obs, drifted := DriveUnit(prev, base, item, obs, texts.value, a);
    }

    /** The item loop of reconcile. */
    method ReconcileItems(base: Key -> string, items: seq<DesiredItem>, answers: seq<Answers>)
      returns (obs: seq<Observation>, now: map<string, Managed>)
      requires |answers| == |items|
      modifies this`calls, fs
      ensures var p := PassItems(base, old(fs.files), managed, items, answers);
              && obs == p.obs && now == p.now && fs.files == p.disk && calls == old(calls) + p.calls
    {
      hide *;
      obs, now := [], map[];
      ghost var p := PassNothing(base, fs.files, managed);
      for i := 0 to |items|
        invariant p == PassItems(base, old(fs.files), managed, items[..i], answers[..i])
        invariant obs == p.obs && now == p.now && fs.files == p.disk && calls == old(calls) + p.calls
      {
        var item := items[i];
        var m, o, _ := ReconcileItem(base(item.key), item, answers[i]);
        obs := obs + [o];
        now := now[ItemKey(item.key) := m];
        p := PassOneMore(base, old(fs.files), managed, items, answers, i);
      }
      assert items[..|items|] == items && answers[..|items|] == answers;
    }

    /** reconcile: the item loop, the cleanup of keys no longer desired, and the new managed map. */
    method Reconcile(base: Key -> string, items: seq<DesiredItem>, answers: seq<Answers>)
      returns (obs: seq<Observation>)
      requires |answers| == |items|
      modifies this, fs
      ensures var p := PassItems(base, old(fs.files), old(managed), items, answers);
              var dropped := old(managed).Keys - p.now.Keys;
              && obs == p.obs && managed == p.now
              && fs.files == AfterCleanup(base, p.disk, dropped)
              && old(calls) + p.calls <= calls
              && CleanupCalls(base, old(managed), dropped, calls[|old(calls) + p.calls|..])
              && CleanupDone(base, old(managed), p.disk, dropped, calls[|old(calls) + p.calls|..])
    {
      hide *;
      var now;
      obs, now := ReconcileItems(base, items, answers);
      Cleanup(base, now);
      managed := now;
    }

    /** The cleanup loop, over the dropped keys in any order. */
    method Cleanup(base: Key -> string, now: map<string, Managed>)
      modifies this`calls, fs
      ensures var dropped := managed.Keys - now.Keys;
              && fs.files == AfterCleanup(base, old(fs.files), dropped)
              && old(calls) <= calls
              && CleanupCalls(base, managed, dropped, calls[|old(calls)|..])
              && CleanupDone(base, managed, old(fs.files), dropped, calls[|old(calls)|..])
    {
      hide *;
      ghost var dropped, files0, calls0 := managed.Keys - now.Keys, fs.files, calls;
      ghost var done: set<string>, made: seq<Call> := {}, [];
      var todo := managed.Keys;
      AfterCleanupOfNone(base, fs.files);
      CleanupCallsOfNone(base, managed, dropped);
      CleanupDoneOfNone(base, managed, fs.files);
      while todo != {}
        invariant todo <= managed.Keys && done <= dropped <= done + todo
        invariant fs.files == AfterCleanup(base, files0, done)
        invariant calls == calls0 + made && CleanupCalls(base, managed, dropped, made)
        invariant CleanupDone(base, managed, files0, done, made)
        decreases |todo|
      {
        var key :| key in todo;
        todo := todo - {key};
        if key !in now {
          var more := CleanupKey(base, key);
          AfterCleanupOneMore(base, files0, done, key);
          CleanupCallsMore(base, managed, dropped, made, key, more);
          CleanupDoneMore(base, managed, files0, done, made, key, more);
          done, made := done + {key}, made + more;
        }
      }
      assert done == dropped;
      assert calls[|calls0|..] == made;
    }

    method CleanupKey(base: Key -> string, key: string) returns (more: seq<Call>)
      requires key in managed
      modifies this`calls, fs
      ensures fs.files == AfterCleanup(base, old(fs.files), {key})
      ensures calls == old(calls) + more
      ensures CleanupCalls(base, managed, {key}, more)
      ensures CleanupDone(base, managed, old(fs.files), {key}, more)
    {
      hide CleanupDone, CleanupCalls;
      more := [];
      UnsplitDone(base, managed, fs.files, key);
      var split := SplitKey(key);
      if split.None? {
        assert AfterCleanup(base, fs.files, {key}) == fs.files;
        return;
      }
      var b := base(split.value);
      assert FileOf(base, key, UnitPath(b)) && FileOf(base, key, EnvPath(b));
      more := more + [Disable(managed[key].unitName)];
      var unitRemoved, envRemoved, _ := fs.RemoveUnit(b, true, true);
      if unitRemoved { more := more + [Remove(UnitPath(b))]; }
      if envRemoved { more := more + [Remove(EnvPath(b))]; }
      if unitRemoved { more := more + [DaemonReload]; }
      calls := calls + more;
      assert fs.files == AfterCleanup(base, old(fs.files), {key});
      OneKeyDone(base, managed, old(fs.files), key, more);
      OneKeyCalls(base, managed, key, more);
    }
  }

  lemma AfterCleanupOfNone(base: Key -> string, disk: Disk)
    ensures AfterCleanup(base, disk, {}) == disk
  {
  }

  lemma CleanupCallsOfNone(base: Key -> string, managed: map<string, Managed>, dropped: set<string>)
    ensures CleanupCalls(base, managed, dropped, [])
  {
  }

  lemma CleanupCallsMore(base: Key -> string, managed: map<string, Managed>, dropped: set<string>, made: seq<Call>,
                         key: string, more: seq<Call>)
    requires key in dropped && CleanupCalls(base, managed, dropped, made) && CleanupCalls(base, managed, {key}, more)
    ensures CleanupCalls(base, managed, dropped, made + more)
  {
    forall c | CleanupCall(base, managed, {key}, c) ensures CleanupCall(base, managed, dropped, c) {
      if c.Remove? {
        assert FileOf(base, key, c.path);
      }
    }
  }

  lemma CleanupDoneOfNone(base: Key -> string, managed: map<string, Managed>, disk: Disk)
    ensures CleanupDone(base, managed, disk, {}, [])
  {
  }

  lemma UnsplitDone(base: Key -> string, managed: map<string, Managed>, disk: Disk, key: string)
    ensures SplitKey(key).None? ==>
            CleanupDone(base, managed, disk, {key}, []) && CleanupCalls(base, managed, {key}, [])
  {
    hide SplitKey;
  }

  lemma OneKeyCalls(base: Key -> string, managed: map<string, Managed>, key: string, more: seq<Call>)
    requires key in managed && SplitKey(key).Some?
    requires forall i :: 0 <= i < |more| ==>
               || more[i] == Disable(managed[key].unitName) || more[i] == DaemonReload
               || more[i] == Remove(UnitPath(base(SplitKey(key).value)))
               || more[i] == Remove(EnvPath(base(SplitKey(key).value)))
    ensures CleanupCalls(base, managed, {key}, more)
  {
    hide SplitKey;
    var b := base(SplitKey(key).value);
    assert FileOf(base, key, UnitPath(b)) && FileOf(base, key, EnvPath(b)) && key in {key};
  }

  /** The calls for one key, in order, do what they must. */
  lemma OneKeyDone(base: Key -> string, managed: map<string, Managed>, disk: Disk, key: string, more: seq<Call>)
    requires key in managed && SplitKey(key).Some?
    requires var b := base(SplitKey(key).value);
             var unit, env := UnitPath(b) in disk, EnvPath(b) in disk;
             more == [Disable(managed[key].unitName)] + (if unit then [Remove(UnitPath(b))] else [])
                     + (if env then [Remove(EnvPath(b))] else []) + (if unit then [DaemonReload] else [])
    ensures CleanupDone(base, managed, disk, {key}, more)
  {
    hide SplitKey, UnitName;
    var b := base(SplitKey(key).value);
    assert StopsAt(managed, key, more, 0);
    if UnitPath(b) in disk {
      assert more[1] == Remove(UnitPath(b)) && more[|more| - 1] == DaemonReload;
    }
    if EnvPath(b) in disk {
      assert Remove(EnvPath(b)) in more;
    }
    forall j: nat | j < |more| && more[j].Remove?
      ensures FileOf(base, key, more[j].path) && 0 < j && StopsAt(managed, key, more, 0)
    {
    }
  }

  /** One more key cleaned up. */
  lemma CleanupDoneMore(base: Key -> string, managed: map<string, Managed>, disk: Disk, done: set<string>,
                        made: seq<Call>, key: string, more: seq<Call>)
    requires CleanupDone(base, managed, disk, done, made)
    requires CleanupDone(base, managed, AfterCleanup(base, disk, done), {key}, more)
    ensures CleanupDone(base, managed, disk, done + {key}, made + more)
  {
    hide FileOf, SplitKey;
    var all := made + more;
    forall k | k in done + {key} && k in managed
        && SplitKey(k).Some? ensures exists i: nat :: StopsAt(managed, k, all, i) {
      if k in done {
        var i: nat :| StopsAt(managed, k, made, i);
        assert StopsAt(managed, k, all, i);
      } else {
        var i: nat :| StopsAt(managed, k, more, i);
        assert StopsAt(managed, k, all, |made| + i);
      }
    }
    forall p | p in disk && FileOfSome(base, done + {key}, p) ensures Remove(p) in all {
      if !FileOfSome(base, done, p) {
        var k :| k in done + {key} && FileOf(base, k, p);
        assert k in {key};
        assert p in AfterCleanup(base, disk, done);
      }
    }
    forall j: nat | j < |all| && all[j].Remove?
      ensures exists k, i: nat ::
              k in done + {key} && FileOf(base, k, all[j].path) && i < j && StopsAt(managed, k, all, i)
    {
      RemoveAfterStop(base, managed, done, made, key, more, j);
    }
    forall j: nat | j < |all| && all[j].Remove? && all[j].path.UnitFile?
      ensures exists i: nat :: j < i < |all| && all[i] == DaemonReload
    {
      if j < |made| {
        var i: nat :| j < i < |made| && made[i] == DaemonReload;
        assert all[i] == DaemonReload;
      } else {
        var i: nat :| j - |made| < i < |more| && more[i] == DaemonReload;
        assert all[|made| + i] == DaemonReload;
      }
    }
  }

  lemma RemoveAfterStop(base: Key -> string, managed: map<string, Managed>, done: set<string>, made: seq<Call>,
                        key: string, more: seq<Call>, j: nat)
    requires var all := made + more; j < |all| && all[j].Remove?
    requires forall j: nat :: j < |made| && made[j].Remove? ==>
               exists k, i: nat :: k in done && FileOf(base, k, made[j].path) && i < j && StopsAt(managed, k, made, i)
    requires forall j: nat :: j < |more| && more[j].Remove? ==>
               exists k, i: nat :: k in {key} && FileOf(base, k, more[j].path) && i < j && StopsAt(managed, k, more, i)
    ensures var all := made + more;
            exists k, i: nat :: k in done + {key} && FileOf(base, k, all[j].path) && i < j
                && StopsAt(managed, k, all, i)
  {
    hide FileOf;
    var all := made + more;
    if j < |made| {
      var k, i: nat :| k in done && FileOf(base, k, made[j].path) && i < j && StopsAt(managed, k, made, i);
      assert StopsAt(managed, k, all, i);
    } else {
      var k, i: nat :| k in {key} && FileOf(base, k, more[j - |made|].path) && i < j - |made|
          && StopsAt(managed, k, more, i);
      assert StopsAt(managed, k, all, |made| + i);
    }
  }

  lemma AfterCleanupOneMore(base: Key -> string, disk: Disk, dropped: set<string>, key: string)
    ensures AfterCleanup(base, AfterCleanup(base, disk, dropped), {key}) == AfterCleanup(base, disk, dropped + {key})
  {
    forall p
      ensures FileOfSome(base, dropped + {key}, p) <==> FileOfSome(base, dropped, p) || FileOfSome(base, {key}, p)
    {
      if FileOfSome(base, dropped, p) {
        var k :| k in dropped && FileOf(base, k, p);
        assert k in dropped + {key};
      }
      if FileOfSome(base, {key}, p) {
        assert key in dropped + {key};
      }
    }
  }
}
