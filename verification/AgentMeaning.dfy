/**
  What one item's pass means for the outside: which calls an item that cannot be driven gets, how a
  new unit is started, what an observation says of the artifact, and what the files on disk say
  (agent/main.go).
 */
module AgentMeaning {
  import opened Prelude
  import opened Text
  import opened ApiTypes
  import opened Render
  import opened Units
  import opened AgentPass
  import opened AgentLaws
  import ReadBack
  import Sorting

  /** The observation says that the process does not run, and why. */
  predicate SaysFailed(obs: Observation, msg: string) {
    && obs.processStarted == Some(false) && obs.healthy == Some(false) && obs.pid == 0
    && obs.errorMessage == Some(msg)
  }

  // ---------- items that are not driven ----------

  /** An unsupported backend is only reported. */
  lemma OtherBackendIsLeft(disk: Disk, prev: Option<Managed>, base: string, item: DesiredItem, a: Answers)
    requires item.spec.execution.backend != Systemd
    ensures var r := PassItem(disk, prev, base, item, a);
            && r.calls == [] && r.disk == disk && !r.drifted
            && r.obs.processStarted == Some(false) && r.obs.healthy == Some(false) && r.obs.errorMessage == None
  {
    hide Drive;
  }

  /** A failed fetch or an unresolvable command stops the unit, touches no file, and is reported. */
  lemma FailedFetchStops(disk: Disk, prev: Option<Managed>, base: string, item: DesiredItem, a: Answers)
    requires item.spec.execution.backend == Systemd && item.spec.artifact.atype == Oci
    requires a.fetched.error.Some? || a.fetched.resolved.Err?
    ensures var r, f := PassItem(disk, prev, base, item, a), a.fetched;
            && r.calls == [Disable(UnitName(base))] && r.disk == disk && !r.drifted
            && SaysFailed(r.obs, if f.error.None? then f.resolved.error
                                 else if Trim(f.lastError) != "" then f.lastError else f.error.value)
  {
    hide Drive, Trim, UnitName;
  }

  /** An execution that cannot be rendered stops the unit and, where removals work, removes its files. */
  lemma UnrenderableIsRemoved(disk: Disk, prev: Option<Managed>, base: string, item: DesiredItem, a: Answers)
    requires item.spec.execution.backend == Systemd && FetchWorks(item, a) && !Renderable(Resolved(item, a))
    ensures var r := PassItem(disk, prev, base, item, a);
            && r.calls != [] && r.calls[0] == Disable(UnitName(base)) && SaysFailed(r.obs, a.renderError)
            && (a.unitRemove ==> UnitPath(base) !in r.disk)
            && (a.unitRemove && a.envRemove ==> EnvPath(base) !in r.disk)
            && (a.unitRemove && a.envRemove && UnitPath(base) in disk ==>
                  r.calls[|r.calls| - 1] == DaemonReload && Remove(UnitPath(base)) in r.calls)
  {
    hide Drive, Prepare, Renderable, UnitName;
    PrepareGoes(item, a);
    PrepareBlank(item, a);
    PathsDisjoint(base, base);
  }

  lemma PrepareBlank(item: DesiredItem, a: Answers)
    ensures Prepare(item, a).Go? ==> Prepare(item, a).obs.pid == 0
  {
    hide Trim;
  }

  /** A failed write stops the unit, and nothing is started. */
  lemma FailedWriteStops(disk: Disk, prev: Option<Managed>, base: string, item: DesiredItem, a: Answers)
    requires item.spec.execution.backend == Systemd && FetchWorks(item, a) && Renderable(Resolved(item, a))
    requires var texts := TextsOf(base, item, Resolved(item, a));
        Ensure(disk, base, texts.unit, texts.env, a.files).error.Some?
    ensures var r, texts := PassItem(disk, prev, base, item, a), TextsOf(base, item, Resolved(item, a));
            && r.calls != [] && r.calls[|r.calls| - 1] == Disable(UnitName(base))
            && (forall i :: 0 <= i < |r.calls| ==> !Starts(r.calls[i], UnitName(base)))
            && SaysFailed(r.obs, Ensure(disk, base, texts.unit, texts.env, a.files).error.value)
  {
    hide StartOrRestart, Prepare, Renderable, UnitName, Ensure, TextsOf;
    PrepareGoes(item, a);
    PrepareBlank(item, a);
  }

  // ---------- settling ----------

  /** The state of the unit the observation is made from: shown again after a correction that worked. */
  function LastShown(drifted: bool, a: Answers): Shown {
    if drifted && a.drift.RanOk? then a.showAgain else a.show
  }

  /** The observation says what the unit state shows: a running unit with its PID and start time, or not started. */
  predicate SaysShown(obs: Observation, pid: int, start: Option<Time>, active: bool) {
    if active && pid > 0 then
      && obs.processStarted == Some(true) && obs.healthy == Some(true) && obs.pid == pid
      && (start.Some? ==> obs.startTime.At? && 0 <= start.value - obs.startTime.instant < SECOND
                          && obs.startTime.instant % SECOND == 0)
      && (start.None? ==> obs.startTime == Blank)
    else
      && obs.processStarted == Some(false) && obs.healthy == Some(false)
      && obs.pid == 0 && obs.startTime == Blank
  }

  lemma ReportedSays(obs: Observation, pid: int, start: Option<Time>, active: bool)
    ensures SaysShown(Reported(obs, pid, start, active), pid, start, active)
    ensures Reported(obs, pid, start, active).errorMessage == obs.errorMessage
  {
  }

  /** A state that is not running is reported alike, whatever its details. */
  lemma NotRunningAlike(obs: Observation, pid: int, start: Option<Time>, active: bool)
    requires !(active && pid > 0) && SaysShown(obs, pid, start, active)
    ensures obs.processStarted == Some(false) && obs.pid == 0
  {
  }

  /**
    What is reported is what was shown last: a running unit with its PID and its start time in whole
    seconds, anything else as not started.
   */
  lemma ShownIsReported(disk: Disk, m: Managed, base: string, specHash: string, obs: Observation, a: Answers)
    requires obs.pid == 0 && obs.startTime == Blank
    ensures var r := Settle(disk, m, base, specHash, obs, a);
            match LastShown(r.drifted, a)
            case ShowErr(msg) =>
              r.obs.processStarted == Some(false) && r.obs.pid == 0 && r.obs.errorMessage == Some(msg)
            case Shown(pid, start, active) => SaysShown(r.obs, pid, start, active)
  {
    hide ShouldAttemptAction, MarkAction, UnitName, Reported, SaysShown;
    forall o, pid, start, active
      ensures SaysShown(Reported(o, pid, start, active), pid, start, active)
      ensures Reported(o, pid, start, active).errorMessage == o.errorMessage
    {
      ReportedSays(o, pid, start, active);
    }
    if a.showAgain.ShowErr? {
      NotRunningAlike(Reported(obs.(errorMessage := Some(a.showAgain.msg)), 0, None, false), 0, None, false);
    }
  }

  /** A unit that does not run is corrected at once when the last action was for another spec, or none is on record. */
  lemma NewSpecActsAtOnce(disk: Disk, m: Managed, base: string, specHash: string, obs: Observation, a: Answers)
    requires a.show.Shown? && (!a.show.active || a.show.pid == 0)
    requires m.lastActionAt == NoAction || (m.lastActionSpecHash != "" && m.lastActionSpecHash != specHash)
    ensures Settle(disk, m, base, specHash, obs, a).drifted
  {
  }

  // ---------- new units ----------

  /**
    A unit that was not managed is enabled and started right after its files are in place; when that
    fails it is stopped again and reported failed.
   */
  lemma NewUnitIsStarted(disk: Disk, base: string, item: DesiredItem, a: Answers)
    requires item.spec.execution.backend == Systemd && FetchWorks(item, a) && Renderable(Resolved(item, a))
    requires WritesWork(a.files)
    ensures var r, texts := PassItem(disk, None, base, item, a), TextsOf(base, item, Resolved(item, a));
            var w := Ensure(disk, base, texts.unit, texts.env, a.files);
            && FileCalls(w, base) + [Enable(UnitName(base))] <= r.calls
            && !Differs(r.disk, UnitPath(base), texts.unit) && !Differs(r.disk, EnvPath(base), texts.env)
            && (a.enable.RanErr? ==>
                  && r.calls == FileCalls(w, base) + [Enable(UnitName(base)), Disable(UnitName(base))]
                  && SaysFailed(r.obs, a.enable.msg))
            && (a.enable.RanOk? ==> Recorded(r.managed, item.specHash, a.actionAt) || a.actionAt > a.driftAt)
  {
    hide Settle, Prepare, Ensure, TextsOf, Renderable, UnitName, UnitPath, EnvPath;
    PrepareGoes(item, a);
    PrepareBlank(item, a);
    var texts := TextsOf(base, item, Resolved(item, a));
    EnsureWrites(disk, base, texts.unit, texts.env, a.files);
    EnsureWorks(disk, base, texts.unit, texts.env, a.files);
    var w := Ensure(disk, base, texts.unit, texts.env, a.files);
    var m := MarkAction(CarryManaged(UNMANAGED, UnitName(base)), item.specHash, "enable-and-start", a.actionAt);
    var obs := Prepare(item, a).obs;
    SettleKeepsDisk(w.disk, m, base, item.specHash, obs, a);
    var c := Settle(w.disk, m, base, item.specHash, obs, a).calls;
    assert FileCalls(w, base) + ([Enable(UnitName(base))] + c) == FileCalls(w, base) + [Enable(UnitName(base))] + c;
  }

  lemma SettleKeepsDisk(disk: Disk, m: Managed, base: string, specHash: string, obs: Observation, a: Answers)
    ensures var r := Settle(disk, m, base, specHash, obs, a);
            r.disk == disk && (Recorded(m, specHash, a.actionAt) ==>
              Recorded(r.managed, specHash, a.actionAt) || a.actionAt > a.driftAt)
  {
  }

  // ---------- what an observation says of the artifact ----------

  /** The artifact part of an observation. */
  predicate SameArtifact(x: Observation, y: Observation) {
    && x.artifactDigest == y.artifactDigest && x.artifactDownloadAttempts == y.artifactDownloadAttempts
    && x.lastArtifactAttemptTime == y.lastArtifactAttemptTime && x.artifactLastError == y.artifactLastError
    && x.artifactDownloaded == y.artifactDownloaded && x.artifactVerified == y.artifactVerified
    && x.artifactDownloadReason == y.artifactDownloadReason && x.artifactDownloadMessage == y.artifactDownloadMessage
    && x.artifactVerifyReason == y.artifactVerifyReason && x.artifactVerifyMessage == y.artifactVerifyMessage
    && x.warningMessage == y.warningMessage
  }

  lemma SettleKeepsArtifact(disk: Disk, m: Managed, base: string, specHash: string, obs: Observation, a: Answers)
    ensures SameArtifact(Settle(disk, m, base, specHash, obs, a).obs, obs)
  {
    hide ShouldAttemptAction, MarkAction, UnitName, SameArtifact;
    forall o, pid, start, active ensures SameArtifact(Reported(o, pid, start, active), o) {
      ReportedKeepsArtifact(o, pid, start, active);
    }
    hide Reported;
    if a.show.ShowErr? {
      FailedKeepsArtifact(obs, a.show.msg);
    }
    if a.drift.RanErr? {
      FailedKeepsArtifact(obs, a.drift.msg);
    }
    if a.showAgain.ShowErr? {
      FailedKeepsArtifact(obs, a.showAgain.msg);
    }
    SameArtifactLaws();
  }

  lemma ReportedKeepsArtifact(obs: Observation, pid: int, start: Option<Time>, active: bool)
    ensures SameArtifact(Reported(obs, pid, start, active), obs)
  {
  }

  lemma FailedKeepsArtifact(obs: Observation, msg: string)
    ensures SameArtifact(FailedWith(obs, msg), obs) && SameArtifact(obs.(errorMessage := Some(msg)), obs)
  {
  }

  lemma SameArtifactLaws()
    ensures forall x, y, z :: SameArtifact(x, y) && SameArtifact(y, z) ==> SameArtifact(x, z)
    ensures forall x :: SameArtifact(x, x)
  {
  }

  lemma StartKeepsArtifact(disk: Disk, prev: Option<Managed>, base: string, item: DesiredItem, obs: Observation,
                           changed: bool, m: Managed, a: Answers)
    ensures SameArtifact(StartOrRestart(disk, prev, base, item, obs, changed, m, a).obs, obs)
  {
    hide Settle;
    SettleKeepsArtifact(disk, MarkAction(m, item.specHash, "enable-and-start", a.actionAt), base, item.specHash, obs,
        a);
    SettleKeepsArtifact(disk, MarkAction(m, item.specHash, "restart", a.actionAt), base, item.specHash, obs, a);
    SettleKeepsArtifact(disk, m, base, item.specHash, obs, a);
  }

  lemma PassKeepsArtifact(disk: Disk, prev: Option<Managed>, base: string, item: DesiredItem, a: Answers)
    ensures SameArtifact(PassItem(disk, prev, base, item, a).obs, Prepare(item, a).obs)
  {
    hide Prepare, StartOrRestart, Ensure, TextsOf, Renderable;
    var p := Prepare(item, a);
    if p.Go? && Renderable(p.execution) {
      var texts := TextsOf(base, item, p.execution);
      var w := Ensure(disk, base, texts.unit, texts.env, a.files);
      var m := CarryManaged(if prev.Some? then prev.value else UNMANAGED, UnitName(base));
      StartKeepsArtifact(w.disk, prev, base, item, p.obs, w.unitChanged || w.envChanged, m, a);
    }
  }

  /** The text, or the fallback when it is blank. */
  predicate SaysOr(text: string, said: string, fallback: string) {
    if Trim(said) == "" then text == fallback else text == said
  }

  /** The observation reports an OCI fetch as it went. */
  predicate ReportsFetch(obs: Observation, f: Fetched) {
    && obs.artifactDigest == f.digest && obs.artifactDownloadAttempts == f.attempts
    && obs.lastArtifactAttemptTime == f.lastAttemptTime && obs.artifactLastError == f.lastError
    && obs.artifactDownloaded == Some(f.downloaded) && obs.artifactVerified == Some(f.verified)
    && SaysOr(obs.artifactDownloadReason, f.downloadReason, "ArtifactDownloaded")
    && SaysOr(obs.artifactDownloadMessage, f.downloadMessage, "artifact downloaded")
    && SaysOr(obs.artifactVerifyReason, f.verifyReason, "ArtifactVerified")
    && SaysOr(obs.artifactVerifyMessage, f.verifyMessage, "artifact verified")
  }

  predicate ReportsNoFetch(obs: Observation) {
    && obs.artifactDigest == "" && obs.artifactDownloadAttempts == 0 && obs.artifactLastError == ""
    && obs.artifactDownloaded == Some(false) && obs.artifactVerified == Some(false)
    && obs.artifactDownloadReason == "NotApplicable" && obs.artifactVerifyReason == "NotApplicable"
  }

  lemma PreparedTells(item: DesiredItem, a: Answers)
    requires item.spec.execution.backend == Systemd
    ensures var obs := Prepare(item, a).obs;
            && (if item.spec.artifact.atype == Oci then ReportsFetch(obs, a.fetched) else ReportsNoFetch(obs))
            && (obs.warningMessage.Some? <==> item.spec.restartPolicy == Never)
  {
    hide Trim;
  }

  lemma SameArtifactTells(x: Observation, y: Observation, f: Fetched)
    requires SameArtifact(x, y)
    ensures ReportsFetch(x, f) == ReportsFetch(y, f) && ReportsNoFetch(x) == ReportsNoFetch(y)
    ensures x.warningMessage == y.warningMessage
  {
    hide SaysOr;
  }

  /**
    Whatever becomes of a systemd item, its observation reports the fetch as it went: digest,
    attempts, times, errors and both steps with their reasons and messages; "NotApplicable" when the
    artifact is not an OCI one; and a warning exactly when the restart policy is Never.
   */
  lemma FetchTells(disk: Disk, prev: Option<Managed>, base: string, item: DesiredItem, a: Answers)
    requires item.spec.execution.backend == Systemd
    ensures var obs := PassItem(disk, prev, base, item, a).obs;
            && (if item.spec.artifact.atype == Oci then ReportsFetch(obs, a.fetched) else ReportsNoFetch(obs))
            && (obs.warningMessage.Some? <==> item.spec.restartPolicy == Never)
  {
    hide PassItem, Prepare, SameArtifact, ReportsFetch, ReportsNoFetch;
    PassKeepsArtifact(disk, prev, base, item, a);
    PreparedTells(item, a);
    SameArtifactTells(PassItem(disk, prev, base, item, a).obs, Prepare(item, a).obs, a.fetched);
  }

  // ---------- what the files on disk say ----------

  /**
    After a pass in which everything works, the files on disk say what the items asked for: each
    unit's ExecStart reads back as the resolved command and the arguments, its directory, user and
    restart directives as the spec's, and its environment file as the variables.
   */
  lemma DiskSaysDesired(base: Key -> string, s: AgentState, r: Round, i: nat)
    requires AllFine(r) && GoodKeys(r.items) && Apart(base, s.managed, r.items) && i < |r.items|
    requires ReadBack.OneLine(r.items[i].key.namespace) && ReadBack.OneLine(r.items[i].key.name)
    requires ReadBack.OneLine(EnvFilePath(base(r.items[i].key)))
    ensures var item, b, d := r.items[i], base(r.items[i].key), Pass(base, s, r).disk;
            var e := Resolved(item, r.answers[i]);
            && UnitPath(b) in d && EnvPath(b) in d
            && var unit, dir, user := d[UnitPath(b)], Trim(e.workingDir), Trim(e.user);
               && ReadBack.Directive(unit, "ExecStart=").Some?
               && ReadBack.ReadArgs(ReadBack.Directive(unit, "ExecStart=").value) == Some(e.command + e.args)
               && ReadBack.Directive(unit, "WorkingDirectory=") == (if dir == "" then None else Some(dir))
               && ReadBack.Directive(unit, "User=") == (if user == "" then None else Some(user))
               && ReadBack.Directive(unit, "Restart=").Some?
               && ReadBack.Restarts(ReadBack.Directive(unit, "Restart=").value, item.spec.restartPolicy)
               && ReadBack.ReadEnv(d[EnvPath(b)]) == Some(ReadBack.Trimmed(Sorting.Sort(e.env, EnvKey)))
  {
    hide PassItems, FilesOf, Own, ReadBack.Directive, ReadBack.ReadArgs, ReadBack.ReadEnv, ReadBack.Restarts,
        ReadBack.OneLine, Trim, AfterCleanup, Apart, Renderable;
    var item, b := r.items[i], base(r.items[i].key);
    var e := Resolved(item, r.answers[i]);
    FirstPass(base, s, r, i);
    OwnFiles(b);
    CleanupSparesItems(base, s, r, UnitPath(b));
    CleanupSparesItems(base, s, r, EnvPath(b));
    ReadBack.FilesReadBack(item.key.namespace, item.key.name, EnvFilePath(b), e, item.spec.restartPolicy);
  }
}
