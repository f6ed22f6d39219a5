/** The DeviceProcess API types that the gateway, agent and controller exchange. */
module ApiTypes {
  import opened Prelude
  import opened Conditions

  datatype DeviceRef = DeviceRef(kind: string, name: string, namespace: string)

  datatype ArtifactType = Oci | Http | LocalFile

  datatype Artifact = Artifact(atype: ArtifactType, url: string, checksum: string)

  datatype Backend = Systemd | Initd | Container

  datatype EnvVar = EnvVar(name: string, value: string)

  datatype Execution = Execution(
    backend: Backend,
    command: seq<string>,
    args: seq<string>,
    env: seq<EnvVar>,
    workingDir: string,
    user: string)

  datatype RestartPolicy = Unspecified | Always | OnFailure | Never

  datatype HealthCheck = HealthCheck(
    command: seq<string>, period: int, timeout: int, success: int, failure: int)

  datatype Spec = Spec(
    deviceRef: DeviceRef,
    artifact: Artifact,
    execution: Execution,
    restartPolicy: RestartPolicy,
    healthCheck: Option<HealthCheck>)

  datatype Phase = NoPhase | Pending | Running | Succeeded | Failed | UnknownPhase

  datatype Status = Status(
    phase: Phase,
    conditions: seq<Condition>,
    observedSpecHash: string,
    runtimeSemantics: string,
    artifactVersion: string,
    artifactDigest: string,
    artifactDownloadAttempts: int,
    lastArtifactAttemptTime: string,
    artifactLastError: string,
    pid: int,
    startTime: Option<Time>,
    lastTransitionTime: Option<Time>,
    restartCount: int,
    lastTerminationReason: string)

  /** The status of a freshly created object. */
  const EMPTY_STATUS: Status :=
    Status(NoPhase, [], "", "", "", "", 0, "", "", 0, None, None, 0, "")

  /** A namespaced name. */
  datatype Key = Key(namespace: string, name: string)

  /** One entry of a desired response. */
  datatype DesiredItem = DesiredItem(uid: string, key: Key, generation: int, spec: Spec, specHash: string)

  /**
    The `startTime` text of an observation, by what the gateway makes of it: blank after
    trimming, an RFC 3339 instant, or neither.
   */
  datatype StartText = Blank | At(instant: Time) | Malformed

  datatype Observation = Observation(
    key: Key,
    observedSpecHash: string,
    processStarted: Option<bool>,
    healthy: Option<bool>,
    pid: int,
    startTime: StartText,
    errorMessage: Option<string>,
    warningMessage: Option<string>,
    artifactDigest: string,
    artifactDownloadAttempts: int,
    lastArtifactAttemptTime: string,
    artifactLastError: string,
    artifactDownloaded: Option<bool>,
    artifactVerified: Option<bool>,
    artifactDownloadReason: string,
    artifactDownloadMessage: string,
    artifactVerifyReason: string,
    artifactVerifyMessage: string)

  /** The condition of type `t` is present and True. */
  predicate IsTrue(s: Status, t: ConditionType) {
    var c := Find(s.conditions, t);
    c.Some? && c.value.status == CondTrue
  }

  /** The controller's isProcessReady. */
  predicate ProcessReady(s: Status) {
    s.phase == Running && IsTrue(s, AgentConnected) && IsTrue(s, Healthy)
  }
}
