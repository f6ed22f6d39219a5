/**
  The retry loop of updateStatusForObservation as one handler sees it: other writers' writes
  land between its Get and its Patch.
 */
module StatusUpdate {
  import opened Prelude
  import opened ApiTypes
  import opened StatusTransform
  import opened StatusStore

  /** Any write by anyone else. */
  datatype Write = Put(key: Key, spec: Spec, status: Status) | Remove(key: Key)

  datatype Server = Server(revision: nat, objs: map<Key, Obj>)

  function WriteOne(sv: Server, w: Write): Server {
    match w
    case Put(key, spec, status) => Server(sv.revision + 1, sv.objs[key := Obj(sv.revision + 1, spec, status)])
    case Remove(key) => sv.(objs := sv.objs - {key})
  }

  function Written(sv: Server, ws: seq<Write>): Server
    decreases |ws|
  {
    if ws == [] then sv else WriteOne(Written(sv, ws[..|ws| - 1]), ws[|ws| - 1])
  }

  function Flatten(others: seq<seq<Write>>): seq<Write>
    decreases |others|
  {
    if others == [] then [] else Flatten(others[..|others| - 1]) + others[|others| - 1]
  }

  ghost predicate Versioned(sv: Server) {
    forall k :: k in sv.objs ==> sv.objs[k].version <= sv.revision
  }

  lemma {:induction false} WrittenTwice(sv: Server, a: seq<Write>, b: seq<Write>)
    ensures Written(sv, a + b) == Written(Written(sv, a), b)
    decreases |b|
  {
    if b == [] {
      assert a + b == a;
    } else {
      assert (a + b)[..|a + b| - 1] == a + b[..|b| - 1];
      WrittenTwice(sv, a, b[..|b| - 1]);
    }
  }

  /** However many writes have landed, an unchanged version means an unchanged object. */
  lemma {:induction false} VersionTells(sv: Server, ws: seq<Write>, key: Key)
    requires Versioned(sv)
    ensures var sv' := Written(sv, ws);
            && Versioned(sv') && sv.revision <= sv'.revision
            && (key in sv.objs && key in sv'.objs && sv'.objs[key].version <= sv.revision ==>
                sv'.objs[key] == sv.objs[key])
            && (key !in sv.objs && key in sv'.objs ==> sv'.objs[key].version > sv.revision)
    decreases |ws|
  {
    if ws != [] {
      VersionTells(sv, ws[..|ws| - 1], key);
    }
  }

  class Api {
    var server: Server
    var events: seq<Event>

    method GetProcess(key: Key) returns (r: Option<Obj>)
      ensures r == if key in server.objs then Some(server.objs[key]) else None
    {
      r := if key in server.objs then Some(server.objs[key]) else None;
    }

    /** A status patch under optimistic lock. */
    method PatchStatus(key: Key, read: Obj, status: Status) returns (outcome: Outcome)
      modifies this`server
      ensures outcome == (if key !in old(server.objs) then NotFound
                          else if old(server.objs)[key].version != read.version then Conflict
                          else NilError)
      ensures server == if outcome == NilError
          then WriteOne(old(server), Put(key, old(server.objs)[key].spec, status)) else old(server)
    {
      if key !in server.objs { return NotFound; }
      if server.objs[key].version != read.version { return Conflict; }
      server := WriteOne(server, Put(key, server.objs[key].spec, status));
      return NilError;
    }

    /** Whatever others write before this handler's next call. */
    method Interfere(ws: seq<Write>)
      modifies this`server
      ensures server == Written(old(server), ws)
    {
      server := Written(server, ws);
    }

    /**
      One attempt: Get, compute, compare, and patch unless equal. `landed` says whether the
      others' writes `ws` had the time to land before it ended.
     */
    method TryOnce(device: string, obs: Observation, reportedAt: Option<string>, clock: Clock, ws: seq<Write>)
      returns (outcome: Outcome, landed: bool)
      requires Versioned(server)
      modifies this
      ensures Versioned(server)
      ensures var alone := if landed then Written(old(server), ws) else old(server);
              if outcome == NilError then Took(alone, server, old(events), events, device, obs, reportedAt, clock)
              else server == alone && events == old(events)
      ensures outcome == Conflict ==> landed
    {
      hide ObservedStatus, ObservedEvents, StatusEqual, Written;
      ghost var start := server;
      var proc := GetProcess(obs.key);
      if proc.None? { return NotFound, false; }
      if proc.value.spec.deviceRef.name != device { return BadRequest, false; }
      var after, made := ComputeStatus(proc.value.status, device, obs, reportedAt, clock);
      if after.None? { return BadRequest, false; }
      var same := ReflectDeepEqualStatus(proc.value.status, after.value);
      if same { return NilError, false; }

      Interfere(ws);
      landed := true;
      VersionTells(start, ws, obs.key);
      outcome := PatchStatus(obs.key, proc.value, after.value);
      if outcome == NilError {
        events := events + made;
      }
    }

    /**
      At return, the store is what the others' writes alone made of it (`others[..rounds]`, at
      most three rounds), plus, on success only, this observation's transform of the status
      then stored, under this observation's events; nothing is written or emitted on failure.
     */
    method UpdateStatusForObservation(device: string, obs: Observation, reportedAt: Option<string>,
                                      clocks: seq<Clock>, others: seq<seq<Write>>)
      returns (outcome: Outcome, attempts: nat, rounds: nat)
      requires |clocks| == |others| == MAX_ATTEMPTS
      requires Versioned(server)
      modifies this
      ensures 1 <= attempts <= MAX_ATTEMPTS && attempts - 1 <= rounds <= attempts
      ensures var alone := Written(old(server), Flatten(others[..rounds]));
              if outcome == NilError
              then Took(alone, server, old(events), events, device, obs, reportedAt, clocks[attempts - 1])
              else server == alone && events == old(events)
      ensures outcome == Conflict ==> attempts == MAX_ATTEMPTS
    {
      hide Took, Versioned;
      attempts, rounds := 0, 0;
      while attempts < MAX_ATTEMPTS
        invariant attempts == rounds <= MAX_ATTEMPTS
        invariant Versioned(server) && events == old(events)
        invariant server == Written(old(server), Flatten(others[..rounds]))
      {
        assert others[..rounds + 1][..rounds] == others[..rounds];
        WrittenTwice(old(server), Flatten(others[..rounds]), others[rounds]);
        var landed;
        outcome, landed := TryOnce(device, obs, reportedAt, clocks[attempts], others[rounds]);
        attempts := attempts + 1;
        rounds := if landed then rounds + 1 else rounds;
        if outcome != Conflict { return outcome, attempts, rounds; }
      }
      return Conflict, attempts, rounds;
    }
  }

  /**
    The observation took effect on the store `alone`: as a no-op if the comparison says so, else
    as one patch with its events.
   */
  ghost predicate Took(alone: Server, server: Server, before: seq<Event>, events: seq<Event>,
                       device: string, obs: Observation, reportedAt: Option<string>, clock: Clock)
  {
    && obs.key in alone.objs && alone.objs[obs.key].spec.deviceRef.name == device
    && var o := alone.objs[obs.key];
       var after := ObservedStatus(o.status, obs, reportedAt, clock);
       && after.Some?
       && if StatusEqual(o.status, after.value) then server == alone && events == before
          else
            && server == WriteOne(alone, Put(obs.key, o.spec, after.value))
            && events == before + ObservedEvents(o.status, device, obs, reportedAt)
  }
}
