/**
  Any number of agents publishing one digest (agent/artifact_oci.go: Ensure). Every file
  operation is a step of its own; an agent may crash between any two of them, also while it
  copies a file or removes a directory, and then loses its lock. Names of temporary directories
  are fresh.
 */
module ArtifactStore {
  import opened Prelude
  import opened Artifact

  /** Where an agent is in Ensure. It holds the lock in all phases but the first and the last. */
  datatype Phase =
    | Waiting
    | Checking
    | Fetching
    | Extracting(temp: nat, n: nat, total: int)
    | Copying(temp: nat, n: nat, total: int, copied: nat)
    | Removing(temp: nat)
    | Renaming(temp: nat)
    | WritingMeta
    | WritingReady
    | Returning
    | Returned(failed: bool)

  /** The digest's directory: READY, rootfs and the temporary directories. */
  datatype Store = Store(ready: bool, rootfs: Option<Tree>, temps: map<nat, Tree>)

  datatype World = World(store: Store, lock: Option<nat>, agents: map<nat, Phase>)

  const EMPTY: World := World(Store(false, None, map[]), None, map[])

  /** A layer and the limits it is extracted under: fixed by the digest and the build. */
  datatype Given = Given(layer: seq<TarEntry>, limits: Limits)

  datatype Action =
    | Start
    | Lock
    | Check
    | MakeTemp(temp: nat)
    | BeginEntry
    | Copy(copied: nat)
    | FinishFile
    | FinishExtract
    | RemoveSome(paths: set<string>)
    | RemoveRest
    | Rename
    | WriteMeta
    | WriteReady
    | Return
    | Fail(left: Option<Tree>, marked: bool)
    | Crash

  datatype Step = Step(id: nat, action: Action)

  predicate Holds(p: Phase) {
    !p.Waiting? && !p.Returned?
  }

  predicate Published(s: Store) {
    s.ready && s.rootfs.Some?
  }

  /** The agent moves on within the lock, leaving this store. */
  function Move(w: World, id: nat, p: Phase, s: Store): World {
    w.(agents := w.agents[id := p], store := s)
  }

  /** The agent returns and its lock is released. */
  function Leave(w: World, id: nat, p: Phase, s: Store): World {
    World(s, None, w.agents[id := p])
  }

  function Filled(s: Store, temp: nat, tree: Tree): Store {
    s.(temps := s.temps[temp := tree])
  }

  predicate IsFile(e: TarEntry) {
    e.kind.FileEntry? && !Skipped(e.name)
  }

  /** The checks of the loop before a file is opened. */
  predicate MayOpen(g: Given, tree: Tree, n: nat)
    requires n < |g.layer|
  {
    n + 1 <= g.limits.maxEntries && !Unsafe(g.layer[n].name) && Opened(tree, g.layer[n].name, "").Some?
  }

  /** The next entry: a file is opened empty, anything else is done at once; an offending entry is left to Fail. */
  function Begun(g: Given, w: World, id: nat, temp: nat, n: nat, total: int): World {
    if n >= |g.layer| || temp !in w.store.temps then w
    else
      var tree, e := w.store.temps[temp], g.layer[n];
      if IsFile(e) then
        if !MayOpen(g, tree, n) then w
        else Move(w, id, Copying(temp, n, total, 0), Filled(w.store, temp, Opened(tree, e.name, "").value))
      else
        var r := Turn(Progress(tree, total), e, n, g.limits);
        if r.Err? then w else Move(w, id, Extracting(temp, n + 1, r.value.total), Filled(w.store, temp, r.value.tree))
  }

  /** More of the open file's content is written. */
  function Copied(g: Given, w: World, id: nat, p: Phase, upTo: nat): World
    requires p.Copying?
  {
    if p.n >= |g.layer| || !IsFile(g.layer[p.n]) || p.temp !in w.store.temps then w
    else
      var e := g.layer[p.n];
      if !(p.copied <= upTo <= |e.kind.content|) then w
      else Move(w, id, p.(copied := upTo),
          Filled(w.store, p.temp, w.store.temps[p.temp][e.name := Text(e.kind.content[..upTo])]))
  }

  /** The file is complete and the size limit still holds. */
  function Closed(g: Given, w: World, id: nat, p: Phase): World
    requires p.Copying?
  {
    if p.n >= |g.layer| || !IsFile(g.layer[p.n]) then w
    else
      var size := |g.layer[p.n].kind.content|;
      if p.copied != size || p.total + size > g.limits.maxBytes then w
      else Move(w, id, Extracting(p.temp, p.n + 1, p.total + size), w.store)
  }

  /**
    What an error path leaves: of the agent's temporary directory nothing, or what its removal
    missed; and a marker whose write failed after the file was created.
   */
  function AfterFailure(s: Store, p: Phase, left: Option<Tree>, marked: bool): Store {
    if p.WritingReady? then s.(ready := s.ready || marked)
    else if !(p.Extracting? || p.Copying? || p.Removing? || p.Renaming?) then s
    else if left.None? then s.(temps := s.temps - {p.temp})
    else Filled(s, p.temp, left.value)
  }

  /** The holder's own steps while it extracts. */
  function Extract(g: Given, w: World, id: nat, p: Phase, action: Action): World {
    match action
    case BeginEntry => if p.Extracting? then Begun(g, w, id, p.temp, p.n, p.total) else w
    case FinishExtract => if p.Extracting? && p.n == |g.layer| then Move(w, id, Removing(p.temp), w.store) else w
    case Copy(upTo) => if p.Copying? then Copied(g, w, id, p, upTo) else w
    case FinishFile => if p.Copying? then Closed(g, w, id, p) else w
    case _ => w
  }

  /** Its steps before and after. */
  function Publish(w: World, id: nat, p: Phase, action: Action): World {
    var s := w.store;
    match (p, action)
    case (Checking, Check) => if Published(s) then Leave(w, id, Returned(false), s) else Move(w, id, Fetching, s)
    case (Fetching, MakeTemp(t)) => if t in s.temps then w else Move(w, id, Extracting(t, 0, 0), Filled(s, t, map[]))
    case (Removing(t), RemoveSome(paths)) => if s.rootfs.None? then w
        else Move(w, id, p, s.(rootfs := Some(s.rootfs.value - paths)))
    case (Removing(t), RemoveRest) => Move(w, id, Renaming(t), s.(rootfs := None))
    case (Renaming(t), Rename) =>
      if t !in s.temps then w else Move(w, id, WritingMeta, s.(rootfs := Some(s.temps[t]), temps := s.temps - {t}))
    case (WritingMeta, WriteMeta) => Move(w, id, WritingReady, s)
    case (WritingReady, WriteReady) => Move(w, id, Returning, s.(ready := true))
    case (Returning, Return) => Leave(w, id, Returned(false), s)
    case (_, _) => w
  }

  function Act(g: Given, w: World, id: nat, p: Phase, action: Action): World {
    if action.Crash? then World(w.store, if Holds(p) then None else w.lock, w.agents - {id})
    else if p.Waiting? then
      if action.Lock? && w.lock.None? then World(w.store, Some(id), w.agents[id := Checking]) else w
    else if p.Returned? then w
    else if action.Fail? then Leave(w, id, Returned(true), AfterFailure(w.store, p, action.left, action.marked))
    else if p.Extracting? || p.Copying? then Extract(g, w, id, p, action)
    else Publish(w, id, p, action)
  }

  function Next(g: Given, w: World, step: Step): World {
    if step.id !in w.agents then
      if step.action.Start? then w.(agents := w.agents[step.id := Waiting]) else w
    else Act(g, w, step.id, w.agents[step.id], step.action)
  }

  function Run(g: Given, w: World, steps: seq<Step>): World
    decreases |steps|
  {
    if steps == [] then w else Next(g, Run(g, w, steps[..|steps| - 1]), steps[|steps| - 1])
  }

  // ---------- the invariant ----------

  /** The tree is the complete extraction of the layer. */
  predicate IsComplete(g: Given, tree: Tree) {
    Complete(g.layer, g.limits).Ok? && Complete(g.layer, g.limits).value.tree == tree
  }

  /** The temporary directory while a file is being copied into it. */
  ghost predicate MidCopy(g: Given, tree: Tree, n: nat, total: int, copied: nat) {
    && n < |g.layer| && IsFile(g.layer[n]) && copied <= |g.layer[n].kind.content|
    && n + 1 <= g.limits.maxEntries && !Unsafe(g.layer[n].name)
    && Extracted(g.layer, n, g.limits).Ok? && Extracted(g.layer, n, g.limits).value.total == total
    && Opened(Extracted(g.layer, n, g.limits).value.tree, g.layer[n].name, g.layer[n].kind.content[..copied])
        == Some(tree)
  }

  /** What the lock holder knows in each phase. */
  ghost predicate PhaseOk(g: Given, s: Store, p: Phase) {
    match p
    case Fetching => !Published(s)
    case Extracting(t, n, total) =>
      && !Published(s) && t in s.temps && n <= |g.layer|
      && Extracted(g.layer, n, g.limits) == Ok(Progress(s.temps[t], total))
    case Copying(t, n, total, copied) => !Published(s) && t in s.temps && MidCopy(g, s.temps[t], n, total, copied)
    case Removing(t) => !Published(s) && t in s.temps && IsComplete(g, s.temps[t])
    case Renaming(t) => s.rootfs.None? && t in s.temps && IsComplete(g, s.temps[t])
    case WritingMeta => s.rootfs.Some?
    case WritingReady => s.rootfs.Some?
    case Returning => Published(s)
    case _ => true
  }

  /** The rootfs that counts: published, or waiting for its marker. */
  ghost predicate RootfsOk(g: Given, s: Store, p: Option<Phase>) {
    s.rootfs.Some? && (s.ready || p == Some(WritingMeta) || p == Some(WritingReady)) ==> IsComplete(g, s.rootfs.value)
  }

  ghost function Holder(w: World): Option<Phase> {
    if w.lock.Some? && w.lock.value in w.agents then Some(w.agents[w.lock.value]) else None
  }

  ghost predicate Inv(g: Given, w: World) {
    && (forall id :: id in w.agents && Holds(w.agents[id]) ==> w.lock == Some(id))
    && (w.lock.Some? ==>
          w.lock.value in w.agents && Holds(w.agents[w.lock.value]) && PhaseOk(g, w.store, w.agents[w.lock.value]))
    && RootfsOk(g, w.store, Holder(w))
    && (forall id :: id in w.agents && w.agents[id] == Returned(false) ==> Published(w.store))
  }

  /** Replacing the content of an open file. */
  lemma Reopened(tree: Tree, name: string, x: string, y: string)
    ensures Opened(tree, name, x).Some? <==> Opened(tree, name, y).Some?
    ensures Opened(tree, name, x).Some? ==>
              name in Opened(tree, name, x).value
                  && Opened(tree, name, x).value[name := Text(y)] == Opened(tree, name, y).value
  {
    hide MkdirAll, Ancestors;
  }

  /** The step of a lock holder: it keeps the lock and its knowledge, or gives the lock up. */
  ghost predicate HolderStep(g: Given, s: Store, p: Phase, s': Store, p': Option<Phase>) {
    && (p'.Some? && Holds(p'.value) ==> PhaseOk(g, s', p'.value))
    && RootfsOk(g, s', if p'.Some? && Holds(p'.value) then p' else None)
    && (p' == Some(Returned(false)) ==> Published(s'))
    && (Published(s) ==> Published(s') && s'.rootfs == s.rootfs)
  }

  ghost function PhaseOf(w: World, id: nat): Option<Phase> {
    if id in w.agents then Some(w.agents[id]) else None
  }

  lemma BeginOk(g: Given, w: World, id: nat, p: Phase)
    requires p.Extracting? && PhaseOk(g, w.store, p) && id in w.agents && w.agents[id] == p
    ensures var w' := Begun(g, w, id, p.temp, p.n, p.total);
            && w'.lock == w.lock && w'.agents.Keys == w.agents.Keys
                && (forall x :: x in w.agents && x != id ==> w'.agents[x] == w.agents[x])
            && Holds(w'.agents[id]) && PhaseOk(g, w'.store, w'.agents[id])
            && w'.store.ready == w.store.ready && w'.store.rootfs == w.store.rootfs
            && !w'.agents[id].WritingMeta? && !w'.agents[id].WritingReady?
  {
    hide Turn, Opened, Unsafe;
    if p.n < |g.layer| && IsFile(g.layer[p.n]) {
      assert g.layer[p.n].kind.content[..0] == "";
    }
  }

  lemma CopyOk(g: Given, w: World, id: nat, p: Phase, upTo: nat)
    requires p.Copying? && PhaseOk(g, w.store, p) && id in w.agents && w.agents[id] == p
    ensures var w' := Copied(g, w, id, p, upTo);
            && w'.lock == w.lock && w'.agents.Keys == w.agents.Keys
                && (forall x :: x in w.agents && x != id ==> w'.agents[x] == w.agents[x])
            && w'.agents[id].Copying? && PhaseOk(g, w'.store, w'.agents[id])
            && w'.store.ready == w.store.ready && w'.store.rootfs == w.store.rootfs
  {
    hide Opened, Unsafe, Extracted;
    var e := g.layer[p.n];
    if p.copied <= upTo <= |e.kind.content| {
      Reopened(Extracted(g.layer, p.n, g.limits).value.tree, e.name, e.kind.content[..p.copied],
          e.kind.content[..upTo]);
    }
  }

  lemma CloseOk(g: Given, w: World, id: nat, p: Phase)
    requires p.Copying? && PhaseOk(g, w.store, p) && id in w.agents && w.agents[id] == p
    ensures var w' := Closed(g, w, id, p);
            && w'.lock == w.lock && w'.agents.Keys == w.agents.Keys
                && (forall x :: x in w.agents && x != id ==> w'.agents[x] == w.agents[x])
            && (w'.agents[id].Copying? || w'.agents[id].Extracting?) && PhaseOk(g, w'.store, w'.agents[id])
            && w'.store == w.store
  {
    hide Opened, Unsafe;
    var e := g.layer[p.n];
    if p.copied == |e.kind.content| {
      assert e.kind.content[..p.copied] == e.kind.content;
    }
  }

  /** The holder's step keeps the lock or gives it up, keeps what it must, and touches no other agent. */
  ghost predicate StepOk(g: Given, w: World, id: nat, w': World)
    requires id in w.agents
  {
    && HolderStep(g, w.store, w.agents[id], w'.store, PhaseOf(w', id))
    && (w'.lock == if PhaseOf(w', id).Some? && Holds(w'.agents[id]) then Some(id) else None)
    && (forall x :: x != id ==> PhaseOf(w', x) == PhaseOf(w, x))
  }

  lemma ExtractingOk(g: Given, w: World, id: nat, action: Action)
    requires Inv(g, w) && w.lock == Some(id) && (w.agents[id].Extracting? || w.agents[id].Copying?)
    ensures StepOk(g, w, id, Extract(g, w, id, w.agents[id], action))
  {
    hide Extract, StepOk, PhaseOk, RootfsOk;
    if w.agents[id].Extracting? {
      EntriesOk(g, w, id, action);
    } else {
      CopyingOk(g, w, id, action);
    }
  }

  lemma EntriesOk(g: Given, w: World, id: nat, action: Action)
    requires Inv(g, w) && w.lock == Some(id) && w.agents[id].Extracting?
    ensures StepOk(g, w, id, Extract(g, w, id, w.agents[id], action))
  {
    hide Begun, Copied, Closed, Extracted, MidCopy, IsComplete;
    var p := w.agents[id];
    BeginOk(g, w, id, p);
    if p.n == |g.layer| {
      FullyExtracted(g, w.store.temps[p.temp], p.total);
    }
  }

  lemma CopyingOk(g: Given, w: World, id: nat, action: Action)
    requires Inv(g, w) && w.lock == Some(id) && w.agents[id].Copying?
    ensures StepOk(g, w, id, Extract(g, w, id, w.agents[id], action))
  {
    hide Begun, Copied, Closed, Extracted, MidCopy, IsComplete;
    var p := w.agents[id];
    CloseOk(g, w, id, p);
    if action.Copy? {
      CopyOk(g, w, id, p, action.copied);
    }
  }

  lemma PublishingOk(g: Given, w: World, id: nat, action: Action)
    requires Inv(g, w) && w.lock == Some(id) && !w.agents[id].Extracting? && !w.agents[id].Copying?
    ensures StepOk(g, w, id, Publish(w, id, w.agents[id], action))
  {
    hide Extracted, MidCopy, IsComplete;
    NothingExtracted(g);
  }

  /** Every step of the lock holder keeps what it has to. */
  lemma HolderOk(g: Given, w: World, id: nat, action: Action)
    requires Inv(g, w) && w.lock == Some(id)
    ensures StepOk(g, w, id, Act(g, w, id, w.agents[id], action))
  {
    hide Extract, Publish, AfterFailure, IsComplete, PhaseOk;
    var p := w.agents[id];
    if action.Fail? {
      FailureKeeps(w.store, p, action.left, action.marked);
    } else if !action.Crash? {
      if p.Extracting? || p.Copying? {
        ExtractingOk(g, w, id, action);
      } else {
        PublishingOk(g, w, id, action);
      }
    }
  }

  lemma FullyExtracted(g: Given, tree: Tree, total: int)
    requires Extracted(g.layer, |g.layer|, g.limits) == Ok(Progress(tree, total))
    ensures IsComplete(g, tree)
  {
  }

  lemma NothingExtracted(g: Given)
    ensures Extracted(g.layer, 0, g.limits) == Ok(Progress(map[], 0))
  {
  }

  lemma FailureKeeps(s: Store, p: Phase, left: Option<Tree>, marked: bool)
    ensures var s' := AfterFailure(s, p, left, marked);
            s'.rootfs == s.rootfs && (s'.ready == s.ready || (s'.ready && p.WritingReady?))
  {
  }

  /** An agent without the lock changes nothing but its own phase. */
  lemma OtherOk(g: Given, w: World, id: nat, action: Action)
    requires Inv(g, w) && id in w.agents && w.lock != Some(id)
    ensures var w' := Act(g, w, id, w.agents[id], action);
            && w'.store == w.store
            && (forall x :: x != id ==> PhaseOf(w', x) == PhaseOf(w, x))
            && (w' == w
                || (PhaseOf(w', id).None? && w'.lock == w.lock)
                || (w.lock.None? && w'.lock == Some(id) && PhaseOf(w', id) == Some(Checking)))
  {
    hide Extract, Publish, AfterFailure, PhaseOk, RootfsOk;
  }

  lemma StepKeepsInv(g: Given, w: World, step: Step)
    requires Inv(g, w)
    ensures var w' := Next(g, w, step);
            Inv(g, w') && (Published(w.store) ==> Published(w'.store) && w'.store.rootfs == w.store.rootfs)
  {
    hide Act, IsComplete, Extracted, MidCopy;
    var w', id := Next(g, w, step), step.id;
    if id in w.agents {
      if w.lock == Some(id) {
        HolderOk(g, w, id, step.action);
      } else {
        OtherOk(g, w, id, step.action);
      }
      assert forall x :: x in w'.agents && x != id ==> PhaseOf(w', x) == PhaseOf(w, x) == Some(w'.agents[x]);
      assert w.lock.Some? ==> PhaseOf(w, w.lock.value) == Holder(w);
      assert w'.lock.Some? ==> PhaseOf(w', w'.lock.value) == Holder(w');
    }
  }

  lemma {:induction false} RunKeepsInv(g: Given, steps: seq<Step>)
    ensures Inv(g, Run(g, EMPTY, steps))
    decreases |steps|
  {
    hide Next;
    if steps != [] {
      RunKeepsInv(g, steps[..|steps| - 1]);
      StepKeepsInv(g, Run(g, EMPTY, steps[..|steps| - 1]), steps[|steps| - 1]);
    }
  }

  // ---------- safety ----------

  /**
    However many agents run and wherever they crash: READY with a rootfs directory means that the
    layer is acceptable and rootfs is its extraction, file by file and folder by folder, and a nil
    return leaves that state.
   */
  lemma ReadyMeansComplete(g: Given, steps: seq<Step>)
    ensures var w := Run(g, EMPTY, steps);
            && (Published(w.store) ==>
                  IsExtraction(g.layer, w.store.rootfs.value) && Acceptable(g.layer, |g.layer|, g.limits))
            && (forall id :: id in w.agents && w.agents[id] == Returned(false) ==> Published(w.store))
  {
    hide Run, IsExtraction, Acceptable, Extracted, PhaseOk;
    RunKeepsInv(g, steps);
    CompleteTreeIs(g);
  }

  /** A tree that is complete is the extraction of an acceptable layer. */
  lemma CompleteTreeIs(g: Given)
    ensures forall tree :: IsComplete(g, tree) ==>
            IsExtraction(g.layer, tree) && Acceptable(g.layer, |g.layer|, g.limits)
    ensures Complete(g.layer, g.limits).Ok? <==> Acceptable(g.layer, |g.layer|, g.limits)
  {
    hide IsExtraction, Acceptable, Extracted;
    AcceptedExactly(g.layer, |g.layer|, g.limits);
    if Complete(g.layer, g.limits).Ok? {
      CompleteIsExtraction(g.layer, g.limits);
    }
  }

  /** At most one agent is past the lock. */
  lemma OneHolder(g: Given, steps: seq<Step>, a: nat, b: nat)
    requires var w := Run(g, EMPTY, steps);
             a in w.agents && b in w.agents && Holds(w.agents[a]) && Holds(w.agents[b])
    ensures a == b
  {
    RunKeepsInv(g, steps);
  }

  /** Once published, always published, with the same files. */
  lemma {:induction false} PublishedStays(g: Given, steps: seq<Step>, m: nat)
    requires m <= |steps| && Published(Run(g, EMPTY, steps[..m]).store)
    ensures var was, now := Run(g, EMPTY, steps[..m]).store, Run(g, EMPTY, steps).store;
            Published(now) && now.rootfs == was.rootfs
    decreases |steps|
  {
    hide Next, Inv;
    var n := |steps| - 1;
    if m <= n {
      assert steps[..n][..m] == steps[..m];
      PublishedStays(g, steps[..n], m);
      RunKeepsInv(g, steps[..n]);
      StepKeepsInv(g, Run(g, EMPTY, steps[..n]), steps[n]);
    } else {
      assert steps[..m] == steps;
    }
  }

  // ---------- recovery ----------

  lemma {:induction false} RunOn(g: Given, w: World, a: seq<Step>, b: seq<Step>)
    ensures Run(g, w, a + b) == Run(g, Run(g, w, a), b)
    decreases |b|
  {
    hide Next;
    if b == [] {
      assert a + b == a;
    } else {
      var n := |b| - 1;
      assert (a + b)[..|a + b| - 1] == a + b[..n];
      RunOn(g, w, a, b[..n]);
    }
  }

  /** `w'` is `w` some steps later. */
  ghost predicate Reaches(g: Given, w: World, w': World) {
    exists steps :: Run(g, w, steps) == w'
  }

  lemma ReachesOn(g: Given, w: World, w': World, w'': World)
    requires Reaches(g, w, w') && Reaches(g, w', w'')
    ensures Reaches(g, w, w'')
  {
    hide Run;
    var a :| Run(g, w, a) == w';
    var b :| Run(g, w', b) == w'';
    RunOn(g, w, a, b);
  }

  /** One step of the agent, keeping the invariant. */
  ghost function Take(g: Given, w: World, id: nat, action: Action): (w': World)
    requires Inv(g, w) && id in w.agents
    ensures w' == Act(g, w, id, w.agents[id], action) && Reaches(g, w, w') && Inv(g, w')
  {
    hide Act, Inv;
    StepKeepsInv(g, w, Step(id, action));
    assert [Step(id, action)][..0] == [];
    assert Run(g, w, [Step(id, action)]) == Next(g, w, Step(id, action));
    Next(g, w, Step(id, action))
  }

  /** An extractable layer has no offending entry. */
  lemma PrefixExtracts(g: Given, n: nat)
    requires Complete(g.layer, g.limits).Ok? && n <= |g.layer|
    ensures Extracted(g.layer, n, g.limits).Ok?
  {
    hide Turn;
    if Extracted(g.layer, n, g.limits).Err? {
      ErrorsStay(g.layer, n, |g.layer|, g.limits);
    }
  }

  /** The lock holder gets one entry further. */
  lemma OneEntry(g: Given, w: World, id: nat) returns (w': World)
    requires Inv(g, w) && w.lock == Some(id) && id in w.agents && w.agents[id].Extracting? && w.agents[id].n < |g.layer|
    requires Complete(g.layer, g.limits).Ok?
    ensures Inv(g, w') && Reaches(g, w, w') && w'.lock == Some(id) && id in w'.agents
    ensures w'.agents[id].Extracting? && w'.agents[id].n == w.agents[id].n + 1
  {
    hide Inv, Extracted, Opened, Unsafe, Reaches, RootfsOk;
    var p := w.agents[id];
    var e := g.layer[p.n];
    assert PhaseOk(g, w.store, p) by { HolderKnows(g, w, id); }
    PrefixExtracts(g, p.n + 1);
    EntryPasses(g, w.store.temps[p.temp], p.n, p.total);
    w' := Take(g, w, id, BeginEntry);
    if IsFile(e) {
      var w1 := w';
      var w2 := Take(g, w1, id, Copy(|e.kind.content|));
      w' := Take(g, w2, id, FinishFile);
      ReachesOn(g, w, w1, w2);
      ReachesOn(g, w, w2, w');
    }
  }

  lemma RenamingHasTemp(g: Given, w: World, id: nat)
    requires Inv(g, w) && w.lock == Some(id) && id in w.agents && w.agents[id].Renaming?
    ensures w.agents[id].temp in w.store.temps
  {
  }

  lemma HolderKnows(g: Given, w: World, id: nat)
    requires Inv(g, w) && w.lock == Some(id)
    ensures id in w.agents && PhaseOk(g, w.store, w.agents[id])
  {
  }

  lemma EntryPasses(g: Given, tree: Tree, n: nat, total: int)
    requires n < |g.layer| && Extracted(g.layer, n, g.limits) == Ok(Progress(tree, total))
        && Extracted(g.layer, n + 1, g.limits).Ok?
    ensures Turn(Progress(tree, total), g.layer[n], n, g.limits).Ok?
    ensures IsFile(g.layer[n]) ==> MayOpen(g, tree, n) && total + |g.layer[n].kind.content| <= g.limits.maxBytes
  {
    hide Unsafe, MkdirAll, Opened;
    if IsFile(g.layer[n]) {
      Reopened(tree, g.layer[n].name, "", g.layer[n].kind.content);
    }
  }

  lemma {:induction false} AllEntries(g: Given, w: World, id: nat) returns (w': World)
    requires Inv(g, w) && w.lock == Some(id) && id in w.agents && w.agents[id].Extracting?
        && w.agents[id].n <= |g.layer|
    requires Complete(g.layer, g.limits).Ok?
    ensures Inv(g, w') && Reaches(g, w, w') && w'.lock == Some(id) && id in w'.agents
    ensures w'.agents[id].Extracting? && w'.agents[id].n == |g.layer|
    decreases |g.layer| - w.agents[id].n
  {
    hide Inv, Complete;
    w' := w;
    if w.agents[id].n < |g.layer| {
      var w1 := OneEntry(g, w, id);
      w' := AllEntries(g, w1, id);
      ReachesOn(g, w, w1, w');
    } else {
      assert Run(g, w, []) == w;
    }
  }

  lemma Fresh(temps: map<nat, Tree>) returns (t: nat)
    ensures t !in temps
  {
    var keys := temps.Keys;
    t := Above(keys);
  }

  lemma {:induction false} Above(keys: set<nat>) returns (t: nat)
    ensures forall k :: k in keys ==> k < t
    decreases |keys|
  {
    t := 0;
    if keys != {} {
      var k :| k in keys;
      var m := Above(keys - {k});
      t := if k < m then m else k + 1;
      assert forall x :: x in keys ==> x == k || x in keys - {k};
    }
  }

  /** After its extraction the holder puts rootfs in place. */
  lemma PutsInPlace(g: Given, w: World, id: nat) returns (w': World)
    requires Inv(g, w) && w.lock == Some(id) && id in w.agents && w.agents[id].Extracting?
        && w.agents[id].n == |g.layer|
    ensures Inv(g, w') && Reaches(g, w, w') && w'.lock == Some(id) && id in w'.agents && w'.agents[id].WritingMeta?
  {
    hide Reaches, Inv, PhaseOk, Begun, Copied, Closed;
    var w1 := Take(g, w, id, FinishExtract);
    var w2 := Take(g, w1, id, RemoveRest);
    RenamingHasTemp(g, w2, id);
    w' := Take(g, w2, id, Rename);
    ReachesOn(g, w, w1, w2);
    ReachesOn(g, w, w2, w');
  }

  /** Then it writes the marker and returns without an error. */
  lemma Publishes(g: Given, w: World, id: nat) returns (w': World)
    requires Inv(g, w) && w.lock == Some(id) && id in w.agents && w.agents[id].WritingMeta?
    ensures Reaches(g, w, w') && id in w'.agents && w'.agents[id] == Returned(false) && Inv(g, w')
  {
    hide Reaches, Inv, Extract;
    var w1 := Take(g, w, id, WriteMeta);
    var w2 := Take(g, w1, id, WriteReady);
    w' := Take(g, w2, id, Return);
    ReachesOn(g, w, w1, w2);
    ReachesOn(g, w, w2, w');
  }

  /**
    No crash wedges the store: from every reachable state in which the lock is free, a new agent
    that is left alone publishes an acceptable layer and returns without an error.
   */
  lemma Recovers(g: Given, steps: seq<Step>, id: nat) returns (w': World)
    requires var w := Run(g, EMPTY, steps); w.lock.None? && id !in w.agents
    requires Acceptable(g.layer, |g.layer|, g.limits)
    ensures Reaches(g, Run(g, EMPTY, steps), w')
    ensures id in w'.agents && w'.agents[id] == Returned(false) && Published(w'.store)
        && IsExtraction(g.layer, w'.store.rootfs.value)
  {
    hide Reaches, Complete, IsComplete, PhaseOk, RootfsOk, IsExtraction, Acceptable;
    CompleteTreeIs(g);
    var w := Run(g, EMPTY, steps);
    RunKeepsInv(g, steps);
    StepKeepsInv(g, w, Step(id, Start));
    var w1 := Next(g, w, Step(id, Start));
    Started(g, w, id);
    var w2 := Take(g, w1, id, Lock);
    var w3 := Take(g, w2, id, Check);
    ReachesOn(g, w, w1, w2);
    ReachesOn(g, w, w2, w3);
    w' := w3;
    if !Published(w2.store) {
      var t := Fresh(w3.store.temps);
      var w4 := Take(g, w3, id, MakeTemp(t));
      var w5 := AllEntries(g, w4, id);
      var w6 := PutsInPlace(g, w5, id);
      w' := Publishes(g, w6, id);
      ReachesOn(g, w, w3, w4);
      ReachesOn(g, w, w4, w5);
      ReachesOn(g, w, w5, w6);
      ReachesOn(g, w, w6, w');
    }
    PublishedIsComplete(g, w');
  }

  lemma Started(g: Given, w: World, id: nat)
    ensures Reaches(g, w, Next(g, w, Step(id, Start)))
  {
    assert [Step(id, Start)][..0] == [];
    assert Run(g, w, [Step(id, Start)]) == Next(g, w, Step(id, Start));
  }

  lemma PublishedIsComplete(g: Given, w: World)
    requires Inv(g, w)
    ensures Published(w.store) ==> IsComplete(g, w.store.rootfs.value)
    ensures forall id :: id in w.agents && w.agents[id] == Returned(false) ==> Published(w.store)
  {
  }
}
