/**
  What passes of the agent guarantee: its observations, its managed map and files over any run
  of passes, convergence, restarts exactly on a change of meaning, and the spacing of drift
  corrections.
 */
module AgentLaws {
  import opened Prelude
  import opened Text
  import opened ApiTypes
  import opened Render
  import opened Units
  import opened AgentPass
  import StatusLaws

  // ---------- one item ----------

  lemma SettleResult(disk: Disk, m: Managed, base: string, specHash: string, obs: Observation, a: Answers)
    requires obs.pid == 0 && obs.startTime == Blank && obs.errorMessage.None?
    ensures var r := Settle(disk, m, base, specHash, obs, a);
            && r.disk == disk && StatusLaws.AgentMade(r.obs) && StatusLaws.WholeSecond(r.obs)
            && r.obs.key == obs.key && r.obs.observedSpecHash == obs.observedSpecHash
            && r.managed.unitName == m.unitName
  {
  }

  lemma StartResult(disk: Disk, prev: Option<Managed>, base: string, item: DesiredItem, obs: Observation,
                    changed: bool, m: Managed, a: Answers)
    requires obs.pid == 0 && obs.startTime == Blank && obs.errorMessage.None?
    ensures var r := StartOrRestart(disk, prev, base, item, obs, changed, m, a);
            && r.disk == disk && StatusLaws.AgentMade(r.obs) && StatusLaws.WholeSecond(r.obs)
            && r.obs.key == obs.key && r.obs.observedSpecHash == obs.observedSpecHash
            && r.managed.unitName == m.unitName
  {
    hide Settle;
    SettleResult(disk, MarkAction(m, item.specHash, "enable-and-start", a.actionAt), base, item.specHash, obs, a);
    SettleResult(disk, MarkAction(m, item.specHash, "restart", a.actionAt), base, item.specHash, obs, a);
    SettleResult(disk, m, base, item.specHash, obs, a);
  }

  lemma PrepareResult(item: DesiredItem, a: Answers)
    ensures var p := Prepare(item, a);
            && p.obs.key == item.key && p.obs.observedSpecHash == item.specHash
            && (p.Go? ==> p.obs.pid == 0 && p.obs.startTime == Blank && p.obs.errorMessage.None?)
            && (p.Skip? ==> StatusLaws.AgentMade(p.obs) && StatusLaws.WholeSecond(p.obs))
  {
    hide Trim;
  }

  /** The two files of a base: the only ones its item touches. */
  function Own(base: string): set<Path> {
    {UnitPath(base), EnvPath(base)}
  }

  /** Every observation is one the status machine accepts, and names its item and spec hash. */
  lemma PassItemResult(disk: Disk, prev: Option<Managed>, base: string, item: DesiredItem, a: Answers)
    ensures var r := PassItem(disk, prev, base, item, a);
            && StatusLaws.AgentMade(r.obs) && StatusLaws.WholeSecond(r.obs)
            && r.obs.key == item.key && r.obs.observedSpecHash == item.specHash
            && r.managed.unitName == UnitName(base)
            && r.disk - Own(base) == disk - Own(base)
  {
    hide StartOrRestart, Prepare, Ensure, TextsOf, StatusLaws.AgentMade, StatusLaws.WholeSecond, Renderable;
    PrepareResult(item, a);
    var p := Prepare(item, a);
    if p.Go? {
      if Renderable(p.execution) {
        DriveResult(disk, prev, base, item, p.obs, TextsOf(base, item, p.execution), a);
      } else {
        FailedMade(p.obs, a.renderError);
      }
    }
  }

  lemma FailedMade(obs: Observation, msg: string)
    requires obs.pid == 0 && obs.startTime == Blank
    ensures StatusLaws.AgentMade(FailedWith(obs, msg)) && StatusLaws.WholeSecond(FailedWith(obs, msg))
  {
  }

  lemma DriveResult(disk: Disk, prev: Option<Managed>, base: string, item: DesiredItem, obs: Observation,
                    texts: Files, a: Answers)
    requires obs.pid == 0 && obs.startTime == Blank && obs.errorMessage.None?
    ensures var r := Drive(disk, prev, base, item, obs, texts, a);
            && StatusLaws.AgentMade(r.obs) && StatusLaws.WholeSecond(r.obs)
            && r.obs.key == obs.key && r.obs.observedSpecHash == obs.observedSpecHash
            && r.managed.unitName == UnitName(base)
            && r.disk - Own(base) == disk - Own(base)
  {
    hide StartOrRestart, Ensure;
    var w := Ensure(disk, base, texts.unit, texts.env, a.files);
    var m := CarryManaged(if prev.Some? then prev.value else UNMANAGED, UnitName(base));
    EnsureWrites(disk, base, texts.unit, texts.env, a.files);
    StartResult(w.disk, prev, base, item, obs, w.unitChanged || w.envChanged, m, a);
    if w.error.Some? {
      FailedMade(obs, w.error.value);
    }
  }

  // ---------- one pass ----------

  /** A namespaced name as the API server admits it. */
  predicate GoodKey(key: Key) {
    key.namespace != "" && key.name != "" && '/' !in key.namespace
  }

  predicate GoodKeys(items: seq<DesiredItem>) {
    forall i :: 0 <= i < |items| ==> GoodKey(items[i].key)
  }

  predicate DistinctItems(items: seq<DesiredItem>) {
    forall i, j :: 0 <= i < j < |items| ==> items[i].key != items[j].key
  }

  function KeysOf(items: seq<DesiredItem>): set<string> {
    set i | 0 <= i < |items| :: ItemKey(items[i].key)
  }

  /** The result for item `i` within a pass. */
  ghost function ResultAt(base: Key -> string, s: AgentState, r: Round, i: nat): ItemResult
    requires Sized(r) && i < |r.items|
  {
    var p := PassItems(base, s.disk, s.managed, r.items[..i], r.answers[..i]);
    PassItem(p.disk, Prev(s.managed, r.items[i].key), base(r.items[i].key), r.items[i], r.answers[i])
  }

  datatype AgentState = AgentState(disk: Disk, managed: map<string, Managed>)

  /** One desired response and the world's answers while the agent acts on it. */
  datatype Round = Round(items: seq<DesiredItem>, answers: seq<Answers>)

  predicate Sized(r: Round) {
    |r.answers| == |r.items|
  }

  ghost function Items(base: Key -> string, s: AgentState, r: Round): PassState
    requires Sized(r)
  {
    PassItems(base, s.disk, s.managed, r.items, r.answers)
  }

  /** What Agent.Reconcile leaves. */
  ghost function Pass(base: Key -> string, s: AgentState, r: Round): AgentState
    requires Sized(r)
  {
    var p := Items(base, s, r);
    AgentState(AfterCleanup(base, p.disk, s.managed.Keys - p.now.Keys), p.now)
  }

  function Prefix(r: Round, n: nat): Round
    requires Sized(r) && n <= |r.items|
  {
    Round(r.items[..n], r.answers[..n])
  }

  /** The last item of a pass, in terms of the pass without it. */
  lemma LastItem(base: Key -> string, s: AgentState, r: Round)
    requires Sized(r) && r.items != []
    ensures var n := |r.items| - 1;
            var p, q, x := Items(base, s, r), Items(base, s, Prefix(r, n)), ResultAt(base, s, r, n);
            && p.disk == x.disk && p.now == q.now[ItemKey(r.items[n].key) := x.managed]
            && p.obs == q.obs + [x.obs] && p.calls == q.calls + x.calls
            && (forall i :: 0 <= i < n ==> ResultAt(base, s, r, i) == ResultAt(base, s, Prefix(r, n), i))
  {
    hide PassItem;
    var n := |r.items| - 1;
    forall i | 0 <= i < n ensures ResultAt(base, s, r, i) == ResultAt(base, s, Prefix(r, n), i) {
      assert r.items[..n][..i] == r.items[..i] && r.answers[..n][..i] == r.answers[..i];
    }
  }

  /** One observation per item, in order; the managed keys are the desired keys. */
  lemma {:induction false} PassShape(base: Key -> string, s: AgentState, r: Round)
    requires Sized(r)
    ensures var p := Items(base, s, r);
            && p.now.Keys == KeysOf(r.items)
            && |p.obs| == |r.items|
            && forall i :: 0 <= i < |r.items| ==> p.obs[i] == ResultAt(base, s, r, i).obs
    decreases |r.items|
  {
    hide PassItem;
    if r.items != [] {
      var n := |r.items| - 1;
      LastItem(base, s, r);
      PassShape(base, s, Prefix(r, n));
      assert KeysOf(r.items) == KeysOf(r.items[..n]) + {ItemKey(r.items[n].key)};
    }
  }

  /** With distinct keys, each managed entry is its item's result. */
  lemma {:induction false} PassManaged(base: Key -> string, s: AgentState, r: Round, i: nat)
    requires Sized(r) && GoodKeys(r.items) && DistinctItems(r.items) && i < |r.items|
    ensures var now, k := Items(base, s, r).now, ItemKey(r.items[i].key);
            k in now && now[k] == ResultAt(base, s, r, i).managed
    decreases |r.items|
  {
    hide PassItem;
    var n := |r.items| - 1;
    LastItem(base, s, r);
    if i < n {
      PassManaged(base, s, Prefix(r, n), i);
      if ItemKey(r.items[i].key) == ItemKey(r.items[n].key) {
        ItemKeyInjective(r.items[i].key, r.items[n].key);
      }
    }
  }

  /** Each observation is well formed and carries its item's key and spec hash. */
  lemma PassObserves(base: Key -> string, s: AgentState, r: Round)
    requires Sized(r)
    ensures var obs := Items(base, s, r).obs;
            && |obs| == |r.items|
            && (forall i :: 0 <= i < |r.items| ==>
                  && obs[i].key == r.items[i].key && obs[i].observedSpecHash == r.items[i].specHash
                  && StatusLaws.AgentMade(obs[i]) && StatusLaws.WholeSecond(obs[i]))
  {
    hide PassItem, StatusLaws.AgentMade, StatusLaws.WholeSecond;
    PassShape(base, s, r);
    forall i | 0 <= i < |r.items|
      ensures var obs := Items(base, s, r).obs;
              && obs[i].key == r.items[i].key && obs[i].observedSpecHash == r.items[i].specHash
              && StatusLaws.AgentMade(obs[i]) && StatusLaws.WholeSecond(obs[i])
    {
      var p := PassItems(base, s.disk, s.managed, r.items[..i], r.answers[..i]);
      PassItemResult(p.disk, Prev(s.managed, r.items[i].key), base(r.items[i].key), r.items[i], r.answers[i]);
    }
  }

  /**
    After a pass the managed keys are exactly the desired keys, each with its own unit name, and
    there is one observation per item, in order, that carries its spec hash and is well formed.
   */
  lemma PassAccounts(base: Key -> string, s: AgentState, r: Round)
    requires Sized(r) && GoodKeys(r.items) && DistinctItems(r.items)
    ensures var s' := Pass(base, s, r);
            && s'.managed.Keys == KeysOf(r.items)
            && (forall i :: 0 <= i < |r.items| ==>
                  && ItemKey(r.items[i].key) in s'.managed
                  && s'.managed[ItemKey(r.items[i].key)].unitName == UnitName(base(r.items[i].key)))
    ensures var obs := Items(base, s, r).obs;
            && |obs| == |r.items|
            && (forall i :: 0 <= i < |r.items| ==>
                  && obs[i].key == r.items[i].key && obs[i].observedSpecHash == r.items[i].specHash
                  && StatusLaws.AgentMade(obs[i]) && StatusLaws.WholeSecond(obs[i]))
  {
    hide PassItem, StatusLaws.AgentMade, StatusLaws.WholeSecond, UnitName;
    PassShape(base, s, r);
    PassObserves(base, s, r);
    forall i | 0 <= i < |r.items|
      ensures var now, k := Items(base, s, r).now, ItemKey(r.items[i].key);
              k in now && now[k].unitName == UnitName(base(r.items[i].key))
    {
      PassManaged(base, s, r, i);
      var p := PassItems(base, s.disk, s.managed, r.items[..i], r.answers[..i]);
      PassItemResult(p.disk, Prev(s.managed, r.items[i].key), base(r.items[i].key), r.items[i], r.answers[i]);
    }
  }

  // ---------- files over any run ----------

  /** Every file belongs to a managed key. */
  ghost predicate Tidy(base: Key -> string, s: AgentState) {
    forall p :: p in s.disk ==> FileOfSome(base, s.managed.Keys, p)
  }

  /** `p` is a file of one of the items. */
  ghost predicate FileOfItem(base: Key -> string, items: seq<DesiredItem>, p: Path) {
    exists i :: 0 <= i < |items| && p in Own(base(items[i].key))
  }

  /** Whatever the item loop adds to the disk, or changes there, is a file of an item. */
  lemma {:induction false} ItemsTouch(base: Key -> string, s: AgentState, r: Round, p: Path)
    requires Sized(r)
    ensures var d := Items(base, s, r).disk;
            FileOfItem(base, r.items, p) || ((p in d <==> p in s.disk) && (p in d ==> d[p] == s.disk[p]))
    decreases |r.items|
  {
    hide PassItem;
    if r.items != [] && !FileOfItem(base, r.items, p) {
      var n := |r.items| - 1;
      var item := r.items[n];
      var q := Items(base, s, Prefix(r, n));
      LastItem(base, s, r);
      assert p !in Own(base(item.key));
      assert forall i :: 0 <= i < n ==> r.items[..n][i] == r.items[i];
      ItemsTouch(base, s, Prefix(r, n), p);
      PassItemResult(q.disk, Prev(s.managed, item.key), base(item.key), item, r.answers[n]);
      var d := ResultAt(base, s, r, n).disk;
      assert p in d - Own(base(item.key)) <==> p in q.disk - Own(base(item.key));
    }
  }

  lemma ItemFileIsKeyFile(base: Key -> string, items: seq<DesiredItem>, p: Path)
    requires GoodKeys(items)
    ensures FileOfItem(base, items, p) <==> FileOfSome(base, KeysOf(items), p)
  {
    forall i | 0 <= i < |items| ensures SplitKey(ItemKey(items[i].key)) == Some(items[i].key) {
      SplitItemKey(items[i].key);
    }
    if FileOfItem(base, items, p) {
      var i :| 0 <= i < |items| && p in Own(base(items[i].key));
      assert FileOf(base, ItemKey(items[i].key), p);
    }
    if FileOfSome(base, KeysOf(items), p) {
      var k :| k in KeysOf(items) && FileOf(base, k, p);
    }
  }

  lemma PassTidy(base: Key -> string, s: AgentState, r: Round)
    requires Sized(r) && GoodKeys(r.items) && Tidy(base, s)
    ensures Tidy(base, Pass(base, s, r))
  {
    hide PassItem, PassItems, FileOf;
    var q, s' := Items(base, s, r), Pass(base, s, r);
    PassShape(base, s, r);
    forall p | p in s'.disk ensures FileOfSome(base, s'.managed.Keys, p) {
      ItemFileIsKeyFile(base, r.items, p);
      ItemsTouch(base, s, r, p);
      if p in s.disk {
        var k :| k in s.managed.Keys && FileOf(base, k, p);
        assert k !in s.managed.Keys - q.now.Keys;
      }
    }
  }

  ghost predicate Rounds(rounds: seq<Round>) {
    forall n :: 0 <= n < |rounds| ==> Sized(rounds[n]) && GoodKeys(rounds[n].items)
  }

  ghost function Run(base: Key -> string, s: AgentState, rounds: seq<Round>): AgentState
    requires Rounds(rounds)
    decreases |rounds|
  {
    if rounds == [] then s
    else Pass(base, Run(base, s, rounds[..|rounds| - 1]), rounds[|rounds| - 1])
  }

  lemma {:induction false} RunTidy(base: Key -> string, s: AgentState, rounds: seq<Round>)
    requires Rounds(rounds) && Tidy(base, s)
    ensures Tidy(base, Run(base, s, rounds))
    decreases |rounds|
  {
    hide Tidy, Pass;
    if rounds != [] {
      var n := |rounds| - 1;
      RunTidy(base, s, rounds[..n]);
      PassTidy(base, Run(base, s, rounds[..n]), rounds[n]);
    }
  }

  /** From an empty disk, after any run of passes each file belongs to an item of the last pass. */
  lemma FilesAreDesired(base: Key -> string, rounds: seq<Round>, p: Path)
    requires Rounds(rounds) && rounds != []
    requires p in Run(base, AgentState(map[], map[]), rounds).disk
    ensures FileOfItem(base, rounds[|rounds| - 1].items, p)
  {
    hide PassItem, PassItems, FileOf, AfterCleanup;
    var n := |rounds| - 1;
    var s := AgentState(map[], map[]);
    RunTidy(base, s, rounds);
    PassShape(base, Run(base, s, rounds[..n]), rounds[n]);
    ItemFileIsKeyFile(base, rounds[n].items, p);
  }

  /** No key the agent manages, and no other item, shares an item's base. */
  ghost predicate Apart(base: Key -> string, managed: map<string, Managed>, items: seq<DesiredItem>) {
    && (forall i, j :: 0 <= i < j < |items| ==> base(items[i].key) != base(items[j].key))
    && (forall k, i ::
          k in managed && 0 <= i < |items| && SplitKey(k).Some? && base(SplitKey(k).value) == base(items[i].key) ==>
          SplitKey(k).value == items[i].key)
  }

  /** The cleanup leaves the files of every desired item as the item loop left them. */
  lemma CleanupSparesItems(base: Key -> string, s: AgentState, r: Round, p: Path)
    requires Sized(r) && GoodKeys(r.items) && Apart(base, s.managed, r.items) && FileOfItem(base, r.items, p)
    ensures var before, after := Items(base, s, r).disk, Pass(base, s, r).disk;
            (p in after <==> p in before) && (p in after ==> after[p] == before[p])
  {
    hide PassItem, PassItems;
    var now := Items(base, s, r).now;
    PassShape(base, s, r);
    var i :| 0 <= i < |r.items| && p in Own(base(r.items[i].key));
    forall k | k in s.managed.Keys ensures FileOf(base, k, p) ==> k in now.Keys {
      if FileOf(base, k, p) {
        PathsDisjoint(base(SplitKey(k).value), base(r.items[i].key));
        PathsDisjoint(base(r.items[i].key), base(SplitKey(k).value));
        JoinSplitKey(k);
        assert SplitKey(k).value == r.items[i].key;
        assert k in KeysOf(r.items);
      }
    }
  }

  /** Two keys of which neither straddles the other. */
  predicate Unmixed(a: Key, b: Key) {
    !Straddles(a, b) && !Straddles(b, a)
  }

  /** Every key in sight is plain: the items' and those the managed map's keys split into. */
  ghost predicate PlainKeys(managed: map<string, Managed>, items: seq<DesiredItem>) {
    && (forall i :: 0 <= i < |items| ==> PlainKey(items[i].key))
    && (forall k :: k in managed && SplitKey(k).Some? ==> PlainKey(SplitKey(k).value))
  }

  /**
    When the distinctness that the file laws ask for holds, with the source's own names: exactly
    when the items' keys are distinct and no key in sight straddles an item's.
   */
  lemma ApartExactly(digest: string -> string, base: Key -> string, managed: map<string, Managed>,
                     items: seq<DesiredItem>)
    requires PlainKeys(managed, items) && forall key :: base(key) == SanitizedBase(digest, key)
    ensures Apart(base, managed, items) <==>
            && DistinctItems(items)
            && (forall i, j :: 0 <= i < j < |items| ==> Unmixed(items[i].key, items[j].key))
            && (forall k, i :: k in managed && 0 <= i < |items| && SplitKey(k).Some? ==>
                Unmixed(SplitKey(k).value, items[i].key))
  {
    hide SanitizedBase, PlainKey, Straddles, SplitKey;
    forall i, j | 0 <= i < j < |items|
      ensures base(items[i].key) != base(items[j].key) <==>
              items[i].key != items[j].key && Unmixed(items[i].key, items[j].key)
    {
      PlainKeysShareExact(digest, items[i].key, items[j].key);
    }
    forall k, i | k in managed && 0 <= i < |items| && SplitKey(k).Some?
      ensures var q := SplitKey(k).value;
              (base(q) == base(items[i].key) ==> q == items[i].key) <==> Unmixed(q, items[i].key)
    {
      var q := SplitKey(k).value;
      PlainKeysShareExact(digest, q, items[i].key);
      NotOwnStraddler(q);
    }
  }

  lemma NotOwnStraddler(key: Key)
    ensures !Straddles(key, key)
  {
  }

  // ---------- units over any run ----------

  /** Each managed entry records the unit name of its own key. */
  ghost predicate Named(base: Key -> string, managed: map<string, Managed>) {
    forall k :: k in managed && SplitKey(k).Some? ==> managed[k].unitName == UnitName(base(SplitKey(k).value))
  }

  lemma {:induction false} PassNamed(base: Key -> string, s: AgentState, r: Round)
    requires Sized(r) && GoodKeys(r.items)
    ensures Named(base, Items(base, s, r).now)
    decreases |r.items|
  {
    hide PassItem, SplitKey, ItemKey, UnitName;
    if r.items != [] {
      var n := |r.items| - 1;
      var item, q := r.items[n], Items(base, s, Prefix(r, n));
      LastItem(base, s, r);
      PassNamed(base, s, Prefix(r, n));
      PassItemResult(q.disk, Prev(s.managed, item.key), base(item.key), item, r.answers[n]);
      SplitItemKey(item.key);
    }
  }

  lemma RunNamed(base: Key -> string, s: AgentState, rounds: seq<Round>)
    requires Rounds(rounds) && Named(base, s.managed)
    ensures Named(base, Run(base, s, rounds).managed)
  {
    hide Named, PassItems, AfterCleanup;
    if rounds != [] {
      var n := |rounds| - 1;
      PassNamed(base, Run(base, s, rounds[..n]), rounds[n]);
    }
  }

  /**
    After any run from an empty state, the cleanup of the next pass stops no unit of a desired
    item and removes none of its files.
   */
  lemma CleanupSparesUnits(base: Key -> string, rounds: seq<Round>, r: Round, calls: seq<Call>, i: nat)
    requires Rounds(rounds) && Sized(r) && GoodKeys(r.items) && i < |r.items|
    requires var s := Run(base, AgentState(map[], map[]), rounds);
             && Apart(base, s.managed, r.items)
             && CleanupCalls(base, s.managed, s.managed.Keys - Items(base, s, r).now.Keys, calls)
    ensures var b := base(r.items[i].key);
            Disable(UnitName(b)) !in calls && Remove(UnitPath(b)) !in calls && Remove(EnvPath(b)) !in calls
  {
    hide Run, PassItems, Rounds, SplitKey, ItemKey, CleanupCall, Named;
    var s := Run(base, AgentState(map[], map[]), rounds);
    var dropped := s.managed.Keys - Items(base, s, r).now.Keys;
    NothingNamed(base);
    RunNamed(base, AgentState(map[], map[]), rounds);
    PassShape(base, s, r);
    forall c | CleanupCall(base, s.managed, dropped, c)
      ensures var b := base(r.items[i].key);
          c != Disable(UnitName(b)) && c != Remove(UnitPath(b)) && c != Remove(EnvPath(b))
    {
      SparedCall(base, s.managed, r.items, dropped, c, i);
    }
  }

  lemma NothingNamed(base: Key -> string)
    ensures Named(base, map[])
  {
  }

  lemma SparedCall(base: Key -> string, managed: map<string, Managed>, items: seq<DesiredItem>, dropped: set<string>,
                   c: Call, i: nat)
    requires Named(base, managed) && Apart(base, managed, items) && i < |items|
    requires dropped == managed.Keys - KeysOf(items) && CleanupCall(base, managed, dropped, c)
    ensures var b := base(items[i].key);
            c != Disable(UnitName(b)) && c != Remove(UnitPath(b)) && c != Remove(EnvPath(b))
  {
    var b := base(items[i].key);
    forall k | k in dropped && SplitKey(k).Some?
      ensures base(SplitKey(k).value) != b
    {
      JoinSplitKey(k);
      assert ItemKey(items[i].key) in KeysOf(items);
    }
    match c
    case Disable(u) =>
      var k :| k in dropped && k in managed && SplitKey(k).Some? && managed[k].unitName == u;
      PathsDisjoint(base(SplitKey(k).value), b);
    case Remove(path) =>
      var k :| k in dropped && FileOf(base, k, path);
      PathsDisjoint(base(SplitKey(k).value), b);
      PathsDisjoint(b, base(SplitKey(k).value));
    case _ =>
  }

  // ---------- convergence ----------

  predicate WritesWork(a: FileAnswers) {
    a.unitFile == FileOk && a.envDir == RanOk && a.envFile == FileOk
  }

  predicate RunningUnit(a: Answers) {
    a.show.Shown? && a.show.active && a.show.pid > 0
  }

  /** The artifact, when there is one, is fetched and the command resolved against it. */
  predicate FetchWorks(item: DesiredItem, a: Answers) {
    item.spec.artifact.atype == Oci ==> a.fetched.error.None? && a.fetched.resolved.Ok?
  }

  /** The execution to render: the command comes from the artifact's root when there is one. */
  function Resolved(item: DesiredItem, a: Answers): Execution {
    if item.spec.artifact.atype == Oci && a.fetched.resolved.Ok?
    then item.spec.execution.(command := a.fetched.resolved.value)
    else item.spec.execution
  }

  /** A renderable systemd item whose every operation succeeds and whose unit runs. */
  predicate Fine(item: DesiredItem, a: Answers) {
    && item.spec.execution.backend == Systemd
    && FetchWorks(item, a) && Renderable(Resolved(item, a))
    && WritesWork(a.files) && a.enable == RanOk && a.restart == RanOk && RunningUnit(a)
  }

  predicate AllFine(r: Round) {
    Sized(r) && forall i :: 0 <= i < |r.items| ==> Fine(r.items[i], r.answers[i])
  }

  /** The item's files hold its rendered texts. */
  predicate InPlace(base: Key -> string, disk: Disk, item: DesiredItem, a: Answers) {
    var texts := TextsOf(base(item.key), item, Resolved(item, a));
    && !Differs(disk, UnitPath(base(item.key)), texts.unit)
    && !Differs(disk, EnvPath(base(item.key)), texts.env)
  }

  lemma PrepareGoes(item: DesiredItem, a: Answers)
    requires item.spec.execution.backend == Systemd && FetchWorks(item, a)
    ensures var p := Prepare(item, a); p.Go? && p.execution == Resolved(item, a)
  {
    hide Trim;
  }

  lemma RunningSettles(disk: Disk, m: Managed, base: string, specHash: string, obs: Observation, a: Answers)
    requires RunningUnit(a)
    ensures var r := Settle(disk, m, base, specHash, obs, a);
            r.disk == disk && r.managed == m && r.calls == [] && r.obs.processStarted == Some(true) && !r.drifted
  {
  }

  /** A fine item is reported started and its files are in place afterwards. */
  lemma FineItem(disk: Disk, prev: Option<Managed>, base: Key -> string, item: DesiredItem, a: Answers)
    requires Fine(item, a)
    ensures var r := PassItem(disk, prev, base(item.key), item, a);
            && r.obs.processStarted == Some(true)
            && InPlace(base, r.disk, item, a)
  {
    hide Settle, Prepare, Ensure, TextsOf, Renderable;
    PrepareGoes(item, a);
    var b, texts := base(item.key), TextsOf(base(item.key), item, Resolved(item, a));
    EnsureWrites(disk, b, texts.unit, texts.env, a.files);
    EnsureWorks(disk, b, texts.unit, texts.env, a.files);
    var w := Ensure(disk, b, texts.unit, texts.env, a.files);
    var obs := Prepare(item, a).obs;
    var m := CarryManaged(if prev.Some? then prev.value else UNMANAGED, UnitName(b));
    RunningSettles(w.disk, MarkAction(m, item.specHash, "enable-and-start", a.actionAt), b, item.specHash, obs, a);
    RunningSettles(w.disk, MarkAction(m, item.specHash, "restart", a.actionAt), b, item.specHash, obs, a);
    RunningSettles(w.disk, m, b, item.specHash, obs, a);
  }

  lemma EnsureWorks(disk: Disk, base: string, unit: string, env: string, a: FileAnswers)
    requires WritesWork(a)
    ensures Ensure(disk, base, unit, env, a).error.None?
  {
  }

  /** A fine managed item whose files are in place is left alone and reported started. */
  lemma SettledItem(disk: Disk, m: Managed, base: Key -> string, item: DesiredItem, a: Answers)
    requires Fine(item, a) && InPlace(base, disk, item, a)
    ensures var r := PassItem(disk, Some(m), base(item.key), item, a);
            r.disk == disk && r.calls == [] && r.obs.processStarted == Some(true)
  {
    hide Settle, Prepare, Ensure, TextsOf, Renderable;
    PrepareGoes(item, a);
    var b, texts := base(item.key), TextsOf(base(item.key), item, Resolved(item, a));
    EnsureWrites(disk, b, texts.unit, texts.env, a.files);
    EnsureWorks(disk, b, texts.unit, texts.env, a.files);
    RunningSettles(disk, CarryManaged(m, UnitName(b)), b, item.specHash, Prepare(item, a).obs, a);
  }

  /** What another item does leaves this item's files in place. */
  lemma OthersKeepInPlace(disk: Disk, prev: Option<Managed>, base: Key -> string, item: DesiredItem, a: Answers,
                          other: DesiredItem, b: Answers)
    requires InPlace(base, disk, item, a) && base(item.key) != base(other.key)
    ensures InPlace(base, PassItem(disk, prev, base(other.key), other, b).disk, item, a)
  {
    hide PassItem, TextsOf;
    PassItemResult(disk, prev, base(other.key), other, b);
    PathsDisjoint(base(item.key), base(other.key));
    PathsDisjoint(base(other.key), base(item.key));
    var d := PassItem(disk, prev, base(other.key), other, b).disk;
    var own := Own(base(other.key));
    assert UnitPath(base(item.key)) in disk - own && EnvPath(base(item.key)) in disk - own;
    assert (disk - own)[UnitPath(base(item.key))] == (d - own)[UnitPath(base(item.key))];
    assert (disk - own)[EnvPath(base(item.key))] == (d - own)[EnvPath(base(item.key))];
  }

  lemma {:induction false} FirstPass(base: Key -> string, s: AgentState, r: Round, i: nat)
    requires AllFine(r) && Apart(base, s.managed, r.items) && i < |r.items|
    ensures InPlace(base, Items(base, s, r).disk, r.items[i], r.answers[i])
    decreases |r.items|
  {
    hide PassItem, InPlace, Fine;
    var n := |r.items| - 1;
    var item := r.items[n];
    LastItem(base, s, r);
    var d := Items(base, s, Prefix(r, n)).disk;
    if i < n {
      FirstPass(base, s, Prefix(r, n), i);
      OthersKeepInPlace(d, Prev(s.managed, item.key), base, r.items[i], r.answers[i], item, r.answers[n]);
    } else {
      FineItem(d, Prev(s.managed, item.key), base, item, r.answers[n]);
    }
  }

  /** The item loop over managed items whose files are in place does nothing. */
  lemma {:induction false} SecondPass(base: Key -> string, s: AgentState, r: Round)
    requires AllFine(r)
    requires forall i :: 0 <= i < |r.items| ==>
             ItemKey(r.items[i].key) in s.managed && InPlace(base, s.disk, r.items[i], r.answers[i])
    ensures var p := Items(base, s, r);
            && p.disk == s.disk && p.calls == [] && |p.obs| == |r.items|
            && forall i :: 0 <= i < |r.items| ==> p.obs[i].processStarted == Some(true)
    decreases |r.items|
  {
    hide PassItem, InPlace, Fine;
    if r.items != [] {
      var n := |r.items| - 1;
      LastItem(base, s, r);
      SecondPass(base, s, Prefix(r, n));
      SettledItem(s.disk, s.managed[ItemKey(r.items[n].key)], base, r.items[n], r.answers[n]);
    }
  }

  /** Two rounds over the same items in which each command resolves the same way. */
  predicate SameDesired(r: Round, again: Round) {
    && Sized(r) && Sized(again) && r.items == again.items
    && forall i :: 0 <= i < |r.items| ==> Resolved(r.items[i], r.answers[i]) == Resolved(r.items[i], again.answers[i])
  }

  /**
    Convergence: after a pass over renderable systemd items in which every operation succeeds
    and every unit runs, a second such pass changes no file, issues no call (the cleanup has no
    key to drop) and reports every item started.
   */
  lemma Converges(base: Key -> string, s: AgentState, first: Round, second: Round)
    requires AllFine(first) && AllFine(second) && SameDesired(first, second)
    requires GoodKeys(first.items) && Apart(base, s.managed, first.items)
    ensures var s1 := Pass(base, s, first);
            var p, s2 := Items(base, s1, second), Pass(base, s1, second);
            && s2.disk == s1.disk && s2.managed.Keys == s1.managed.Keys && p.calls == []
            && (forall calls :: CleanupCalls(base, s1.managed, s1.managed.Keys - s2.managed.Keys, calls) ==>
                calls == [])
            && |p.obs| == |first.items|
            && forall i :: 0 <= i < |first.items| ==> p.obs[i].processStarted == Some(true)
  {
    hide PassItem, PassItems, TextsOf, Fine, Own, CleanupCalls;
    var s1 := Pass(base, s, first);
    PassShape(base, s, first);
    PassShape(base, s1, second);
    forall i | 0 <= i < |first.items|
      ensures ItemKey(first.items[i].key) in s1.managed && InPlace(base, s1.disk, first.items[i], second.answers[i])
    {
      var b := base(first.items[i].key);
      FirstPass(base, s, first, i);
      assert UnitPath(b) in Own(b) && EnvPath(b) in Own(b) by { OwnFiles(b); }
      CleanupSparesItems(base, s, first, UnitPath(b));
      CleanupSparesItems(base, s, first, EnvPath(b));
    }
    SecondPass(base, s1, second);
    assert s1.managed.Keys - Items(base, s1, second).now.Keys == {};
    AfterCleanupOfNone(base, s1.disk);
    NothingToClean(base, s1.managed);
  }

  lemma NothingToClean(base: Key -> string, managed: map<string, Managed>)
    ensures forall calls :: CleanupCalls(base, managed, {}, calls) ==> calls == []
  {
    forall calls: seq<Call>
      ensures CleanupCalls(base, managed, {}, calls) ==> calls == []
    {
      assert calls != [] ==> !CleanupCall(base, managed, {}, calls[0]);
    }
  }

  lemma OwnFiles(base: string)
    ensures UnitPath(base) in Own(base) && EnvPath(base) in Own(base)
  {
  }

  // ---------- restart exactly on a change of meaning ----------

  /** The item's files hold what was rendered for `e` before. */
  predicate RenderedBefore(disk: Disk, base: string, was: DesiredItem, e: Execution) {
    && !Differs(disk, UnitPath(base), TextsOf(base, was, e).unit)
    && !Differs(disk, EnvPath(base), TextsOf(base, was, e).env)
  }

  /** Written over a previous render, the files change exactly when the meaning of the execution does. */
  lemma FilesChangeIffMeaningChanged(disk: Disk, base: string, was: DesiredItem, e: Execution, item: DesiredItem,
                                     e': Execution, a: FileAnswers)
    requires was.key == item.key && Renderable(e) && EnvSet(e.env) && Renderable(e') && EnvSet(e'.env)
    requires RenderedBefore(disk, base, was, e) && WritesWork(a)
    ensures var w := Ensure(disk, base, TextsOf(base, item, e').unit, TextsOf(base, item, e').env, a);
            && w.error.None?
            && (w.unitChanged || w.envChanged <==>
                  MeaningOf(e, was.spec.restartPolicy) != MeaningOf(e', item.spec.restartPolicy))
            && (!w.unitChanged && !w.envChanged ==> w.disk == disk)
  {
    hide Ensure, TextsOf, MeaningOf, Renderable, EnvSet;
    var texts := TextsOf(base, item, e');
    EnsureWrites(disk, base, texts.unit, texts.env, a);
    EnsureWorks(disk, base, texts.unit, texts.env, a);
    TextsExact(base, was, e, item, e');
  }

  /** The calls for the files: the writes, and the reload after a changed unit. */
  function FileCalls(w: Ensured, base: string): seq<Call> {
    WriteCalls(w, base) + if w.unitChanged then [DaemonReload] else []
  }

  /**
    The "files changed" branch, for a managed item whose files came from the previous render and
    whose writes work, whatever becomes of the unit: when the meaning of the execution changed,
    the calls go on with a restart right after the writes and the reload; when it did not, no
    file is written and the item is merely settled.
   */
  lemma RestartBranchExact(disk: Disk, m: Managed, base: string, was: DesiredItem, e: Execution, item: DesiredItem,
                           a: Answers)
    requires was.key == item.key && Renderable(e) && EnvSet(e.env) && RenderedBefore(disk, base, was, e)
    requires item.spec.execution.backend == Systemd && FetchWorks(item, a) && WritesWork(a.files)
    requires Renderable(Resolved(item, a)) && EnvSet(Resolved(item, a).env)
    ensures var r, texts := PassItem(disk, Some(m), base, item, a), TextsOf(base, item, Resolved(item, a));
            var made := FileCalls(Ensure(disk, base, texts.unit, texts.env, a.files), base);
            var changed :=
              MeaningOf(e, was.spec.restartPolicy) != MeaningOf(Resolved(item, a), item.spec.restartPolicy);
            && (changed <==> made != [])
            && (changed ==> made + [Restart(UnitName(base))] <= r.calls)
            && (!changed ==> r == Settle(disk, CarryManaged(m, UnitName(base)), base, item.specHash,
                Prepare(item, a).obs, a))
            && ((exists path :: Write(path) in r.calls) <==> changed)
  {
    hide Settle, Prepare, Ensure, TextsOf, FilesOf, MeaningOf, Renderable, EnvSet, UnitName, UnitPath, EnvPath,
        FailedWith;
    PrepareGoes(item, a);
    var texts := TextsOf(base, item, Resolved(item, a));
    FilesChangeIffMeaningChanged(disk, base, was, e, item, Resolved(item, a), a.files);
    var w := Ensure(disk, base, texts.unit, texts.env, a.files);
    var obs, m' := Prepare(item, a).obs, CarryManaged(m, UnitName(base));
    var made := FileCalls(w, base);
    SettleWritesNothing(disk, m', base, item.specHash, obs, a);
    if made != [] {
      var path := if w.unitChanged then UnitPath(base) else EnvPath(base);
      assert Write(path) == made[0];
      assert PassItem(disk, Some(m), base, item, a).calls[0] == Write(path);
    } else {
      assert [] + Settle(disk, m', base, item.specHash, obs, a).calls
          == Settle(disk, m', base, item.specHash, obs, a).calls;
    }
  }

  lemma SettleWritesNothing(disk: Disk, m: Managed, base: string, specHash: string, obs: Observation, a: Answers)
    ensures forall path :: Write(path) !in Settle(disk, m, base, specHash, obs, a).calls
  {
  }

  /**
    With its other operations succeeding and its unit running, such an item is restarted exactly
    when the meaning of its execution changed, and nothing at all is done otherwise.
   */
  lemma RestartIffMeaningChanged(disk: Disk, m: Managed, base: string, was: DesiredItem, e: Execution,
                                 item: DesiredItem, a: Answers)
    requires was.key == item.key && Renderable(e) && EnvSet(e.env) && RenderedBefore(disk, base, was, e)
    requires Fine(item, a) && EnvSet(Resolved(item, a).env)
    ensures var r := PassItem(disk, Some(m), base, item, a);
            var changed :=
              MeaningOf(e, was.spec.restartPolicy) != MeaningOf(Resolved(item, a), item.spec.restartPolicy);
            && (Restart(UnitName(base)) in r.calls <==> changed)
            && (!changed ==> r.calls == [] && r.disk == disk)
  {
    hide PassItem, Settle, Prepare, Ensure, TextsOf, MeaningOf, Renderable, EnvSet, RenderedBefore, FileCalls;
    RestartBranchExact(disk, m, base, was, e, item, a);
    RunningSettles(disk, CarryManaged(m, UnitName(base)), base, item.specHash, Prepare(item, a).obs, a);
    var texts := TextsOf(base, item, Resolved(item, a));
    var made := FileCalls(Ensure(disk, base, texts.unit, texts.env, a.files), base);
    assert (made + [Restart(UnitName(base))])[|made|] == Restart(UnitName(base));
  }

  lemma TextsExact(base: string, was: DesiredItem, e: Execution, item: DesiredItem, e': Execution)
    requires was.key == item.key && Renderable(e) && EnvSet(e.env) && Renderable(e') && EnvSet(e'.env)
    ensures TextsOf(base, was, e) == TextsOf(base, item, e') <==>
        MeaningOf(e, was.spec.restartPolicy) == MeaningOf(e', item.spec.restartPolicy)
  {
    hide FilesOf, MeaningOf, Renderable, EnvSet;
    RenderExact(was.key.namespace, was.key.name, EnvFilePath(base), e, was.spec.restartPolicy, e',
        item.spec.restartPolicy);
  }

  // ---------- spacing of drift corrections ----------

  /** The clock readings of one item do not run backwards. */
  predicate ClockOk(a: Answers) {
    a.actionAt <= a.checkAt <= a.driftAt
  }

  /** The last action on this spec is on record, no earlier than the second of `t`. */
  predicate Recorded(m: Managed, specHash: string, t: Time) {
    m.lastActionAt.ActedAt? && m.lastActionAt.second >= t / SECOND && m.lastActionSpecHash == specHash
  }

  lemma SettleRecords(disk: Disk, m: Managed, base: string, specHash: string, obs: Observation, a: Answers, t: Time)
    requires t <= a.checkAt <= a.driftAt
    ensures var r := Settle(disk, m, base, specHash, obs, a);
            && (Recorded(m, specHash, t) ==> Recorded(r.managed, specHash, t))
            && (r.drifted ==> Recorded(r.managed, specHash, a.driftAt))
            && (r.drifted && Recorded(m, specHash, t) ==> a.checkAt > t + 4 * SECOND)
  {
  }

  /** What one pass over an item does to its recorded action. */
  lemma ItemRecords(disk: Disk, prev: Option<Managed>, base: string, item: DesiredItem, a: Answers, t: Time)
    requires t <= a.actionAt && ClockOk(a)
    ensures var r := PassItem(disk, prev, base, item, a);
            && (r.drifted ==> Recorded(r.managed, item.specHash, a.driftAt))
            && (prev.Some? && Recorded(prev.value, item.specHash, t) ==>
                  Recorded(r.managed, item.specHash, t) && (r.drifted ==> a.checkAt > t + 4 * SECOND))
  {
    hide Settle, Prepare, Ensure, TextsOf, Renderable;
    var p := Prepare(item, a);
    if p.Go? && Renderable(p.execution) {
      var texts := TextsOf(base, item, p.execution);
      var w := Ensure(disk, base, texts.unit, texts.env, a.files);
      var m := CarryManaged(if prev.Some? then prev.value else UNMANAGED, UnitName(base));
      SettleRecords(w.disk, MarkAction(m, item.specHash, "enable-and-start", a.actionAt), base, item.specHash, p.obs,
          a, t);
      SettleRecords(w.disk, MarkAction(m, item.specHash, "restart", a.actionAt), base, item.specHash, p.obs, a, t);
      SettleRecords(w.disk, m, base, item.specHash, p.obs, a, t);
    }
  }

  /** In each of these rounds item `at(n)` has this key and spec hash, and its clock readings follow one another. */
  ghost predicate Stays(rounds: seq<Round>, key: Key, specHash: string, at: nat -> nat) {
    && Rounds(rounds)
    && (forall n: nat :: n < |rounds| ==>
          && DistinctItems(rounds[n].items)
          && at(n) < |rounds[n].items|
          && rounds[n].items[at(n)].key == key && rounds[n].items[at(n)].specHash == specHash
          && ClockOk(rounds[n].answers[at(n)]))
    && (forall n: nat :: n + 1 < |rounds| ==>
        rounds[n].answers[at(n)].driftAt <= rounds[n + 1].answers[at(n + 1)].actionAt)
  }

  /** The result for the key in round `n` of the run. */
  ghost function KeyResult(base: Key -> string, s: AgentState, rounds: seq<Round>, at: nat -> nat, n: nat): ItemResult
    requires Rounds(rounds) && n < |rounds| && at(n) < |rounds[n].items|
  {
    ResultAt(base, Run(base, s, rounds[..n]), rounds[n], at(n))
  }

  /** The managed entry the key has on entry to a round is the one the round before left. */
  lemma KeyHandedOn(base: Key -> string, s: AgentState, rounds: seq<Round>, key: Key, specHash: string,
                    at: nat -> nat, n: nat)
    requires Stays(rounds, key, specHash, at) && n + 1 < |rounds|
    ensures Prev(Run(base, s, rounds[..n + 1]).managed, key) == Some(KeyResult(base, s, rounds, at, n).managed)
  {
    hide PassItem, PassItems, AfterCleanup;
    assert rounds[..n + 1][..n] == rounds[..n];
    PassManaged(base, Run(base, s, rounds[..n]), rounds[n], at(n));
  }

  lemma ResultRecords(base: Key -> string, s: AgentState, r: Round, i: nat, t: Time)
    requires Sized(r) && i < |r.items| && t <= r.answers[i].actionAt && ClockOk(r.answers[i])
    ensures var x, hash, prev := ResultAt(base, s, r, i), r.items[i].specHash, Prev(s.managed, r.items[i].key);
            && (x.drifted ==> Recorded(x.managed, hash, r.answers[i].driftAt))
            && (prev.Some? && Recorded(prev.value, hash, t) ==>
                  Recorded(x.managed, hash, t) && (x.drifted ==> r.answers[i].checkAt > t + 4 * SECOND))
  {
    hide PassItem;
    var p := PassItems(base, s.disk, s.managed, r.items[..i], r.answers[..i]);
    ItemRecords(p.disk, Prev(s.managed, r.items[i].key), base(r.items[i].key), r.items[i], r.answers[i], t);
  }

  lemma {:induction false} DriftOnRecord(base: Key -> string, s: AgentState, rounds: seq<Round>, key: Key,
                                         specHash: string, at: nat -> nat, m: nat, n: nat)
    requires Stays(rounds, key, specHash, at) && m <= n < |rounds|
    requires KeyResult(base, s, rounds, at, m).drifted
    ensures Recorded(KeyResult(base, s, rounds, at, n).managed, specHash, rounds[m].answers[at(m)].driftAt)
    ensures rounds[m].answers[at(m)].driftAt <= rounds[n].answers[at(n)].driftAt
    ensures n > m && KeyResult(base, s, rounds, at, n).drifted ==>
              rounds[n].answers[at(n)].checkAt > rounds[m].answers[at(m)].driftAt + 4 * SECOND
    decreases n
  {
    hide ResultAt, Run, Recorded;
    var a := rounds[n].answers[at(n)];
    if n == m {
      ResultRecords(base, Run(base, s, rounds[..n]), rounds[n], at(n), a.actionAt);
    } else {
      DriftOnRecord(base, s, rounds, key, specHash, at, m, n - 1);
      KeyHandedOn(base, s, rounds, key, specHash, at, n - 1);
      assert rounds[n - 1].answers[at(n - 1)].driftAt <= rounds[n - 1 + 1].answers[at(n - 1 + 1)].actionAt;
      ResultRecords(base, Run(base, s, rounds[..n]), rounds[n], at(n), rounds[m].answers[at(m)].driftAt);
    }
  }

  /**
    While a key stays desired with one spec hash, a drift correction is decided strictly more
    than 4 seconds after any earlier one was recorded, whatever the passes between did.
   */
  lemma DriftSpacing(base: Key -> string, s: AgentState, rounds: seq<Round>, key: Key, specHash: string,
                     at: nat -> nat, m: nat, n: nat)
    requires Stays(rounds, key, specHash, at) && m < n < |rounds|
    requires KeyResult(base, s, rounds, at, m).drifted && KeyResult(base, s, rounds, at, n).drifted
    ensures rounds[n].answers[at(n)].checkAt - rounds[m].answers[at(m)].driftAt > 4 * SECOND
  {
    DriftOnRecord(base, s, rounds, key, specHash, at, m, n);
  }

  /**
    The 5 second interval as it works on truncated times: after an action at `t` the next one is
    allowed exactly when 5 seconds less the cut-off fraction of `t` have passed.
   */
  lemma RateLimitExact(m: Managed, specHash: string, description: string, t: Time, now: Time)
    ensures ShouldAttemptAction(MarkAction(m, specHash, description, t), specHash, now) <==>
        now - t >= MIN_INTERVAL - t % SECOND
  {
    assert t == t / SECOND * SECOND + t % SECOND;
  }

  /** So 5 seconds are guaranteed exactly after an action on a whole second, and 4 always. */
  lemma RateLimitBounds(m: Managed, specHash: string, description: string, t: Time)
    ensures var mi := MarkAction(m, specHash, description, t);
            && ((forall now :: ShouldAttemptAction(mi, specHash, now) ==> now - t >= MIN_INTERVAL) <==> t % SECOND == 0)
            && (forall now :: ShouldAttemptAction(mi, specHash, now) ==> now - t > 4 * SECOND)
            && (forall now :: now - t >= MIN_INTERVAL ==> ShouldAttemptAction(mi, specHash, now))
  {
    hide ShouldAttemptAction, MarkAction;
    var mi := MarkAction(m, specHash, description, t);
    forall now ensures ShouldAttemptAction(mi, specHash, now) <==> now - t >= MIN_INTERVAL - t % SECOND {
      RateLimitExact(m, specHash, description, t, now);
    }
    var soonest := t + MIN_INTERVAL - t % SECOND;
    assert ShouldAttemptAction(mi, specHash, soonest);
  }

  // ---------- what a pass asks of systemd ----------

  /** The call concerns only the unit and the files of this base, or reloads all. */
  predicate OwnCall(base: string, c: Call) {
    match c
    case Enable(u) => u == UnitName(base)
    case Restart(u) => u == UnitName(base)
    case Disable(u) => u == UnitName(base)
    case DaemonReload => true
    case Write(p) => p in Own(base)
    case Remove(p) => p in Own(base)
  }

  predicate OwnCalls(base: string, calls: seq<Call>) {
    forall i :: 0 <= i < |calls| ==> OwnCall(base, calls[i])
  }

  /**
    Settling acts at most once, only on a unit that is not running; it restarts a unit that is
    active without a process and starts any other, and stops it again exactly when that failed.
   */
  lemma SettleCalls(disk: Disk, m: Managed, base: string, specHash: string, obs: Observation, a: Answers)
    ensures var r := Settle(disk, m, base, specHash, obs, a);
            && OwnCalls(base, r.calls)
            && (r.calls == [] <==> !r.drifted)
            && (r.drifted ==> a.show.Shown? && !RunningUnit(a))
            && (r.drifted ==> (r.calls[0] == Restart(UnitName(base)) <==> a.show.active && a.show.pid == 0))
            && (Disable(UnitName(base)) in r.calls <==> r.drifted && a.drift.RanErr?)
  {
  }

  lemma StartCalls(disk: Disk, prev: Option<Managed>, base: string, item: DesiredItem, obs: Observation,
                   changed: bool, m: Managed, a: Answers)
    ensures OwnCalls(base, StartOrRestart(disk, prev, base, item, obs, changed, m, a).calls)
  {
    hide Settle;
    SettleCalls(disk, MarkAction(m, item.specHash, "enable-and-start", a.actionAt), base, item.specHash, obs, a);
    SettleCalls(disk, MarkAction(m, item.specHash, "restart", a.actionAt), base, item.specHash, obs, a);
    SettleCalls(disk, m, base, item.specHash, obs, a);
  }

  lemma DriveCalls(disk: Disk, prev: Option<Managed>, base: string, item: DesiredItem, obs: Observation, texts: Files,
                   a: Answers)
    ensures OwnCalls(base, Drive(disk, prev, base, item, obs, texts, a).calls)
  {
    hide StartOrRestart, Ensure, UnitName;
    var w := Ensure(disk, base, texts.unit, texts.env, a.files);
    var m := CarryManaged(if prev.Some? then prev.value else UNMANAGED, UnitName(base));
    StartCalls(w.disk, prev, base, item, obs, w.unitChanged || w.envChanged, m, a);
    assert OwnCalls(base, WriteCalls(w, base) + (if w.unitChanged then [DaemonReload] else []));
  }

  lemma RemoveCallsAreOwn(disk: Disk, base: string, a: Answers)
    ensures OwnCalls(base, [Disable(UnitName(base))] + RemoveCalls(disk, base, a))
  {
    hide UnitName;
  }

  /** An item's pass never touches another unit or another unit's files. */
  lemma ItemCallsAreOwn(disk: Disk, prev: Option<Managed>, base: string, item: DesiredItem, a: Answers)
    ensures OwnCalls(base, PassItem(disk, prev, base, item, a).calls)
  {
    hide Drive, Prepare, TextsOf, Renderable, RemoveCalls, FailedWith;
    var p := Prepare(item, a);
    if p.Go? && Renderable(p.execution) {
      DriveCalls(disk, prev, base, item, p.obs, TextsOf(base, item, p.execution), a);
    } else {
      RemoveCallsAreOwn(disk, base, a);
    }
  }

  // ---------- no unit outlives its key ----------

  /** The units enabled or restarted and not disabled since, after these calls. */
  function Live(units: set<string>, calls: seq<Call>): set<string> {
    if calls == [] then units
    else
      var before := Live(units, calls[..|calls| - 1]);
      match calls[|calls| - 1]
      case Enable(u) => before + {u}
      case Restart(u) => before + {u}
      case Disable(u) => before - {u}
      case _ => before
  }

  predicate Starts(c: Call, u: string) {
    c == Enable(u) || c == Restart(u)
  }

  /** A unit is live only if it was before or is started by one of the calls. */
  lemma {:induction false} LiveFrom(units: set<string>, calls: seq<Call>, u: string)
    requires u in Live(units, calls)
    ensures u in units || exists i :: 0 <= i < |calls| && Starts(calls[i], u)
    decreases |calls|
  {
    if calls != [] {
      var n := |calls| - 1;
      if u in Live(units, calls[..n]) {
        LiveFrom(units, calls[..n], u);
        if i :| 0 <= i < n && Starts(calls[..n][i], u) {
          assert Starts(calls[i], u);
        }
      } else {
        assert Starts(calls[n], u);
      }
    }
  }

  /** A unit that is stopped and not started is not live. */
  lemma {:induction false} StoppedIsDead(units: set<string>, calls: seq<Call>, i: nat, u: string)
    requires i < |calls| && calls[i] == Disable(u) && forall j :: 0 <= j < |calls| ==> !Starts(calls[j], u)
    ensures u !in Live(units, calls)
    decreases |calls|
  {
    var n := |calls| - 1;
    assert !Starts(calls[n], u);
    if i < n {
      StoppedIsDead(units, calls[..n], i, u);
    }
  }

  lemma {:induction false} LiveOn(units: set<string>, a: seq<Call>, b: seq<Call>)
    ensures Live(units, a + b) == Live(Live(units, a), b)
    decreases |b|
  {
    if b == [] {
      assert a + b == a;
    } else {
      var n := |b| - 1;
      assert (a + b)[..|a + b| - 1] == a + b[..n];
      LiveOn(units, a, b[..n]);
    }
  }

  /** Whatever the item loop starts is a unit of an item. */
  lemma {:induction false} ItemsStartOwn(base: Key -> string, s: AgentState, r: Round, i: nat, u: string)
    requires Sized(r) && i < |Items(base, s, r).calls| && Starts(Items(base, s, r).calls[i], u)
    ensures exists j :: 0 <= j < |r.items| && u == UnitName(base(r.items[j].key))
    decreases |r.items|
  {
    hide PassItem, UnitName;
    if r.items != [] {
      var n := |r.items| - 1;
      LastItem(base, s, r);
      var q, x := Items(base, s, Prefix(r, n)), ResultAt(base, s, r, n);
      if i < |q.calls| {
        ItemsStartOwn(base, s, Prefix(r, n), i, u);
        var j :| 0 <= j < n && u == UnitName(base(Prefix(r, n).items[j].key));
        assert u == UnitName(base(r.items[j].key));
      } else {
        assert Items(base, s, r).calls[i] == x.calls[i - |q.calls|];
        ItemCallsAreOwn(q.disk, Prev(s.managed, r.items[n].key), base(r.items[n].key), r.items[n], r.answers[n]);
      }
    }
  }

  /** One pass as it went: its round and the calls of its cleanup. */
  datatype Went = Went(round: Round, cleanup: seq<Call>)

  /** The cleanup calls are ones that Agent.Reconcile can have made. */
  ghost predicate CleanedUp(base: Key -> string, s: AgentState, w: Went)
    requires Sized(w.round)
  {
    var p := Items(base, s, w.round);
    var dropped := s.managed.Keys - p.now.Keys;
    && CleanupCalls(base, s.managed, dropped, w.cleanup)
    && CleanupDone(base, s.managed, p.disk, dropped, w.cleanup)
  }

  ghost function RoundsOf(went: seq<Went>): seq<Round> {
    seq(|went|, i requires 0 <= i < |went| => went[i].round)
  }

  /** A run from an empty state, and the units it leaves live. */
  ghost predicate Happened(base: Key -> string, went: seq<Went>)
    decreases |went|
  {
    && Rounds(RoundsOf(went))
    && (went != [] ==>
          var n := |went| - 1;
          && Sized(went[n].round) && Happened(base, went[..n])
          && CleanedUp(base, Run(base, AgentState(map[], map[]), RoundsOf(went[..n])), went[n]))
  }

  ghost function LiveAfter(base: Key -> string, went: seq<Went>): set<string>
    requires Happened(base, went)
    decreases |went|
  {
    if went == [] then {}
    else
      var n := |went| - 1;
      assert Happened(base, went[..n]);
      var s := Run(base, AgentState(map[], map[]), RoundsOf(went[..n]));
      Live(LiveAfter(base, went[..n]), Items(base, s, went[n].round).calls + went[n].cleanup)
  }

  /** Every live unit is that of a managed key. */
  ghost predicate AllOwned(base: Key -> string, managed: map<string, Managed>, live: set<string>) {
    forall u :: u in live ==> exists k :: k in managed && SplitKey(k).Some? && u == managed[k].unitName
  }

  lemma PassLive(base: Key -> string, s: AgentState, w: Went, live: set<string>)
    requires Sized(w.round) && GoodKeys(w.round.items) && CleanedUp(base, s, w)
    requires AllOwned(base, s.managed, live) && Named(base, s.managed)
    ensures AllOwned(base, Pass(base, s, w.round).managed, Live(live, Items(base, s, w.round).calls + w.cleanup))
  {
    hide PassItems, AfterCleanup, SplitKey, UnitName, ItemKey, CleanupDone, Live;
    var r, p := w.round, Items(base, s, w.round);
    PassShape(base, s, r);
    PassNamed(base, s, r);
    LiveOn(live, p.calls, w.cleanup);
    forall u | u in Live(Live(live, p.calls), w.cleanup)
      ensures exists k :: k in p.now && SplitKey(k).Some? && u == p.now[k].unitName
    {
      StillOwned(base, s, w, live, u);
    }
  }

  /** A unit that is live after the pass is that of a key the pass desired. */
  lemma StillOwned(base: Key -> string, s: AgentState, w: Went, live: set<string>, u: string)
    requires Sized(w.round) && GoodKeys(w.round.items) && CleanedUp(base, s, w)
    requires AllOwned(base, s.managed, live) && Named(base, s.managed) && Named(base, Items(base, s, w.round).now)
    requires u in Live(Live(live, Items(base, s, w.round).calls), w.cleanup)
    ensures var now := Items(base, s, w.round).now;
            exists k :: k in now && SplitKey(k).Some? && u == now[k].unitName
  {
    hide PassItems, SplitKey, UnitName, ItemKey, Live, CleanupCalls, CleanupDone;
    var p := Items(base, s, w.round);
    PassShape(base, s, w.round);
    NoStarts(base, s.managed, s.managed.Keys - p.now.Keys, w.cleanup, u);
    LiveFrom(Live(live, p.calls), w.cleanup, u);
    LiveFrom(live, p.calls, u);
    if i :| 0 <= i < |p.calls| && Starts(p.calls[i], u) {
      ItemsStartOwn(base, s, w.round, i, u);
      var j :| 0 <= j < |w.round.items| && u == UnitName(base(w.round.items[j].key));
      SplitItemKey(w.round.items[j].key);
      assert ItemKey(w.round.items[j].key) in p.now;
    } else {
      var k :| k in s.managed && SplitKey(k).Some? && u == s.managed[k].unitName;
      if k !in p.now {
        var i := DroppedIsStopped(base, s.managed, p.disk, s.managed.Keys - p.now.Keys, w.cleanup, k);
        StoppedIsDead(Live(live, p.calls), w.cleanup, i, u);
      }
    }
  }

  lemma DroppedIsStopped(base: Key -> string, managed: map<string, Managed>, disk: Disk, dropped: set<string>,
                         calls: seq<Call>, k: string) returns (i: nat)
    requires CleanupDone(base, managed, disk, dropped, calls) && k in dropped && k in managed && SplitKey(k).Some?
    ensures i < |calls| && calls[i] == Disable(managed[k].unitName)
  {
    i :| StopsAt(managed, k, calls, i);
  }

  lemma NoStarts(base: Key -> string, managed: map<string, Managed>, dropped: set<string>, calls: seq<Call>, u: string)
    requires CleanupCalls(base, managed, dropped, calls)
    ensures forall j :: 0 <= j < |calls| ==> !Starts(calls[j], u)
  {
    forall j | 0 <= j < |calls| ensures !Starts(calls[j], u) {
      assert CleanupCall(base, managed, dropped, calls[j]);
    }
  }

  lemma {:induction false} RunLive(base: Key -> string, went: seq<Went>)
    requires Happened(base, went)
    ensures AllOwned(base, Run(base, AgentState(map[], map[]), RoundsOf(went)).managed, LiveAfter(base, went))
    decreases |went|
  {
    hide AllOwned, CleanedUp, Live, Pass, Items, Named;
    if went == [] {
      NothingLive(base);
    } else {
      var n := |went| - 1;
      var s := Run(base, AgentState(map[], map[]), RoundsOf(went[..n]));
      RunLive(base, went[..n]);
      NothingNamed(base);
      RunNamed(base, AgentState(map[], map[]), RoundsOf(went[..n]));
      assert RoundsOf(went)[..n] == RoundsOf(went[..n]) && RoundsOf(went)[n] == went[n].round;
      PassLive(base, s, went[n], LiveAfter(base, went[..n]));
    }
  }

  lemma NothingLive(base: Key -> string)
    ensures AllOwned(base, map[], {})
  {
  }

  /**
    After any run from an empty state, with stops that work, every unit that was started and not
    stopped since is that of an item of the last pass: no unit outlives its key.
   */
  lemma LiveUnitsAreDesired(base: Key -> string, went: seq<Went>, u: string)
    requires Happened(base, went) && went != [] && u in LiveAfter(base, went)
    ensures var items := went[|went| - 1].round.items;
            exists i :: 0 <= i < |items| && u == UnitName(base(items[i].key))
  {
    hide LiveAfter, CleanedUp, PassItems, AfterCleanup, SplitKey, UnitName, ItemKey;
    var n := |went| - 1;
    var empty := AgentState(map[], map[]);
    var s, round := Run(base, empty, RoundsOf(went[..n])), went[n].round;
    RunLive(base, went);
    assert RoundsOf(went)[..n] == RoundsOf(went[..n]) && RoundsOf(went)[n] == round;
    PassShape(base, s, round);
    PassNamed(base, s, round);
    var now := Items(base, s, round).now;
    var k :| k in now && SplitKey(k).Some? && u == now[k].unitName;
    var i :| 0 <= i < |round.items| && k == ItemKey(round.items[i].key);
    SplitItemKey(round.items[i].key);
  }
}
