/**
  From a switch event to the deployments to reconcile (deviceprocessdeployment_controller.go):
  label selectors, the index over selector keys, and the enqueueing of requests.
 */
module Selectors {
  import opened ApiTypes

  type Labels = map<string, string>

  datatype Operator = OpIn | OpNotIn | OpExists | OpDoesNotExist

  datatype Requirement = Requirement(key: string, op: Operator, values: seq<string>)

  datatype Selector = Selector(matchLabels: Labels, matchExpressions: seq<Requirement>)

  datatype Deployed = Deployed(id: Key, selector: Selector)

  const ALL: string := "__all__"

  // ---------- matching ----------

  /** LabelSelectorAsSelector accepts the requirement: set operators need values, the others none. */
  predicate WellFormed(r: Requirement) {
    (r.op == OpIn || r.op == OpNotIn) <==> r.values != []
  }

  predicate Parses(s: Selector) {
    forall i :: 0 <= i < |s.matchExpressions| ==> WellFormed(s.matchExpressions[i])
  }

  predicate Meets(r: Requirement, labels: Labels) {
    match r.op
    case OpIn => r.key in labels && labels[r.key] in r.values
    case OpNotIn => r.key in labels ==> labels[r.key] !in r.values
    case OpExists => r.key in labels
    case OpDoesNotExist => r.key !in labels
  }

  predicate Matches(s: Selector, labels: Labels) {
    && (forall k :: k in s.matchLabels ==> k in labels && labels[k] == s.matchLabels[k])
    && (forall i :: 0 <= i < |s.matchExpressions| ==> Meets(s.matchExpressions[i], labels))
  }

  /**
    The algebra of the operators: In with one value is a matchLabels entry, with more values a
    choice; NotIn and DoesNotExist negate In and Exists; and Exists is met by every label set that
    has the key.
   */
  lemma OperatorsTell(k: string, v: string, a: seq<string>, b: seq<string>, labels: Labels)
    ensures Meets(Requirement(k, OpIn, [v]), labels) <==> Matches(Selector(map[k := v], []), labels)
    ensures Meets(Requirement(k, OpIn, a + b), labels) <==>
            Meets(Requirement(k, OpIn, a), labels) || Meets(Requirement(k, OpIn, b), labels)
    ensures !Meets(Requirement(k, OpIn, []), labels)
    ensures Meets(Requirement(k, OpNotIn, a), labels) <==> !Meets(Requirement(k, OpIn, a), labels)
    ensures Meets(Requirement(k, OpDoesNotExist, []), labels) <==> !Meets(Requirement(k, OpExists, []), labels)
    ensures Meets(Requirement(k, OpExists, []), labels[k := v]) && !Meets(Requirement(k, OpExists, []), labels - {k})
    ensures Matches(Selector(map[k := v], []), labels[k := v])
  {
    assert k in labels && labels[k] == v <==> Matches(Selector(map[k := v], []), labels);
    assert labels[k := v][k] == v;
  }

  /** Two selectors together match when both do. */
  lemma SelectorsConjoin(s: Selector, t: Selector, labels: Labels)
    requires s.matchLabels.Keys !! t.matchLabels.Keys
    ensures Matches(Selector(s.matchLabels + t.matchLabels, s.matchExpressions + t.matchExpressions), labels) <==>
            Matches(s, labels) && Matches(t, labels)
    ensures Matches(Selector(map[], []), labels)
  {
    hide Meets;
    var both := Selector(s.matchLabels + t.matchLabels, s.matchExpressions + t.matchExpressions);
    if Matches(both, labels) {
      forall k | k in s.matchLabels ensures k in labels && labels[k] == s.matchLabels[k] {
        assert k in both.matchLabels && both.matchLabels[k] == s.matchLabels[k];
      }
      forall k | k in t.matchLabels ensures k in labels && labels[k] == t.matchLabels[k] {
        assert k in both.matchLabels;
      }
      forall i | 0 <= i < |s.matchExpressions| ensures Meets(s.matchExpressions[i], labels) {
        assert both.matchExpressions[i] == s.matchExpressions[i];
      }
      forall i | 0 <= i < |t.matchExpressions| ensures Meets(t.matchExpressions[i], labels) {
        assert both.matchExpressions[|s.matchExpressions| + i] == t.matchExpressions[i];
      }
    }
  }

  /** hasUnsupportedSelector, negated. */
  predicate Supported(s: Selector) {
    forall i :: 0 <= i < |s.matchExpressions| ==>
      s.matchExpressions[i].op == OpIn || s.matchExpressions[i].op == OpExists
  }

  method HasUnsupportedSelector(s: Selector) returns (r: bool)
    ensures r == !Supported(s)
  {
    for i := 0 to |s.matchExpressions|
      invariant forall j :: 0 <= j < i ==> s.matchExpressions[j].op == OpIn || s.matchExpressions[j].op == OpExists
    {
      var op := s.matchExpressions[i].op;
      if op == OpNotIn || op == OpDoesNotExist { return true; }
    }
    return false;
  }

  /** The keys the selector mentions. */
  function Mentioned(s: Selector): set<string> {
    s.matchLabels.Keys + set i | 0 <= i < |s.matchExpressions| :: s.matchExpressions[i].key
  }

  /** The keys a deployment is indexed under. */
  function IndexKeys(s: Selector): set<string> {
    if Mentioned(s) == {} then {ALL} else Mentioned(s)
  }

  method SelectorLabelKeys(s: Selector) returns (keys: set<string>)
    ensures keys == IndexKeys(s)
  {
    keys := s.matchLabels.Keys;
    for i := 0 to |s.matchExpressions|
      invariant keys == s.matchLabels.Keys + set j | 0 <= j < i :: s.matchExpressions[j].key
    {
      keys := keys + {s.matchExpressions[i].key};
    }
    if keys == {} { keys := {ALL}; }
  }

  // ---------- requests ----------

  predicate Distinct(ids: seq<Key>) {
    forall i, j :: 0 <= i < j < |ids| ==> ids[i] != ids[j]
  }

  /** The deployment is listed under one of the checked keys and its selector matches. */
  predicate Requested(d: Deployed, ns: string, labels: Labels, checked: set<string>) {
    d.id.namespace == ns && IndexKeys(d.selector) * checked != {} && Parses(d.selector) && Matches(d.selector, labels)
  }

  /** The keys requestsForNetworkSwitch looks up. */
  function Checked(labels: Labels, keys: set<string>): set<string> {
    {ALL} + if keys != {} then keys else labels.Keys
  }

  ghost predicate RequestsAre(reqs: seq<Key>, deps: seq<Deployed>, ns: string, labels: Labels, checked: set<string>) {
    && Distinct(reqs)
    && (forall i :: 0 <= i < |deps| ==> (deps[i].id in reqs <==> Requested(deps[i], ns, labels, checked)))
    && (forall id :: id in reqs ==> exists i :: 0 <= i < |deps| && deps[i].id == id)
  }

  ghost predicate DistinctIds(deps: seq<Deployed>) {
    forall i, j :: 0 <= i < j < |deps| ==> deps[i].id != deps[j].id
  }

  /** One indexed list and its inner loop. */
  method RequestsForKey(deps: seq<Deployed>, ns: string, labels: Labels, ghost done: set<string>, key: string,
                        before: seq<Key>) returns (reqs: seq<Key>)
    requires DistinctIds(deps) && RequestsAre(before, deps, ns, labels, done)
    ensures RequestsAre(reqs, deps, ns, labels, done + {key})
  {
    hide Requested, Parses, Matches, IndexKeys;
    reqs := before;
    for i := 0 to |deps|
      invariant Distinct(reqs)
      invariant forall j :: 0 <= j < i ==> (deps[j].id in reqs <==> Requested(deps[j], ns, labels, done + {key}))
      invariant forall j :: i <= j < |deps| ==> (deps[j].id in reqs <==> Requested(deps[j], ns, labels, done))
      invariant forall id :: id in reqs ==> exists j :: 0 <= j < |deps| && deps[j].id == id
    {
      var dep := deps[i];
      var keys := SelectorLabelKeys(dep.selector);
      OneMoreRequested(dep, ns, labels, done, key);
      if dep.id.namespace == ns && key in keys && Parses(dep.selector) && Matches(dep.selector, labels)
          && dep.id !in reqs {
        reqs := reqs + [dep.id];
      }
    }
  }

  lemma OneMoreRequested(d: Deployed, ns: string, labels: Labels, done: set<string>, key: string)
    ensures Requested(d, ns, labels, done + {key}) <==>
            || Requested(d, ns, labels, done)
            || (d.id.namespace == ns && key in IndexKeys(d.selector) && Parses(d.selector)
                && Matches(d.selector, labels))
  {
    hide Parses, Matches, IndexKeys;
    OneMoreKey(IndexKeys(d.selector), done, key);
  }

  lemma OneMoreKey(keys: set<string>, done: set<string>, key: string)
    ensures keys * (done + {key}) != {} <==> keys * done != {} || key in keys
  {
    if key in keys {
      assert key in keys * (done + {key});
    } else {
      assert keys * (done + {key}) == keys * done;
    }
  }

  /** requestsForNetworkSwitch. */
  method RequestsForNetworkSwitch(deps: seq<Deployed>, ns: string, labels: Labels, keys: set<string>)
    returns (reqs: seq<Key>)
    requires DistinctIds(deps)
    ensures RequestsAre(reqs, deps, ns, labels, Checked(labels, keys))
  {
    var todo := Checked(labels, keys);
    ghost var done: set<string> := {};
    reqs := [];
    while todo != {}
      invariant done + todo == Checked(labels, keys)
      invariant RequestsAre(reqs, deps, ns, labels, done)
      decreases |todo|
    {
      var key :| key in todo;
      reqs := RequestsForKey(deps, ns, labels, done, key, reqs);
      done, todo := done + {key}, todo - {key};
    }
    assert done == Checked(labels, keys);
  }

  /** enqueueRequests: what is added to the queue. */
  method EnqueueRequests(reqs: seq<Key>) returns (added: seq<Key>)
    ensures Distinct(added)
    ensures forall id :: id in added <==> id in reqs
  {
    added := [];
    for i := 0 to |reqs|
      invariant Distinct(added)
      invariant forall id :: id in added <==> id in reqs[..i]
    {
      assert reqs[..i + 1] == reqs[..i] + [reqs[i]];
      if reqs[i] !in added { added := added + [reqs[i]]; }
    }
    assert reqs[..|reqs|] == reqs;
  }

  // ---------- create and delete ----------

  /** The deployments a brute-force scan finds. */
  predicate Selects(d: Deployed, ns: string, labels: Labels) {
    d.id.namespace == ns && Parses(d.selector) && Matches(d.selector, labels)
  }

  /** A matching deployment escapes the index exactly when it mentions keys but none the switch has. */
  lemma LookupExact(d: Deployed, ns: string, labels: Labels)
    ensures Requested(d, ns, labels, Checked(labels, {})) <==>
            Selects(d, ns, labels) && (Mentioned(d.selector) == {} || ALL in Mentioned(d.selector)
                || Mentioned(d.selector) * labels.Keys != {})
  {
    var keys, checked := IndexKeys(d.selector), Checked(labels, {});
    assert keys * checked != {} <==> ALL in keys || keys * labels.Keys != {} by {
      OneMoreKey(keys, labels.Keys, ALL);
      assert checked == labels.Keys + {ALL};
    }
    if Mentioned(d.selector) == {} {
      assert ALL in keys;
    }
  }

  /** What is missed: a deployment that asks for the absence of a label, on every switch without that label. */
  lemma AbsenceIsMissed(id: Key, labels: Labels, k: string)
    requires k !in labels && k != ALL
    ensures var d := Deployed(id, Selector(map[], [Requirement(k, OpDoesNotExist, [])]));
            Selects(d, id.namespace, labels) && !Requested(d, id.namespace, labels, Checked(labels, {}))
  {
    var d := Deployed(id, Selector(map[], [Requirement(k, OpDoesNotExist, [])]));
    assert d.selector.matchExpressions[0].key == k;
    assert Mentioned(d.selector) == {k};
    LookupExact(d, id.namespace, labels);
  }

  /** A matching selector of supported operators mentions a key the switch has, or none at all. */
  lemma SupportedIsIndexed(s: Selector, labels: Labels)
    requires Supported(s) && Matches(s, labels) && Mentioned(s) != {}
    ensures Mentioned(s) * labels.Keys != {}
  {
    var k :| k in Mentioned(s);
    if k !in s.matchLabels {
      var i :| 0 <= i < |s.matchExpressions| && s.matchExpressions[i].key == k;
      assert Meets(s.matchExpressions[i], labels);
    }
    assert k in Mentioned(s) * labels.Keys;
  }

  /** Creating or deleting a switch: no duplicates, and for supported selectors exactly the brute-force set. */
  method OnCreateOrDelete(deps: seq<Deployed>, ns: string, labels: Labels) returns (added: seq<Key>)
    requires DistinctIds(deps)
    ensures Distinct(added)
    ensures forall i :: 0 <= i < |deps| && Supported(deps[i].selector) ==>
        (deps[i].id in added <==> Selects(deps[i], ns, labels))
    ensures forall id :: id in added ==> exists i :: 0 <= i < |deps| && deps[i].id == id && Selects(deps[i], ns, labels)
  {
    hide Matches, Parses, Mentioned, IndexKeys, Supported;
    var reqs := RequestsForNetworkSwitch(deps, ns, labels, {});
    added := EnqueueRequests(reqs);
    forall i | 0 <= i < |deps|
      ensures deps[i].id in added ==> Selects(deps[i], ns, labels)
      ensures Supported(deps[i].selector) && Selects(deps[i], ns, labels) ==> deps[i].id in added
    {
      LookupExact(deps[i], ns, labels);
      if Supported(deps[i].selector) && Selects(deps[i], ns, labels) && Mentioned(deps[i].selector) != {} {
        SupportedIsIndexed(deps[i].selector, labels);
      }
    }
  }

  // ---------- update ----------

  /** A map read as the source reads it: a missing label is "". */
  function Read(labels: Labels, k: string): string {
    if k in labels then labels[k] else ""
  }

  function ChangedKeys(was: Labels, now: Labels): set<string> {
    set k | k in was.Keys + now.Keys && Read(was, k) != Read(now, k)
  }

  /** One of the two loops: the keys of one side that read differently on the other. */
  method DifferingKeys(labels: Labels, other: Labels) returns (keys: set<string>)
    ensures keys == set k | k in labels.Keys && Read(labels, k) != Read(other, k)
  {
    keys := {};
    var todo := labels.Keys;
    while todo != {}
      invariant todo <= labels.Keys
      invariant forall k :: k in keys <==> k in labels && k !in todo && Read(labels, k) != Read(other, k)
      decreases |todo|
    {
      var k :| k in todo;
      if Read(other, k) != labels[k] { keys := keys + {k}; }
      todo := todo - {k};
    }
  }

  method ChangedLabelKeys(was: Labels, now: Labels) returns (keys: set<string>)
    ensures keys == ChangedKeys(was, now)
  {
    keys := DifferingKeys(was, now);
    var more := DifferingKeys(now, was);
    keys := keys + more;
  }

  /** What an update event enqueues. */
  predicate Updated(d: Deployed, ns: string, was: Labels, now: Labels) {
    var changed := ChangedKeys(was, now);
    changed != {} && (Requested(d, ns, was, Checked(was, changed)) || Requested(d, ns, now, Checked(now, changed)))
  }

  method OnUpdate(deps: seq<Deployed>, ns: string, was: Labels, now: Labels) returns (added: seq<Key>)
    requires DistinctIds(deps)
    ensures Distinct(added)
    ensures forall i :: 0 <= i < |deps| ==> (deps[i].id in added <==> Updated(deps[i], ns, was, now))
    ensures forall id :: id in added ==> exists i ::
            0 <= i < |deps| && deps[i].id == id && (Selects(deps[i], ns, was) || Selects(deps[i], ns, now))
  {
    hide Matches, Parses, IndexKeys, ChangedKeys;
    added := [];
    var changed := ChangedLabelKeys(was, now);
    if changed == {} { return; }
    var reqs := RequestsForNetworkSwitch(deps, ns, was, changed);
    var more := RequestsForNetworkSwitch(deps, ns, now, changed);
    added := EnqueueRequests(reqs + more);
  }

  /** Some label is absent on one side and empty on the other. */
  ghost predicate Blurred(was: Labels, now: Labels) {
    exists k :: (k in was && was[k] == "" && k !in now) || (k in now && now[k] == "" && k !in was)
  }

  /** The key is the same on both sides, present with one value or absent. */
  predicate SameLabel(was: Labels, now: Labels, k: string) {
    (k in was <==> k in now) && (k in was ==> was[k] == now[k])
  }

  lemma SameLabelsSameMatch(s: Selector, was: Labels, now: Labels)
    requires forall k :: k in Mentioned(s) ==> SameLabel(was, now, k)
    ensures Matches(s, was) == Matches(s, now)
  {
    forall i | 0 <= i < |s.matchExpressions|
      ensures Meets(s.matchExpressions[i], was) == Meets(s.matchExpressions[i], now)
    {
      assert s.matchExpressions[i].key in Mentioned(s);
    }
    assert forall k :: k in s.matchLabels ==> k in Mentioned(s);
  }

  /** Unless a label is blurred, a deployment whose match changes is enqueued, whatever its operators. */
  lemma UpdateCovers(d: Deployed, was: Labels, now: Labels)
    requires !Blurred(was, now) && Parses(d.selector) && Matches(d.selector, was) != Matches(d.selector, now)
    ensures Updated(d, d.id.namespace, was, now)
  {
    hide Matches, Parses;
    var changed := ChangedKeys(was, now);
    assert exists k :: k in Mentioned(d.selector) && !SameLabel(was, now, k) by {
      if forall k :: k in Mentioned(d.selector) ==> SameLabel(was, now, k) {
        SameLabelsSameMatch(d.selector, was, now);
      }
    }
    var k :| k in Mentioned(d.selector) && !SameLabel(was, now, k);
    assert k in changed;
    assert k in IndexKeys(d.selector) * Checked(was, changed) && k in IndexKeys(d.selector) * Checked(now, changed);
  }

  /** The deployment that asks for label `k` to exist. */
  function Asking(id: Key, k: string): Deployed {
    Deployed(id, Selector(map[], [Requirement(k, OpExists, [])]))
  }

  lemma AskingFacts(id: Key, k: string, labels: Labels)
    ensures var s := Asking(id, k).selector;
        Parses(s) && Supported(s) && Mentioned(s) == {k} == IndexKeys(s) && (Matches(s, labels) <==> k in labels)
  {
    var s := Asking(id, k).selector;
    assert s.matchExpressions[0].key == k;
    assert Meets(s.matchExpressions[0], labels) <==> k in labels;
  }

  /**
    An update enqueues every supported deployment whose match changes exactly when no label is
    absent on one side and empty on the other (a key named like the index's own sentinel aside).
   */
  lemma UpdateCoversIff(id: Key, was: Labels, now: Labels)
    requires ALL !in was && ALL !in now
    ensures (forall s: Selector :: Parses(s) && Supported(s) && Matches(s, was) != Matches(s, now) ==>
               Updated(Deployed(id, s), id.namespace, was, now))
            <==> !Blurred(was, now)
  {
    hide Matches, Parses, Supported, Updated, Mentioned;
    if !Blurred(was, now) {
      forall s: Selector | Parses(s) && Supported(s) && Matches(s, was) != Matches(s, now)
        ensures Updated(Deployed(id, s), id.namespace, was, now)
      {
        UpdateCovers(Deployed(id, s), was, now);
      }
    } else {
      var k :| (k in was && was[k] == "" && k !in now) || (k in now && now[k] == "" && k !in was);
      var s := Asking(id, k).selector;
      AskingFacts(id, k, was);
      AskingFacts(id, k, now);
      BlurredIsMissed(id, was, now, k);
      assert !Updated(Deployed(id, s), id.namespace, was, now);
    }
  }

  lemma BlurredIsMissed(id: Key, was: Labels, now: Labels, k: string)
    requires k != ALL && Read(was, k) == Read(now, k)
    ensures !Updated(Asking(id, k), id.namespace, was, now)
  {
    hide Matches, Parses;
    AskingFacts(id, k, was);
    var changed := ChangedKeys(was, now);
    if changed != {} {
      assert IndexKeys(Asking(id, k).selector) * Checked(was, changed) == {};
      assert IndexKeys(Asking(id, k).selector) * Checked(now, changed) == {};
    }
  }
}
