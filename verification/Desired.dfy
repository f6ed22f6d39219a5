/**
  The desired state a device polls (gateway/server.go: computeDesired, hashDesired,
  handleDesired) and the agent's conditional-GET cache of it (agent/main.go: pollDesired,
  fetchDesired). `hash` stands for hashSpec and `digest` for the hex SHA-256 of the listing text.
 */
module Desired {
  import opened Prelude
  import opened Text
  import opened ApiTypes
  import Sorting

  ghost predicate Injective<A(!new)>(f: A -> string) {
    forall a, b :: f(a) == f(b) ==> a == b
  }

  /** Two digests: equal only for equal inputs, and the spec's free of the text's terminator. */
  ghost predicate GoodHashes(hash: Spec -> string, digest: string -> string) {
    Injective(hash) && Injective(digest) && forall s :: ';' !in hash(s)
  }

  // ---------- the gateway's listing ----------

  /** A stored process, as far as the desired state depends on it. */
  datatype Proc = Proc(uid: string, key: Key, generation: int, spec: Spec)

  function ItemOf(hash: Spec -> string, p: Proc): DesiredItem {
    DesiredItem(p.uid, p.key, p.generation, p.spec, hash(p.spec))
  }

  function OfDevice(hash: Spec -> string, list: seq<Proc>, device: string): seq<DesiredItem> {
    if list == [] then []
    else
      var n := |list| - 1;
      var items := OfDevice(hash, list[..n], device);
      if list[n].spec.deviceRef.name == device then items + [ItemOf(hash, list[n])] else items
  }

  function SortKey(item: DesiredItem): Sorting.Key {
    (item.key.namespace, item.key.name)
  }

  /** The items of a desired response, for a list of all processes. */
  function ItemsFor(hash: Spec -> string, list: seq<Proc>, device: string): seq<DesiredItem> {
    Sorting.Sort(OfDevice(hash, list, device), SortKey)
  }

  ghost predicate DistinctProcs(list: seq<Proc>) {
    forall i, j :: 0 <= i < j < |list| ==> list[i].key != list[j].key
  }

  /** The listing loop: exactly the items of the listed processes of the device. */
  lemma {:induction false} OfDeviceFacts(hash: Spec -> string, list: seq<Proc>, device: string)
    ensures forall x :: x in OfDevice(hash, list, device) <==>
              exists i :: 0 <= i < |list| && list[i].spec.deviceRef.name == device && x == ItemOf(hash, list[i])
    ensures DistinctProcs(list) ==> Sorting.DistinctKeys(OfDevice(hash, list, device), SortKey)
  {
    if list != [] {
      var n := |list| - 1;
      OfDeviceFacts(hash, list[..n], device);
      var items, all := OfDevice(hash, list[..n], device), OfDevice(hash, list, device);
      forall x
        ensures x in all <==> exists i ::
                0 <= i < |list| && list[i].spec.deviceRef.name == device && x == ItemOf(hash, list[i])
      {
        if x in items {
          var i :| 0 <= i < n && list[..n][i].spec.deviceRef.name == device && x == ItemOf(hash, list[..n][i]);
          assert list[i] == list[..n][i];
        }
        if i :| 0 <= i < |list| && list[i].spec.deviceRef.name == device && x == ItemOf(hash, list[i]) {
          assert i < n ==> list[..n][i] == list[i];
        }
      }
      if DistinctProcs(list) {
        forall i, j | 0 <= i < j < |all| ensures SortKey(all[i]) != SortKey(all[j]) {
          if j == |items| {
            assert all[i] in items;
          }
        }
      }
    }
  }

  /** The item is the stored process: same UID, name, generation and spec, and the hash of that spec. */
  predicate Shows(hash: Spec -> string, item: DesiredItem, p: Proc) {
    && item.uid == p.uid && item.key == p.key && item.generation == p.generation
    && item.spec == p.spec && item.specHash == hash(p.spec)
  }

  /** A response has an item for each stored process of the device and no other. */
  lemma ItemsTell(hash: Spec -> string, list: seq<Proc>, device: string)
    ensures var items := ItemsFor(hash, list, device);
            && (forall i :: 0 <= i < |items| ==>
                  exists j :: 0 <= j < |list| && list[j].spec.deviceRef.name == device
                      && Shows(hash, items[i], list[j]))
            && (forall j :: 0 <= j < |list| && list[j].spec.deviceRef.name == device ==>
                  exists i :: 0 <= i < |items| && Shows(hash, items[i], list[j]))
  {
    hide ItemsFor, Sorting.Ordered, Shows, ItemOf;
    var items := ItemsFor(hash, list, device);
    SortedItems(hash, list, device);
    forall i | 0 <= i < |items|
      ensures exists j :: 0 <= j < |list| && list[j].spec.deviceRef.name == device && Shows(hash, items[i], list[j])
    {
      InItems(hash, list, device, items[i]);
      var j :| 0 <= j < |list| && list[j].spec.deviceRef.name == device && items[i] == ItemOf(hash, list[j]);
      ItemShows(hash, list[j]);
    }
    forall j | 0 <= j < |list| && list[j].spec.deviceRef.name == device
      ensures exists i :: 0 <= i < |items| && Shows(hash, items[i], list[j])
    {
      var x := ItemOf(hash, list[j]);
      InItems(hash, list, device, x);
      ItemShows(hash, list[j]);
      var i :| 0 <= i < |items| && items[i] == x;
    }
  }

  /** The items stand in the order of their namespaces, and of their names within one. */
  lemma ByName(hash: Spec -> string, list: seq<Proc>, device: string)
    ensures var items := ItemsFor(hash, list, device);
            forall i, j :: 0 <= i < j < |items| ==>
              var a, b := items[i].key, items[j].key;
              !Less(b.namespace, a.namespace) && (a.namespace == b.namespace ==> !Less(b.name, a.name))
  {
    SortedItems(hash, list, device);
    var items := ItemsFor(hash, list, device);
    hide ItemsFor, Less;
    forall i, j | 0 <= i < j < |items|
      ensures var a, b := items[i].key, items[j].key;
              !Less(b.namespace, a.namespace) && (a.namespace == b.namespace ==> !Less(b.name, a.name))
    {
      assert !Sorting.KeyLess(SortKey(items[j]), SortKey(items[i]));
      LessIrreflexive(items[i].key.namespace);
    }
  }

  lemma ItemShows(hash: Spec -> string, p: Proc)
    ensures Shows(hash, ItemOf(hash, p), p)
  {
  }

  lemma SortedItems(hash: Spec -> string, list: seq<Proc>, device: string)
    ensures multiset(ItemsFor(hash, list, device)) == multiset(OfDevice(hash, list, device))
    ensures Sorting.Ordered(ItemsFor(hash, list, device), SortKey)
  {
    Sorting.SortFacts(OfDevice(hash, list, device), SortKey);
  }

  lemma InItems(hash: Spec -> string, list: seq<Proc>, device: string, x: DesiredItem)
    ensures x in ItemsFor(hash, list, device) <==>
            exists j :: 0 <= j < |list| && list[j].spec.deviceRef.name == device && x == ItemOf(hash, list[j])
  {
    hide ItemsFor, OfDevice, Sorting.Ordered, ItemOf;
    SortedItems(hash, list, device);
    OfDeviceFacts(hash, list, device);
    assert x in ItemsFor(hash, list, device) <==> x in multiset(ItemsFor(hash, list, device));
    assert x in OfDevice(hash, list, device) <==> x in multiset(OfDevice(hash, list, device));
  }

  // ---------- the listing text and the ETag ----------

  function EntryText(item: DesiredItem): string {
    item.key.namespace + "/" + item.key.name + "/" + FormatInt(item.generation) + "/" + item.specHash + ";"
  }

  function DesiredText(items: seq<DesiredItem>): string {
    if items == [] then "" else EntryText(items[0]) + DesiredText(items[1..])
  }

  function ETag(digest: string -> string, items: seq<DesiredItem>): string {
    "\"" + digest(DesiredText(items)) + "\""
  }

  /** Names and hash that keep the separators readable. */
  predicate Plain(item: DesiredItem) {
    '/' !in item.key.namespace && '/' !in item.key.name && ';' !in item.specHash
  }

  /** What the text records of an item. */
  predicate SameEntry(a: DesiredItem, b: DesiredItem) {
    a.key == b.key && a.generation == b.generation && a.specHash == b.specHash
  }

  predicate SameEntries(a: seq<DesiredItem>, b: seq<DesiredItem>) {
    |a| == |b| && forall i :: 0 <= i < |a| ==> SameEntry(a[i], b[i])
  }

  lemma EntryUnique(a: DesiredItem, b: DesiredItem, x: string, y: string)
    requires Plain(a) && Plain(b) && EntryText(a) + x == EntryText(b) + y
    ensures SameEntry(a, b) && x == y
  {
    hide FormatInt;
    var ga, gb := FormatInt(a.generation), FormatInt(b.generation);
    FormatIntChars(a.generation);
    FormatIntChars(b.generation);
    var a3, b3 := a.specHash + [';'] + x, b.specHash + [';'] + y;
    var a2, b2 := ga + ['/'] + a3, gb + ['/'] + b3;
    var a1, b1 := a.key.name + ['/'] + a2, b.key.name + ['/'] + b2;
    assert EntryText(a) + x == a.key.namespace + ['/'] + a1;
    assert EntryText(b) + y == b.key.namespace + ['/'] + b1;
    SplitUnique(a.key.namespace, b.key.namespace, '/', a1, b1);
    SplitUnique(a.key.name, b.key.name, '/', a2, b2);
    SplitUnique(ga, gb, '/', a3, b3);
    SplitUnique(a.specHash, b.specHash, ';', x, y);
    FormatIntInjective(a.generation, b.generation);
  }

  lemma {:induction false} TextAppend(items: seq<DesiredItem>, item: DesiredItem)
    ensures DesiredText(items + [item]) == DesiredText(items) + EntryText(item)
  {
    hide EntryText;
    if items == [] {
      assert DesiredText([item][1..]) == "";
    } else {
      assert (items + [item])[1..] == items[1..] + [item];
      TextAppend(items[1..], item);
    }
  }

  lemma TextEmpty(items: seq<DesiredItem>)
    ensures DesiredText(items) == "" <==> items == []
  {
    if items != [] {
      assert |EntryText(items[0])| > 0;
      hide EntryText;
    }
  }

  /** The listing text is uniquely decodable. */
  lemma {:induction false} TextUnique(a: seq<DesiredItem>, b: seq<DesiredItem>)
    requires forall i :: 0 <= i < |a| ==> Plain(a[i])
    requires forall i :: 0 <= i < |b| ==> Plain(b[i])
    ensures DesiredText(a) == DesiredText(b) <==> SameEntries(a, b)
    decreases |a|
  {
    hide EntryText, Plain;
    TextEmpty(a);
    TextEmpty(b);
    if a != [] && b != [] {
      TextUnique(a[1..], b[1..]);
      if DesiredText(a) == DesiredText(b) {
        EntryUnique(a[0], b[0], DesiredText(a[1..]), DesiredText(b[1..]));
        assert a == [a[0]] + a[1..] && b == [b[0]] + b[1..];
      }
      if SameEntries(a, b) {
        assert SameEntries(a[1..], b[1..]);
        SameEntryText(a[0], b[0]);
      }
    }
  }

  lemma SameEntryText(a: DesiredItem, b: DesiredItem)
    requires SameEntry(a, b)
    ensures EntryText(a) == EntryText(b)
  {
  }

  lemma ETagIsTrimmed(digest: string -> string, items: seq<DesiredItem>)
    ensures var e := ETag(digest, items); Trim(e) == e && e != ""
  {
    TrimFixed(ETag(digest, items));
  }

  // ---------- the code ----------

  /** computeDesired's listing, conversion and in-place sort. */
  method ComputeItems(hash: Spec -> string, list: seq<Proc>, device: string) returns (items: seq<DesiredItem>)
    ensures multiset(items) == multiset(OfDevice(hash, list, device)) && Sorting.Ordered(items, SortKey)
    ensures DistinctProcs(list) ==> items == ItemsFor(hash, list, device)
  {
    items := [];
    for i := 0 to |list|
      invariant items == OfDevice(hash, list[..i], device)
    {
      assert list[..i + 1][..i] == list[..i];
      if list[i].spec.deviceRef.name == device {
        items := items + [ItemOf(hash, list[i])];
      }
    }
    assert list[..|list|] == list;
    OfDeviceFacts(hash, list, device);
    items := Sorting.SortInPlace(items, SortKey);
  }

  method HashDesired(digest: string -> string, items: seq<DesiredItem>) returns (etag: string)
    ensures etag == ETag(digest, items)
  {
    hide EntryText;
    var b := "";
    for i := 0 to |items|
      invariant b == DesiredText(items[..i])
    {
      b := b + EntryText(items[i]);
      TextAppend(items[..i], items[i]);
      assert items[..i + 1] == items[..i] + [items[i]];
    }
    assert items[..|items|] == items;
    etag := "\"" + digest(b) + "\"";
  }

  datatype Reply = NotModified(etag: string) | Fresh(etag: string, items: seq<DesiredItem>)

  /** The reply of handleDesired to a poll with this If-None-Match header ("" when absent). */
  function Answer(hash: Spec -> string, digest: string -> string, list: seq<Proc>, device: string,
                  ifNoneMatch: string): Reply {
    var items := ItemsFor(hash, list, device);
    var etag := ETag(digest, items);
    if Trim(ifNoneMatch) != "" && Trim(ifNoneMatch) == etag then NotModified(etag) else Fresh(etag, items)
  }

  method HandleDesired(hash: Spec -> string, digest: string -> string, list: seq<Proc>, device: string,
                       ifNoneMatch: string) returns (r: Reply)
    requires DistinctProcs(list)
    ensures r == Answer(hash, digest, list, device, ifNoneMatch)
  {
    var items := ComputeItems(hash, list, device);
    var etag := HashDesired(digest, items);
    var match_ := Trim(ifNoneMatch);
    if match_ != "" && match_ == etag { return NotModified(etag); }
    return Fresh(etag, items);
  }

  // ---------- the agent's cache ----------

  /** What the agent gets from a poll: an error of any kind, or a reply. */
  datatype Delivery = PollError | Got(reply: Reply)

  datatype Cache = Cache(lastETag: string, lastDesired: Option<seq<DesiredItem>>)

  const NO_CACHE: Cache := Cache("", None)

  /** The ETag header as fetchDesired keeps it. */
  function HeaderOr(header: string, last: string): string {
    if Trim(header) == "" then last else Trim(header)
  }

  /** The cache after a poll, and the items reconcile is given, if it is called at all. */
  function Polled(c: Cache, d: Delivery): (Cache, Option<seq<DesiredItem>>) {
    match d
    case PollError => (c, None)
    case Got(Fresh(etag, items)) => (Cache(HeaderOr(etag, c.lastETag), Some(items)), Some(items))
    case Got(NotModified(etag)) => (c.(lastETag := HeaderOr(etag, c.lastETag)), c.lastDesired)
  }

  /** The agent's poll state; `lastInterval` is the heartbeat interval, in seconds, of the cached response. */
  class PollingAgent {
    var lastETag: string
    var lastDesired: Option<seq<DesiredItem>>
    var lastInterval: int
    var heartbeat: Time

    constructor (heartbeat: Time)
      ensures Cache(lastETag, lastDesired) == NO_CACHE && this.heartbeat == heartbeat
    {
      lastETag, lastDesired, lastInterval, this.heartbeat := "", None, 0, heartbeat;
    }

    /** pollDesired up to the call of reconcile; `interval` comes with a full response. */
    method PollDesired(d: Delivery, interval: int) returns (toReconcile: Option<seq<DesiredItem>>)
      modifies this
      ensures (Cache(lastETag, lastDesired), toReconcile) == Polled(Cache(old(lastETag), old(lastDesired)), d)
      ensures lastInterval == if d.Got? && d.reply.Fresh? then interval else old(lastInterval)
      ensures heartbeat == if toReconcile.Some? && lastInterval > 0 then lastInterval * SECOND else old(heartbeat)
    {
      if d.PollError? { return None; }
      var etag := Trim(d.reply.etag);
      if etag == "" { etag := lastETag; }
      var desired: Option<seq<DesiredItem>>, notModified := None, d.reply.NotModified?;
      if d.reply.Fresh? { desired := Some(d.reply.items); }

      if etag != "" { lastETag := etag; }
      if desired.Some? {
        lastDesired, lastInterval := desired, interval;
      } else if notModified {
        desired := lastDesired;
      }
      if desired.None? { return None; }
      if lastInterval > 0 { heartbeat := lastInterval * SECOND; }
      return desired;
    }
  }

  // ---------- runs ----------

  /** What the network does to a poll; an unreadable body spoils only a full response. */
  datatype Net = Intact | Lost | BodyUnreadable

  /** One poll as it went: the current items, and what the cached and an uncached agent act on. */
  datatype Record = Record(current: seq<DesiredItem>, cached: Option<seq<DesiredItem>>,
      uncached: Option<seq<DesiredItem>>)

  datatype State = State(procs: map<Key, Proc>, cache: Cache, history: seq<Record>)

  /** Processes come, change and go, and the agent polls; the API server lists in any order. */
  datatype Step = Store(proc: Proc) | Drop(key: Key) | Poll(list: seq<Proc>, net: Net)

  ghost predicate Lists(procs: map<Key, Proc>, list: seq<Proc>) {
    DistinctProcs(list) && forall p :: p in list <==> p.key in procs && procs[p.key] == p
  }

  function Delivered(reply: Reply, net: Net): Delivery {
    if net.Lost? || (net.BodyUnreadable? && reply.Fresh?) then PollError else Got(reply)
  }

  ghost function Next(hash: Spec -> string, digest: string -> string, device: string, s: State, step: Step): State {
    match step
    case Store(proc) => s.(procs := s.procs[proc.key := proc])
    case Drop(key) => s.(procs := s.procs - {key})
    case Poll(list, net) =>
      if !Lists(s.procs, list) then s
      else
        var (cache, acted) := Polled(s.cache, Delivered(Answer(hash, digest, list, device, s.cache.lastETag), net));
        var (_, plain) := Polled(NO_CACHE, Delivered(Answer(hash, digest, list, device, ""), net));
        State(s.procs, cache, s.history + [Record(ItemsFor(hash, list, device), acted, plain)])
  }

  ghost function Run(hash: Spec -> string, digest: string -> string, device: string, steps: seq<Step>): State
    decreases |steps|
  {
    if steps == [] then State(map[], NO_CACHE, [])
    else Next(hash, digest, device, Run(hash, digest, device, steps[..|steps| - 1]), steps[|steps| - 1])
  }

  ghost predicate PlainNames(steps: seq<Step>) {
    forall i :: 0 <= i < |steps| && steps[i].Store? ==>
      '/' !in steps[i].proc.key.namespace && '/' !in steps[i].proc.key.name
  }

  // ---------- what the cache guarantees ----------

  /** The same processes in namespace, name, generation and spec. */
  predicate SameView(a: seq<DesiredItem>, b: seq<DesiredItem>) {
    |a| == |b| && forall i :: 0 <= i < |a| ==>
      a[i].key == b[i].key && a[i].generation == b[i].generation && a[i].spec == b[i].spec
  }

  /** Items as the gateway makes them. */
  ghost predicate Made(hash: Spec -> string, items: seq<DesiredItem>) {
    forall i :: 0 <= i < |items| ==>
      items[i].specHash == hash(items[i].spec) && '/' !in items[i].key.namespace && '/' !in items[i].key.name
  }

  /** lastETag is empty and nothing is cached, or it is the ETag of what is cached. */
  ghost predicate CacheOk(hash: Spec -> string, digest: string -> string, c: Cache) {
    || c == NO_CACHE
    || (c.lastDesired.Some? && c.lastETag == ETag(digest, c.lastDesired.value) && Made(hash, c.lastDesired.value))
  }

  ghost predicate RecordOk(r: Record) {
    && (r.cached.Some? ==> SameView(r.cached.value, r.current))
    && (r.uncached.Some? ==> r.uncached.value == r.current && r.cached.Some?)
  }

  ghost predicate Inv(hash: Spec -> string, digest: string -> string, s: State) {
    && (forall k :: k in s.procs ==> s.procs[k].key == k && '/' !in k.namespace && '/' !in k.name)
    && CacheOk(hash, digest, s.cache)
    && (forall i :: 0 <= i < |s.history| ==> RecordOk(s.history[i]))
  }

  /** ETags of gateway-made items agree exactly when the items do. */
  lemma ETagExact(hash: Spec -> string, digest: string -> string, a: seq<DesiredItem>, b: seq<DesiredItem>)
    requires GoodHashes(hash, digest) && Made(hash, a) && Made(hash, b)
    ensures ETag(digest, a) == ETag(digest, b) <==> SameView(a, b)
  {
    hide DesiredText;
    TextUnique(a, b);
    if ETag(digest, a) == ETag(digest, b) {
      CancelSuffix("\"" + digest(DesiredText(a)), "\"" + digest(DesiredText(b)), "\"");
      CancelPrefix("\"", digest(DesiredText(a)), digest(DesiredText(b)));
    }
    forall i | 0 <= i < |a| && |a| == |b|
      ensures SameEntry(a[i], b[i]) <==>
              a[i].key == b[i].key && a[i].generation == b[i].generation && a[i].spec == b[i].spec
    {
      assert hash(a[i].spec) == a[i].specHash && hash(b[i].spec) == b[i].specHash;
    }
  }

  /** Listed processes yield gateway-made items. */
  lemma ListedMade(hash: Spec -> string, list: seq<Proc>, device: string)
    requires forall i :: 0 <= i < |list| ==> '/' !in list[i].key.namespace && '/' !in list[i].key.name
    ensures Made(hash, ItemsFor(hash, list, device))
  {
    var items, of := ItemsFor(hash, list, device), OfDevice(hash, list, device);
    OfDeviceFacts(hash, list, device);
    Sorting.SortFacts(of, SortKey);
    forall i | 0 <= i < |items|
      ensures items[i].specHash == hash(items[i].spec) && '/' !in items[i].key.namespace && '/' !in items[i].key.name
    {
      assert items[i] in multiset(items);
      assert items[i] in of;
    }
  }

  /** A response does not depend on the order in which the API server lists. */
  lemma ListOrderIrrelevant(hash: Spec -> string, procs: map<Key, Proc>, list: seq<Proc>, other: seq<Proc>,
                            device: string)
    requires Lists(procs, list) && Lists(procs, other)
    ensures ItemsFor(hash, list, device) == ItemsFor(hash, other, device)
  {
    var a, b := OfDevice(hash, list, device), OfDevice(hash, other, device);
    OfDeviceFacts(hash, list, device);
    OfDeviceFacts(hash, other, device);
    forall x ensures multiset(a)[x] == multiset(b)[x] {
      Sorting.AtMostOnce(a, x, SortKey);
      Sorting.AtMostOnce(b, x, SortKey);
      SameDevice(hash, list, other, device, x);
      SameDevice(hash, other, list, device, x);
    }
    assert multiset(a) == multiset(b);
    Sorting.SortForgetsOrder(a, b, SortKey);
  }

  lemma SameDevice(hash: Spec -> string, list: seq<Proc>, other: seq<Proc>, device: string, x: DesiredItem)
    requires forall p :: p in list ==> p in other
    ensures x in OfDevice(hash, list, device) ==> x in OfDevice(hash, other, device)
  {
    OfDeviceFacts(hash, list, device);
    OfDeviceFacts(hash, other, device);
    if x in OfDevice(hash, list, device) {
      var i :| 0 <= i < |list| && list[i].spec.deviceRef.name == device && x == ItemOf(hash, list[i]);
      assert list[i] in other;
    }
  }

  /** In a good state, 304 is the answer exactly when the cached items are the current ones. */
  lemma AnswerExact(hash: Spec -> string, digest: string -> string, device: string, s: State, list: seq<Proc>)
    requires GoodHashes(hash, digest) && Inv(hash, digest, s) && Lists(s.procs, list)
    ensures var current := ItemsFor(hash, list, device);
            && Made(hash, current)
            && (Answer(hash, digest, list, device, s.cache.lastETag).NotModified? <==>
                  s.cache.lastDesired.Some? && SameView(s.cache.lastDesired.value, current))
  {
    hide ItemsFor, ETag, Made, SameView, Trim;
    ListedMade(hash, list, device);
    var current := ItemsFor(hash, list, device);
    if s.cache.lastDesired.Some? {
      ETagExact(hash, digest, s.cache.lastDesired.value, current);
      ETagIsTrimmed(digest, s.cache.lastDesired.value);
    } else {
      TrimFixed("");
    }
  }

  lemma StepKeepsInv(hash: Spec -> string, digest: string -> string, device: string, s: State, step: Step)
    requires GoodHashes(hash, digest) && Inv(hash, digest, s) && PlainNames([step])
    ensures Inv(hash, digest, Next(hash, digest, device, s, step))
  {
    hide ItemsFor, ETag, Made, SameView, Trim, GoodHashes;
    match step
    case Store(proc) =>
      assert [step][0] == step;
    case Drop(key) =>
    case Poll(list, net) =>
      if Lists(s.procs, list) {
        var current := ItemsFor(hash, list, device);
        AnswerExact(hash, digest, device, s, list);
        ETagIsTrimmed(digest, current);
        TrimFixed("");
        SameViewReflexive(current);
        if s.cache.lastDesired.Some? {
          ETagIsTrimmed(digest, s.cache.lastDesired.value);
        }
      }
  }

  lemma SameViewReflexive(items: seq<DesiredItem>)
    ensures SameView(items, items)
  {
  }

  lemma {:induction false} RunKeepsInv(hash: Spec -> string, digest: string -> string, device: string, steps: seq<Step>)
    requires GoodHashes(hash, digest) && PlainNames(steps)
    ensures Inv(hash, digest, Run(hash, digest, device, steps))
    decreases |steps|
  {
    hide Inv, Next;
    if steps == [] {
      EmptyInv(hash, digest);
    } else {
      var n := |steps| - 1;
      RunKeepsInv(hash, digest, device, steps[..n]);
      assert forall i :: 0 <= i < 1 ==> [steps[n]][i] == steps[n];
      StepKeepsInv(hash, digest, device, Run(hash, digest, device, steps[..n]), steps[n]);
    }
  }

  lemma EmptyInv(hash: Spec -> string, digest: string -> string)
    ensures Inv(hash, digest, State(map[], NO_CACHE, []))
  {
  }

  /**
    After any run of polls, creates, updates and deletes, however the API server orders its
    lists: the gateway answers 304 exactly when the agent's cached items equal the current ones
    in namespace, name, generation and spec.
   */
  lemma NotModifiedExactly(hash: Spec -> string, digest: string -> string, device: string, steps: seq<Step>,
                           list: seq<Proc>, view: seq<Proc>)
    requires GoodHashes(hash, digest) && PlainNames(steps)
    requires var s := Run(hash, digest, device, steps); Lists(s.procs, list) && Lists(s.procs, view)
    ensures var cache := Run(hash, digest, device, steps).cache;
            Answer(hash, digest, list, device, cache.lastETag).NotModified? <==>
              cache.lastDesired.Some? && SameView(cache.lastDesired.value, ItemsFor(hash, view, device))
  {
    hide Answer, ItemsFor, Inv, Lists;
    var s := Run(hash, digest, device, steps);
    RunKeepsInv(hash, digest, device, steps);
    AnswerExact(hash, digest, device, s, list);
    ListOrderIrrelevant(hash, s.procs, list, view, device);
  }

  /**
    The cache is transparent: at every poll of every run the agent acts on items equal to the
    current ones, and it acts whenever an agent without a cache would.
   */
  lemma CacheIsTransparent(hash: Spec -> string, digest: string -> string, device: string, steps: seq<Step>, i: nat)
    requires GoodHashes(hash, digest) && PlainNames(steps)
    requires i < |Run(hash, digest, device, steps).history|
    ensures var r := Run(hash, digest, device, steps).history[i];
            && (r.cached.Some? ==> SameView(r.cached.value, r.current))
            && (r.uncached.Some? ==> r.cached.Some? && r.uncached.value == r.current)
  {
    hide Run, Next, SameView;
    RunKeepsInv(hash, digest, device, steps);
  }
}
