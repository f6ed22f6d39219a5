/**
  The condition list of pkg/conditions: find the first entry of a type, and
  set an entry while keeping its transition time unless its status changes.
 */
module Conditions {
  import opened Prelude

  /** Condition types the repository names, and any other type a foreign writer may use. */
  datatype ConditionType =
    | AgentConnected | SpecObserved | ArtifactDownloaded | ArtifactVerified
    | ProcessStarted | SpecWarning | Healthy
    | Available | Progressing
    | OtherType(name: string)

  datatype ConditionStatus = CondTrue | CondFalse | CondUnknown

  /** metav1.Condition. */
  datatype Condition = Condition(
    ctype: ConditionType,
    status: ConditionStatus,
    observedGeneration: int,
    lastTransitionTime: Time,
    reason: string,
    message: string)

  /** Position of the first condition of type `t`; the length when there is none. */
  function IndexOf(cs: seq<Condition>, t: ConditionType): (i: nat)
    ensures i <= |cs|
    ensures i < |cs| ==> cs[i].ctype == t
    ensures forall j :: 0 <= j < i ==> cs[j].ctype != t
  {
    if cs == [] || cs[0].ctype == t then 0 else 1 + IndexOf(cs[1..], t)
  }

  function Find(cs: seq<Condition>, t: ConditionType): Option<Condition> {
    var i := IndexOf(cs, t);
    if i < |cs| then Some(cs[i]) else None
  }

  /** `c` as it is stored over the entry `e`, or with no entry there. */
  function Stamped(c: Condition, e: Option<Condition>, now: Time): Condition {
    c.(lastTransitionTime :=
        if e.Some? && e.value.status == c.status then e.value.lastTransitionTime else now)
  }

  /** The list after SetCondition. */
  function Set(cs: seq<Condition>, c: Condition, now: Time): seq<Condition> {
    var i := IndexOf(cs, c.ctype);
    if i < |cs| then cs[i := Stamped(c, Some(cs[i]), now)] else cs + [Stamped(c, None, now)]
  }

  /** The condition MarkTrue and MarkFalse pass to SetCondition. */
  function Mark(t: ConditionType, status: ConditionStatus, reason: string, message: string): Condition {
    Condition(t, status, 0, 0, reason, message)
  }

  lemma IndexOfUnique(cs: seq<Condition>, t: ConditionType, i: nat)
    requires i <= |cs|
    requires i < |cs| ==> cs[i].ctype == t
    requires forall j :: 0 <= j < i ==> cs[j].ctype != t
    ensures IndexOf(cs, t) == i
  {
  }

  /** Setting an entry makes it findable and leaves every other type alone. */
  lemma SetFind(cs: seq<Condition>, c: Condition, now: Time, t: ConditionType)
    ensures t == c.ctype ==> Find(Set(cs, c, now), t) == Some(Stamped(c, Find(cs, t), now))
    ensures t != c.ctype ==> Find(Set(cs, c, now), t) == Find(cs, t)
  {
    var r, i, k := Set(cs, c, now), IndexOf(cs, c.ctype), IndexOf(cs, t);
    if t == c.ctype {
      IndexOfUnique(r, t, i);
    } else if k < |cs| {
      IndexOfUnique(r, t, k);
    } else {
      IndexOfUnique(r, t, |r|);
    }
  }

  /** The caller's slice, scanned and overwritten in place. */
  class ConditionList {
    var items: seq<Condition>

    constructor (initial: seq<Condition>)
      ensures items == initial
    {
      items := initial;
    }

    method FindCondition(t: ConditionType) returns (r: Option<Condition>)
      ensures r == Find(items, t)
    {
      var i := 0;
      while i < |items|
        invariant 0 <= i <= |items|
        invariant forall j :: 0 <= j < i ==> items[j].ctype != t
      {
        if items[i].ctype == t {
          IndexOfUnique(items, t, i);
          return Some(items[i]);
        }
        i := i + 1;
      }
      IndexOfUnique(items, t, i);
      return None;
    }

    method SetCondition(condition: Condition, now: Time)
      modifies this
      ensures items == Set(old(items), condition, now)
    {
      var c := condition.(lastTransitionTime := now);
      var i := 0;
      while i < |items|
        invariant 0 <= i <= |items| && items == old(items)
        invariant forall j :: 0 <= j < i ==> items[j].ctype != c.ctype
      {
        if items[i].ctype == c.ctype {
          IndexOfUnique(items, c.ctype, i);
          if items[i].status == c.status {
            c := c.(lastTransitionTime := items[i].lastTransitionTime);
          }
          items := items[i := c];
          return;
        }
        i := i + 1;
      }
      IndexOfUnique(items, c.ctype, i);
      items := items + [c];
    }

    method MarkTrue(t: ConditionType, reason: string, message: string, now: Time)
      modifies this
      ensures items == Set(old(items), Mark(t, CondTrue, reason, message), now)
    {
      SetCondition(Mark(t, CondTrue, reason, message), now);
    }

    method MarkFalse(t: ConditionType, reason: string, message: string, now: Time)
      modifies this
      ensures items == Set(old(items), Mark(t, CondFalse, reason, message), now)
    {
      SetCondition(Mark(t, CondFalse, reason, message), now);
    }
  }

  // ---------- a slice that others share ----------

  predicate Has(cs: seq<Condition>, t: ConditionType) {
    IndexOf(cs, t) < |cs|
  }

  /**
    SetCondition on a slice, `arr[..len]` with any spare capacity behind it. An entry that is there
    is overwritten in the array, so every holder of that array sees it; a new one is appended,
    behind the other holders' length or in a new array, and they see nothing.
   */
  method SetConditionShared(arr: array<Condition>, len: nat, condition: Condition, now: Time)
    returns (arr': array<Condition>, len': nat)
    requires len <= arr.Length
    modifies arr
    ensures len' <= arr'.Length && arr'[..len'] == Set(old(arr[..len]), condition, now)
    ensures if Has(old(arr[..len]), condition.ctype) then arr' == arr && len' == len
            else len' == len + 1 && arr[..len] == old(arr[..len]) && (arr' == arr || fresh(arr'))
  {
    var c := condition.(lastTransitionTime := now);
    for i := 0 to len
      invariant arr[..] == old(arr[..])
      invariant forall j :: 0 <= j < i ==> arr[j].ctype != c.ctype
    {
      if arr[i].ctype == c.ctype {
        IndexOfUnique(arr[..len], c.ctype, i);
        if arr[i].status == c.status {
          c := c.(lastTransitionTime := arr[i].lastTransitionTime);
        }
        arr[i] := c;
        assert arr[..len] == old(arr[..len])[i := c];
        return arr, len;
      }
    }
    IndexOfUnique(arr[..len], c.ctype, len);
    if len < arr.Length {
      arr' := arr;
    } else {
      arr' := new Condition[2 * len + 1](i requires 0 <= i reads arr => if i < len <= arr.Length then arr[i] else c);
      assert arr'[..len] == arr[..len];
    }
    arr'[len] := c;
    len' := len + 1;
    assert arr'[..len'] == arr'[..len] + [c];
  }

  // ---------- what a whole history of calls leaves behind ----------

  datatype SetCall = SetCall(cond: Condition, at: Time)

  function SetAll(cs: seq<Condition>, calls: seq<SetCall>): seq<Condition>
    decreases |calls|
  {
    if calls == [] then cs
    else
      var last := calls[|calls| - 1];
      Set(SetAll(cs, calls[..|calls| - 1]), last.cond, last.at)
  }

  /** The first call for type `t`; the number of calls when there is none. */
  function FirstCall(calls: seq<SetCall>, t: ConditionType): (i: nat)
    ensures i <= |calls|
    ensures i < |calls| ==> calls[i].cond.ctype == t
    ensures forall j :: 0 <= j < i ==> calls[j].cond.ctype != t
  {
    if calls == [] || calls[0].cond.ctype == t then 0 else 1 + FirstCall(calls[1..], t)
  }

  /** The most recent call for type `t`; -1 when there is none. */
  function LastCall(calls: seq<SetCall>, t: ConditionType): (i: int)
    ensures -1 <= i < |calls|
    ensures i >= 0 ==> calls[i].cond.ctype == t
    ensures forall j :: i < j < |calls| ==> calls[j].cond.ctype != t
    decreases |calls|
  {
    var n := |calls| - 1;
    if calls == [] || calls[n].cond.ctype == t then n
    else
      var i := LastCall(calls[..n], t);
      assert forall j :: 0 <= j < n ==> calls[..n][j] == calls[j];
      i
  }

  /** Call `j` changed the status of its type: the call of that type right before it, if any, had another status. */
  predicate ChangedStatus(calls: seq<SetCall>, j: nat)
    requires j < |calls|
  {
    var i := LastCall(calls[..j], calls[j].cond.ctype);
    i < 0 || calls[i].cond.status != calls[j].cond.status
  }

  /** The most recent call for type `t` that changed its status; -1 when there is none. */
  function LastChange(calls: seq<SetCall>, t: ConditionType): (j: int)
    ensures -1 <= j < |calls|
    decreases |calls|
  {
    var n := |calls| - 1;
    if calls == [] || (calls[n].cond.ctype == t && ChangedStatus(calls, n)) then n
    else
      LastChange(calls[..n], t)
  }

  lemma ChangeInPrefix(calls: seq<SetCall>, n: nat, m: nat)
    requires m < n <= |calls|
    ensures ChangedStatus(calls[..n], m) == ChangedStatus(calls, m)
  {
    assert calls[..n][..m] == calls[..m];
  }

  /** LastChange is a call for `t` that changed its status, and no later call for `t` did. */
  lemma {:induction false} LastChangeMeaning(calls: seq<SetCall>, t: ConditionType, m: nat)
    requires m < |calls| && calls[m].cond.ctype == t
    ensures var j := LastChange(calls, t);
            && j >= 0 && calls[j].cond.ctype == t && ChangedStatus(calls, j)
            && (m > j ==> !ChangedStatus(calls, m))
    decreases |calls|
  {
    var n := |calls| - 1;
    if LastChange(calls, t) != n {
      if m == n {
        var i := LastCall(calls[..n], t);
        LastChangeMeaning(calls[..n], t, i);
      } else {
        LastChangeMeaning(calls[..n], t, m);
        ChangeInPrefix(calls, n, m);
      }
      ChangeInPrefix(calls, n, LastChange(calls, t));
    }
  }

  /**
    After any sequence of SetCondition calls on an empty list, entry `k` holds what the most
    recent call for its type passed, and its transition time is that of the most recent call
    for that type that changed the status.
   */
  lemma {:induction false} EntryHistory(calls: seq<SetCall>, k: nat)
    requires k < |SetAll([], calls)|
    ensures var e := SetAll([], calls)[k];
            var i, j := LastCall(calls, e.ctype), LastChange(calls, e.ctype);
            && 0 <= j <= i
            && e == calls[i].cond.(lastTransitionTime := calls[j].at)
    decreases |calls|
  {
    var n := |calls| - 1;
    var init, last := calls[..n], calls[n];
    var before := SetAll([], init);
    if k >= |before| {
      NoEntryNoCall(init, last.cond.ctype);
    } else {
      EntryHistory(init, k);
      if IndexOf(before, last.cond.ctype) != k {
        EntriesHaveDistinctTypes(init);
      }
    }
  }

  ghost predicate DistinctTypes(cs: seq<Condition>) {
    forall k, l :: 0 <= k < l < |cs| ==> cs[k].ctype != cs[l].ctype
  }

  lemma {:induction false} EntriesHaveDistinctTypes(calls: seq<SetCall>)
    ensures DistinctTypes(SetAll([], calls))
    decreases |calls|
  {
    if calls != [] {
      EntriesHaveDistinctTypes(calls[..|calls| - 1]);
    }
  }

  /** A type with no entry was never set. */
  lemma {:induction false} NoEntryNoCall(calls: seq<SetCall>, t: ConditionType)
    requires IndexOf(SetAll([], calls), t) == |SetAll([], calls)|
    ensures forall i :: 0 <= i < |calls| ==> calls[i].cond.ctype != t
    ensures LastCall(calls, t) == -1
    decreases |calls|
  {
    if calls != [] {
      var n := |calls| - 1;
      var init, last := calls[..n], calls[n];
      SetFind(SetAll([], init), last.cond, last.at, t);
      NoEntryNoCall(init, t);
      assert forall i :: 0 <= i < n ==> calls[i] == init[i];
    }
  }

  /** Entries stand in the order in which their types were first set. */
  lemma {:induction false} FirstSetOrder(calls: seq<SetCall>, k: nat, l: nat)
    requires k < l < |SetAll([], calls)|
    ensures FirstCall(calls, SetAll([], calls)[k].ctype) < FirstCall(calls, SetAll([], calls)[l].ctype) < |calls|
    decreases |calls|
  {
    var n := |calls| - 1;
    var init := calls[..n];
    var tk, tl := SetAll([], calls)[k].ctype, SetAll([], calls)[l].ctype;
    EntryHistory(init, k);
    FirstCallInPrefix(calls, tk);
    if l < |SetAll([], init)| {
      FirstSetOrder(init, k, l);
      EntryHistory(init, l);
      FirstCallInPrefix(calls, tl);
    } else {
      NoEntryNoCall(init, tl);
      FirstCallUnique(calls, tl, n);
    }
  }

  lemma FirstCallUnique(calls: seq<SetCall>, t: ConditionType, i: nat)
    requires i < |calls| && calls[i].cond.ctype == t
    requires forall j :: 0 <= j < i ==> calls[j].cond.ctype != t
    ensures FirstCall(calls, t) == i
  {
  }

  lemma FirstCallInPrefix(calls: seq<SetCall>, t: ConditionType)
    requires calls != [] && LastCall(calls[..|calls| - 1], t) >= 0
    ensures FirstCall(calls, t) == FirstCall(calls[..|calls| - 1], t)
  {
    var init := calls[..|calls| - 1];
    var i := FirstCall(init, t);
    assert forall j :: 0 <= j < |init| ==> calls[j] == init[j];
    FirstCallUnique(calls, t, i);
  }
}
