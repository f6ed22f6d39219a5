/**
  What reconcile does with the response the agent keeps (agent/main.go): it copies each item, but
  the copy's slices are still the cached ones. Slices are arrays here; no method below may write to
  an array it did not allocate, so the cached response stays as it was.
 */
module CachedResponse {
  import opened Prelude
  import opened Text
  import opened ApiTypes
  import opened Render
  import Sorting

  /** An item of the cached response: copying it copies the references. */
  datatype ItemRef = ItemRef(key: Key, command: array<string>, args: array<string>, env: array<EnvVar>)

  /** What an item says, by value. */
  datatype ItemView = ItemView(key: Key, command: seq<string>, args: seq<string>, env: seq<EnvVar>)

  ghost function View(item: ItemRef): ItemView
    reads item.command, item.args, item.env
  {
    ItemView(item.key, item.command[..], item.args[..], item.env[..])
  }

  /** The artifact's root, blank or not, and where a relative command lands in it, if it may. */
  datatype Root = Root(blank: bool, joined: Option<string>)

  /** The command resolveCommand gives for this one: its arguments stay, and an absolute path does too. */
  function ResolvedCommand(cmd: seq<string>, root: Root): (r: Option<seq<string>>)
    ensures r.Some? ==> cmd != [] && |r.value| == |cmd| && r.value[1..] == cmd[1..]
    ensures r.Some? ==> if cmd[0] != "" && cmd[0][0] == '/' then r.value[0] == cmd[0]
        else root.joined == Some(r.value[0])
    ensures r.None? <== cmd == [] || root.blank
  {
    if cmd == [] || root.blank then None
    else if "/" <= cmd[0] then Some(cmd)
    else if Trim(cmd[0]) == "" || root.joined.None? then None
    else Some([root.joined.value] + cmd[1..])
  }

  /** resolveCommand: an absolute command is returned as the same slice, any other in a new one. */
  method ResolveCommand(cmd: array<string>, root: Root) returns (r: Option<array<string>>)
    ensures r.Some? <==> ResolvedCommand(cmd[..], root).Some?
    ensures r.Some? ==> r.value[..] == ResolvedCommand(cmd[..], root).value && (r.value == cmd || fresh(r.value))
  {
    hide Trim;
    if cmd.Length == 0 || root.blank { return None; }
    if "/" <= cmd[0] { return Some(cmd); }
    if Trim(cmd[0]) == "" || root.joined.None? { return None; }
    var first := root.joined.value;
    var res := new string[cmd.Length](i requires 0 <= i < cmd.Length reads cmd => if i == 0 then first else cmd[i]);
    assert res[..] == [first] + cmd[..][1..];
    return Some(res);
  }

  /** renderExecStart's parts: a new slice, never the command's own. */
  method Parts(cmd: array<string>, args: array<string>) returns (parts: array<string>)
    ensures fresh(parts) && parts[..] == cmd[..] + args[..]
  {
    var n := cmd.Length;
    parts := new string[n + args.Length](
      i requires 0 <= i < n + args.Length && n == cmd.Length reads cmd, args => if i < n then cmd[i] else args[i - n]);
    assert parts[..] == cmd[..] + args[..];
  }

  /** The in-place sort of RenderEnvFile. */
  method SortArray(a: array<EnvVar>)
    modifies a
    ensures a[..] == Sorting.Sort(old(a[..]), EnvKey)
  {
    hide Sorting.Sort, Sorting.Ordered, EnvKey;
    Sorting.SortLength(a[..], EnvKey);
    var order := Sorting.SortInPlace(a[..], EnvKey);
    for i := 0 to a.Length
      invariant a[..i] == order[..i]
    {
      a[i] := order[i];
      assert a[..i + 1] == a[..i] + [order[i]];
    }
    assert a[..] == order;
  }

  /** RenderEnvFile sorts a copy. */
  method SortedCopy(env: array<EnvVar>) returns (out: array<EnvVar>)
    ensures fresh(out) && out[..] == Sorting.Sort(env[..], EnvKey)
  {
    out := new EnvVar[env.Length](i requires 0 <= i < env.Length reads env => env[i]);
    assert out[..] == env[..];
    SortArray(out);
  }

  /** What the item loop hands to the renderer for one item: the argument vector and the sorted environment. */
  datatype Rendered = Rendered(argv: seq<string>, env: seq<EnvVar>)

  function RenderedOf(item: ItemView, oci: bool, root: Root): Option<Rendered> {
    var cmd := if oci then ResolvedCommand(item.command, root) else Some(item.command);
    if cmd.None? then None else Some(Rendered(cmd.value + item.args, Sorting.Sort(item.env, EnvKey)))
  }

  /** One item: the local copy gets the resolved command, the cached item does not. */
  method RenderItem(cached: ItemRef, oci: bool, root: Root) returns (r: Option<Rendered>)
    ensures r == RenderedOf(old(View(cached)), oci, root)
    ensures View(cached) == old(View(cached))
  {
    hide ResolvedCommand;
    var item := cached;
    if oci {
      var resolved := ResolveCommand(item.command, root);
      if resolved.None? { return None; }
      item := item.(command := resolved.value);
    }
    var parts := Parts(item.command, item.args);
    var env := SortedCopy(item.env);
    return Some(Rendered(parts[..], env[..]));
  }

  /**
    The pass over the cached items: each is rendered as it says, and afterwards the cached response
    is what it was, item by item and slice by slice.
   */
  method RenderAll(items: array<ItemRef>, oci: seq<bool>, roots: seq<Root>) returns (r: seq<Option<Rendered>>)
    requires |oci| == |roots| == items.Length
    ensures |r| == items.Length
    ensures forall i :: 0 <= i < items.Length ==> r[i] == RenderedOf(old(View(items[i])), oci[i], roots[i])
    ensures items[..] == old(items[..])
    ensures forall i :: 0 <= i < items.Length ==> View(items[i]) == old(View(items[i]))
  {
    hide RenderedOf;
    r := [];
    for i := 0 to items.Length
      invariant |r| == i
      invariant forall j :: 0 <= j < i ==> r[j] == RenderedOf(old(View(items[j])), oci[j], roots[j])
    {
      var one := RenderItem(items[i], oci[i], roots[i]);
      r := r + [one];
    }
  }
}
