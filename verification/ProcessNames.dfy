/**
  deviceProcessName (deviceprocessdeployment_controller.go): the name of a device's process, and
  when two of them are the same. `valid` stands for the check of DNS-1123 subdomains and `sha1`
  for the hex SHA-1 of a text.
 */
module ProcessNames {
  import opened Text
  import opened Units
  import Controller
  import ControllerLaws

  const MAX_NAME: nat := 253
  const HASH: nat := 10

  /** The functions the names take as given. */
  datatype Given = Given(valid: string -> bool, sha1: string -> string)

  /** A hex SHA-1 has more digits than are kept. */
  ghost predicate LongHashes(g: Given) {
    forall s :: |g.sha1(s)| >= HASH
  }

  function LowerAll(s: string): string {
    seq(|s|, i requires 0 <= i < |s| => Lower(s[i]))
  }

  /** The two names joined; used when it is a valid name. */
  function Joined(dep: string, device: string): string {
    LowerAll(dep) + "-" + LowerAll(device)
  }

  lemma JoinedIsLowered(dep: string, device: string)
    ensures Joined(dep, device) == LowerAll(dep + "-" + device)
  {
  }

  predicate Usable(g: Given, dep: string, device: string) {
    g.valid(Joined(dep, device)) && |Joined(dep, device)| <= MAX_NAME
  }

  function Prefix(dep: string): string {
    var p := LowerAll(dep);
    var t := TrimDashes(if |p| > MAX_NAME - HASH - 1 then p[..MAX_NAME - HASH - 1] else p);
    if t == "" then "dpd" else t
  }

  function HashOf(g: Given, dep: string, device: string): string {
    var h := g.sha1(dep + ":" + device);
    if |h| < HASH then h else h[..HASH]
  }

  function Hashed(g: Given, dep: string, device: string): string {
    Prefix(dep) + "-" + HashOf(g, dep, device)
  }

  function ProcessName(g: Given, dep: string, device: string): string {
    if Usable(g, dep, device) then Joined(dep, device) else Hashed(g, dep, device)
  }

  /** Hashes of one length can be split off again. */
  lemma HashedExact(p: string, h: string, q: string, k: string)
    requires |h| == |k|
    ensures p + "-" + h == q + "-" + k <==> p == q && h == k
  {
    if p + "-" + h == q + "-" + k {
      assert |p| == |q|;
      ShortenedExact(p, h, q, k);
    }
  }

  /**
    When two devices of two deployments get one process name. Names that are used as they are:
    exactly when the lowered parts are equal or one pair splits the joined text at a later dash.
    Hashed names: exactly when prefix and hash agree. One of each: exactly when the joined name
    looks like the other's hashed one.
   */
  lemma SharedNameExact(g: Given, dep: string, device: string, dep2: string, device2: string)
    requires LongHashes(g)
    ensures var x, y, x2, y2 := LowerAll(dep), LowerAll(device), LowerAll(dep2), LowerAll(device2);
            ProcessName(g, dep, device) == ProcessName(g, dep2, device2) <==>
              if Usable(g, dep, device) && Usable(g, dep2, device2) then
                (x == x2 && y == y2) || SplitsLater(x, y, x2, y2) || SplitsLater(x2, y2, x, y)
              else if Usable(g, dep, device) then Joined(dep, device) == Hashed(g, dep2, device2)
              else if Usable(g, dep2, device2) then Joined(dep2, device2) == Hashed(g, dep, device)
              else Prefix(dep) == Prefix(dep2) && HashOf(g, dep, device) == HashOf(g, dep2, device2)
  {
    hide LowerAll, Prefix, SplitsLater, Usable;
    JoinExact(LowerAll(dep), LowerAll(device), LowerAll(dep2), LowerAll(device2));
    HashedExact(Prefix(dep), HashOf(g, dep, device), Prefix(dep2), HashOf(g, dep2, device2));
  }

  /** Two deployments share a process whenever a dash can be read as the separator. */
  lemma DeploymentsShare(g: Given, x: string, y: string, z: string)
    ensures ProcessName(g, x + "-" + y, z) == ProcessName(g, x, y + "-" + z) || !Usable(g, x + "-" + y, z)
  {
    hide Prefix, HashOf;
    JoinedIsLowered(x + "-" + y, z);
    JoinedIsLowered(x, y + "-" + z);
    assert (x + "-" + y) + "-" + z == x + "-" + (y + "-" + z);
  }

  /** Within one deployment: the two devices have the same lowered name, the same hash, or a name that looks hashed. */
  predicate Clash(g: Given, dep: string, a: string, b: string) {
    if Usable(g, dep, a) && Usable(g, dep, b) then LowerAll(a) == LowerAll(b)
    else if Usable(g, dep, a) then Joined(dep, a) == Hashed(g, dep, b)
    else if Usable(g, dep, b) then Joined(dep, b) == Hashed(g, dep, a)
    else HashOf(g, dep, a) == HashOf(g, dep, b)
  }

  lemma ClashExact(g: Given, dep: string, a: string, b: string)
    requires LongHashes(g)
    ensures ProcessName(g, dep, a) == ProcessName(g, dep, b) <==> Clash(g, dep, a, b)
  {
    hide Prefix, HashOf, Usable, LongHashes;
    if Usable(g, dep, a) && Usable(g, dep, b) {
      if Joined(dep, a) == Joined(dep, b) {
        CancelPrefix(LowerAll(dep) + "-", LowerAll(a), LowerAll(b));
      }
    } else {
      SharedNameExact(g, dep, a, dep, b);
    }
  }

  /**
    With the source's own names, the distinctness the controller's laws ask for holds exactly when
    no two devices clash.
   */
  lemma DistinctNamesExactly(g: Given, env: Controller.Env, dep: string, devices: seq<Controller.Device>)
    requires LongHashes(g) && forall d :: env.nameOf(d) == ProcessName(g, dep, d)
    ensures ControllerLaws.DistinctNames(env, devices) <==>
            forall i, j :: 0 <= i < j < |devices| ==> !Clash(g, dep, devices[i].name, devices[j].name)
  {
    hide ProcessName, Clash, LongHashes;
    forall i, j | 0 <= i < j < |devices|
      ensures env.nameOf(devices[i].name) != env.nameOf(devices[j].name) <==>
              !Clash(g, dep, devices[i].name, devices[j].name)
    {
      ClashExact(g, dep, devices[i].name, devices[j].name);
    }
  }
}
