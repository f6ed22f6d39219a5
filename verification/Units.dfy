/**
  agent/systemd/manager.go: unit names and paths, and the idempotent file writes under them;
  and the agent's key text (itemKey, splitKey).
 */
module Units {
  import opened Prelude
  import opened Text
  import opened ApiTypes

  // ---------- names ----------

  function Lower(c: char): char {
    if 'A' <= c <= 'Z' then (c as int - 'A' as int + 'a' as int) as char else c
  }

  /** A character reInvalid leaves alone, after lowering. */
  predicate NameChar(c: char) {
    'a' <= c <= 'z' || '0' <= c <= '9' || c == '_' || c == '.' || c == '-'
  }

  function Cleaned(s: string): string {
    seq(|s|, i requires 0 <= i < |s| => if NameChar(Lower(s[i])) then Lower(s[i]) else '-')
  }

  function TrimDashes(s: string): string
    decreases |s|
  {
    if s != "" && s[0] == '-' then TrimDashes(s[1..])
    else if s != "" && s[|s| - 1] == '-' then TrimDashes(s[..|s| - 1])
    else s
  }

  function Sanitize(s: string): string {
    var t := TrimDashes(Cleaned(Trim(s)));
    if t == "" then "device" else t
  }

  const MAX_BASE: nat := 80
  const SUFFIX: nat := 8

  /** The base before it is shortened. */
  function FullBase(key: Key): string {
    "apollo-" + (Sanitize(key.namespace) + "-" + Sanitize(key.name))
  }

  /** The start of a digest that marks a shortened base. */
  function Mark(d: string): string {
    if |d| < SUFFIX then d else d[..SUFFIX]
  }

  predicate Fits(base: string) {
    |base| <= MAX_BASE
  }

  /** sanitizedBase; `digest` is the hex SHA-256 used to shorten long names. */
  function SanitizedBase(digest: string -> string, key: Key): string {
    var base := FullBase(key);
    if Fits(base) then base else base[..MAX_BASE - SUFFIX - 1] + "-" + Mark(digest(base))
  }

  /** A name that Sanitize leaves alone. */
  predicate Clean(s: string) {
    s != "" && (forall i :: 0 <= i < |s| ==> NameChar(s[i])) && s[0] != '-' && s[|s| - 1] != '-'
  }

  lemma CleanName(s: string)
    requires Clean(s)
    ensures Sanitize(s) == s
  {
    assert !IsSpace(s[0]) && !IsSpace(s[|s| - 1]);
    TrimFixed(s);
    assert forall i :: 0 <= i < |s| ==> Lower(s[i]) == s[i];
    assert Cleaned(s) == s;
  }

  lemma {:induction false} TrimDashesShape(s: string)
    requires forall i :: 0 <= i < |s| ==> NameChar(s[i])
    ensures var t := TrimDashes(s); t == "" || Clean(t)
    decreases |s|
  {
    if s != "" && s[0] == '-' {
      TrimDashesShape(s[1..]);
    } else if s != "" && s[|s| - 1] == '-' {
      TrimDashesShape(s[..|s| - 1]);
    }
  }

  /** A sanitized name is clean, and sanitizing it again changes nothing. */
  lemma SanitizedIsClean(s: string)
    ensures Clean(Sanitize(s)) && Sanitize(Sanitize(s)) == Sanitize(s)
  {
    hide Trim, TrimDashes;
    var c := Cleaned(Trim(s));
    assert forall i :: 0 <= i < |c| ==> NameChar(c[i]);
    TrimDashesShape(c);
    hide Sanitize;
    assert Clean(Sanitize(s));
    CleanName(Sanitize(s));
  }

  // ---------- when two processes share a unit ----------

  /** `x-y` read again as `x2-y2`, with the split at a later dash. */
  predicate SplitsLater(x: string, y: string, x2: string, y2: string) {
    && |x| < |x2|
    && x2 == x + "-" + x2[|x| + 1..]
    && y == x2[|x| + 1..] + "-" + y2
  }

  /** Two joins agree exactly when their parts do, or one splits the text at a later dash. */
  lemma JoinExact(x: string, y: string, x2: string, y2: string)
    ensures x + "-" + y == x2 + "-" + y2 <==>
            (x == x2 && y == y2) || SplitsLater(x, y, x2, y2) || SplitsLater(x2, y2, x, y)
  {
    if x + "-" + y == x2 + "-" + y2 {
      JoinParts(x, y, x2, y2);
    }
  }

  lemma JoinParts(x: string, y: string, x2: string, y2: string)
    requires x + "-" + y == x2 + "-" + y2
    ensures (x == x2 && y == y2) || SplitsLater(x, y, x2, y2) || SplitsLater(x2, y2, x, y)
  {
    var t := x + "-" + y;
    assert t[..|x|] == x && t[|x| + 1..] == y && t[|x|] == '-';
    assert t[..|x2|] == x2 && t[|x2| + 1..] == y2 && t[|x2|] == '-';
    if |x| < |x2| {
      assert x2 == t[..|x|] + [t[|x|]] + t[|x| + 1..|x2|];
      assert y == t[|x| + 1..|x2|] + [t[|x2|]] + t[|x2| + 1..];
    } else if |x2| < |x| {
      assert x == t[..|x2|] + [t[|x2|]] + t[|x2| + 1..|x|];
      assert y2 == t[|x2| + 1..|x|] + [t[|x|]] + t[|x| + 1..];
    }
  }

  /** The sanitized parts of two keys join to one text. */
  predicate SameParts(a: Key, b: Key) {
    var x, y, x2, y2 := Sanitize(a.namespace), Sanitize(a.name), Sanitize(b.namespace), Sanitize(b.name);
    (x == x2 && y == y2) || SplitsLater(x, y, x2, y2) || SplitsLater(x2, y2, x, y)
  }

  lemma FullBaseExact(a: Key, b: Key)
    ensures FullBase(a) == FullBase(b) <==> SameParts(a, b)
  {
    hide Sanitize;
    var x, y, x2, y2 := Sanitize(a.namespace), Sanitize(a.name), Sanitize(b.namespace), Sanitize(b.name);
    JoinExact(x, y, x2, y2);
    if FullBase(a) == FullBase(b) {
      CancelPrefix("apollo-", x + "-" + y, x2 + "-" + y2);
    }
  }

  /** The kept prefix and the mark of two bases agree. */
  lemma ShortenedExact(p: string, d: string, q: string, e: string)
    requires |p| == |q|
    ensures p + "-" + d == q + "-" + e <==> p == q && d == e
  {
    if p + "-" + d == q + "-" + e {
      assert p == (p + "-" + d)[..|p|] && q == (q + "-" + e)[..|q|];
      assert d == (p + "-" + d)[|p| + 1..] && e == (q + "-" + e)[|q| + 1..];
    }
  }

  /**
    When two processes share a unit, for all names. Bases that fit: exactly when the sanitized
    parts are equal or one key splits the joined text at a later dash. Shortened bases: exactly
    when the kept prefixes and the digests' marks agree. One of each: exactly when the base that
    fits looks like the other's shortened form.
   */
  lemma SharedUnitExact(digest: string -> string, a: Key, b: Key)
    ensures var x, y, n := FullBase(a), FullBase(b), MAX_BASE - SUFFIX - 1;
            SanitizedBase(digest, a) == SanitizedBase(digest, b) <==>
              if Fits(x) && Fits(y) then SameParts(a, b)
              else if Fits(x) then x == y[..n] + "-" + Mark(digest(y))
              else if Fits(y) then y == x[..n] + "-" + Mark(digest(x))
              else x[..n] == y[..n] && Mark(digest(x)) == Mark(digest(y))
  {
    hide FullBase, Mark, SameParts;
    var x, y, n := FullBase(a), FullBase(b), MAX_BASE - SUFFIX - 1;
    FullBaseExact(a, b);
    if !Fits(x) && !Fits(y) {
      ShortenedExact(x[..n], Mark(digest(x)), y[..n], Mark(digest(y)));
    }
  }

  /** A key whose parts are clean and whose base is not shortened. */
  predicate PlainKey(key: Key) {
    Clean(key.namespace) && Clean(key.name) && Fits(FullBase(key))
  }

  /** The base of a plain key is its two names, joined. */
  lemma PlainBase(digest: string -> string, key: Key)
    requires PlainKey(key)
    ensures SanitizedBase(digest, key) == "apollo-" + key.namespace + "-" + key.name
    ensures UnitName(SanitizedBase(digest, key)) == "apollo-" + key.namespace + "-" + key.name + ".service"
  {
    CleanName(key.namespace);
    CleanName(key.name);
    hide Sanitize;
    assert "apollo-" + (key.namespace + "-" + key.name) == "apollo-" + key.namespace + "-" + key.name;
  }

  /** The second key's namespace goes on where the first one's ends, at a dash. */
  predicate Straddles(a: Key, b: Key) {
    SplitsLater(a.namespace, a.name, b.namespace, b.name)
  }

  /** Plain keys share a unit exactly when they are equal or one straddles the other. */
  lemma PlainKeysShareExact(digest: string -> string, a: Key, b: Key)
    requires PlainKey(a) && PlainKey(b)
    ensures SanitizedBase(digest, a) == SanitizedBase(digest, b) <==> a == b || Straddles(a, b) || Straddles(b, a)
  {
    hide SanitizedBase, Sanitize, FullBase, Clean, Mark;
    SharedUnitExact(digest, a, b);
    CleanName(a.namespace);
    CleanName(a.name);
    CleanName(b.namespace);
    CleanName(b.name);
  }

  /** Of bases that are not shortened, dash-free namespaces share a unit only with the same sanitized parts. */
  lemma DashFreeNeverShares(digest: string -> string, a: Key, b: Key)
    requires Fits(FullBase(a)) && Fits(FullBase(b))
    requires '-' !in Sanitize(a.namespace) && '-' !in Sanitize(b.namespace)
    requires SanitizedBase(digest, a) == SanitizedBase(digest, b)
    ensures Sanitize(a.namespace) == Sanitize(b.namespace) && Sanitize(a.name) == Sanitize(b.name)
    ensures PlainKey(a) && PlainKey(b) ==> a == b
  {
    hide SanitizedBase, Sanitize, FullBase, Clean, Mark, Fits;
    SharedUnitExact(digest, a, b);
    if PlainKey(a) && PlainKey(b) {
      CleanName(a.namespace);
      CleanName(a.name);
      CleanName(b.namespace);
      CleanName(b.name);
    }
  }

  /** A dash between clean parts can always be read as the separator: a rival for every such namespace. */
  lemma SanitizedBaseCollides(digest: string -> string, x: string, y: string, z: string)
    requires Clean(x) && Clean(y) && Clean(z)
    ensures SanitizedBase(digest, Key(x + "-" + y, z)) == SanitizedBase(digest, Key(x, y + "-" + z))
    ensures Key(x + "-" + y, z) != Key(x, y + "-" + z)
  {
    hide Sanitize;
    CleanName(x);
    CleanName(z);
    CleanName(x + "-" + y);
    CleanName(y + "-" + z);
    assert x + "-" + y + "-" + z == x + "-" + (y + "-" + z);
    assert |x + "-" + y| != |x|;
  }

  function UnitName(base: string): string {
    base + ".service"
  }

  /** A file of the unit directory or of the environment directory, by file name. */
  datatype Path = UnitFile(name: string) | EnvFile(name: string)

  function UnitPath(base: string): Path {
    UnitFile(UnitName(base))
  }

  function EnvPath(base: string): Path {
    EnvFile(base + ".env")
  }

  /** The files of distinct bases are distinct. */
  lemma PathsDisjoint(a: string, b: string)
    ensures a != b ==> UnitName(a) != UnitName(b) && UnitPath(a) != UnitPath(b) && EnvPath(a) != EnvPath(b)
    ensures UnitPath(a) != EnvPath(b)
  {
    if UnitName(a) == UnitName(b) {
      CancelSuffix(a, b, ".service");
    }
    if EnvPath(a) == EnvPath(b) {
      CancelSuffix(a, b, ".env");
    }
  }

  // ---------- the agent's keys ----------

  function ItemKey(key: Key): string {
    key.namespace + "/" + key.name
  }

  function IndexOfChar(s: string, c: char): (i: nat)
    ensures i <= |s|
    ensures i < |s| ==> s[i] == c
    ensures forall j :: 0 <= j < i ==> s[j] != c
  {
    if s == [] || s[0] == c then 0 else 1 + IndexOfChar(s[1..], c)
  }

  /** splitKey: the parts around the first slash, both non-empty. */
  function SplitKey(s: string): Option<Key> {
    var i := IndexOfChar(s, '/');
    if i == |s| || i == 0 || i == |s| - 1 then None else Some(Key(s[..i], s[i + 1..]))
  }

  /** Splitting undoes joining exactly for non-empty parts and a namespace without a slash. */
  lemma SplitItemKey(key: Key)
    ensures SplitKey(ItemKey(key)) == Some(key) <==> key.namespace != "" && key.name != "" && '/' !in key.namespace
  {
    var s := ItemKey(key);
    var i := IndexOfChar(s, '/');
    assert s[|key.namespace|] == '/';
    assert forall j :: 0 <= j < |key.namespace| ==> s[j] == key.namespace[j];
    assert s[..|key.namespace|] == key.namespace;
    assert s[|key.namespace| + 1..] == key.name;
    assert i == |key.namespace| <==> '/' !in key.namespace;
  }

  /** Joining undoes splitting, whenever the text splits. */
  lemma JoinSplitKey(s: string)
    requires SplitKey(s).Some?
    ensures ItemKey(SplitKey(s).value) == s
  {
  }

  lemma ItemKeyInjective(a: Key, b: Key)
    requires '/' !in a.namespace && '/' !in b.namespace
    requires ItemKey(a) == ItemKey(b)
    ensures a == b
  {
    SplitUnique(a.namespace, b.namespace, '/', a.name, b.name);
  }

  // ---------- the disk ----------

  type Disk = map<Path, string>

  /** Reading a file may fail, and so may replacing it. */
  datatype FileOutcome = FileOk | ReadError(msg: string) | WriteError(msg: string)

  predicate Differs(disk: Disk, path: Path, content: string) {
    path !in disk || disk[path] != content
  }

  /** The file operation fails: always when the read does, and when a needed write does. */
  predicate WriteFails(disk: Disk, path: Path, content: string, o: FileOutcome) {
    o.ReadError? || (o.WriteError? && Differs(disk, path, content))
  }

  /** A command or a directory creation: done, or failed with a message. */
  datatype Ran = RanOk | RanErr(msg: string)

  datatype FileAnswers = FileAnswers(unitFile: FileOutcome, envDir: Ran, envFile: FileOutcome)

  datatype Ensured = Ensured(disk: Disk, unitChanged: bool, envChanged: bool, error: Option<string>)

  /** EnsureUnitWithDetails: the unit file first; a later failure leaves it written. */
  function Ensure(disk: Disk, base: string, unit: string, env: string, a: FileAnswers): Ensured {
    if WriteFails(disk, UnitPath(base), unit, a.unitFile) then Ensured(disk, false, false, Some(a.unitFile.msg))
    else
      var disk' := disk[UnitPath(base) := unit];
      var unitChanged := Differs(disk, UnitPath(base), unit);
      if a.envDir.RanErr? then Ensured(disk', unitChanged, false, Some(a.envDir.msg))
      else if WriteFails(disk', EnvPath(base), env, a.envFile)
          then Ensured(disk', unitChanged, false, Some(a.envFile.msg))
      else Ensured(disk'[EnvPath(base) := env], unitChanged, Differs(disk, EnvPath(base), env), None)
  }

  /** Without an error both files hold their texts, no other file changed, and the flags say what changed. */
  lemma EnsureWrites(disk: Disk, base: string, unit: string, env: string, a: FileAnswers)
    ensures var r := Ensure(disk, base, unit, env, a);
            && r.disk - {UnitPath(base), EnvPath(base)} == disk - {UnitPath(base), EnvPath(base)}
            && disk.Keys <= r.disk.Keys
            && (r.error.None? ==>
                  && !Differs(r.disk, UnitPath(base), unit) && !Differs(r.disk, EnvPath(base), env)
                  && (!r.unitChanged && !r.envChanged <==> r.disk == disk)
                  && (r.unitChanged <==> Differs(disk, UnitPath(base), unit))
                  && (r.envChanged <==> Differs(disk, EnvPath(base), env)))
  {
    PathsDisjoint(base, base);
    var r := Ensure(disk, base, unit, env, a);
    if r.error.None? && !r.unitChanged && !r.envChanged {
      assert r.disk == disk;
    }
  }

  /** What RemoveUnitWithDetails leaves. */
  function Removed(disk: Disk, base: string, unitWorks: bool, envWorks: bool): Disk {
    if !unitWorks then disk
    else if !envWorks then disk - {UnitPath(base)}
    else disk - {UnitPath(base), EnvPath(base)}
  }

  class FileSystem {
    var files: Disk

    /** writeIfChanged: temp file and rename, so a failed write leaves the old content. */
    method WriteIfChanged(path: Path, content: string, o: FileOutcome) returns (changed: bool, failed: bool)
      modifies this
      ensures failed == WriteFails(old(files), path, content, o)
      ensures changed == (!failed && Differs(old(files), path, content))
      ensures files == if failed then old(files) else old(files)[path := content]
    {
      if o.ReadError? { return false, true; }
      if path in files && files[path] == content {
        assert files == files[path := content];
        return false, false;
      }
      if o.WriteError? { return false, true; }
      files := files[path := content];
      return true, false;
    }

    method EnsureUnit(base: string, unit: string, env: string, a: FileAnswers)
      returns (unitChanged: bool, envChanged: bool, error: Option<string>)
      modifies this
      ensures Ensured(files, unitChanged, envChanged, error) == Ensure(old(files), base, unit, env, a)
    {
      PathsDisjoint(base, base);
      var failed;
      unitChanged, envChanged, error := false, false, None;
      unitChanged, failed := WriteIfChanged(UnitPath(base), unit, a.unitFile);
      if failed { error := Some(a.unitFile.msg); return; }
      if a.envDir.RanErr? { error := Some(a.envDir.msg); return; }
      envChanged, failed := WriteIfChanged(EnvPath(base), env, a.envFile);
      if failed { error := Some(a.envFile.msg); return; }
    }

    /** removeIfExists; the removal works or fails. */
    method RemoveIfExists(path: Path, works: bool) returns (removed: bool)
      modifies this
      ensures removed == (works && path in old(files))
      ensures files == if works then old(files) - {path} else old(files)
    {
      if !works { return false; }
      removed := path in files;
      files := files - {path};
    }

    /** RemoveUnitWithDetails: the environment file is tried only after the unit file's removal worked. */
    method RemoveUnit(base: string, unitWorks: bool, envWorks: bool)
      returns (unitRemoved: bool, envRemoved: bool, failed: bool)
      modifies this
      ensures unitRemoved == (unitWorks && UnitPath(base) in old(files))
      ensures envRemoved == (unitWorks && envWorks && EnvPath(base) in old(files))
      ensures failed == !(unitWorks && envWorks)
      ensures files == Removed(old(files), base, unitWorks, envWorks)
    {
      unitRemoved, envRemoved := false, false;
      unitRemoved := RemoveIfExists(UnitPath(base), unitWorks);
      if !unitWorks { return unitRemoved, false, true; }
      PathsDisjoint(base, base);
      envRemoved := RemoveIfExists(EnvPath(base), envWorks);
      failed := !envWorks;
    }
  }
}
