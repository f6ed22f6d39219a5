/**
  The renderers of agent/main.go and agent/envfile.go: a systemd unit and an environment file
  from a process's execution. The agent restarts a unit when a rendered text differs from the
  file on disk, so the texts must differ exactly when the execution does.
 */
module Render {
  import opened Prelude
  import opened Text
  import opened ApiTypes
  import opened Sorting

  const BACKSLASH: char := '\\'
  const QUOTE: char := '"'

  predicate HasNewline(s: string) {
    '\n' in s || '\r' in s
  }

  // ---------- escaping ----------

  /** Two passes of ReplaceAll, backslashes first. */
  function Escape(s: string): string {
    ReplaceAll(ReplaceAll(s, BACKSLASH, [BACKSLASH, BACKSLASH]), QUOTE, [BACKSLASH, QUOTE])
  }

  predicate Special(c: char) {
    c == BACKSLASH || c == QUOTE
  }

  /** The one-pass reading: a backslash before every backslash and quote. */
  function EscapeChars(s: string): string {
    if s == [] then []
    else (if Special(s[0]) then [BACKSLASH, s[0]] else [s[0]]) + EscapeChars(s[1..])
  }

  lemma {:induction false} EscapeIsOnePass(s: string)
    ensures Escape(s) == EscapeChars(s)
  {
    if s != [] {
      var first := if s[0] == BACKSLASH then [BACKSLASH, BACKSLASH] else [s[0]];
      ReplaceAllConcat(first, ReplaceAll(s[1..], BACKSLASH, [BACKSLASH, BACKSLASH]), QUOTE, [BACKSLASH, QUOTE]);
      EscapeIsOnePass(s[1..]);
      var rep := [BACKSLASH, QUOTE];
      assert ReplaceAll([s[0]], QUOTE, rep) == (if s[0] == QUOTE then rep else [s[0]]) by {
        assert [s[0]][1..] == [];
      }
      if s[0] == BACKSLASH {
        assert first[1..] == [BACKSLASH] && first[1..][1..] == [];
        assert ReplaceAll(first, QUOTE, rep) == first;
      }
    }
  }

  /** How an escaped and closed text opens. */
  lemma EscapeOpens(a: string, x: string)
    ensures var l := EscapeChars(a) + [QUOTE] + x;
            if a == [] then l == [QUOTE] + x
            else
              var rest := EscapeChars(a[1..]) + [QUOTE] + x;
              l == (if Special(a[0]) then [BACKSLASH, a[0]] else [a[0]]) + rest
  {
  }

  /** A quoted text is uniquely decodable: its closing quote is the first one not escaped. */
  lemma {:induction false} QuotedUnique(a: string, b: string, x: string, y: string)
    requires EscapeChars(a) + [QUOTE] + x == EscapeChars(b) + [QUOTE] + y
    ensures a == b && x == y
    decreases |a| + |b|
  {
    hide EscapeChars;
    EscapeOpens(a, x);
    EscapeOpens(b, y);
    var l, r := EscapeChars(a) + [QUOTE] + x, EscapeChars(b) + [QUOTE] + y;
    assert l[0] == QUOTE <==> a == [];
    assert r[0] == QUOTE <==> b == [];
    if a == [] {
      CancelPrefix([QUOTE], x, y);
    } else {
      var restA, restB := EscapeChars(a[1..]) + [QUOTE] + x, EscapeChars(b[1..]) + [QUOTE] + y;
      assert Special(a[0]) <==> l[0] == BACKSLASH;
      assert Special(b[0]) <==> r[0] == BACKSLASH;
      assert a[0] == (if Special(a[0]) then l[1] else l[0]);
      assert b[0] == (if Special(b[0]) then r[1] else r[0]);
      CancelPrefix(if Special(a[0]) then [BACKSLASH, a[0]] else [a[0]], restA, restB);
      QuotedUnique(a[1..], b[1..], x, y);
      assert a == [a[0]] + a[1..] && b == [b[0]] + b[1..];
    }
  }

  lemma {:induction false} EscapeCharsKeepsLines(s: string, c: char)
    requires c != BACKSLASH && c !in s
    ensures c !in EscapeChars(s)
  {
    if s != [] {
      EscapeCharsKeepsLines(s[1..], c);
    }
  }

  // ---------- ExecStart ----------

  /** An argument that is written as it is. */
  predicate Plain(arg: string) {
    arg != "" && ' ' !in arg && QUOTE !in arg && BACKSLASH !in arg && '\t' !in arg
  }

  /** escapeSystemdArg, for an argument without line breaks. */
  function Token(arg: string): string {
    if arg == "" then [QUOTE, QUOTE]
    else if Plain(arg) then arg
    else [QUOTE] + Escape(arg) + [QUOTE]
  }

  lemma TokenQuoted(arg: string)
    requires !Plain(arg)
    ensures Token(arg) == [QUOTE] + EscapeChars(arg) + [QUOTE]
  {
    EscapeIsOnePass(arg);
  }

  /** What may follow a token: nothing, or a space. */
  predicate Follows(x: string) {
    x == [] || x[0] == ' '
  }

  lemma PlainTokenUnique(a: string, b: string, x: string, y: string)
    requires Plain(a) && Plain(b) && Follows(x) && Follows(y)
    requires a + x == b + y
    ensures a == b && x == y
  {
    var l, r := a + x, b + y;
    assert forall i :: 0 <= i < |a| ==> l[i] == a[i] && l[i] != ' ';
    assert forall i :: 0 <= i < |b| ==> r[i] == b[i] && r[i] != ' ';
    assert x != [] ==> l[|a|] == ' ';
    assert y != [] ==> r[|b|] == ' ';
    assert |l| == |a| + |x| && |r| == |b| + |y|;
    assert |a| == |b|;
    assert a == l[..|a|] == r[..|b|] == b;
    CancelPrefix(a, x, y);
  }

  lemma QuotedTokenUnique(a: string, b: string, x: string, y: string)
    requires !Plain(a) && !Plain(b) && Token(a) + x == Token(b) + y
    ensures a == b && x == y
  {
    TokenQuoted(a);
    TokenQuoted(b);
    var l, r := EscapeChars(a) + [QUOTE] + x, EscapeChars(b) + [QUOTE] + y;
    assert [QUOTE] + EscapeChars(a) + [QUOTE] + x == [QUOTE] + l;
    assert [QUOTE] + EscapeChars(b) + [QUOTE] + y == [QUOTE] + r;
    CancelPrefix([QUOTE], l, r);
    QuotedUnique(a, b, x, y);
  }

  lemma TokenUnique(a: string, b: string, x: string, y: string)
    requires Follows(x) && Follows(y)
    requires Token(a) + x == Token(b) + y
    ensures a == b && x == y
  {
    assert (Token(a) + x)[0] == Token(a)[0] && (Token(b) + y)[0] == Token(b)[0];
    if Plain(a) {
      PlainTokenUnique(a, b, x, y);
    } else {
      QuotedTokenUnique(a, b, x, y);
    }
  }

  function Tokens(args: seq<string>): seq<string> {
    seq(|args|, i requires 0 <= i < |args| => Token(args[i]))
  }

  /** The ExecStart value. */
  function ExecLine(args: seq<string>): string {
    Join(Tokens(args), " ")
  }

  function Rest(args: seq<string>): string {
    if args == [] then "" else " " + ExecLine(args)
  }

  lemma ExecLineStep(args: seq<string>)
    requires args != []
    ensures ExecLine(args) == Token(args[0]) + Rest(args[1..])
  {
    assert Tokens(args)[1..] == Tokens(args[1..]);
    if |args| == 1 {
      assert Token(args[0]) + "" == Token(args[0]);
    } else {
      assert Token(args[0]) + " " + ExecLine(args[1..]) == Token(args[0]) + (" " + ExecLine(args[1..]));
    }
  }

  /** The command line is uniquely decodable. */
  lemma {:induction false} ExecLineUnique(a: seq<string>, b: seq<string>)
    requires a != [] && b != [] && ExecLine(a) == ExecLine(b)
    ensures a == b
    decreases |a|
  {
    ExecLineStep(a);
    ExecLineStep(b);
    TokenUnique(a[0], b[0], Rest(a[1..]), Rest(b[1..]));
    if a[1..] != [] && b[1..] != [] {
      CancelPrefix(" ", ExecLine(a[1..]), ExecLine(b[1..]));
      ExecLineUnique(a[1..], b[1..]);
    }
    assert a == [a[0]] + a[1..] && b == [b[0]] + b[1..];
  }

  lemma {:induction false} ExecLineOneLine(args: seq<string>)
    requires forall i :: 0 <= i < |args| ==> '\n' !in args[i]
    ensures '\n' !in ExecLine(args)
    decreases |args|
  {
    if args != [] {
      ExecLineStep(args);
      EscapeIsOnePass(args[0]);
      EscapeCharsKeepsLines(args[0], '\n');
      ExecLineOneLine(args[1..]);
    }
  }

  /** renderExecStart: no line when an argument holds a line break. */
  method RenderExecStart(cmd: seq<string>, args: seq<string>) returns (r: Option<string>)
    ensures r == if exists i :: 0 <= i < |cmd + args| && HasNewline((cmd + args)[i]) then None
        else Some(ExecLine(cmd + args))
  {
    var parts := cmd + args;
    var escaped: seq<string> := [];
    var i := 0;
    while i < |parts|
      invariant 0 <= i <= |parts|
      invariant escaped == Tokens(parts[..i])
      invariant forall j :: 0 <= j < i ==> !HasNewline(parts[j])
    {
      if HasNewline(parts[i]) { return None; }
      escaped := escaped + [Token(parts[i])];
      assert parts[..i + 1][..i] == parts[..i];
      i := i + 1;
    }
    assert parts[..i] == parts;
    return Some(Join(escaped, " "));
  }

  // ---------- the environment file ----------

  function EnvKey(v: EnvVar): Sorting.Key {
    (v.name, "")
  }

  predicate Letter(c: char) {
    'A' <= c <= 'Z' || 'a' <= c <= 'z' || c == '_'
  }

  /** envKeyPattern. */
  predicate EnvName(s: string) {
    s != "" && Letter(s[0]) && forall i :: 0 <= i < |s| ==> Letter(s[i]) || '0' <= s[i] <= '9'
  }

  predicate EnvOk(v: EnvVar) {
    EnvName(Trim(v.name)) && !HasNewline(v.value)
  }

  function EnvLine(v: EnvVar): string {
    Trim(v.name) + "=\"" + Escape(v.value) + "\"\n"
  }

  function EnvLines(vs: seq<EnvVar>): string {
    if vs == [] then "" else EnvLine(vs[0]) + EnvLines(vs[1..])
  }

  predicate AllEnvOk(vs: seq<EnvVar>) {
    forall i :: 0 <= i < |vs| ==> EnvOk(vs[i])
  }

  /** The environment file's text: the variables' lines in the order of their names. */
  function EnvText(vs: seq<EnvVar>): string {
    EnvLines(Sort(vs, EnvKey))
  }

  lemma {:induction false} EnvLinesAppend(vs: seq<EnvVar>, v: EnvVar)
    ensures EnvLines(vs + [v]) == EnvLines(vs) + EnvLine(v)
  {
    if vs == [] {
      assert [v][1..] == [];
      assert EnvLine(v) + "" == EnvLine(v) == "" + EnvLine(v);
    } else {
      assert (vs + [v])[1..] == vs[1..] + [v];
      EnvLinesAppend(vs[1..], v);
    }
  }

  /** RenderEnvFile: copy, sort, then print line by line, stopping at the first invalid variable. */
  method RenderEnvFile(vars: seq<EnvVar>) returns (r: Option<string>)
    ensures r == if AllEnvOk(vars) then Some(EnvText(vars)) else None
  {
    hide Sort, Escape, Trim, EnvName, HasNewline;
    var order := SortInPlace(vars, EnvKey);
    SameElements(order, vars);
    var b := "";
    var i := 0;
    while i < |order|
      invariant 0 <= i <= |order|
      invariant b == EnvLines(order[..i])
      invariant AllEnvOk(order[..i])
    {
      var v := order[i];
      var key := Trim(v.name);
      if !EnvName(key) || HasNewline(v.value) {
        assert order[i] in vars;
        return None;
      }
      b := b + (key + "=\"" + Escape(v.value) + "\"\n");
      EnvLinesAppend(order[..i], v);
      assert order[..i + 1] == order[..i] + [v];
      i := i + 1;
    }
    assert order[..i] == order;
    forall j | 0 <= j < |vars|
      ensures EnvOk(vars[j])
    {
      assert vars[j] in order;
    }
    return Some(b);
  }

  lemma SameElements<T(!new)>(a: seq<T>, b: seq<T>)
    requires multiset(a) == multiset(b)
    ensures forall x :: x in a <==> x in b
  {
    assert forall x :: x in a <==> x in multiset(a);
    assert forall x :: x in b <==> x in multiset(b);
  }

  lemma EnvLineUnique(v: EnvVar, w: EnvVar, x: string, y: string)
    requires EnvOk(v) && EnvOk(w)
    requires EnvLine(v) + x == EnvLine(w) + y
    ensures Trim(v.name) == Trim(w.name) && v.value == w.value && x == y
  {
    EscapeIsOnePass(v.value);
    EscapeIsOnePass(w.value);
    var l := [QUOTE] + (EscapeChars(v.value) + [QUOTE] + ("\n" + x));
    var r := [QUOTE] + (EscapeChars(w.value) + [QUOTE] + ("\n" + y));
    assert EnvLine(v) + x == Trim(v.name) + ['='] + l;
    assert EnvLine(w) + y == Trim(w.name) + ['='] + r;
    SplitUnique(Trim(v.name), Trim(w.name), '=', l, r);
    CancelPrefix([QUOTE], EscapeChars(v.value) + [QUOTE] + ("\n" + x), EscapeChars(w.value) + [QUOTE] + ("\n" + y));
    QuotedUnique(v.value, w.value, "\n" + x, "\n" + y);
    CancelPrefix("\n", x, y);
  }

  ghost predicate TrimmedNames(vs: seq<EnvVar>) {
    forall i :: 0 <= i < |vs| ==> Trim(vs[i].name) == vs[i].name
  }

  /** The environment text is uniquely decodable. */
  lemma {:induction false} EnvLinesUnique(a: seq<EnvVar>, b: seq<EnvVar>)
    requires AllEnvOk(a) && AllEnvOk(b) && TrimmedNames(a) && TrimmedNames(b)
    requires EnvLines(a) == EnvLines(b)
    ensures a == b
    decreases |a|
  {
    if a != [] {
      EnvLineUnique(a[0], b[0], EnvLines(a[1..]), EnvLines(b[1..]));
      EnvLinesUnique(a[1..], b[1..]);
      assert a == [a[0]] + a[1..] && b == [b[0]] + b[1..];
    }
  }

  /** Distinct, already trimmed names: what makes an environment a set of variables. */
  ghost predicate EnvSet(vs: seq<EnvVar>) {
    DistinctKeys(vs, EnvKey) && TrimmedNames(vs)
  }

  lemma SetIsMultiset(a: seq<EnvVar>, b: seq<EnvVar>)
    requires DistinctKeys(a, EnvKey) && DistinctKeys(b, EnvKey)
    requires forall x :: x in a <==> x in b
    ensures multiset(a) == multiset(b)
  {
    forall x: EnvVar
      ensures multiset(a)[x] == multiset(b)[x]
    {
      AtMostOnce(a, x, EnvKey);
      AtMostOnce(b, x, EnvKey);
      assert x in a <==> x in multiset(a);
      assert x in b <==> x in multiset(b);
    }
  }

  /** Two environments render to the same text exactly when they are the same set of variables, in any order. */
  lemma EnvTextExact(a: seq<EnvVar>, b: seq<EnvVar>)
    requires AllEnvOk(a) && AllEnvOk(b) && EnvSet(a) && EnvSet(b)
    ensures EnvText(a) == EnvText(b) <==> (forall x :: x in a <==> x in b)
  {
    SortFacts(a, EnvKey);
    SortFacts(b, EnvKey);
    SameElements(a, Sort(a, EnvKey));
    SameElements(b, Sort(b, EnvKey));
    if EnvText(a) == EnvText(b) {
      SortedStillFine(a);
      SortedStillFine(b);
      EnvLinesUnique(Sort(a, EnvKey), Sort(b, EnvKey));
    }
    if forall x :: x in a <==> x in b {
      SetIsMultiset(a, b);
      SortForgetsOrder(a, b, EnvKey);
    }
  }

  lemma SortedStillFine(a: seq<EnvVar>)
    requires AllEnvOk(a) && TrimmedNames(a)
    ensures AllEnvOk(Sort(a, EnvKey)) && TrimmedNames(Sort(a, EnvKey))
  {
    var s := Sort(a, EnvKey);
    SortFacts(a, EnvKey);
    SameElements(a, s);
    forall i | 0 <= i < |s|
      ensures EnvOk(s[i]) && Trim(s[i].name) == s[i].name
    {
      assert s[i] in a;
    }
  }

  // ---------- the unit file ----------

  function RestartMode(p: RestartPolicy): string {
    match p
    case Never => "no"
    case OnFailure => "on-failure"
    case _ => "always"
  }

  /** ValidateUnitField: no control characters, so in particular no line breaks. */
  predicate UnitField(s: string) {
    forall i :: 0 <= i < |s| ==> s[i] >= ' '
  }

  /** A directive that is left out when its value is blank. */
  function Line(directive: string, value: string): string {
    if value == "" then "" else directive + value + "\n"
  }

  /** The unit text around its variable parts. */
  function UnitBody(head: string, exec: string, dirKey: string, dir: string, env: string, mode: string,
                    userKey: string, user: string, foot: string): string
  {
    head + (exec + ['\n'] + (Line(dirKey, dir) + (env + (mode + ['\n'] + (Line(userKey, user) + foot)))))
  }

  function Head(ns: string, name: string): string {
    "[Unit]" + "\n" + ("Description=Apollo DeviceProcess " + ns + "/" + name + "\n") + ("After=network.target" + "\n")
    + ("" + "\n") + ("[Service]" + "\n") + ("Type=simple" + "\n") + "ExecStart="
  }

  const DIR_KEY: string := "WorkingDirectory="
  const USER_KEY: string := "User="
  const FOOT: string := "" + "\n" + ("[Install]" + "\n" + ("WantedBy=multi-user.target" + "\n" + ""))

  function EnvDirective(envPath: string): string {
    "EnvironmentFile=-" + envPath + "\n" + "Restart="
  }

  function UnitText(ns: string, name: string, envPath: string, e: Execution, p: RestartPolicy): string {
    UnitBody(Head(ns, name), ExecLine(e.command + e.args), DIR_KEY, Trim(e.workingDir), EnvDirective(envPath),
             RestartMode(p), USER_KEY, Trim(e.user), FOOT)
  }

  predicate Renderable(e: Execution) {
    && e.command != []
    && (forall i :: 0 <= i < |e.command + e.args| ==> !HasNewline((e.command + e.args)[i]))
    && UnitField(e.workingDir) && UnitField(e.user)
    && AllEnvOk(e.env)
  }

  /** The two texts of renderUnitFiles. */
  datatype Files = Files(unit: string, env: string)

  function FilesOf(ns: string, name: string, envPath: string, e: Execution, p: RestartPolicy): Files {
    Files(UnitText(ns, name, envPath, e, p), EnvText(e.env))
  }

  method ValidateUnitField(value: string) returns (ok: bool)
    ensures ok == UnitField(value)
  {
    var i := 0;
    while i < |value|
      invariant 0 <= i <= |value|
      invariant forall j :: 0 <= j < i ==> value[j] >= ' '
    {
      if value[i] < ' ' { return false; }
      i := i + 1;
    }
    return true;
  }

  /** renderUnitFiles: both texts, or none when any part of the execution is invalid. */
  method RenderUnitFiles(ns: string, name: string, envPath: string, e: Execution, p: RestartPolicy)
    returns (r: Option<Files>)
    ensures r == if Renderable(e) then Some(FilesOf(ns, name, envPath, e, p)) else None
  {
    if |e.command| == 0 { return None; }
    var execStart := RenderExecStart(e.command, e.args);
    if execStart.None? { return None; }
    var dirOk := ValidateUnitField(e.workingDir);
    if !dirOk { return None; }
    var userOk := ValidateUnitField(e.user);
    if !userOk { return None; }
    var env := RenderEnvFile(e.env);
    if env.None? { return None; }
    var unit := BuildUnit(ns, name, envPath, execStart.value, Trim(e.workingDir), RestartMode(p), Trim(e.user));
    return Some(Files(unit, env.value));
  }

  method BuildUnit(ns: string, name: string, envPath: string, exec: string, dir: string, mode: string, user: string)
    returns (unit: string)
    ensures unit == UnitBody(Head(ns, name), exec, DIR_KEY, dir, EnvDirective(envPath), mode, USER_KEY, user, FOOT)
  {
    unit := Assemble(Head(ns, name), exec, DIR_KEY, dir, EnvDirective(envPath), mode, USER_KEY, user, FOOT);
  }

  /** The string builder of renderUnitFiles, directive by directive. */
  method Assemble(head: string, exec: string, dirKey: string, dir: string, env: string, mode: string,
                  userKey: string, user: string, foot: string) returns (unit: string)
    ensures unit == UnitBody(head, exec, dirKey, dir, env, mode, userKey, user, foot)
  {
    unit := head;
    unit := unit + exec + "\n";
    if dir != "" { unit := unit + (dirKey + dir + "\n"); }
    unit := unit + env + mode + "\n";
    if user != "" { unit := unit + (userKey + user + "\n"); }
    unit := unit + foot;
    Reassociate(head, exec, Line(dirKey, dir), env, mode, Line(userKey, user), foot);
  }

  lemma Reassociate(h: string, e: string, d: string, v: string, m: string, u: string, f: string)
    ensures h + e + "\n" + d + (v + m + "\n") + u + f == h + (e + ['\n'] + (d + (v + (m + ['\n'] + (u + f)))))
    ensures h + e + "\n" + d + v + m + "\n" + u + f == h + (e + ['\n'] + (d + (v + (m + ['\n'] + (u + f)))))
  {
  }

  lemma LineUnique(directive: string, v: string, w: string, x: string, y: string)
    requires directive != "" && x != "" && y != "" && x[0] != directive[0] && y[0] != directive[0]
    requires '\n' !in v && '\n' !in w
    requires Line(directive, v) + x == Line(directive, w) + y
    ensures v == w && x == y
  {
    var l, r := Line(directive, v) + x, Line(directive, w) + y;
    assert l[0] == directive[0] <==> v != "";
    assert r[0] == directive[0] <==> w != "";
    if v != "" {
      assert l == directive + (v + ['\n'] + x);
      assert r == directive + (w + ['\n'] + y);
      CancelPrefix(directive, v + ['\n'] + x, w + ['\n'] + y);
      SplitUnique(v, w, '\n', x, y);
    } else {
      assert l == x && r == y;
    }
  }

  /** A unit text determines each of its variable parts, as long as they are single lines. */
  lemma UnitBodyUnique(head: string, dirKey: string, env: string, userKey: string, foot: string,
                       e1: string, d1: string, m1: string, u1: string, e2: string, d2: string, m2: string, u2: string)
    requires dirKey != "" && env != "" && env[0] != dirKey[0]
    requires userKey != "" && foot != "" && foot[0] != userKey[0]
    requires '\n' !in e1 && '\n' !in e2 && '\n' !in d1 && '\n' !in d2
    requires '\n' !in m1 && '\n' !in m2 && '\n' !in u1 && '\n' !in u2
    requires UnitBody(head, e1, dirKey, d1, env, m1, userKey, u1, foot)
        == UnitBody(head, e2, dirKey, d2, env, m2, userKey, u2, foot)
    ensures e1 == e2 && d1 == d2 && m1 == m2 && u1 == u2
  {
    var t1, t2 := Line(userKey, u1) + foot, Line(userKey, u2) + foot;
    var r1, r2 := m1 + ['\n'] + t1, m2 + ['\n'] + t2;
    var s1, s2 := Line(dirKey, d1) + (env + r1), Line(dirKey, d2) + (env + r2);
    CancelPrefix(head, e1 + ['\n'] + s1, e2 + ['\n'] + s2);
    SplitUnique(e1, e2, '\n', s1, s2);
    assert (env + r1)[0] == env[0] && (env + r2)[0] == env[0];
    LineUnique(dirKey, d1, d2, env + r1, env + r2);
    CancelPrefix(env, r1, r2);
    SplitUnique(m1, m2, '\n', t1, t2);
    LineUnique(userKey, u1, u2, foot, foot);
  }

  // ---------- main result ----------

  /** What an execution means to systemd. */
  datatype Meaning = Meaning(argv: seq<string>, dir: string, user: string, mode: string, env: set<EnvVar>)

  function MeaningOf(e: Execution, p: RestartPolicy): Meaning {
    Meaning(e.command + e.args, Trim(e.workingDir), Trim(e.user), RestartMode(p), set v | v in e.env)
  }

  lemma SingleLines(e: Execution, p: RestartPolicy)
    requires Renderable(e)
    ensures '\n' !in ExecLine(e.command + e.args)
    ensures '\n' !in Trim(e.workingDir) && '\n' !in Trim(e.user) && '\n' !in RestartMode(p)
  {
    ExecLineOneLine(e.command + e.args);
    TrimShape(e.workingDir);
    TrimShape(e.user);
  }

  lemma UnitTextUnique(ns: string, name: string, envPath: string, a: Execution, pa: RestartPolicy, b: Execution,
                       pb: RestartPolicy)
    requires Renderable(a) && Renderable(b)
    requires UnitText(ns, name, envPath, a, pa) == UnitText(ns, name, envPath, b, pb)
    ensures a.command + a.args == b.command + b.args
    ensures Trim(a.workingDir) == Trim(b.workingDir) && Trim(a.user) == Trim(b.user)
    ensures RestartMode(pa) == RestartMode(pb)
  {
    SingleLines(a, pa);
    SingleLines(b, pb);
    UnitBodyUnique(Head(ns, name), DIR_KEY, EnvDirective(envPath), USER_KEY, FOOT,
                   ExecLine(a.command + a.args), Trim(a.workingDir), RestartMode(pa), Trim(a.user),
                   ExecLine(b.command + b.args), Trim(b.workingDir), RestartMode(pb), Trim(b.user));
    ExecLineUnique(a.command + a.args, b.command + b.args);
  }

  lemma RenderableEnv(e: Execution)
    requires Renderable(e)
    ensures AllEnvOk(e.env)
  {
  }

  lemma SameMeaningSameUnit(ns: string, name: string, envPath: string, a: Execution, pa: RestartPolicy, b: Execution,
                            pb: RestartPolicy)
    requires a.command + a.args == b.command + b.args && RestartMode(pa) == RestartMode(pb)
    requires Trim(a.workingDir) == Trim(b.workingDir) && Trim(a.user) == Trim(b.user)
    ensures UnitText(ns, name, envPath, a, pa) == UnitText(ns, name, envPath, b, pb)
  {
  }

  /**
    For one process name, two renderable executions give the same unit and environment texts
    exactly when they mean the same: the same argument vector, trimmed working directory,
    trimmed user, restart mode and set of environment variables.
   */
  lemma RenderExact(ns: string, name: string, envPath: string, a: Execution, pa: RestartPolicy, b: Execution,
                    pb: RestartPolicy)
    requires Renderable(a) && Renderable(b) && EnvSet(a.env) && EnvSet(b.env)
    ensures FilesOf(ns, name, envPath, a, pa) == FilesOf(ns, name, envPath, b, pb) <==>
        MeaningOf(a, pa) == MeaningOf(b, pb)
  {
    hide UnitText, EnvText, Renderable, EnvSet, Trim, RestartMode, AllEnvOk;
    RenderableEnv(a);
    RenderableEnv(b);
    EnvTextExact(a.env, b.env);
    if MeaningOf(a, pa) == MeaningOf(b, pb) {
      SameMeaningSameUnit(ns, name, envPath, a, pa, b, pb);
    }
    var sa, sb := set v | v in a.env, set v | v in b.env;
    assert sa == sb <==> (forall x :: x in a.env <==> x in b.env) by {
      assert forall x :: x in sa <==> x in a.env;
      assert forall x :: x in sb <==> x in b.env;
    }
    if FilesOf(ns, name, envPath, a, pa) == FilesOf(ns, name, envPath, b, pb) {
      UnitTextUnique(ns, name, envPath, a, pa, b, pb);
    }
  }
}
