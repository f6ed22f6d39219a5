/**
  The rendered files, read back: a reader of unit directives, of the argument vector of a command
  line and of environment files, and that it finds in the rendered texts what the process asked for
  (agent/main.go, agent/envfile.go). The reader knows nothing of the renderer.
 */
module ReadBack {
  import opened Prelude
  import opened Text
  import opened ApiTypes
  import opened Units
  import opened Render
  import Sorting

  // ---------- directives ----------

  function FirstLine(text: string): string {
    text[..IndexOfChar(text, '\n')]
  }

  function NextLines(text: string): (rest: string)
    ensures text != "" ==> |rest| < |text|
  {
    var i := IndexOfChar(text, '\n');
    if i < |text| then text[i + 1..] else ""
  }

  /** The value of the first line that begins with the key. */
  function Directive(text: string, key: string): Option<string>
    decreases |text|
  {
    if text == "" then None
    else if key <= FirstLine(text) then Some(FirstLine(text)[|key|..])
    else Directive(NextLines(text), key)
  }

  predicate OneLine(s: string) {
    '\n' !in s
  }

  lemma SplitLine(line: string, rest: string)
    requires OneLine(line)
    ensures var text := line + "\n" + rest; FirstLine(text) == line && NextLines(text) == rest && text != ""
  {
    var text := line + "\n" + rest;
    assert text[|line|] == '\n';
    assert forall j :: 0 <= j < |line| ==> text[j] == line[j];
    assert IndexOfChar(text, '\n') == |line|;
  }

  /** A line that does not begin with the key is passed over. */
  lemma PassOver(line: string, rest: string, key: string)
    requires OneLine(line) && !(key <= line)
    ensures Directive(line + "\n" + rest, key) == Directive(rest, key)
  {
    SplitLine(line, rest);
  }

  /** A line that does is read. */
  lemma Hit(key: string, value: string, rest: string)
    requires OneLine(key) && OneLine(value)
    ensures Directive(key + value + "\n" + rest, key) == Some(value)
  {
    SplitLine(key + value, rest);
  }

  /** A directive that may be left out, in front of a text that does not have it. */
  lemma Optional(key: string, value: string, rest: string)
    requires OneLine(key) && OneLine(value) && Directive(rest, key) == None
    ensures Directive(Line(key, value) + rest, key) == if value == "" then None else Some(value)
  {
    if value == "" {
      assert Line(key, value) + rest == rest;
    } else {
      assert Line(key, value) + rest == key + value + "\n" + rest;
      Hit(key, value, rest);
    }
  }

  lemma PassOptional(key: string, value: string, rest: string, other: string)
    requires OneLine(key) && OneLine(value) && !(other <= key + value)
    ensures Directive(Line(key, value) + rest, other) == Directive(rest, other)
  {
    if value == "" {
      assert Line(key, value) + rest == rest;
    } else {
      assert Line(key, value) + rest == key + value + "\n" + rest;
      PassOver(key + value, rest, other);
    }
  }

  // ---------- the unit file ----------

  /** Six lines that do not begin with the key are passed over. */
  lemma PassSix(l1: string, l2: string, l3: string, l4: string, l5: string, l6: string, rest: string, key: string)
    requires OneLine(l1) && OneLine(l2) && OneLine(l3) && OneLine(l4) && OneLine(l5) && OneLine(l6)
    requires !(key <= l1) && !(key <= l2) && !(key <= l3) && !(key <= l4) && !(key <= l5) && !(key <= l6)
    ensures Directive(l1 + "\n" + (l2 + "\n" + (l3 + "\n" + (l4 + "\n" + (l5 + "\n" + (l6 + "\n" + rest))))), key)
         == Directive(rest, key)
  {
    hide Directive, OneLine;
    PassOver(l6, rest, key);
    PassOver(l5, l6 + "\n" + rest, key);
    PassOver(l4, l5 + "\n" + (l6 + "\n" + rest), key);
    PassOver(l3, l4 + "\n" + (l5 + "\n" + (l6 + "\n" + rest)), key);
    PassOver(l2, l3 + "\n" + (l4 + "\n" + (l5 + "\n" + (l6 + "\n" + rest))), key);
    PassOver(l1, l2 + "\n" + (l3 + "\n" + (l4 + "\n" + (l5 + "\n" + (l6 + "\n" + rest)))), key);
  }

  lemma DifferAt(key: string, line: string, i: nat)
    requires i < |key| && i < |line| && key[i] != line[i]
    ensures !(key <= line)
  {
  }

  /** The part of the unit file after its ExecStart line. */
  function Rest(dir: string, envPath: string, mode: string, user: string): string {
    Line("WorkingDirectory=", dir)
    + (("EnvironmentFile=-" + envPath) + "\n" + (("Restart=" + mode) + "\n" + (Line("User=", user) + Foot())))
  }

  function Foot(): string {
    "" + "\n" + ("[Install]" + "\n" + ("WantedBy=multi-user.target" + "\n" + ""))
  }

  function Description(ns: string, name: string): string {
    "Description=Apollo DeviceProcess " + ns + "/" + name
  }

  /** The whole unit file, line by line. */
  function Lines(ns: string, name: string, exec: string, rest: string): string {
    "[Unit]" + "\n" + (Description(ns, name) + "\n" + ("After=network.target" + "\n" + ("" + "\n" + ("[Service]" + "\n"
      + ("Type=simple" + "\n" + (("ExecStart=" + exec) + "\n" + rest))))))
  }

  lemma UnitIsLines(ns: string, name: string, envPath: string, e: Execution, p: RestartPolicy)
    ensures UnitText(ns, name, envPath, e, p)
         == Lines(ns, name, ExecLine(e.command + e.args),
             Rest(Trim(e.workingDir), envPath, RestartMode(p), Trim(e.user)))
  {
    hide ExecLine, Trim, RestartMode, Line;
  }

  /** No line before ExecStart begins with the key. */
  lemma PassHead(ns: string, name: string, exec: string, rest: string, key: string)
    requires OneLine(ns) && OneLine(name) && key != "" && key[0] !in {'[', 'D', 'A', 'T'}
    ensures Directive(Lines(ns, name, exec, rest), key) == Directive(("ExecStart=" + exec) + "\n" + rest, key)
  {
    hide Directive;
    assert OneLine(Description(ns, name));
    assert Description(ns, name)[0] == 'D' && "[Unit]"[0] == '[' && "After=network.target"[0] == 'A';
    assert "[Service]"[0] == '[' && "Type=simple"[0] == 'T';
    PassSix("[Unit]", Description(ns, name), "After=network.target", "", "[Service]", "Type=simple",
            ("ExecStart=" + exec) + "\n" + rest, key);
  }

  lemma FootHasNo(key: string)
    requires |key| > 1 && key[0] != '[' && (key[0] != 'W' || key[1] != 'a')
    ensures Directive(Foot(), key) == None
  {
    hide Directive;
    var l3 := "WantedBy=multi-user.target";
    assert "[Install]"[0] == '[' && l3[0] == 'W' && l3[1] == 'a';
    assert !(key <= l3) by {
      if key[0] != 'W' { DifferAt(key, l3, 0); } else { DifferAt(key, l3, 1); }
    }
    PassOver("", "[Install]" + "\n" + (l3 + "\n" + ""), key);
    PassOver("[Install]", l3 + "\n" + "", key);
    PassOver(l3, "", key);
    assert Directive("", key) == None by { NothingThere(key); }
  }

  lemma NothingThere(key: string)
    ensures Directive("", key) == None
  {
  }

  lemma ReadExec(exec: string, rest: string)
    requires OneLine(exec)
    ensures Directive(("ExecStart=" + exec) + "\n" + rest, "ExecStart=") == Some(exec)
  {
    Hit("ExecStart=", exec, rest);
  }

  /** What follows ExecStart, directive by directive. */
  lemma ReadRest(dir: string, envPath: string, mode: string, user: string)
    requires OneLine(dir) && OneLine(envPath) && OneLine(mode) && OneLine(user)
    ensures var rest := Rest(dir, envPath, mode, user);
            && Directive(rest, "WorkingDirectory=") == (if dir == "" then None else Some(dir))
            && Directive(rest, "EnvironmentFile=-") == Some(envPath)
            && Directive(rest, "Restart=") == Some(mode)
            && Directive(rest, "User=") == if user == "" then None else Some(user)
  {
    hide Directive, Line, Foot;
    var w, v, r, u := "WorkingDirectory=", "EnvironmentFile=-", "Restart=", "User=";
    var env, restart := v + envPath, r + mode;
    assert w[0] == 'W' && w[1] == 'o' && v[0] == 'E' && r[0] == 'R' && u[0] == 'U' && env[0] == 'E'
        && restart[0] == 'R';
    assert (w + dir)[0] == 'W' && (u + user)[0] == 'U';
    var last := Line(u, user) + Foot();
    var third := restart + "\n" + last;
    FootHasNo(w);
    FootHasNo(u);
    PassOptional(u, user, Foot(), w);
    PassOver(restart, last, w);
    PassOver(env, third, w);
    Optional(w, dir, env + "\n" + third);
    PassOptional(w, dir, env + "\n" + third, v);
    Hit(v, envPath, third);
    PassOptional(w, dir, env + "\n" + third, r);
    PassOver(env, third, r);
    Hit(r, mode, last);
    PassOptional(w, dir, env + "\n" + third, u);
    PassOver(env, third, u);
    PassOver(restart, last, u);
    Optional(u, user, Foot());
  }

  // ---------- the argument vector ----------

  /** The text up to the closing quote, with escapes undone, and what follows the quote. */
  function ReadQuoted(s: string): (r: Option<(string, string)>)
    ensures r.Some? ==> |r.value.1| < |s|
  {
    if s == "" then None
    else if s[0] == '"' then Some(("", s[1..]))
    else if s[0] == '\\' && |s| == 1 then None
    else
      var n := if s[0] == '\\' then 2 else 1;
      var r := ReadQuoted(s[n..]);
      if r.None? then None else Some(([s[n - 1]] + r.value.0, r.value.1))
  }

  /** One argument, quoted or not, and what follows it. */
  function ReadToken(s: string): (r: Option<(string, string)>)
    ensures r.Some? ==> |r.value.1| <= |s|
  {
    if s != "" && s[0] == '"' then ReadQuoted(s[1..])
    else
      var i := IndexOfChar(s, ' ');
      if i == 0 then None else Some((s[..i], s[i..]))
  }

  /** The arguments of a command line, separated by single spaces. */
  function ReadArgs(s: string): Option<seq<string>>
    decreases |s|
  {
    var t := ReadToken(s);
    if t.None? then None
    else if t.value.1 == "" then Some([t.value.0])
    else if t.value.1[0] != ' ' then None
    else
      var more := ReadArgs(t.value.1[1..]);
      if more.None? then None else Some([t.value.0] + more.value)
  }

  lemma {:induction false} QuotedReadsBack(a: string, x: string)
    ensures ReadQuoted(EscapeChars(a) + ['"'] + x) == Some((a, x))
  {
    EscapeOpens(a, x);
    var l := EscapeChars(a) + ['"'] + x;
    if a == [] {
      assert l[1..] == x;
    } else {
      QuotedReadsBack(a[1..], x);
      var rest := EscapeChars(a[1..]) + ['"'] + x;
      var n := if Special(a[0]) then 2 else 1;
      assert l[n..] == rest && l[n - 1] == a[0];
      assert [a[0]] + a[1..] == a;
    }
  }

  lemma WordReadsBack(arg: string, x: string)
    requires Plain(arg) && Follows(x)
    ensures ReadToken(arg + x) == Some((arg, x))
  {
    hide ReadQuoted;
    var s := arg + x;
    assert s[0] == arg[0] && arg[0] in arg;
    assert forall j :: 0 <= j < |arg| ==> s[j] == arg[j] && arg[j] != ' ';
    assert x != "" ==> s[|arg|] == ' ';
    assert IndexOfChar(s, ' ') == |arg|;
    assert s[..|arg|] == arg && s[|arg|..] == x;
  }

  lemma TokenReadsBack(arg: string, x: string)
    requires Follows(x)
    ensures ReadToken(Token(arg) + x) == Some((arg, x))
  {
    hide ReadQuoted, EscapeChars;
    if Plain(arg) {
      WordReadsBack(arg, x);
    } else {
      TokenQuoted(arg);
      hide Token, Plain;
      var s := Token(arg) + x;
      assert s[0] == '"' && s[1..] == EscapeChars(arg) + ['"'] + x;
      QuotedReadsBack(arg, x);
    }
  }

  /** The command line reads back as the argument vector it was rendered from. */
  lemma {:induction false} ArgsReadBack(args: seq<string>)
    requires args != []
    ensures ReadArgs(ExecLine(args)) == Some(args)
    decreases |args|
  {
    hide ReadToken, Token;
    ExecLineStep(args);
    var x := Render.Rest(args[1..]);
    TokenReadsBack(args[0], x);
    if |args| == 1 {
      assert args == [args[0]];
    } else {
      ArgsReadBack(args[1..]);
      assert x[1..] == ExecLine(args[1..]);
      assert args == [args[0]] + args[1..];
    }
  }

  // ---------- the environment file ----------

  /** The variables of an environment file, in order. */
  function ReadEnv(text: string): Option<seq<EnvVar>>
    decreases |text|
  {
    if text == "" then Some([])
    else
      var i := IndexOfChar(text, '=');
      if i + 1 >= |text| || text[i + 1] != '"' then None
      else
        var v := ReadQuoted(text[i + 2..]);
        if v.None? || v.value.1 == "" || v.value.1[0] != '\n' then None
        else
          var more := ReadEnv(v.value.1[1..]);
          if more.None? then None else Some([EnvVar(text[..i], v.value.0)] + more.value)
  }

  /** The variables with their names trimmed, as they are written. */
  function Trimmed(vs: seq<EnvVar>): seq<EnvVar> {
    seq(|vs|, i requires 0 <= i < |vs| => EnvVar(Trim(vs[i].name), vs[i].value))
  }

  lemma NameHasNoEquals(s: string)
    requires EnvName(s)
    ensures '=' !in s
  {
  }

  lemma EnvLineReadsBack(v: EnvVar, rest: string)
    requires EnvOk(v)
    ensures var text, name := EnvLine(v) + rest, Trim(v.name);
            && IndexOfChar(text, '=') == |name| && |name| + 1 < |text| && text[|name| + 1] == '"'
            && text[..|name|] == name && ReadQuoted(text[|name| + 2..]) == Some((v.value, "\n" + rest))
  {
    hide Trim, EnvName, Escape;
    var text, name := EnvLine(v) + rest, Trim(v.name);
    NameHasNoEquals(name);
    assert text == name + ("=\"" + Escape(v.value) + "\"\n" + rest);
    assert text[|name|] == '=' && text[|name| + 1] == '"';
    assert forall j :: 0 <= j < |name| ==> text[j] == name[j];
    EscapeIsOnePass(v.value);
    assert text[|name| + 2..] == Escape(v.value) + ['"'] + ("\n" + rest);
    QuotedReadsBack(v.value, "\n" + rest);
  }

  lemma {:induction false} EnvReadsBack(vs: seq<EnvVar>)
    requires AllEnvOk(vs)
    ensures ReadEnv(EnvLines(vs)) == Some(Trimmed(vs))
    decreases |vs|
  {
    hide EnvOk, Trim, EnvLine, ReadQuoted;
    if vs == [] {
      assert Trimmed(vs) == [];
    } else {
      EnvReadsBack(vs[1..]);
      EnvLineReadsBack(vs[0], EnvLines(vs[1..]));
      var text := EnvLine(vs[0]) + EnvLines(vs[1..]);
      assert text == EnvLines(vs) != "";
      assert ("\n" + EnvLines(vs[1..]))[1..] == EnvLines(vs[1..]);
      assert Trimmed(vs) == [EnvVar(Trim(vs[0].name), vs[0].value)] + Trimmed(vs[1..]);
    }
  }

  // ---------- the two files ----------

  /** What systemd is to do when the process ends. */
  predicate Restarts(mode: string, p: RestartPolicy) {
    && (mode == "no" <==> p == Never)
    && (mode == "on-failure" <==> p == OnFailure)
    && (mode == "always" <==> p == Always || p == Unspecified)
  }

  lemma ModesDiffer(p: RestartPolicy)
    ensures Restarts(RestartMode(p), p) && OneLine(RestartMode(p))
  {
    assert "no"[0] == 'n' && "on-failure"[0] == 'o' && "always"[0] == 'a';
  }

  /**
    The rendered files say what the process asked for: the ExecStart line reads back as command and
    arguments; WorkingDirectory and User are the trimmed fields, and are left out exactly when they
    are blank; EnvironmentFile is the environment path; Restart follows the policy; and the
    environment file reads back as the variables, sorted by name, with trimmed names.
   */
  lemma FilesReadBack(ns: string, name: string, envPath: string, e: Execution, p: RestartPolicy)
    requires Renderable(e) && OneLine(ns) && OneLine(name) && OneLine(envPath)
    ensures var f, dir, user := FilesOf(ns, name, envPath, e, p), Trim(e.workingDir), Trim(e.user);
            && Directive(f.unit, "ExecStart=").Some?
            && ReadArgs(Directive(f.unit, "ExecStart=").value) == Some(e.command + e.args)
            && Directive(f.unit, "WorkingDirectory=") == (if dir == "" then None else Some(dir))
            && Directive(f.unit, "User=") == (if user == "" then None else Some(user))
            && Directive(f.unit, "EnvironmentFile=-") == Some(envPath)
            && Directive(f.unit, "Restart=").Some? && Restarts(Directive(f.unit, "Restart=").value, p)
            && var vs := Sorting.Sort(e.env, EnvKey);
               && ReadEnv(f.env) == Some(Trimmed(vs)) && multiset(vs) == multiset(e.env)
               && forall i, j :: 0 <= i < j < |vs| ==> !Less(vs[j].name, vs[i].name)
  {
    SortedByName(e.env);
    hide Directive, Lines, Rest, UnitText, ExecLine, ReadArgs, ReadEnv, Trim, RestartMode, Restarts, Sorting.Sort,
        EnvLines;
    var exec, dir, mode, user := ExecLine(e.command + e.args), Trim(e.workingDir), RestartMode(p), Trim(e.user);
    var rest := Rest(dir, envPath, mode, user);
    UnitIsLines(ns, name, envPath, e, p);
    SingleLines(e, p);
    ModesDiffer(p);
    ReadUnit(ns, name, envPath, exec, dir, mode, user);
    ArgsReadBack(e.command + e.args);
    SortedOk(e.env);
    EnvReadsBack(Sorting.Sort(e.env, EnvKey));
  }

  lemma SortedByName(vs: seq<EnvVar>)
    ensures var s := Sorting.Sort(vs, EnvKey);
            multiset(s) == multiset(vs) && forall i, j :: 0 <= i < j < |s| ==> !Less(s[j].name, s[i].name)
  {
    Sorting.SortFacts(vs, EnvKey);
    var s := Sorting.Sort(vs, EnvKey);
    forall i, j | 0 <= i < j < |s| ensures !Less(s[j].name, s[i].name) {
      assert !Sorting.KeyLess(EnvKey(s[j]), EnvKey(s[i]));
      LessIrreflexive(s[i].name);
    }
  }

  lemma SortedOk(vs: seq<EnvVar>)
    requires AllEnvOk(vs)
    ensures AllEnvOk(Sorting.Sort(vs, EnvKey))
  {
    hide EnvOk;
    var s := Sorting.Sort(vs, EnvKey);
    Sorting.SortFacts(vs, EnvKey);
    forall i | 0 <= i < |s| ensures EnvOk(s[i]) {
      assert s[i] in multiset(s);
      assert s[i] in vs;
    }
  }

  lemma ReadUnit(ns: string, name: string, envPath: string, exec: string, dir: string, mode: string, user: string)
    requires OneLine(ns) && OneLine(name) && OneLine(envPath)
    requires OneLine(exec) && OneLine(dir) && OneLine(mode) && OneLine(user)
    ensures var unit := Lines(ns, name, exec, Rest(dir, envPath, mode, user));
            && Directive(unit, "ExecStart=") == Some(exec)
            && Directive(unit, "WorkingDirectory=") == (if dir == "" then None else Some(dir))
            && Directive(unit, "EnvironmentFile=-") == Some(envPath)
            && Directive(unit, "Restart=") == Some(mode)
            && Directive(unit, "User=") == if user == "" then None else Some(user)
  {
    hide Directive, Lines, Rest;
    var rest := Rest(dir, envPath, mode, user);
    var w, v, r, u, x := "WorkingDirectory=", "EnvironmentFile=-", "Restart=", "User=", "ExecStart=";
    var line := x + exec;
    assert w[0] == 'W' && v[0] == 'E' && v[1] == 'n' && r[0] == 'R' && u[0] == 'U' && x[0] == 'E' && x[1] == 'x';
    assert line[0] == 'E' && line[1] == 'x';
    assert OneLine(line);
    ReadRest(dir, envPath, mode, user);
    PassHead(ns, name, exec, rest, x);
    ReadExec(exec, rest);
    PassHead(ns, name, exec, rest, w);
    PassOver(line, rest, w);
    PassHead(ns, name, exec, rest, v);
    DifferAt(v, line, 1);
    PassOver(line, rest, v);
    PassHead(ns, name, exec, rest, r);
    PassOver(line, rest, r);
    PassHead(ns, name, exec, rest, u);
    PassOver(line, rest, u);
  }
}
