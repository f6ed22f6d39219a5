/**
  agent/artifact_oci.go: extraction of a layer into a directory, and Ensure run by one agent that
  holds the lock. Registry, manifest and tar decoding are inputs; header names are given as
  filepath.Clean leaves them.
 */
module Artifact {
  import opened Prelude

  // ---------- trees ----------

  datatype Node = Folder | Text(content: string)

  /** A directory's contents by relative path. */
  type Tree = map<string, Node>

  /** The proper ancestors of a path, nearest last. */
  function Ancestors(path: string): set<string> {
    set i | 0 < i < |path| && path[i] == '/' :: path[..i]
  }

  /** os.MkdirAll; None when a file is in the way. */
  function MkdirAll(tree: Tree, dirs: set<string>): Option<Tree> {
    if exists d :: d in dirs && d in tree && tree[d].Text? then None
    else Some(tree + map d | d in dirs && d !in tree :: Folder)
  }

  // ---------- extraction ----------

  datatype Kind = DirEntry | FileEntry(content: string) | OtherEntry

  datatype TarEntry = TarEntry(name: string, kind: Kind)

  datatype Limits = Limits(maxEntries: int, maxBytes: int)

  datatype Reason = LimitExceeded | InvalidPath | UnsupportedEntryType | InTheWay | Truncated

  datatype Progress = Progress(tree: Tree, total: int)

  predicate Contains(s: string, t: string) {
    exists i :: 0 <= i <= |s| && t <= s[i..]
  }

  predicate Skipped(name: string) {
    name == "." || name == ""
  }

  predicate Unsafe(name: string) {
    "/" <= name || ".." <= name || Contains(name, "../")
  }

  /** The tree once the entry's file is open and holds `content`. */
  function Opened(tree: Tree, name: string, content: string): Option<Tree> {
    match MkdirAll(tree, Ancestors(name))
    case None => None
    case Some(t) => if name in t && t[name].Folder? then None else Some(t[name := Text(content)])
  }

  /** One turn of the extraction loop, for the entry at position `n`. */
  function Turn(p: Progress, e: TarEntry, n: nat, limits: Limits): Result<Progress, Reason> {
    if n + 1 > limits.maxEntries then Err(LimitExceeded)
    else if Skipped(e.name) then Ok(p)
    else if Unsafe(e.name) then Err(InvalidPath)
    else
      match e.kind
      case DirEntry =>
        var t := MkdirAll(p.tree, Ancestors(e.name) + {e.name});
        if t.None? then Err(InTheWay) else Ok(Progress(t.value, p.total))
      case FileEntry(content) =>
        var t := Opened(p.tree, e.name, content);
        if t.None? then Err(InTheWay)
        else if p.total + |content| > limits.maxBytes then Err(LimitExceeded)
        else Ok(Progress(t.value, p.total + |content|))
      case OtherEntry => Err(UnsupportedEntryType)
  }

  /** The first `n` entries, extracted into an empty directory. */
  function Extracted(layer: seq<TarEntry>, n: nat, limits: Limits): Result<Progress, Reason>
    requires n <= |layer|
  {
    if n == 0 then Ok(Progress(map[], 0))
    else
      var r := Extracted(layer, n - 1, limits);
      if r.Err? then r else Turn(r.value, layer[n - 1], n - 1, limits)
  }

  /** The complete extraction, when there is one. */
  function Complete(layer: seq<TarEntry>, limits: Limits): Result<Progress, Reason> {
    Extracted(layer, |layer|, limits)
  }

  lemma {:induction false} ErrorsStay(layer: seq<TarEntry>, m: nat, n: nat, limits: Limits)
    requires m <= n <= |layer| && Extracted(layer, m, limits).Err?
    ensures Extracted(layer, n, limits) == Extracted(layer, m, limits)
  {
    hide Turn;
    if m < n {
      ErrorsStay(layer, m, n - 1, limits);
    }
  }

  /** Every path an accepted layer creates is safe, and is a name of an entry or one of its ancestors. */
  lemma {:induction false} PathsAreSafe(layer: seq<TarEntry>, n: nat, limits: Limits, path: string)
    requires n <= |layer| && Extracted(layer, n, limits).Ok? && path in Extracted(layer, n, limits).value.tree
    ensures !Unsafe(path)
    ensures exists i :: 0 <= i < n && path in Ancestors(layer[i].name) + {layer[i].name}
  {
    hide Unsafe, Ancestors;
    if n > 0 {
      var before, name := Extracted(layer, n - 1, limits).value.tree, layer[n - 1].name;
      if path in before {
        PathsAreSafe(layer, n - 1, limits, path);
      } else {
        assert !Unsafe(name) && path in Ancestors(name) + {name};
        AncestorsAreSafe(name, path);
      }
    }
  }

  lemma AncestorsAreSafe(name: string, path: string)
    requires !Unsafe(name) && path in Ancestors(name) + {name}
    ensures !Unsafe(path)
  {
    assert path <= name;
    PrefixContains(path, name, "../");
  }

  lemma PrefixContains(path: string, name: string, t: string)
    requires path <= name
    ensures Contains(path, t) ==> Contains(name, t)
  {
    if Contains(path, t) {
      var i :| 0 <= i <= |path| && t <= path[i..];
      assert path[i..] <= name[i..];
      assert t <= name[i..];
    }
  }

  /** The total is the size of all file entries, within the limits. */
  lemma {:induction false} TotalIsSize(layer: seq<TarEntry>, n: nat, limits: Limits)
    requires n <= |layer| && Extracted(layer, n, limits).Ok?
    ensures Extracted(layer, n, limits).value.total == SizeOf(layer, n)
    ensures n == 0 || (n <= limits.maxEntries && (SizeOf(layer, n) == 0 || SizeOf(layer, n) <= limits.maxBytes))
  {
    hide Unsafe, Ancestors, MkdirAll, Opened;
    if n > 0 {
      TotalIsSize(layer, n - 1, limits);
    }
  }

  function SizeOf(layer: seq<TarEntry>, n: nat): nat
    requires n <= |layer|
  {
    if n == 0 then 0
    else
      var e := layer[n - 1];
      SizeOf(layer, n - 1) + if e.kind.FileEntry? && !Skipped(e.name) then |e.kind.content| else 0
  }

  // ---------- what a complete extraction is, entry by entry ----------

  /** `p` is a proper ancestor of the path `name`. */
  predicate Above(p: string, name: string) {
    p != "" && p + "/" <= name
  }

  /** Entry `i` writes the file `p`. */
  predicate FileAt(layer: seq<TarEntry>, i: nat, p: string)
    requires i < |layer|
  {
    layer[i].kind.FileEntry? && layer[i].name == p && !Skipped(p)
  }

  /** Entry `i` needs `p` to be a folder: it is that folder, or lies below it. */
  predicate FolderAt(layer: seq<TarEntry>, i: nat, p: string)
    requires i < |layer|
  {
    var e := layer[i];
    !e.kind.OtherEntry? && !Skipped(e.name) && ((e.kind.DirEntry? && e.name == p) || Above(p, e.name))
  }

  /** Entry `i` is the last of the first `n` that writes the file `p`. */
  ghost predicate LastFileAt(layer: seq<TarEntry>, n: nat, i: nat, p: string)
    requires n <= |layer|
  {
    i < n && FileAt(layer, i, p) && forall j: nat :: i < j < n ==> !FileAt(layer, j, p)
  }

  /** At `p` the tree has what the first `n` entries put there, and nothing else. */
  ghost predicate RightAt(layer: seq<TarEntry>, n: nat, tree: Tree, p: string)
    requires n <= |layer|
  {
    && (p in tree && tree[p].Folder? <==> exists i: nat :: i < n && FolderAt(layer, i, p))
    && (p in tree && tree[p].Text? <==> exists i: nat :: i < n && FileAt(layer, i, p))
    && (forall i: nat :: LastFileAt(layer, n, i, p) ==> p in tree && tree[p] == Text(layer[i].kind.content))
  }

  /**
    The tree is the extraction of the layer: its files are those of the file entries, each with
    the content of the last entry of that name; its folders are the directory entries and what
    lies above an entry; and there is nothing else.
   */
  ghost predicate IsExtraction(layer: seq<TarEntry>, tree: Tree) {
    forall p :: RightAt(layer, |layer|, tree, p)
  }

  /** A layer has at most one extraction. */
  lemma ExtractionUnique(layer: seq<TarEntry>, a: Tree, b: Tree)
    requires IsExtraction(layer, a) && IsExtraction(layer, b)
    ensures a == b
  {
    forall p ensures p in a <==> p in b {
      assert RightAt(layer, |layer|, a, p) && RightAt(layer, |layer|, b, p);
    }
    forall p | p in a ensures a[p] == b[p] {
      assert RightAt(layer, |layer|, a, p) && RightAt(layer, |layer|, b, p);
      if a[p].Text? {
        var i := LastFile(layer, |layer|, p);
      }
    }
  }

  lemma {:induction false} LastFile(layer: seq<TarEntry>, n: nat, p: string) returns (i: nat)
    requires n <= |layer| && exists i: nat :: i < n && FileAt(layer, i, p)
    ensures LastFileAt(layer, n, i, p)
    decreases n
  {
    if FileAt(layer, n - 1, p) {
      i := n - 1;
    } else {
      i := LastFile(layer, n - 1, p);
    }
  }

  lemma AncestorsAreAbove(name: string, p: string)
    ensures p in Ancestors(name) <==> Above(p, name)
  {
    if Above(p, name) {
      assert name[..|p|] == p && name[|p|] == '/';
    }
    if p in Ancestors(name) {
      var i :| 0 < i < |name| && name[i] == '/' && name[..i] == p;
      assert name[..i + 1] == p + "/";
    }
  }

  /** What one turn puts at a path. */
  lemma TurnAt(before: Progress, e: TarEntry, n: nat, limits: Limits, p: string)
    requires Turn(before, e, n, limits).Ok?
    ensures var t := Turn(before, e, n, limits).value.tree;
            var file := e.kind.FileEntry? && e.name == p && !Skipped(p);
            var folder := !e.kind.OtherEntry? && !Skipped(e.name)
                && ((e.kind.DirEntry? && e.name == p) || Above(p, e.name));
            && (file ==> p in t && t[p] == Text(e.kind.content) && (p in before.tree ==> before.tree[p].Text?))
            && (folder ==> p in t && t[p] == Folder && (p in before.tree ==> before.tree[p].Folder?))
            && (!file && !folder ==> (p in t <==> p in before.tree) && (p in t ==> t[p] == before.tree[p]))
  {
    hide Unsafe, Ancestors, Above;
    AncestorsAreAbove(e.name, p);
    NotAboveItself(e.name);
    AncestorsAreAbove(e.name, e.name);
  }

  lemma TurnTotal(before: Progress, e: TarEntry, n: nat, limits: Limits)
    requires Turn(before, e, n, limits).Ok?
    ensures Turn(before, e, n, limits).value.total
         == before.total + if e.kind.FileEntry? && !Skipped(e.name) then |e.kind.content| else 0
  {
    hide Unsafe, Ancestors, MkdirAll, Opened;
  }

  lemma NotAboveItself(name: string)
    ensures !Above(name, name)
  {
  }

  /** What has been extracted of an accepted layer is right at every path. */
  lemma {:induction false} ExtractedAt(layer: seq<TarEntry>, n: nat, limits: Limits, p: string)
    requires n <= |layer| && Extracted(layer, n, limits).Ok?
    ensures RightAt(layer, n, Extracted(layer, n, limits).value.tree, p)
  {
    if n > 0 {
      hide Turn, Above;
      ExtractedAt(layer, n - 1, limits, p);
      TurnAt(Extracted(layer, n - 1, limits).value, layer[n - 1], n - 1, limits, p);
      RightOneMore(layer, n - 1, Extracted(layer, n - 1, limits).value.tree, Extracted(layer, n, limits).value.tree, p);
    }
  }

  lemma RightOneMore(layer: seq<TarEntry>, n: nat, before: Tree, tree: Tree, p: string)
    requires n < |layer| && RightAt(layer, n, before, p)
    requires FileAt(layer, n, p) ==>
             p in tree && tree[p] == Text(layer[n].kind.content) && (p in before ==> before[p].Text?)
    requires FolderAt(layer, n, p) ==> p in tree && tree[p] == Folder && (p in before ==> before[p].Folder?)
    requires !FileAt(layer, n, p) && !FolderAt(layer, n, p) ==>
             (p in tree <==> p in before) && (p in tree ==> tree[p] == before[p])
    ensures RightAt(layer, n + 1, tree, p)
  {
    hide FolderAt;
    assert (exists i: nat :: i < n + 1 && FolderAt(layer, i, p)) <==>
           FolderAt(layer, n, p) || exists i: nat :: i < n && FolderAt(layer, i, p);
    assert (exists i: nat :: i < n + 1 && FileAt(layer, i, p)) <==>
           FileAt(layer, n, p) || exists i: nat :: i < n && FileAt(layer, i, p);
    forall i: nat | LastFileAt(layer, n + 1, i, p) ensures p in tree && tree[p] == Text(layer[i].kind.content) {
      if i < n {
        assert LastFileAt(layer, n, i, p) && !FileAt(layer, n, p);
      }
    }
  }

  /** The complete extraction is the extraction. */
  lemma CompleteIsExtraction(layer: seq<TarEntry>, limits: Limits)
    requires Complete(layer, limits).Ok?
    ensures IsExtraction(layer, Complete(layer, limits).value.tree)
  {
    hide RightAt, Extracted;
    forall p ensures RightAt(layer, |layer|, Complete(layer, limits).value.tree, p) {
      ExtractedAt(layer, |layer|, limits, p);
    }
  }

  // ---------- which layers are accepted ----------

  /** Entry `i` alone: skipped, or a file or directory with a safe name. */
  predicate GoodEntry(e: TarEntry) {
    Skipped(e.name) || (!Unsafe(e.name) && !e.kind.OtherEntry?)
  }

  /** No path is needed both as a file and as a folder. */
  ghost predicate NoClash(layer: seq<TarEntry>, n: nat)
    requires n <= |layer|
  {
    forall i: nat, j: nat, p :: i < n && j < n && FileAt(layer, i, p) ==> !FolderAt(layer, j, p)
  }

  /** The first `n` entries are accepted. */
  ghost predicate Acceptable(layer: seq<TarEntry>, n: nat, limits: Limits)
    requires n <= |layer|
  {
    && (n > 0 ==> n <= limits.maxEntries)
    && (forall i: nat :: i < n ==> GoodEntry(layer[i]))
    && NoClash(layer, n)
    && (forall i: nat :: i < n && FileAt(layer, i, layer[i].name) ==> SizeOf(layer, i + 1) <= limits.maxBytes)
  }

  /** One more entry is accepted exactly when it is good, in its place and within the limits. */
  lemma TurnAccepts(layer: seq<TarEntry>, n: nat, limits: Limits)
    requires n < |layer| && Extracted(layer, n, limits).Ok?
    ensures var e := layer[n];
            Extracted(layer, n + 1, limits).Ok? <==>
              && n + 1 <= limits.maxEntries && GoodEntry(e)
              && (forall i: nat, p :: i < n && FileAt(layer, i, p) ==> !FolderAt(layer, n, p))
              && (FileAt(layer, n, e.name) ==>
                    && (forall i: nat :: i < n ==> !FolderAt(layer, i, e.name))
                    && SizeOf(layer, n + 1) <= limits.maxBytes)
  {
    hide Unsafe, Ancestors, Above;
    var e, before := layer[n], Extracted(layer, n, limits).value;
    TotalIsSize(layer, n, limits);
    ExtractedAt(layer, n, limits, e.name);
    NotAboveItself(e.name);
    forall d ensures d in Ancestors(e.name) <==> Above(d, e.name) {
      AncestorsAreAbove(e.name, d);
    }
    forall d ensures RightAt(layer, n, before.tree, d) {
      ExtractedAt(layer, n, limits, d);
    }
    FolderClash(layer, n, before.tree);
  }

  /** A file stands in the way of the entry exactly when an earlier entry wrote one where it needs a folder. */
  lemma FolderClash(layer: seq<TarEntry>, n: nat, tree: Tree)
    requires n < |layer| && forall d :: RightAt(layer, n, tree, d)
    ensures (exists d :: FolderAt(layer, n, d) && d in tree && tree[d].Text?) <==>
            (exists i: nat, p :: i < n && FileAt(layer, i, p) && FolderAt(layer, n, p))
  {
    hide FolderAt, FileAt;
    if d :| FolderAt(layer, n, d) && d in tree && tree[d].Text? {
      assert RightAt(layer, n, tree, d);
    }
    if i: nat, p :| i < n && FileAt(layer, i, p) && FolderAt(layer, n, p) {
      assert RightAt(layer, n, tree, p);
    }
  }

  /**
    Which layers are accepted: at most `maxEntries` entries, each skipped or a file or directory
    with a safe name, no path both a file and a folder, and no file over the byte limit.
   */
  lemma {:induction false} AcceptedExactly(layer: seq<TarEntry>, n: nat, limits: Limits)
    requires n <= |layer|
    ensures Extracted(layer, n, limits).Ok? <==> Acceptable(layer, n, limits)
  {
    hide Turn, GoodEntry, FileAt, FolderAt;
    if n > 0 {
      AcceptedExactly(layer, n - 1, limits);
      if Extracted(layer, n - 1, limits).Ok? {
        TurnAccepts(layer, n - 1, limits);
        NoClashOneMore(layer, n - 1);
      } else {
        ErrorsStay(layer, n - 1, n, limits);
      }
    }
  }

  lemma NoClashOneMore(layer: seq<TarEntry>, n: nat)
    requires n < |layer|
    ensures NoClash(layer, n + 1) <==>
            && NoClash(layer, n)
            && (forall i: nat, p :: i < n && FileAt(layer, i, p) ==> !FolderAt(layer, n, p))
            && (FileAt(layer, n, layer[n].name) ==> forall i: nat :: i < n ==> !FolderAt(layer, i, layer[n].name))
  {
    NotAboveItself(layer[n].name);
    assert !(FileAt(layer, n, layer[n].name) && FolderAt(layer, n, layer[n].name));
    hide FolderAt, Above, FileAt;
  }

  /** A directory the agent fills. */
  class Directory {
    var tree: Tree

    constructor ()
      ensures tree == map[]
    {
      tree := map[];
    }

    /** extractLayer; `readable` is how many entries the tar reader yields before it fails, if it does. */
    method ExtractLayer(layer: seq<TarEntry>, limits: Limits, readable: nat) returns (total: int, error: Option<Reason>)
      requires tree == map[] && readable <= |layer|
      modifies this
      ensures error.None? <==> readable == |layer| && Complete(layer, limits).Ok?
      ensures error.None? ==> Complete(layer, limits) == Ok(Progress(tree, total))
      ensures error.None? <==> readable == |layer| && Acceptable(layer, |layer|, limits)
      ensures error.None? ==> IsExtraction(layer, tree) && total == SizeOf(layer, |layer|)
    {
      hide IsExtraction, Acceptable, Turn, Above;
      AcceptedExactly(layer, |layer|, limits);
      hide Unsafe, Ancestors, MkdirAll, SizeOf;
      total, error := 0, None;
      var entries := 0;
      while entries < |layer|
        invariant 0 <= entries <= readable && error.None?
        invariant Extracted(layer, entries, limits) == Ok(Progress(tree, total))
        decreases |layer| - entries
      {
        if entries == readable { return total, Some(Truncated); }
        var e := layer[entries];
        entries := entries + 1;
        ghost var before := Progress(tree, total);
        assert Extracted(layer, entries, limits) == Turn(before, e, entries - 1, limits);
        error := Enter(e, total, entries, limits);
        if error.Some? {
          ErrorsStay(layer, entries, |layer|, limits);
          return;
        }
        TurnTotal(before, e, entries - 1, limits);
        if e.kind.FileEntry? && !Skipped(e.name) { total := total + |e.kind.content|; }
      }
      CompleteIsExtraction(layer, limits);
      TotalIsSize(layer, |layer|, limits);
    }

    /** The body of the loop: the entry's effect on the directory, or the reason to stop. */
    method Enter(e: TarEntry, total: int, entries: nat, limits: Limits) returns (error: Option<Reason>)
      requires entries > 0
      modifies this
      ensures var r := Turn(Progress(old(tree), total), e, entries - 1, limits);
              && (error.None? <==> r.Ok?)
              && (error.None? ==> r.value.tree == tree)
              && (error.Some? ==> r == Err(error.value))
      ensures error.None? && !Skipped(e.name) ==>
                && e.name in tree && (e.kind.FileEntry? ==> tree[e.name] == Text(e.kind.content))
                && (e.kind.DirEntry? ==> tree[e.name] == Folder)
                && (forall p :: Above(p, e.name) ==> p in tree && tree[p] == Folder)
    {
      hide Ancestors, MkdirAll, Contains, Above, Opened;
      ghost var before := Progress(tree, total);
      if Turn(before, e, entries - 1, limits).Ok? {
        forall p { TurnAt(before, e, entries - 1, limits, p); }
      }
      if entries > limits.maxEntries { return Some(LimitExceeded); }
      if Skipped(e.name) { return None; }
      if Unsafe(e.name) { return Some(InvalidPath); }
      match e.kind {
        case DirEntry =>
          var t := MkdirAll(tree, Ancestors(e.name) + {e.name});
          if t.None? { return Some(InTheWay); }
          tree := t.value;
        case FileEntry(content) =>
          var t := Opened(tree, e.name, content);
          if t.None? { return Some(InTheWay); }
          tree := t.value;
          if total + |content| > limits.maxBytes { return Some(LimitExceeded); }
        case OtherEntry =>
          return Some(UnsupportedEntryType);
      }
      return None;
    }
  }

  // ---------- Ensure, by an agent that holds the lock undisturbed ----------

  /** One oras copy: it works, or fails for good, or fails in a way worth retrying; the wait may be cancelled. */
  datatype Attempt = CopyOk(digest: string) | CopyFatal(msg: string) | CopyRetryable(msg: string, cancelled: bool)

  datatype Fetch = Fetch(digest: string, attempts: seq<Attempt>, manifest: Option<seq<seq<TarEntry>>>, readable: nat)

  const MAX_ATTEMPTS: nat := 3

  datatype Verdict =
    | ArtifactVerified
    | ArtifactVerifyFailed
    | DigestMismatch
    | UnsupportedArtifact
    | Rejected(reason: Reason)

  datatype Outcome = Outcome(downloaded: bool, verified: bool, attempts: nat, verdict: Verdict, ok: bool)

  /** The tries Ensure makes: up to the first that is not worth retrying, three at most. */
  function Tries(attempts: seq<Attempt>, n: nat): (made: nat)
    requires n <= |attempts|
    ensures n <= made <= |attempts| && (n < |attempts| ==> n < made)
    decreases |attempts| - n
  {
    if n == |attempts| then n
    else if attempts[n].CopyRetryable? && !attempts[n].cancelled then Tries(attempts, n + 1)
    else n + 1
  }

  class Fetcher {
    var ready: bool
    var rootfs: Option<Tree>
    const limits: Limits

    /** The retry loop: the last error, or the digest that was copied. */
    method Download(attempts: seq<Attempt>) returns (made: nat, r: Result<string, string>, cancelled: bool)
      requires |attempts| == MAX_ATTEMPTS
      ensures made == Tries(attempts, 0) && 1 <= made <= MAX_ATTEMPTS
      ensures r.Ok? <==> attempts[made - 1].CopyOk?
      ensures r.Ok? ==> r.value == attempts[made - 1].digest
      ensures cancelled <==> attempts[made - 1].CopyRetryable? && attempts[made - 1].cancelled
      ensures r.Err? && !cancelled ==> attempts[made - 1].CopyFatal? || made == MAX_ATTEMPTS
    {
      made, r, cancelled := 0, Err(""), false;
      while made < MAX_ATTEMPTS
        invariant made <= MAX_ATTEMPTS && Tries(attempts, 0) == Tries(attempts, made)
        invariant !cancelled && r.Err?
        invariant made > 0 ==> attempts[made - 1].CopyRetryable? && !attempts[made - 1].cancelled
      {
        var attempt := attempts[made];
        made := made + 1;
        match attempt {
          case CopyOk(digest) =>
            r := Ok(digest);
            return;
          case CopyFatal(msg) =>
            r := Err(msg);
            return;
          case CopyRetryable(msg, stop) =>
            r := Err(msg);
            if stop {
              cancelled := true;
              return;
            }
        }
      }
    }

    /** Ensure, past the reference check and the lock. */
    method Ensure(f: Fetch) returns (out: Outcome)
      requires |f.attempts| == MAX_ATTEMPTS
      requires f.manifest.Some? && |f.manifest.value| == 1 ==> f.readable <= |f.manifest.value[0]|
      modifies this
      ensures old(ready && rootfs.Some?) ==> out.ok && out.attempts == 0 && ready && rootfs == old(rootfs)
      ensures out.ok <==> old(ready && rootfs.Some?) || Publishable(f, limits)
      ensures out.ok ==> ready && rootfs.Some? && out.downloaded && out.verified && out.verdict == ArtifactVerified
      ensures out.ok && !old(ready && rootfs.Some?) ==> IsExtraction(f.manifest.value[0], rootfs.value)
      ensures !out.ok ==> ready == old(ready) && rootfs == old(rootfs) && !out.verified
      ensures !out.ok ==> (out.downloaded <==> f.attempts[Tries(f.attempts, 0) - 1].CopyOk?)
      ensures var last := f.attempts[Tries(f.attempts, 0) - 1];
              !out.ok ==>
                && (out.verdict == DigestMismatch <==> last.CopyOk? && last.digest != f.digest)
                && (out.verdict == UnsupportedArtifact <==>
                      last == CopyOk(f.digest) && f.manifest.Some? && |f.manifest.value| > 1)
                && (out.verdict.Rejected? <==> last == CopyOk(f.digest) && f.manifest.Some? && |f.manifest.value| == 1)
                && out.attempts == if last.CopyRetryable? && last.cancelled then 0 else Tries(f.attempts, 0)
    {
      hide Complete, Tries, IsExtraction, Acceptable;
      if ready && rootfs.Some? { return Outcome(true, true, 0, ArtifactVerified, true); }
      var made, r, cancelled := Download(f.attempts);
      if cancelled { return Outcome(false, false, 0, ArtifactVerifyFailed, false); }
      if r.Err? { return Outcome(false, false, made, ArtifactVerifyFailed, false); }
      if r.value != f.digest { return Outcome(true, false, made, DigestMismatch, false); }
      if f.manifest.None? || |f.manifest.value| == 0 { return Outcome(true, false, made, ArtifactVerifyFailed, false); }
      if |f.manifest.value| != 1 { return Outcome(true, false, made, UnsupportedArtifact, false); }
      var temp := new Directory();
      var _, error := temp.ExtractLayer(f.manifest.value[0], limits, f.readable);
      if error.Some? { return Outcome(true, false, made, Rejected(error.value), false); }
      rootfs := Some(temp.tree);
      ready := true;
      return Outcome(true, true, made, ArtifactVerified, true);
    }
  }

  /** The artifact arrives with the pinned digest, as one layer that extracts completely. */
  ghost predicate Publishable(f: Fetch, limits: Limits)
    requires |f.attempts| == MAX_ATTEMPTS
  {
    var made := Tries(f.attempts, 0);
    && 1 <= made <= MAX_ATTEMPTS && f.attempts[made - 1] == CopyOk(f.digest)
    && f.manifest.Some? && |f.manifest.value| == 1
    && f.readable == |f.manifest.value[0]| && Acceptable(f.manifest.value[0], |f.manifest.value[0]|, limits)
  }
}
