/**
 Publishing a build: path normalisation, the manifests, and the rename protocol that replaces the previous
 build. Every file-system call may fail, and every intermediate state of the parent directory is recorded.
 */
module BuildPublish {
  import opened Basics
  import opened Text

  type Bytes = seq<int>

  /** Digest and size. */
  datatype Digest = Digest(sha256: string, size: nat)

  datatype Content =
    | Plain(data: Bytes)
    | Marker(family: string, seed: string)
    | PublicManifest(files: map<string, Digest>)
    | PrivateManifest(files: map<string, Digest>, publicCount: nat, totalBytes: nat, seed: string, spec: string)

  datatype Meta = Meta(family: string, seed: string, spec: string)

  /** Case folding, upper-casing and hashing are parameters. */
  datatype Codec = Codec(fold: string -> string, upper: string -> string, sha256: Bytes -> string)

  datatype Error = DangerousRoot | UnsafeDeletion | AlreadyExists | BadPath | DuplicatePath | OverLimit | OsFailure

  type Outcome<T> = Result<T, Error>

  const MAX_FILE_COUNT := 2000
  const MAX_TOTAL_BYTES := 64 * 1024 * 1024
  const MAX_COMPONENT_BYTES := 255
  const MARKER := ".ctfgen-build"
  const PUBLIC := "public/manifest.json"
  const PRIVATE := "private/manifest.json"

  // ---------------------------------------------------------------------------
  // Paths.

  function Kept(parts: seq<string>): seq<string>
    decreases |parts|
  {
    if parts == [] then []
    else (if parts[0] == "" || parts[0] == "." then [] else [parts[0]]) + Kept(parts[1..])
  }

  predicate Confusable(c: char) {
    || '\U{200B}' <= c <= '\U{200F}' || '\U{202A}' <= c <= '\U{202E}' || '\U{2066}' <= c <= '\U{2069}'
    || c == '\U{FEFF}'
  }

  predicate Control(c: char) { c < ' ' || c == '\U{7F}' }

  function Utf8Length(s: string): nat
    decreases |s|
  {
    if s == "" then 0
    else
      var c := s[0];
      (if c < '\U{80}' then 1 else if c < '\U{800}' then 2 else if c < '\U{10000}' then 3 else 4) + Utf8Length(s[1..])
  }

  const RESERVED_NAMES := {
    "CON", "PRN", "AUX", "NUL",
    "COM1", "COM2", "COM3", "COM4", "COM5", "COM6", "COM7", "COM8", "COM9",
    "LPT1", "LPT2", "LPT3", "LPT4", "LPT5", "LPT6", "LPT7", "LPT8", "LPT9"
  }

  predicate GoodPart(codec: Codec, part: string) {
    && part != ".."
    && (forall c | c in part :: !Control(c) && !Confusable(c))
    && Utf8Length(part) <= MAX_COMPONENT_BYTES
    && (part != "" ==> part[|part| - 1] != ' ' && part[|part| - 1] != '.')
    && codec.upper(part[..IndexOf(part, '.')]) !in RESERVED_NAMES
  }

  function JoinOn(parts: seq<string>, c: char): string
    decreases |parts|
  {
    if parts == [] then "" else if |parts| == 1 then parts[0] else parts[0] + [c] + JoinOn(parts[1..], c)
  }

  predicate ReservedOutput(codec: Codec, path: string) {
    codec.fold(path) in {codec.fold(MARKER), codec.fold(PUBLIC), codec.fold(PRIVATE)}
  }

  /** The normalised relative path, or the refusal. */
  function Validate(codec: Codec, rel: string): Outcome<string> {
    if rel == "" || '\0' in rel || '\\' in rel || rel[0] == '/' then Err(BadPath)
    else
      var parts := Kept(SplitOn(rel, '/'));
      if parts == [] || exists p | p in parts :: !GoodPart(codec, p) then Err(BadPath)
      else
        var norm := JoinOn(parts, '/');
        if ReservedOutput(codec, norm) then Err(BadPath) else Ok(norm)
  }

  // ---------------------------------------------------------------------------
  // The tree a build consists of.

  type Tree = map<string, Content>

  predicate Under(path: string, dir: string) { dir + "/" <= path }

  /** A file where another file needs a directory. */
  predicate Clashes(tree: Tree, path: string) { exists q | q in tree :: Under(q, path) || Under(path, q) }

  predicate IsPublic(path: string) { "public/" <= path }

  function PlainTree(inputs: map<string, Bytes>, meta: Meta): Tree {
    (map p | p in inputs :: Plain(inputs[p])) + map[MARKER := Marker(meta.family, meta.seed)]
  }

  predicate Listed(codec: Codec, tree: Tree, path: string) {
    path in tree && tree[path].Plain? && !ReservedOutput(codec, path)
  }

  function DigestOf(codec: Codec, data: Bytes): Digest { Digest(codec.sha256(data), |data|) }

  function Digests(codec: Codec, tree: Tree): map<string, Digest> {
    map p | p in tree && Listed(codec, tree, p) :: DigestOf(codec, tree[p].data)
  }

  function PublicOnly(files: map<string, Digest>): map<string, Digest> { map p | p in files && IsPublic(p) :: files[p] }

  ghost function TotalSize(files: map<string, Digest>): nat {
    var total := Sum(files.Keys, (p: string) => if p in files then files[p].size else 0);
    if total >= 0 then total else 0
  }

  ghost function WithManifests(codec: Codec, tree: Tree, meta: Meta): Tree {
    var files := Digests(codec, tree);
    var open := PublicOnly(files);
    var step := if open == map[] then tree else tree[PUBLIC := PublicManifest(open)];
    step[PRIVATE := PrivateManifest(files, |open|, TotalSize(files), meta.seed, meta.spec)]
  }

  /** What a successful build holds: the normalised inputs, the marker and the manifests. */
  ghost function Build(codec: Codec, inputs: map<string, Bytes>, meta: Meta): Tree {
    WithManifests(codec, PlainTree(inputs, meta), meta)
  }

  /** Renderer paths in order, normalised, without two that fold alike. */
  function Normalize(codec: Codec, files: seq<(string, Bytes)>): Outcome<seq<(string, Bytes)>>
    decreases |files|
  {
    if files == [] then Ok([])
    else
      var n := |files| - 1;
      match Normalize(codec, files[..n])
      case Err(e) => Err(e)
      case Ok(front) =>
        match Validate(codec, files[n].0)
        case Err(e) => Err(e)
        case Ok(norm) =>
          if FoldTaken(codec, front, norm) then Err(DuplicatePath) else Ok(front + [(norm, files[n].1)])
  }

  predicate FoldTaken(codec: Codec, front: seq<(string, Bytes)>, norm: string) {
    exists f | f in front :: codec.fold(f.0) == codec.fold(norm)
  }

  function AsMap(files: seq<(string, Bytes)>): map<string, Bytes>
    decreases |files|
  {
    if files == [] then map[]
    else AsMap(files[..|files| - 1])[files[|files| - 1].0 := files[|files| - 1].1]
  }

  // ---------------------------------------------------------------------------
  // The parent directory.

  datatype Node =
    | Dir(files: Tree, others: bool)
    | File(data: Bytes)
    | Link(dangling: bool)

  type Fs = map<string, Node>

  /** `Path.exists`: follows links. */
  predicate Exists(fs: Fs, name: string) { name in fs && !(fs[name].Link? && fs[name].dangling) }

  predicate Empty(n: Node) { n.Dir? && n.files == map[] && !n.others }

  predicate Managed(n: Node) { n.Dir? && MARKER in n.files }

  /** May be replaced: not a link, and if a directory then empty or marked. */
  predicate Replaceable(n: Node) { !n.Link? && (n.Dir? && !Empty(n) ==> Managed(n)) }

  /** `os.replace`: a directory may only replace an empty directory, a file only a file. */
  predicate CanRename(fs: Fs, from: string, to: string) {
    && from in fs && from != to
    && (to in fs ==> if fs[from].Dir? then Empty(fs[to]) else !fs[to].Dir?)
  }

  function Renamed(fs: Fs, from: string, to: string): Fs
    requires from in fs
  {
    (fs - {from})[to := fs[from]]
  }

  /** Which calls fail, and which files a failing removal leaves behind. */
  datatype Faults = Faults(fails: nat -> bool, stuck: nat -> set<string>)

  /** The names involved; the last three are freshly made by `mkdtemp`. */
  datatype Names = Names(final: string, tmp: string, backup: string, diag: string)

  predicate FreshNames(fs: Fs, n: Names) { n.tmp !in fs && n.backup !in fs && n.diag !in fs && Distinct(n) }

  predicate Distinct(n: Names) {
    && n.final != n.tmp && n.final != n.backup && n.final != n.diag
    && n.tmp != n.backup && n.tmp != n.diag && n.backup != n.diag
  }

  // ---------------------------------------------------------------------------
  // What every intermediate state guarantees.

  function At(fs: Fs, name: string): Option<Node> { if name in fs then Some(fs[name]) else None }

  /** Nothing but the four names changes. */
  ghost predicate Untouched(before: Fs, now: Fs, n: Names) {
    forall name | name !in {n.final, n.tmp, n.backup, n.diag} :: At(now, name) == At(before, name)
  }

  ghost predicate SameBut(was: Fs, now: Fs, name: string) { forall x | x != name :: At(now, x) == At(was, x) }

  predicate FinalAsBefore(before: Fs, now: Fs, n: Names) { At(now, n.final) == At(before, n.final) }

  predicate FinalIs(now: Fs, n: Names, tree: Tree) {
    n.final in now && now[n.final].Dir? && now[n.final].files == tree
  }

  predicate MovedAside(before: Fs, now: Fs, n: Names) {
    && n.final in before && Replaceable(before[n.final]) && n.final !in now
    && n.backup in now && now[n.backup] == before[n.final]
  }

  /** The target is as it was, or is the complete new build, or the previous one survives in the backup. */
  ghost predicate Safe(before: Fs, now: Fs, n: Names, tree: Tree) {
    && Untouched(before, now, n)
    && (FinalAsBefore(before, now, n)
        || (FinalIs(now, n, tree) && (n.final in before ==> Replaceable(before[n.final])))
        || MovedAside(before, now, n))
  }

  /** Only the temporary names change. */
  ghost predicate OnlyTemporaries(before: Fs, now: Fs, n: Names) {
    Untouched(before, now, n) && FinalAsBefore(before, now, n)
  }

  ghost predicate AllSafe(before: Fs, trace: seq<Fs>, n: Names, tree: Tree) {
    forall t | t in trace :: Safe(before, t, n, tree)
  }

  function TotalBytes(files: seq<(string, Bytes)>): nat
    decreases |files|
  {
    if files == [] then 0 else TotalBytes(files[..|files| - 1]) + |files[|files| - 1].1|
  }

  predicate ClashFree(tree: Tree) { forall p, q | p in tree && q in tree :: !Under(p, q) }

  /** The files make a build: every path validates, no two fold alike, within the limits, and no file stands
      where another, or a manifest, needs a directory. */
  ghost predicate Acceptable(codec: Codec, files: seq<(string, Bytes)>, meta: Meta) {
    && Normalize(codec, files).Ok?
    && |Normalize(codec, files).value| <= MAX_FILE_COUNT
    && TotalBytes(Normalize(codec, files).value) <= MAX_TOTAL_BYTES
    && ClashFree(BuildOf(codec, files, meta))
  }

  ghost function BuildOf(codec: Codec, files: seq<(string, Bytes)>, meta: Meta): Tree {
    match Normalize(codec, files)
    case Err(_) => map[]
    case Ok(norm) => Build(codec, AsMap(norm), meta)
  }

  class Publisher {
    const codec: Codec
    const faults: Faults
    var clock: nat
    var fs: Fs
    ghost var trace: seq<Fs>

    ghost predicate Faultless() { forall k :: !faults.fails(k) }

    constructor (codec: Codec, faults: Faults, fs: Fs)
      ensures this.codec == codec && this.faults == faults && this.fs == fs && trace == []
    {
      this.codec, this.faults, this.fs := codec, faults, fs;
      clock := 0;
      trace := [];
    }

    /** One call into the operating system. */
    method Attempt() returns (ok: bool)
      modifies `clock
      ensures Faultless() ==> ok
    {
      ok := !faults.fails(clock);
      clock := clock + 1;
    }

    method Put(name: string, node: Node)
      modifies `fs, `trace
      ensures fs == old(fs)[name := node] && trace == old(trace) + [fs]
    {
      fs := fs[name := node];
      trace := trace + [fs];
    }

    method Remove(name: string)
      modifies `fs, `trace
      ensures fs == old(fs) - {name} && trace == old(trace) + [fs]
    {
      fs := fs - {name};
      trace := trace + [fs];
    }

    method MakeDir(name: string) returns (ok: bool)
      requires name !in fs
      modifies `clock, `fs, `trace
      ensures Faultless() ==> ok
      ensures ok ==> fs == old(fs)[name := Dir(map[], false)] && trace == old(trace) + [fs]
      ensures !ok ==> fs == old(fs) && trace == old(trace)
    {
      ok := Attempt();
      if ok { Put(name, Dir(map[], false)); }
    }

    /** `os.replace`. */
    method Rename(from: string, to: string) returns (ok: bool)
      modifies `clock, `fs, `trace
      ensures ok ==> CanRename(old(fs), from, to) && fs == Renamed(old(fs), from, to) && trace == old(trace) + [fs]
      ensures !ok ==> fs == old(fs) && trace == old(trace)
      ensures Faultless() && CanRename(old(fs), from, to) ==> ok
    {
      ok := Attempt();
      if !CanRename(fs, from, to) { return false; }
      if ok {
        fs := Renamed(fs, from, to);
        trace := trace + [fs];
      }
    }

    /** `mkdtemp`, then `rmdir`, so that a rename can claim the name. */
    method ReserveSibling(name: string) returns (ok: bool)
      requires name !in fs
      modifies `clock, `fs, `trace
      ensures Faultless() ==> ok
      ensures ok ==> fs == old(fs)
      ensures !ok ==> fs == old(fs) || fs == old(fs)[name := Dir(map[], false)]
      ensures exists more :: trace == old(trace) + more
                && forall t | t in more :: t == old(fs) || t == old(fs)[name := Dir(map[], false)]
    {
      ok := MakeDir(name);
      ghost var mid := trace;
      if ok {
        ok := Attempt();
        if ok {
          assert fs - {name} == old(fs);
          Remove(name);
          assert trace == old(trace) + [old(fs)[name := Dir(map[], false)], old(fs)];
        } else {
          assert trace == old(trace) + [old(fs)[name := Dir(map[], false)]];
        }
      } else {
        assert trace == old(trace) + [];
      }
    }

    /** `shutil.rmtree(..., ignore_errors=True)`: gives up silently on anything but a directory, and on files
        it cannot remove. */
    method RemoveTree(name: string)
      requires name in fs
      modifies `clock, `fs, `trace
      ensures SameBut(old(fs), fs, name)
      ensures !old(fs)[name].Dir? ==> fs == old(fs)
      ensures Faultless() && old(fs)[name].Dir? ==> name !in fs
      ensures trace == old(trace) + [fs]
    {
      var ok := Attempt();
      var node := fs[name];
      if node.Dir? {
        var stuck := faults.stuck(clock);
        if ok { fs := fs - {name}; }
        else { fs := fs[name := Dir(map p | p in node.files && p in stuck :: node.files[p], node.others)]; }
      }
      trace := trace + [fs];
    }

    // -------------------------------------------------------------------------
    // Filling the temporary directory.

    method WriteFile(dir: string, path: string, content: Content) returns (ok: bool)
      requires dir in fs && fs[dir].Dir?
      modifies `clock, `fs, `trace
      ensures dir in fs && fs[dir].Dir?
      ensures ok ==> !Clashes(old(fs)[dir].files, path) && fs[dir].files == old(fs)[dir].files[path := content]
      ensures ok ==> fs == old(fs)[dir := fs[dir]] && trace == old(trace) + [fs]
      ensures !ok ==> fs == old(fs) && trace == old(trace)
      ensures Faultless() && !Clashes(old(fs)[dir].files, path) ==> ok
    {
      ok := Attempt();
      if Clashes(fs[dir].files, path) { return false; }
      if ok { Put(dir, Dir(fs[dir].files[path := content], fs[dir].others || '/' in path)); }
    }

    /** A write into the temporary directory leaves the target and everything else alone. */
    method WriteTmp(n: Names, path: string, content: Content, ghost before: Fs, ghost tree: Tree) returns (ok: bool)
      requires Distinct(n) && n.tmp in fs && fs[n.tmp].Dir?
      requires OnlyTemporaries(before, fs, n) && AllSafe(before, trace, n, tree)
      modifies `clock, `fs, `trace
      ensures OnlyTemporaries(before, fs, n) && AllSafe(before, trace, n, tree)
      ensures n.tmp in fs && fs[n.tmp].Dir? && SameBut(old(fs), fs, n.tmp)
      ensures ok ==> !Clashes(old(fs)[n.tmp].files, path) && fs[n.tmp].files == old(fs)[n.tmp].files[path := content]
      ensures Faultless() && !Clashes(old(fs)[n.tmp].files, path) ==> ok
    {
      ok := WriteFile(n.tmp, path, content);
    }

    method NormalizeAll(files: seq<(string, Bytes)>) returns (r: Outcome<seq<(string, Bytes)>>)
      ensures r == Normalize(codec, files)
    {
      var normalized: seq<(string, Bytes)> := [];
      var seen: set<string> := {};
      for i := 0 to |files|
        invariant Normalize(codec, files[..i]) == Ok(normalized)
        invariant seen == set f | f in normalized :: codec.fold(f.0)
      {
        NormalizeStep(codec, files, i);
        var norm := Validate(codec, files[i].0);
        if norm.Err? { return Err(norm.error); }
        var folded := codec.fold(norm.value);
        assert folded in seen <==> FoldTaken(codec, normalized, norm.value);
        if folded in seen { return Err(DuplicatePath); }
        assert forall f ::
          f in normalized + [(norm.value, files[i].1)] <==> f in normalized || f == (norm.value, files[i].1);
        seen := seen + {folded};
        normalized := normalized + [(norm.value, files[i].1)];
      }
      assert files[..|files|] == files;
      r := Ok(normalized);
    }

    /** Writes the normalised files; the size limit is checked file by file. */
    method WriteInputs(n: Names, normalized: seq<(string, Bytes)>, meta: Meta, ghost before: Fs, ghost tree: Tree)
      returns (r: Outcome<()>)
      requires n.tmp in fs && fs[n.tmp].Dir? && fs[n.tmp].files == PlainTree(map[], meta)
      requires Distinct(n) && forall f | f in normalized :: f.0 != MARKER
      requires OnlyTemporaries(before, fs, n) && AllSafe(before, trace, n, tree)
      modifies `clock, `fs, `trace
      ensures OnlyTemporaries(before, fs, n) && AllSafe(before, trace, n, tree)
      ensures n.tmp in fs && fs[n.tmp].Dir?
      ensures SameBut(old(fs), fs, n.tmp)
      ensures r.Ok? ==> fs[n.tmp].files == PlainTree(AsMap(normalized), meta)
      ensures r.Ok? ==> TotalBytes(normalized) <= MAX_TOTAL_BYTES && ClashFree(PlainTree(AsMap(normalized), meta))
      ensures (Faultless() && TotalBytes(normalized) <= MAX_TOTAL_BYTES
               && ClashFree(PlainTree(AsMap(normalized), meta))) ==> r.Ok?
    {
      var total := 0;
      var i := 0;
      while i < |normalized|
        invariant 0 <= i <= |normalized| && total == TotalBytes(normalized[..i]) <= MAX_TOTAL_BYTES
        invariant n.tmp in fs && fs[n.tmp].Dir?
        invariant fs[n.tmp].files == PlainTree(AsMap(normalized[..i]), meta) && ClashFree(fs[n.tmp].files)
        invariant SameBut(old(fs), fs, n.tmp)
        invariant OnlyTemporaries(before, fs, n) && AllSafe(before, trace, n, tree)
      {
        var f := normalized[i];
        ghost var prefix := normalized[..i];
        InputStep(normalized, i, meta);
        total := total + |f.1|;
        if total > MAX_TOTAL_BYTES { return Err(OverLimit); }
        var ok := WriteTmp(n, f.0, Plain(f.1), before, tree);
        if !ok { return Err(OsFailure); }
        i := i + 1;
      }
      assert normalized[..|normalized|] == normalized;
      r := Ok(());
    }

    /** Digests every listed file of the temporary directory, and writes the two manifests. */
    method BuildManifests(n: Names, meta: Meta, ghost before: Fs, ghost tree: Tree) returns (r: Outcome<()>)
      requires Distinct(n) && n.tmp in fs && fs[n.tmp].Dir? && ClashFree(fs[n.tmp].files)
      requires OnlyTemporaries(before, fs, n) && AllSafe(before, trace, n, tree)
      modifies `clock, `fs, `trace
      ensures OnlyTemporaries(before, fs, n) && AllSafe(before, trace, n, tree)
      ensures n.tmp in fs && fs[n.tmp].Dir?
      ensures SameBut(old(fs), fs, n.tmp)
      ensures r.Ok? ==>
        fs[n.tmp].files == WithManifests(codec, old(fs)[n.tmp].files, meta) && ClashFree(fs[n.tmp].files)
      ensures Faultless() && ClashFree(WithManifests(codec, old(fs)[n.tmp].files, meta)) ==> r.Ok?
    {
      ghost var built := fs[n.tmp].files;
      ghost var goal := WithManifests(codec, built, meta);
      var entries, total := Collect(fs[n.tmp].files);
      var open := PublicOnly(entries);
      ManifestSteps(codec, built, meta);
      if open != map[] {
        var ok := WriteTmp(n, PUBLIC, PublicManifest(open), before, tree);
        if !ok { return Err(OsFailure); }
      }
      var sealed := PrivateManifest(entries, |open|, total, meta.seed, meta.spec);
      var ok := WriteTmp(n, PRIVATE, sealed, before, tree);
      if !ok { return Err(OsFailure); }
      r := Ok(());
    }

    method Collect(tree: Tree) returns (entries: map<string, Digest>, total: nat)
      ensures entries == Digests(codec, tree) && total == TotalSize(entries)
    {
      entries, total := map[], 0;
      var rest := tree.Keys;
      while rest != {}
        invariant rest <= tree.Keys
        invariant Collected(codec, tree, rest, entries) && total == TotalSize(entries)
        decreases |rest|
      {
        var p :| p in rest;
        CollectStep(codec, tree, rest, entries, p);
        if Listed(codec, tree, p) {
          var d := DigestOf(codec, tree[p].data);
          AddDigest(entries, p, d);
          entries := entries[p := d];
          total := total + d.size;
        }
        rest := rest - {p};
      }
      CollectedAll(codec, tree, entries);
    }

    /** All of the temporary directory: the marker first, then the inputs, then the manifests. */
    method FillTmp(n: Names, files: seq<(string, Bytes)>, meta: Meta, ghost before: Fs) returns (r: Outcome<()>)
      requires Distinct(n) && n.tmp in fs && fs[n.tmp] == Dir(map[], false)
      requires OnlyTemporaries(before, fs, n) && AllSafe(before, trace, n, BuildOf(codec, files, meta))
      modifies `clock, `fs, `trace
      ensures OnlyTemporaries(before, fs, n) && AllSafe(before, trace, n, BuildOf(codec, files, meta))
      ensures n.tmp in fs && fs[n.tmp].Dir?
      ensures SameBut(old(fs), fs, n.tmp)
      ensures r.Ok? ==> Acceptable(codec, files, meta) && fs[n.tmp].files == BuildOf(codec, files, meta)
      ensures Faultless() && Acceptable(codec, files, meta) ==> r.Ok?
    {
      ghost var tree := BuildOf(codec, files, meta);
      var ok := WriteTmp(n, MARKER, Marker(meta.family, meta.seed), before, tree);
      if !ok { return Err(OsFailure); }
      assert fs[n.tmp].files == PlainTree(map[], meta);
      var normalized := NormalizeAll(files);
      if normalized.Err? { return Err(normalized.error); }
      NormalizedNames(codec, files);
      if |normalized.value| > MAX_FILE_COUNT { return Err(OverLimit); }
      SmallerClashFree(codec, normalized.value, meta);
      r := WriteInputs(n, normalized.value, meta, before, tree);
      if r.Err? { return; }
      r := BuildManifests(n, meta, before, tree);
    }

    // -------------------------------------------------------------------------
    // Publishing.

    method RemoveBackup(n: Names, ghost before: Fs, ghost tree: Tree)
      requires Distinct(n) && AllSafe(before, trace, n, tree) && Safe(before, fs, n, tree) && FinalIs(fs, n, tree)
      modifies `clock, `fs, `trace
      ensures AllSafe(before, trace, n, tree) && Safe(before, fs, n, tree) && FinalIs(fs, n, tree)
      ensures n.backup in old(fs) && !old(fs)[n.backup].Dir? ==> fs == old(fs)
      ensures Faultless() && n.backup in old(fs) && old(fs)[n.backup].Dir? ==> n.backup !in fs
      ensures n.backup !in old(fs) ==> fs == old(fs)
    {
      if Exists(fs, n.backup) {
        ghost var was := fs;
        RemoveTree(n.backup);
        OtherName(before, was, fs, n, tree);
      }
    }

    /** Moves the previous target aside, renames the new build in, and puts the previous one back if that
        fails. */
    method Publish(n: Names, ghost before: Fs, ghost tree: Tree) returns (r: Outcome<()>)
      requires Distinct(n) && n.backup !in fs && n.tmp in fs && fs[n.tmp].Dir? && fs[n.tmp].files == tree
      requires OnlyTemporaries(before, fs, n) && AllSafe(before, trace, n, tree)
      modifies `clock, `fs, `trace
      ensures AllSafe(before, trace, n, tree) && Safe(before, fs, n, tree)
      ensures r.Ok? ==> FinalIs(fs, n, tree) && (n.final in before ==> Replaceable(before[n.final]))
      ensures r.Err? ==> n.tmp in fs && (FinalAsBefore(before, fs, n) || MovedAside(before, fs, n))
      ensures r.Err? ==> (n.diag in fs <==> n.diag in old(fs))
      ensures Faultless() ==> (r.Ok? <==> (n.final in before ==> Replaceable(before[n.final])))
      ensures Faultless() && r.Err? ==> FinalAsBefore(before, fs, n)
      ensures Faultless() && r.Ok? ==> (n.backup in fs <==> n.final in before && before[n.final].File?)
    {
      ghost var start := fs;
      if !Exists(fs, n.final) {
        var ok := Rename(n.tmp, n.final);
        if !ok { return Err(OsFailure); }
        return Ok(());
      }
      var node := fs[n.final];
      if node.Link? || (node.Dir? && !Empty(node) && !Managed(node)) { return Err(UnsafeDeletion); }
      r := Replace(n, before, tree);
    }

    method Replace(n: Names, ghost before: Fs, ghost tree: Tree) returns (r: Outcome<()>)
      requires Distinct(n) && n.backup !in fs && n.tmp in fs && fs[n.tmp].Dir? && fs[n.tmp].files == tree
      requires n.final in fs && Replaceable(fs[n.final])
      requires OnlyTemporaries(before, fs, n) && AllSafe(before, trace, n, tree)
      modifies `clock, `fs, `trace
      ensures AllSafe(before, trace, n, tree) && Safe(before, fs, n, tree)
      ensures r.Ok? ==> FinalIs(fs, n, tree)
      ensures r.Err? ==> n.tmp in fs && (FinalAsBefore(before, fs, n) || MovedAside(before, fs, n))
      ensures r.Err? ==> (n.diag in fs <==> n.diag in old(fs))
      ensures Faultless() ==> r.Ok? && (n.backup in fs <==> before[n.final].File?)
    {
      ghost var was, steps := fs, trace;
      var ok := ReserveSibling(n.backup);
      ReservedSafe(before, was, steps, trace, n.backup, n, tree);
      if !ok { return Err(OsFailure); }
      ok := Rename(n.final, n.backup);
      if !ok { return Err(OsFailure); }
      assert MovedAside(before, fs, n);
      var published := Rename(n.tmp, n.final);
      if !published {
        if !Exists(fs, n.final) {
          ok := Rename(n.backup, n.final);
          if !ok { return Err(OsFailure); }
        }
        return Err(OsFailure);
      }
      RemoveBackup(n, before, tree);
      r := Ok(());
    }

    /** Keeps the partial build under a fresh name, or removes it. */
    method KeepDiagnostics(n: Names, ghost before: Fs, ghost tree: Tree)
      requires Distinct(n) && n.tmp in fs && n.diag !in fs
      requires AllSafe(before, trace, n, tree) && Safe(before, fs, n, tree)
      modifies `clock, `fs, `trace
      ensures AllSafe(before, trace, n, tree)
      ensures At(fs, n.final) == At(old(fs), n.final) && At(fs, n.backup) == At(old(fs), n.backup)
      ensures forall x | x != n.tmp && x != n.diag :: At(fs, x) == At(old(fs), x)
    {
      ghost var was, steps := fs, trace;
      var ok := ReserveSibling(n.diag);
      TemporarySafe(before, was, was[n.diag := Dir(map[], false)], n, tree);
      ReservedSafe(before, was, steps, trace, n.diag, n, tree);
      ghost var mid := fs;
      TemporarySafe(before, was, mid, n, tree);
      if ok { ok := Rename(n.tmp, n.diag); }
      if !ok { RemoveTree(n.tmp); }
      TemporarySafe(before, mid, fs, n, tree);
    }

    /** Whatever call fails, and at whatever moment the run is cut off: every recorded state is safe. A build is
        published exactly as specified, or the previous target is back or kept aside; and without failures it is
        published exactly when the target may be replaced and the files make a build. */
    method WriteBuild(n: Names, files: seq<(string, Bytes)>, meta: Meta, force: bool, dangerous: bool)
      returns (r: Outcome<()>)
      requires FreshNames(fs, n) && trace == []
      modifies `clock, `fs, `trace
      ensures AllSafe(old(fs), trace, n, BuildOf(codec, files, meta))
      ensures r.Ok? ==> !dangerous && MayReplace(old(fs), n, force) && Acceptable(codec, files, meta)
      ensures r.Ok? ==> FinalIs(fs, n, BuildOf(codec, files, meta))
      ensures r.Err? ==> FinalAsBefore(old(fs), fs, n) || MovedAside(old(fs), fs, n)
      ensures Faultless() ==> (r.Ok? <==> !dangerous && MayReplace(old(fs), n, force) && Acceptable(codec, files, meta))
      ensures Faultless() && r.Err? ==> FinalAsBefore(old(fs), fs, n)
      ensures Faultless() && r.Ok? ==> (n.backup in fs <==> n.final in old(fs) && old(fs)[n.final].File?)
    {
      ghost var before, tree := fs, BuildOf(codec, files, meta);
      if dangerous { return Err(DangerousRoot); }
      if Exists(fs, n.final) {
        var node := fs[n.final];
        if node.Link? { return Err(UnsafeDeletion); }
        if !force { return Err(AlreadyExists); }
        if node.Dir? && !Empty(node) && !Managed(node) { return Err(UnsafeDeletion); }
      }
      var ok := MakeDir(n.tmp);
      if !ok { return Err(OsFailure); }
      r := FillTmp(n, files, meta, before);
      assert At(fs, n.diag).None? && At(fs, n.backup).None?;
      if r.Ok? { r := Publish(n, before, tree); }
      if r.Err? { KeepDiagnostics(n, before, tree); }
    }
  }

  /** A forced build over a regular file, without a failing call: the file stays behind as the backup. */
  method LeaveBackup(codec: Codec, meta: Meta, data: Bytes) returns (fs: Fs)
    ensures FinalIs(fs, Names("out", "tmp", "old", "diag"), BuildOf(codec, [], meta)) && "old" in fs
  {
    EmptyBuildAcceptable(codec, meta);
    var p := new Publisher(codec, Faults(k => false, k => {}), map["out" := File(data)]);
    var n := Names("out", "tmp", "old", "diag");
    assert n.final[0] != n.backup[1];
    var r := p.WriteBuild(n, [], meta, true, false);
    fs := p.fs;
  }

  lemma EmptyBuildAcceptable(codec: Codec, meta: Meta)
    ensures Acceptable(codec, [], meta)
  {
    var tree := BuildOf(codec, [], meta);
    assert Digests(codec, PlainTree(map[], meta)) == map[] && PublicOnly(map[]) == map[];
    assert tree.Keys == {MARKER, PRIVATE};
    assert (MARKER + "/")[0] == '.' && (PRIVATE + "/")[0] == 'p' && MARKER[0] == '.' && PRIVATE[0] == 'p';
    forall p, q | p in tree && q in tree ensures !Under(p, q) {}
  }

  /** The target is absent, or may be replaced and the caller asked for it. */
  predicate MayReplace(fs: Fs, n: Names, force: bool) { n.final in fs ==> force && Replaceable(fs[n.final]) }

  lemma NormalizeStep(codec: Codec, files: seq<(string, Bytes)>, i: nat)
    requires i < |files| && Normalize(codec, files[..i]).Ok?
    ensures
      var front := Normalize(codec, files[..i]).value;
      Normalize(codec, files[..i + 1]) ==
      match Validate(codec, files[i].0)
      case Err(e) => Err(e)
      case Ok(norm) => if FoldTaken(codec, front, norm) then Err(DuplicatePath) else Ok(front + [(norm, files[i].1)])
    ensures Normalize(codec, files[..i + 1]).Err? ==>
        Normalize(codec, files) == Err(Normalize(codec, files[..i + 1]).error)
  {
    assert files[..i + 1][..i] == files[..i];
    if Normalize(codec, files[..i + 1]).Err? { NormalizeFails(codec, files, i + 1); }
  }

  lemma {:induction false} NormalizeFails(codec: Codec, files: seq<(string, Bytes)>, i: nat)
    requires i <= |files| && Normalize(codec, files[..i]).Err?
    ensures Normalize(codec, files) == Err(Normalize(codec, files[..i]).error)
    decreases |files| - i
  {
    if i < |files| {
      assert files[..i + 1][..i] == files[..i];
      NormalizeFails(codec, files, i + 1);
    } else {
      assert files[..i] == files;
    }
  }

  lemma {:induction false} InputKept(normalized: seq<(string, Bytes)>, i: nat)
    requires i <= |normalized|
    ensures AsMap(normalized[..i]).Keys <= AsMap(normalized).Keys
    ensures TotalBytes(normalized[..i]) <= TotalBytes(normalized)
    decreases |normalized| - i
  {
    if i < |normalized| {
      assert normalized[..i + 1][..i] == normalized[..i];
      InputKept(normalized, i + 1);
    } else {
      assert normalized[..i] == normalized;
    }
  }

  lemma StepTree(normalized: seq<(string, Bytes)>, i: nat, meta: Meta)
    requires i < |normalized| && normalized[i].0 != MARKER
    ensures
      PlainTree(AsMap(normalized[..i + 1]), meta)
      == PlainTree(AsMap(normalized[..i]), meta)[normalized[i].0 := Plain(normalized[i].1)]
  {
    assert normalized[..i + 1][..i] == normalized[..i];
  }

  /** One more input in the tree: it clashes only when the whole tree is not clash-free. */
  lemma InputStep(normalized: seq<(string, Bytes)>, i: nat, meta: Meta)
    requires i < |normalized| && normalized[i].0 != MARKER
    ensures
      var tree, f := PlainTree(AsMap(normalized[..i]), meta), normalized[i];
      && TotalBytes(normalized[..i + 1]) == TotalBytes(normalized[..i]) + |f.1|
      && PlainTree(AsMap(normalized[..i + 1]), meta) == tree[f.0 := Plain(f.1)]
      && (ClashFree(tree) && !Clashes(tree, f.0) ==> ClashFree(tree[f.0 := Plain(f.1)]))
    ensures TotalBytes(normalized[..i + 1]) <= TotalBytes(normalized)
    ensures Clashes(PlainTree(AsMap(normalized[..i]), meta), normalized[i].0) ==>
        !ClashFree(PlainTree(AsMap(normalized), meta))
  {
    var tree, f := PlainTree(AsMap(normalized[..i]), meta), normalized[i];
    assert normalized[..i + 1][..i] == normalized[..i];
    StepTree(normalized, i, meta);
    InputKept(normalized, i);
    InputKept(normalized, i + 1);
    if Clashes(tree, f.0) {
      var q :| q in tree && (Under(q, f.0) || Under(f.0, q));
      var full := PlainTree(AsMap(normalized), meta);
      assert f.0 in AsMap(normalized[..i + 1]);
      assert q in full && f.0 in full;
    }
  }

  lemma AddDigest(entries: map<string, Digest>, p: string, d: Digest)
    requires p !in entries
    ensures TotalSize(entries[p := d]) == TotalSize(entries) + d.size
  {
    var f := (p: string) => if p in entries then entries[p].size else 0;
    var more := entries[p := d];
    var g := (p: string) => if p in more then more[p].size else 0;
    assert more.Keys == entries.Keys + {p};
    SumAdd(entries.Keys, g, p);
    SumSame(entries.Keys, f, g);
    SizesNonNegative(entries.Keys, f);
  }

  lemma {:induction false} SizesNonNegative(ps: set<string>, f: string -> int)
    requires forall p | p in ps :: f(p) >= 0
    ensures Sum(ps, f) >= 0
    decreases |ps|
  {
    if ps != {} {
      var p :| p in ps;
      SumTake(ps, f, p);
      SizesNonNegative(ps - {p}, f);
    }
  }

  lemma ClashGrows(tree: Tree, full: Tree, path: string)
    requires tree.Keys <= full.Keys && path in full
    ensures ClashFree(full) ==> !Clashes(tree, path)
  {}

  lemma SubtreeClashFree(tree: Tree, full: Tree)
    requires tree.Keys <= full.Keys && ClashFree(full)
    ensures ClashFree(tree)
  {}

  lemma ManifestSteps(codec: Codec, tree: Tree, meta: Meta)
    ensures
      var open := PublicOnly(Digests(codec, tree));
      var step := if open == map[] then tree else tree[PUBLIC := PublicManifest(open)];
      var full := WithManifests(codec, tree, meta);
      && (open != map[] && ClashFree(full) ==> !Clashes(tree, PUBLIC))
      && (ClashFree(full) ==> !Clashes(step, PRIVATE))
      && (open != map[] && ClashFree(tree) && !Clashes(tree, PUBLIC) ==> ClashFree(step))
      && (ClashFree(step) && !Clashes(step, PRIVATE) ==> ClashFree(full))
  {
    var files := Digests(codec, tree);
    var open := PublicOnly(files);
    var step := if open == map[] then tree else tree[PUBLIC := PublicManifest(open)];
    var full := WithManifests(codec, tree, meta);
    if open != map[] {
      ClashGrows(tree, full, PUBLIC);
    }
    ClashGrows(step, full, PRIVATE);
  }

  lemma SmallerClashFree(codec: Codec, normalized: seq<(string, Bytes)>, meta: Meta)
    ensures ClashFree(Build(codec, AsMap(normalized), meta)) ==> ClashFree(PlainTree(AsMap(normalized), meta))
  {
    var tree, full := PlainTree(AsMap(normalized), meta), Build(codec, AsMap(normalized), meta);
    assert tree.Keys <= full.Keys;
    if ClashFree(full) { SubtreeClashFree(tree, full); }
  }

  /** No normalised path is a build-management file. */
  lemma {:induction false} NormalizedNames(codec: Codec, files: seq<(string, Bytes)>)
    requires Normalize(codec, files).Ok?
    ensures forall f | f in Normalize(codec, files).value :: !ReservedOutput(codec, f.0) && f.0 != MARKER
    decreases |files|
  {
    if files != [] { NormalizedNames(codec, files[..|files| - 1]); }
  }

  lemma OtherName(before: Fs, was: Fs, now: Fs, n: Names, tree: Tree)
    requires Distinct(n) && Safe(before, was, n, tree) && FinalIs(was, n, tree)
    requires SameBut(was, now, n.backup)
    ensures Safe(before, now, n, tree) && FinalIs(now, n, tree)
  {}

  lemma ReservedSafe(before: Fs, was: Fs, steps: seq<Fs>, trace: seq<Fs>, name: string, n: Names, tree: Tree)
    requires AllSafe(before, steps, n, tree) && Safe(before, was, n, tree)
    requires Safe(before, was[name := Dir(map[], false)], n, tree)
    requires exists more ::
      trace == steps + more && forall t | t in more :: t == was || t == was[name := Dir(map[], false)]
    ensures AllSafe(before, trace, n, tree)
  {
    var more :| trace == steps + more && forall t | t in more :: t == was || t == was[name := Dir(map[], false)];
    forall t | t in trace ensures Safe(before, t, n, tree) { assert t in steps || t in more; }
  }

  ghost predicate Collected(codec: Codec, tree: Tree, rest: set<string>, entries: map<string, Digest>) {
    && (forall p :: p in entries <==> Listed(codec, tree, p) && p !in rest)
    && (forall p | p in entries :: entries[p] == DigestOf(codec, tree[p].data))
  }

  /** Changing the temporary and the diagnostics directory keeps a state safe. */
  lemma TemporarySafe(before: Fs, was: Fs, now: Fs, n: Names, tree: Tree)
    requires Distinct(n) && Safe(before, was, n, tree)
    requires forall x | x != n.tmp && x != n.diag :: At(now, x) == At(was, x)
    ensures Safe(before, now, n, tree)
  {
    assert At(now, n.final) == At(was, n.final) && At(now, n.backup) == At(was, n.backup);
  }

  // ---------------------------------------------------------------------------
  // What safety means for the directories that must not be lost.

  /** In no state is a non-empty, unmarked directory (or a link) at the target changed or removed. */
  lemma UnmarkedNeverRemoved(before: Fs, trace: seq<Fs>, n: Names, tree: Tree)
    requires AllSafe(before, trace, n, tree) && n.final in before && !Replaceable(before[n.final])
    ensures forall t | t in trace :: At(t, n.final) == At(before, n.final)
  {
    forall t | t in trace ensures At(t, n.final) == At(before, n.final) { assert Safe(before, t, n, tree); }
  }

  /** In every state a previous build is complete at the target or in the backup, unless the complete new build
      has taken its place. */
  lemma PreviousBuildSurvives(before: Fs, trace: seq<Fs>, n: Names, tree: Tree)
    requires AllSafe(before, trace, n, tree) && n.final in before
    ensures forall t | t in trace ::
              At(t, n.final) == Some(before[n.final]) || At(t, n.backup) == Some(before[n.final]) || FinalIs(t, n, tree)
  {
    forall t | t in trace
      ensures At(t, n.final) == Some(before[n.final]) || At(t, n.backup) == Some(before[n.final]) || FinalIs(t, n, tree)
    {
      assert Safe(before, t, n, tree);
    }
  }

  // ---------------------------------------------------------------------------
  // The paths of a build.

  lemma {:induction false} NormalizedApart(codec: Codec, files: seq<(string, Bytes)>)
    requires Normalize(codec, files).Ok?
    ensures
      var norm := Normalize(codec, files).value;
      forall i, j | 0 <= i < j < |norm| :: codec.fold(norm[i].0) != codec.fold(norm[j].0)
    decreases |files|
  {
    if files != [] {
      NormalizedApart(codec, files[..|files| - 1]);
      var norm := Normalize(codec, files).value;
      var n := |norm| - 1;
      forall i | 0 <= i < n ensures codec.fold(norm[i].0) != codec.fold(norm[n].0) { assert norm[i] in norm[..n]; }
    }
  }

  lemma {:induction false} AsMapKeys(norm: seq<(string, Bytes)>)
    ensures forall p :: p in AsMap(norm) <==> exists f | f in norm :: f.0 == p
    decreases |norm|
  {
    if norm != [] {
      var front, last := norm[..|norm| - 1], norm[|norm| - 1];
      AsMapKeys(front);
      forall p ensures p in AsMap(norm) <==> exists f | f in norm :: f.0 == p {
        if p in AsMap(front) {
          var f :| f in front && f.0 == p;
          assert f in norm;
        }
        if f :| f in norm && f.0 == p { assert f in front || f == last; }
        assert last in norm;
      }
    }
  }

  lemma BuildPaths(codec: Codec, files: seq<(string, Bytes)>, meta: Meta, p: string)
    requires Normalize(codec, files).Ok? && p in BuildOf(codec, files, meta)
    ensures p in {MARKER, PUBLIC, PRIVATE} || p in AsMap(Normalize(codec, files).value)
  {}

  lemma InputsApart(codec: Codec, norm: seq<(string, Bytes)>, p: string, q: string)
    requires forall i, j | 0 <= i < j < |norm| :: codec.fold(norm[i].0) != codec.fold(norm[j].0)
    requires p in AsMap(norm) && q in AsMap(norm) && codec.fold(p) == codec.fold(q)
    ensures p == q
  {
    AsMapKeys(norm);
    var f :| f in norm && f.0 == p;
    var g :| g in norm && g.0 == q;
    var i :| 0 <= i < |norm| && norm[i] == f;
    var j :| 0 <= j < |norm| && norm[j] == g;
    assert i == j;
  }

  lemma InputNotManagement(codec: Codec, files: seq<(string, Bytes)>, p: string)
    requires Normalize(codec, files).Ok? && p in AsMap(Normalize(codec, files).value)
    ensures !ReservedOutput(codec, p)
  {
    NormalizedNames(codec, files);
    AsMapKeys(Normalize(codec, files).value);
  }

  /** No two paths of a build differ only in case, for a folding under which the three management files are
      distinct. */
  lemma NoCaseCollision(codec: Codec, files: seq<(string, Bytes)>, meta: Meta, p: string, q: string)
    requires Normalize(codec, files).Ok?
    requires codec.fold(MARKER) != codec.fold(PUBLIC) && codec.fold(PUBLIC) != codec.fold(PRIVATE)
    requires codec.fold(PRIVATE) != codec.fold(MARKER)
    requires p in BuildOf(codec, files, meta) && q in BuildOf(codec, files, meta) && codec.fold(p) == codec.fold(q)
    ensures p == q
  {
    var norm := Normalize(codec, files).value;
    BuildPaths(codec, files, meta, p);
    BuildPaths(codec, files, meta, q);
    if p in AsMap(norm) { InputNotManagement(codec, files, p); }
    if q in AsMap(norm) { InputNotManagement(codec, files, q); }
    if p in AsMap(norm) && q in AsMap(norm) {
      NormalizedApart(codec, files);
      InputsApart(codec, norm, p, q);
    }
  }

  lemma {:induction false} KeptParts(parts: seq<string>)
    ensures forall p | p in Kept(parts) :: p in parts && p != "" && p != "."
    decreases |parts|
  {
    if parts != [] { KeptParts(parts[1..]); }
  }

  lemma {:induction false} KeepAll(parts: seq<string>)
    requires forall p | p in parts :: p != "" && p != "."
    ensures Kept(parts) == parts
    decreases |parts|
  {
    if parts != [] {
      assert parts[0] in parts && forall p | p in parts[1..] :: p in parts;
      KeepAll(parts[1..]);
    }
  }

  lemma {:induction false} SplitParts(s: string, c: char)
    ensures forall p | p in SplitOn(s, c) :: c !in p
    ensures forall p, d | p in SplitOn(s, c) && d in p :: d in s
    decreases |s|
  {
    var i := IndexOf(s, c);
    if i < |s| { SplitParts(s[i + 1..], c); }
  }

  lemma {:induction false} SplitJoin(parts: seq<string>, c: char)
    requires parts != [] && forall p | p in parts :: c !in p
    ensures SplitOn(JoinOn(parts, c), c) == parts
    decreases |parts|
  {
    if |parts| == 1 {
      assert parts[0] in parts;
    } else {
      assert parts[0] in parts && forall p | p in parts[1..] :: p in parts;
      SplitFirst(parts[0], c, JoinOn(parts[1..], c));
      SplitJoin(parts[1..], c);
    }
  }

  lemma {:induction false} JoinedChars(parts: seq<string>, c: char)
    ensures forall d | d in JoinOn(parts, c) :: d == c || exists p | p in parts :: d in p
    ensures parts != [] && parts[0] != "" ==> JoinOn(parts, c) != "" && JoinOn(parts, c)[0] == parts[0][0]
    decreases |parts|
  {
    if |parts| > 1 {
      var first, rest := parts[0], JoinOn(parts[1..], c);
      JoinedChars(parts[1..], c);
      forall d | d in JoinOn(parts, c) ensures d == c || exists p | p in parts :: d in p {
        if d in first { assert first in parts; }
        else if d in rest && d != c {
          var p :| p in parts[1..] && d in p;
          assert p in parts;
        }
      }
    }
  }

  /** Normalisation is a fixed point on what it accepts: the result is relative, has no empty, `.` or `..` part,
      and normalises to itself. */
  lemma NormalizedIsNormal(codec: Codec, rel: string)
    requires Validate(codec, rel).Ok?
    ensures
      var norm := Validate(codec, rel).value;
      && Validate(codec, norm) == Ok(norm)
      && forall p | p in SplitOn(norm, '/') :: p != "" && p != "." && p != ".."
  {
    var parts := Kept(SplitOn(rel, '/'));
    var norm := JoinOn(parts, '/');
    KeptParts(SplitOn(rel, '/'));
    SplitParts(rel, '/');
    forall p | p in parts ensures '/' !in p && GoodPart(codec, p) {}
    SplitJoin(parts, '/');
    KeepAll(parts);
    JoinedChars(parts, '/');
    assert parts[0] in parts;
    assert norm[0] == parts[0][0] && parts[0][0] in parts[0];
    forall d | d in norm ensures d != '\0' && d != '\\' {
      if d != '/' {
        var p :| p in parts && d in p;
        assert d in rel;
      }
    }
  }

  lemma CollectStep(codec: Codec, tree: Tree, rest: set<string>, entries: map<string, Digest>, p: string)
    requires Collected(codec, tree, rest, entries) && p in rest
    ensures p !in entries
    ensures
      if Listed(codec, tree, p)
      then Collected(codec, tree, rest - {p}, entries[p := DigestOf(codec, tree[p].data)])
      else Collected(codec, tree, rest - {p}, entries)
  {}

  lemma CollectedAll(codec: Codec, tree: Tree, entries: map<string, Digest>)
    requires Collected(codec, tree, {}, entries)
    ensures entries == Digests(codec, tree)
  {}
}
