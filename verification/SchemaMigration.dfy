/**
 Schema versions and the migration chain: for any registry of migrations, what `migrate` returns. Reading a
 version part as an integer is a parameter, and so are the migrations' effects on the document's body.
 */
module SchemaMigration {
  import opened Basics
  import opened Text

  /** A loaded document: its stamp, and everything else. */
  datatype Doc = Doc(schema: Option<string>, version: Option<string>, body: string)

  datatype Migration = Migration(to: string, apply: Doc -> Doc)

  /** Major and minor: what migrations are keyed by. */
  datatype Key = Key(major: int, minor: int)

  datatype Env = Env(
    toInt: string -> Option<int>, current: map<string, string>, registry: map<(string, Key), Migration>)

  datatype Error = UnknownSchema | Incompatible | Malformed | Gap | NotConverging

  type Outcome<T> = Result<T, Error>

  const MAX_STEPS := 64

  // ---------------------------------------------------------------------------
  // Versions.

  function ToInts(env: Env, parts: seq<string>): Option<seq<int>>
    decreases |parts|
  {
    if parts == [] then Some([])
    else
      match (env.toInt(parts[0]), ToInts(env, parts[1..]))
      case (Some(n), Some(rest)) => Some([n] + rest)
      case _ => None
  }

  /** One to three numbers, the missing ones zero; only the first two matter here. */
  function ParseKey(env: Env, version: string): Outcome<Key> {
    var parts := SplitOn(version, '.');
    if version == "" || |parts| > 3 then Err(Malformed)
    else
      match ToInts(env, parts)
      case None => Err(Malformed)
      case Some(nums) =>
        Ok(Key(if |nums| > 0 then nums[0] else 0, if |nums| > 1 then nums[1] else 0))
  }

  function CurrentKey(env: Env, schema: string): Outcome<Key> {
    if schema !in env.current then Err(UnknownSchema) else ParseKey(env, env.current[schema])
  }

  /** The key of a version with the current major. */
  function CheckCompatible(env: Env, schema: string, version: string): Outcome<Key> {
    match CurrentKey(env, schema)
    case Err(e) => Err(e)
    case Ok(cur) =>
      match ParseKey(env, version)
      case Err(e) => Err(e)
      case Ok(key) => if key.major != cur.major then Err(Incompatible) else Ok(key)
  }

  function Stamp(env: Env, schema: string, doc: Doc): Doc
    requires schema in env.current
  {
    doc.(schema := Some(schema), version := Some(env.current[schema]))
  }

  function VersionOf(doc: Doc): string {
    if doc.version.Some? && doc.version.value != "" then doc.version.value else "1.0"
  }

  // ---------------------------------------------------------------------------
  // The chain.

  /** One registered step from a key: the migrated document and its compatible new key. */
  function Step(env: Env, schema: string, doc: Doc, key: Key): Outcome<(Doc, Key)> {
    if (schema, key) !in env.registry then Err(Gap)
    else
      var m := env.registry[(schema, key)];
      match CheckCompatible(env, schema, m.to)
      case Err(e) => Err(e)
      case Ok(next) => Ok((m.apply(doc), next))
  }

  function Chain(env: Env, schema: string, doc: Doc, key: Key, cur: Key, steps: nat): Outcome<Doc>
    requires steps <= MAX_STEPS
    decreases MAX_STEPS - steps
  {
    if key == cur then Ok(doc)
    else
      match Step(env, schema, doc, key)
      case Err(e) => Err(e)
      case Ok((doc', key')) =>
        if steps + 1 > MAX_STEPS then Err(NotConverging) else Chain(env, schema, doc', key', cur, steps + 1)
  }

  function MigrateSpec(env: Env, schema: string, data: Doc): Outcome<Doc> {
    if data.schema.Some? && data.schema.value != schema then Err(UnknownSchema)
    else
      match CheckCompatible(env, schema, VersionOf(data))
      case Err(e) => Err(e)
      case Ok(key) =>
        var cur := CurrentKey(env, schema).value;
        if key.minor > cur.minor then Ok(if data.schema.None? then data.(schema := Some(schema)) else data)
        else
          match Chain(env, schema, data, key, cur, 0)
          case Err(e) => Err(e)
          case Ok(doc) => Ok(Stamp(env, schema, doc))
  }

  class Migrator {
    const toInt: string -> Option<int>
    const current: map<string, string>
    var registry: map<(string, Key), Migration>

    function Here(): Env
      reads this
    {
      Env(toInt, current, registry)
    }

    constructor (toInt: string -> Option<int>, current: map<string, string>)
      ensures Here() == Env(toInt, current, map[])
    {
      this.toInt, this.current := toInt, current;
      registry := map[];
    }

    /** Keyed by the source's major and minor; a later registration replaces an earlier one. */
    method Register(schema: string, from: string, m: Migration) returns (r: Outcome<()>)
      modifies this
      ensures match ParseKey(old(Here()), from)
              case Ok(key) => r.Ok? && registry == old(registry)[(schema, key) := m]
              case Err(e) => r == Err(e) && registry == old(registry)
    {
      var key := ParseKey(Here(), from);
      if key.Err? { return Err(key.error); }
      registry := registry[(schema, key.value) := m];
      r := Ok(());
    }

    /** At most 65 steps of the chain for any registry, cyclic ones included. */
    method Migrate(schema: string, data: Doc) returns (r: Outcome<Doc>)
      ensures r == MigrateSpec(Here(), schema, data)
    {
      var env := Here();
      var doc := data;
      if doc.schema.Some? && doc.schema.value != schema { return Err(UnknownSchema); }
      var checked := CheckCompatible(env, schema, VersionOf(doc));
      if checked.Err? { return Err(checked.error); }
      var key := checked.value;
      var cur := CurrentKey(env, schema).value;
      if key.minor > cur.minor {
        if doc.schema.None? { doc := doc.(schema := Some(schema)); }
        return Ok(doc);
      }
      ghost var start := key;
      var guard := 0;
      while key != cur
        invariant guard <= MAX_STEPS
        invariant Chain(env, schema, data, start, cur, 0) == Chain(env, schema, doc, key, cur, guard)
        decreases MAX_STEPS - guard
      {
        if (schema, key) !in registry { return Err(Gap); }
        var m := registry[(schema, key)];
        var apply := m.apply;
        doc := apply(doc);
        var next := CheckCompatible(env, schema, m.to);
        if next.Err? { return Err(next.error); }
        key := next.value;
        guard := guard + 1;
        if guard > MAX_STEPS { return Err(NotConverging); }
      }
      r := Ok(Stamp(env, schema, doc));
    }
  }

  // ---------------------------------------------------------------------------
  // Where the chain of keys leads.

  /** The key after one step, if the step is registered and keeps the major. */
  function Next(env: Env, schema: string, key: Key): Option<Key> {
    if (schema, key) !in env.registry then None
    else
      match CheckCompatible(env, schema, env.registry[(schema, key)].to)
      case Ok(next) => Some(next)
      case Err(_) => None
  }

  /** The key after n steps. */
  function Walk(env: Env, schema: string, key: Key, n: nat): Option<Key> {
    if n == 0 then Some(key)
    else match Walk(env, schema, key, n - 1) case None => None case Some(k) => Next(env, schema, k)
  }

  lemma {:induction false} WalkFirst(env: Env, schema: string, key: Key, n: nat)
    requires n > 0
    ensures Walk(env, schema, key, n) ==
      match Next(env, schema, key) case None => None case Some(k) => Walk(env, schema, k, n - 1)
  {
    if n > 1 { WalkFirst(env, schema, key, n - 1); } else { assert Walk(env, schema, key, 0) == Some(key); }
  }

  /** At most `bound` steps lead from one key to the other. */
  ghost predicate LeadsWithin(env: Env, schema: string, key: Key, cur: Key, bound: nat) {
    exists n: nat :: n <= bound && Walk(env, schema, key, n) == Some(cur)
  }

  /** The chain succeeds exactly when the registered steps lead to the current version within the bound. */
  lemma {:induction false} ChainExactly(env: Env, schema: string, doc: Doc, key: Key, cur: Key, steps: nat)
    requires steps <= MAX_STEPS
    ensures Chain(env, schema, doc, key, cur, steps).Ok? <==> LeadsWithin(env, schema, key, cur, MAX_STEPS - steps)
    decreases MAX_STEPS - steps
  {
    if key == cur {
      assert Walk(env, schema, key, 0) == Some(cur);
    } else {
      assert Walk(env, schema, key, 0) != Some(cur);
      if Next(env, schema, key).Some? && steps < MAX_STEPS {
        var next := Next(env, schema, key).value;
        ChainStep(env, schema, doc, key, cur, steps);
        ChainExactly(env, schema, env.registry[(schema, key)].apply(doc), next, cur, steps + 1);
        WalkShift(env, schema, key, next, cur, MAX_STEPS - steps);
      } else {
        ChainStops(env, schema, doc, key, cur, steps);
      }
    }
  }

  lemma ChainStep(env: Env, schema: string, doc: Doc, key: Key, cur: Key, steps: nat)
    requires steps < MAX_STEPS && key != cur && Next(env, schema, key).Some?
    ensures Chain(env, schema, doc, key, cur, steps)
         == Chain(env, schema, env.registry[(schema, key)].apply(doc), Next(env, schema, key).value, cur, steps + 1)
  {}

  lemma ChainStops(env: Env, schema: string, doc: Doc, key: Key, cur: Key, steps: nat)
    requires steps <= MAX_STEPS && key != cur && (Next(env, schema, key).None? || steps == MAX_STEPS)
    ensures Chain(env, schema, doc, key, cur, steps).Err?
    ensures forall n: nat | n <= MAX_STEPS - steps :: Walk(env, schema, key, n) != Some(cur)
  {
    forall n: nat | n <= MAX_STEPS - steps ensures Walk(env, schema, key, n) != Some(cur) {
      if n > 0 { WalkFirst(env, schema, key, n); }
    }
  }

  lemma WalkShift(env: Env, schema: string, key: Key, next: Key, cur: Key, bound: nat)
    requires bound > 0 && key != cur && Next(env, schema, key) == Some(next)
    ensures LeadsWithin(env, schema, key, cur, bound) <==> LeadsWithin(env, schema, next, cur, bound - 1)
  {
    if n: nat :| n <= bound && Walk(env, schema, key, n) == Some(cur) {
      assert n > 0;
      WalkFirst(env, schema, key, n);
      assert Walk(env, schema, next, n - 1) == Some(cur);
    }
    if n: nat :| n <= bound - 1 && Walk(env, schema, next, n) == Some(cur) {
      WalkFirst(env, schema, key, n + 1);
      assert Walk(env, schema, key, n + 1) == Some(cur);
    }
  }

  // ---------------------------------------------------------------------------
  // Main results.

  /** The document declares this schema, or none, and a readable version of the current major. */
  predicate Acceptable(env: Env, schema: string, data: Doc) {
    && (data.schema.Some? ==> data.schema.value == schema)
    && CheckCompatible(env, schema, VersionOf(data)).Ok?
  }

  /** Whatever the registry: a document goes through exactly when it is acceptable and either has a newer minor, and
      then comes back with its version untouched, or a contiguous chain of at most 64 registered steps, all of the
      current major, leads to the current version, which the result then carries. */
  lemma MigratesExactly(env: Env, schema: string, data: Doc)
    ensures
      var r := MigrateSpec(env, schema, data);
      if !Acceptable(env, schema, data) then
        r == Err(if data.schema.Some? && data.schema.value != schema then UnknownSchema
                 else CheckCompatible(env, schema, VersionOf(data)).error)
      else
        var key, cur := CheckCompatible(env, schema, VersionOf(data)).value, CurrentKey(env, schema).value;
        if key.minor > cur.minor then
          r == Ok(data.(schema := Some(schema)))
        else
          && (r.Ok? <==> LeadsWithin(env, schema, key, cur, MAX_STEPS))
          && (r.Ok? ==> r.value.schema == Some(schema) && r.value.version == Some(env.current[schema]))
  {
    if Acceptable(env, schema, data) {
      var key, cur := CheckCompatible(env, schema, VersionOf(data)).value, CurrentKey(env, schema).value;
      ChainExactly(env, schema, data, key, cur, 0);
    }
  }

  /** Migrating a result again changes nothing. */
  lemma MigrateIdempotent(env: Env, schema: string, data: Doc)
    requires MigrateSpec(env, schema, data).Ok?
    ensures MigrateSpec(env, schema, MigrateSpec(env, schema, data).value) == MigrateSpec(env, schema, data)
  {
    var doc := MigrateSpec(env, schema, data).value;
    var key, cur := CheckCompatible(env, schema, VersionOf(data)).value, CurrentKey(env, schema).value;
    if key.minor <= cur.minor {
      assert VersionOf(doc) == env.current[schema];
      assert CheckCompatible(env, schema, VersionOf(doc)) == Ok(cur);
      assert Chain(env, schema, doc, cur, cur, 0) == Ok(doc);
    } else {
      assert VersionOf(doc) == VersionOf(data);
    }
  }

  /** A chain of keys that comes back to where it was never reaches the current version, so it is refused. */
  lemma CyclesAreRefused(env: Env, schema: string, doc: Doc, key: Key, cur: Key, i: nat, j: nat)
    requires i < j && Walk(env, schema, key, i).Some? && Walk(env, schema, key, i) == Walk(env, schema, key, j)
    requires forall n: nat | n <= j :: Walk(env, schema, key, n) != Some(cur)
    ensures Chain(env, schema, doc, key, cur, 0).Err?
  {
    ChainExactly(env, schema, doc, key, cur, 0);
    var walk := (n: nat) => Walk(env, schema, key, n);
    var step := (at: Option<Key>) => Then(env, schema, at);
    forall n: nat ensures Steps(walk, step, n) { WalkNext(env, schema, key, n); }
    forall n: nat | n <= j ensures walk(n) != Some(cur) {}
    forall n: nat ensures Walk(env, schema, key, n) != Some(cur) {
      OrbitAvoids(walk, step, Some(cur), i, j, n);
      assert walk(n) != Some(cur);
    }
  }

  lemma {:induction false} OrbitAvoids<T(!new)>(walk: nat -> T, step: T -> T, bad: T, i: nat, j: nat, n: nat)
    requires i < j && walk(i) == walk(j) && forall k: nat :: Steps(walk, step, k)
    requires forall k: nat | k <= j :: walk(k) != bad
    ensures walk(n) != bad
    decreases n
  {
    if n > j {
      SameOrbit(walk, step, i, j, n - j);
      OrbitAvoids(walk, step, bad, i, j, i + (n - j));
    }
  }

  function Then(env: Env, schema: string, at: Option<Key>): Option<Key> {
    if at.None? then None else Next(env, schema, at.value)
  }

  lemma WalkNext(env: Env, schema: string, key: Key, n: nat)
    ensures Walk(env, schema, key, n + 1) == Then(env, schema, Walk(env, schema, key, n))
  {}

  ghost predicate Steps<T(!new)>(walk: nat -> T, step: T -> T, n: nat) { walk(n + 1) == step(walk(n)) }

  lemma {:induction false} SameOrbit<T(!new)>(walk: nat -> T, step: T -> T, i: nat, j: nat, d: nat)
    requires walk(i) == walk(j) && forall n: nat :: Steps(walk, step, n)
    ensures walk(i + d) == walk(j + d)
    decreases d
  {
    if d > 0 {
      SameOrbit(walk, step, i, j, d - 1);
      assert Steps(walk, step, i + d - 1) && Steps(walk, step, j + d - 1);
    }
  }

  /** 1.0 goes past the current 1.1 to 1.2, and 1.2 goes back. */
  function Overshooting(toInt: string -> Option<int>, same: Doc -> Doc): Env {
    Env(toInt, map["s" := "1.1"],
        map[("s", Key(1, 0)) := Migration("1.2", same), ("s", Key(1, 2)) := Migration("1.1", same)])
  }

  lemma SmallVersions(env: Env)
    requires env.toInt("0") == Some(0) && env.toInt("1") == Some(1) && env.toInt("2") == Some(2)
    ensures ParseKey(env, "1.0") == Ok(Key(1, 0)) && ParseKey(env, "1.1") == Ok(Key(1, 1)) &&
        ParseKey(env, "1.2") == Ok(Key(1, 2))
  {
    TwoParts(env, "1", "0");
    TwoParts(env, "1", "1");
    TwoParts(env, "1", "2");
    assert "1" + ['.'] + "0" == "1.0" && "1" + ['.'] + "1" == "1.1" && "1" + ['.'] + "2" == "1.2";
  }

  lemma OvershootSteps(env: Env, same: Doc -> Doc, doc: Doc)
    requires env == Overshooting(env.toInt, same) && same(doc) == doc
    requires env.toInt("0") == Some(0) && env.toInt("1") == Some(1) && env.toInt("2") == Some(2)
    ensures Step(env, "s", doc, Key(1, 0)) == Ok((doc, Key(1, 2)))
    ensures Step(env, "s", doc, Key(1, 2)) == Ok((doc, Key(1, 1)))
  {
    SmallVersions(env);
  }

  /** A migration that overshoots the current minor is not refused as such, only a gap after it is: here the
      document is stamped as current. */
  lemma OvershootCanPass(toInt: string -> Option<int>, same: Doc -> Doc, data: Doc)
    requires toInt("0") == Some(0) && toInt("1") == Some(1) && toInt("2") == Some(2)
    requires data.schema == None && data.version == Some("1.0") && same(data) == data
    ensures MigrateSpec(Overshooting(toInt, same), "s", data) == Ok(Doc(Some("s"), Some("1.1"), data.body))
  {
    var env := Overshooting(toInt, same);
    SmallVersions(env);
    OvershootSteps(env, same, data);
    assert Chain(env, "s", data, Key(1, 1), Key(1, 1), 2) == Ok(data);
    assert Chain(env, "s", data, Key(1, 2), Key(1, 1), 1) == Ok(data);
    assert Chain(env, "s", data, Key(1, 0), Key(1, 1), 0) == Ok(data);
  }

  /** Minor by minor from 1.0 to 1.n; `print` writes a number down. */
  function Ladder(toInt: string -> Option<int>, print_: nat -> string, same: Doc -> Doc, n: nat): Env {
    Env(toInt, map["s" := "1." + print_(n)],
        map k: nat | k < n :: ("s", Key(1, k)) := Migration("1." + print_(k + 1), same))
  }

  ghost predicate Numerals(toInt: string -> Option<int>, print_: nat -> string) {
    toInt("1") == Some(1) && forall k: nat :: '.' !in print_(k) && toInt(print_(k)) == Some(k)
  }

  lemma LadderRung(toInt: string -> Option<int>, print_: nat -> string, same: Doc -> Doc, n: nat, k: nat)
    requires Numerals(toInt, print_)
    ensures
      var env := Ladder(toInt, print_, same, n);
      && CheckCompatible(env, "s", "1." + print_(k)) == Ok(Key(1, k))
      && Next(env, "s", Key(1, k)) == if k < n then Some(Key(1, k + 1)) else None
  {
    var env := Ladder(toInt, print_, same, n);
    assert "1." == "1" + ['.'];
    TwoParts(env, "1", print_(n));
    TwoParts(env, "1", print_(k));
    TwoParts(env, "1", print_(k + 1));
  }

  /** The step from minor k, in a chain that ends at n. */
  ghost predicate Rung(env: Env, schema: string, n: nat, k: nat) {
    Next(env, schema, Key(1, k)) == if k < n then Some(Key(1, k + 1)) else None
  }

  lemma {:induction false} LadderWalk(env: Env, schema: string, n: nat, m: nat)
    requires forall k: nat :: Rung(env, schema, n, k)
    ensures Walk(env, schema, Key(1, 0), m) == if m <= n then Some(Key(1, m)) else None
    decreases m
  {
    if m > 0 {
      LadderWalk(env, schema, n, m - 1);
      assert Rung(env, schema, n, m - 1);
    }
  }

  lemma LadderReaches(env: Env, schema: string, n: nat, data: Doc)
    requires (forall k: nat :: Rung(env, schema, n, k)) && data.schema.None?
    requires CheckCompatible(env, schema, VersionOf(data)) == Ok(Key(1, 0)) && CurrentKey(env, schema) == Ok(Key(1, n))
    ensures MigrateSpec(env, schema, data).Ok? <==> n <= 64
  {
    MigratesExactly(env, schema, data);
    assert Acceptable(env, schema, data);
    LadderWalk(env, schema, n, n);
    forall m: nat | Walk(env, schema, Key(1, 0), m) == Some(Key(1, n)) ensures m == n { LadderWalk(env, schema, n, m); }
  }

  /** A complete chain of n minors is followed to its end exactly when n is at most 64: the 65th step is refused even
      though it arrives. */
  lemma LongLadderRefused(toInt: string -> Option<int>, print_: nat -> string, same: Doc -> Doc, n: nat, data: Doc)
    requires Numerals(toInt, print_) && data.schema.None? && data.version == Some("1." + print_(0))
    ensures MigrateSpec(Ladder(toInt, print_, same, n), "s", data).Ok? <==> n <= 64
  {
    var env := Ladder(toInt, print_, same, n);
    forall k: nat ensures Rung(env, "s", n, k) {
      LadderRung(toInt, print_, same, n, k);
    }
    LadderRung(toInt, print_, same, n, 0);
    LadderRung(toInt, print_, same, n, n);
    LadderReaches(env, "s", n, data);
  }

  lemma TwoParts(env: Env, a: string, b: string)
    requires '.' !in a && '.' !in b && env.toInt(a).Some? && env.toInt(b).Some?
    ensures ParseKey(env, a + ['.'] + b) == Ok(Key(env.toInt(a).value, env.toInt(b).value))
  {
    var x, y := env.toInt(a).value, env.toInt(b).value;
    SplitTwo(a, '.', b);
    OnePart(env, b);
    assert [a, b][1..] == [b];
    assert [x] + [y] == [x, y];
    assert ToInts(env, [a, b]) == Some([x, y]);
  }

  lemma OnePart(env: Env, b: string)
    requires env.toInt(b).Some?
    ensures ToInts(env, [b]) == Some([env.toInt(b).value])
  {
    assert [b][1..] == [];
    assert [env.toInt(b).value] + [] == [env.toInt(b).value];
  }
}
