/**
 The scoreboard fold: what the board of a set of solves is (a specification over sets, so the order and
 multiplicity of events cannot matter), and the loops that compute it from a list of events.
 */
module Scoreboard {
  import opened Basics

  datatype FirstBloodBonus = FirstBloodBonus(enabled: bool, bonusPoints: int, bonusPercent: real)

  datatype ChallengeConfig = ChallengeConfig(
    challengeId: string, initialValue: int, minimumValue: int,
    decayFunction: string, decay: int, firstBlood: FirstBloodBonus)

  datatype CompetitionConfig = CompetitionConfig(
    competitionId: string, startTime: int, endTime: int, defaultScoring: Option<ChallengeConfig>)

  /** `value` is the engine's challenge value already rounded; `bonus` the rounded first-blood amount. */
  datatype Engine = Engine(
    value: (ChallengeConfig, nat, CompetitionConfig, int) -> int,
    bonus: (FirstBloodBonus, int) -> int)

  datatype Rules = Rules(challenges: map<string, ChallengeConfig>, config: CompetitionConfig, engine: Engine)

  datatype SolveEvent = SolveEvent(
    team: string, challenge: string, solvedAt: int, submission: string, seed: Option<string>)

  /** The part of an event the board may depend on. */
  datatype Solve = Solve(team: string, challenge: string, solvedAt: int, submission: string)

  datatype ValueSnapshot = ValueSnapshot(challenge: string, value: int, solveCount: nat, computedAt: int)

  datatype Entry = Entry(team: string, score: int, solveCount: nat, lastSolveAt: Option<int>, rank: nat)

  datatype Snapshot = Snapshot(competitionId: string, generatedAt: int, entries: seq<Entry>, frozen: bool)

  /** `KeyError`: no scoring configuration for this challenge and no competition default. */
  type Outcome<T> = Result<T, string>

  // ---------------------------------------------------------------------------
  // Specification.

  function Core(e: SolveEvent): Solve { Solve(e.team, e.challenge, e.solvedAt, e.submission) }

  function Cores(events: seq<SolveEvent>): set<Solve> { set e | e in events :: Core(e) }

  predicate Included(at: int, asOf: Option<int>) { asOf.None? || at <= asOf.value }

  function InTime(s: set<Solve>, asOf: Option<int>): set<Solve> { set a | a in s && Included(a.solvedAt, asOf) }

  predicate Earlier(a: Solve, b: Solve) {
    || a.solvedAt < b.solvedAt
    || (a.solvedAt == b.solvedAt &&
        (Less(a.submission, b.submission) || (a.submission == b.submission && Less(a.team, b.team))))
  }

  predicate SamePair(a: Solve, b: Solve) { a.team == b.team && a.challenge == b.challenge }

  /** The earliest solve of each (team, challenge) pair. */
  ghost function Canonical(s: set<Solve>): set<Solve> {
    set a | a in s && forall b | b in s && SamePair(a, b) :: !Earlier(b, a)
  }

  ghost function OfTeam(s: set<Solve>, team: string): set<Solve> { set a | a in s && a.team == team }

  ghost function SolversOf(s: set<Solve>, challenge: string): set<Solve> { set a | a in s && a.challenge == challenge }

  ghost function TeamsOf(s: set<Solve>): set<string> { set a | a in s :: a.team }

  ghost function ChallengesOf(s: set<Solve>): set<string> { set a | a in s :: a.challenge }

  function Now(config: CompetitionConfig, asOf: Option<int>): int {
    if asOf.Some? then asOf.value else config.endTime
  }

  function Resolve(challenge: string, rules: Rules): Option<ChallengeConfig> {
    if challenge in rules.challenges then Some(rules.challenges[challenge])
    else if rules.config.defaultScoring.Some? then
      Some(rules.config.defaultScoring.value.(challengeId := challenge))
    else None
  }

  /** A challenge's value, computed once from the solves it has at the render time. */
  ghost function ValueOf(c: set<Solve>, challenge: string, rules: Rules, now: int): int {
    match Resolve(challenge, rules)
    case Some(cfg) => rules.engine.value(cfg, |SolversOf(c, challenge)|, rules.config, now)
    case None => 0
  }

  ghost function BonusOf(c: set<Solve>, challenge: string, rules: Rules, now: int): int {
    match Resolve(challenge, rules)
    case Some(cfg) =>
      if cfg.firstBlood.enabled then rules.engine.bonus(cfg.firstBlood, ValueOf(c, challenge, rules, now)) else 0
    case None => 0
  }

  ghost predicate FirstBlood(c: set<Solve>, a: Solve) {
    a in c && forall b | b in c && b.challenge == a.challenge :: !Earlier(b, a)
  }

  ghost function Points(c: set<Solve>, rules: Rules, now: int): Solve -> int {
    (a: Solve) =>
      ValueOf(c, a.challenge, rules, now) + (if FirstBlood(c, a) then BonusOf(c, a.challenge, rules, now) else 0)
  }

  ghost predicate IsLatest(s: set<Solve>, at: int) {
    (exists a :: a in s && a.solvedAt == at) && forall a | a in s :: a.solvedAt <= at
  }

  lemma {:induction false} LatestExists(s: set<Solve>)
    requires s != {}
    ensures exists at :: IsLatest(s, at)
    decreases |s|
  {
    var a :| a in s;
    if s == {a} {
      assert IsLatest(s, a.solvedAt);
    } else {
      LatestExists(s - {a});
      var at :| IsLatest(s - {a}, at);
      assert IsLatest(s, if a.solvedAt > at then a.solvedAt else at);
    }
  }

  ghost function LatestAt(s: set<Solve>): int
    requires s != {}
    ensures IsLatest(s, LatestAt(s))
  {
    LatestExists(s);
    var at :| IsLatest(s, at);
    at
  }

  ghost function EntryOf(c: set<Solve>, team: string, rules: Rules, now: int): Entry
    requires team in TeamsOf(c)
  {
    var mine := OfTeam(c, team);
    assert mine != {} by { var a :| a in c && a.team == team; assert a in mine; }
    Entry(team, Sum(mine, Points(c, rules, now)), |mine|, Some(LatestAt(mine)), 0)
  }

  ghost function EntrySet(c: set<Solve>, rules: Rules, now: int): set<Entry> {
    set team | team in TeamsOf(c) :: EntryOf(c, team, rules, now)
  }

  predicate LastBefore(a: Option<int>, b: Option<int>) {
    (a.Some? && b.None?) || (a.Some? && b.Some? && a.value < b.value)
  }

  /** Higher score first, then the earlier last solve, then the team name. */
  predicate RankBefore(a: Entry, b: Entry) {
    || a.score > b.score
    || (a.score == b.score &&
        (LastBefore(a.lastSolveAt, b.lastSolveAt) || (a.lastSolveAt == b.lastSolveAt && Less(a.team, b.team))))
  }

  function Ranked(entries: seq<Entry>): (r: seq<Entry>)
    ensures |r| == |entries|
    ensures forall i | 0 <= i < |r| :: r[i] == entries[i].(rank := i + 1)
  {
    seq(|entries|, i requires 0 <= i < |entries| => entries[i].(rank := i + 1))
  }

  ghost function Missing(s: set<Solve>, rules: Rules): set<string> {
    set c | c in ChallengesOf(s) && Resolve(c, rules).None?
  }

  /** The board of a set of solves: the reference every computation is held to. */
  ghost function Board(s: set<Solve>, rules: Rules, asOf: Option<int>): Outcome<Snapshot> {
    BoardOf(InTime(s, asOf), rules, Now(rules.config, asOf), asOf.Some?)
  }

  ghost function BoardOf(s: set<Solve>, rules: Rules, now: int, frozen: bool): Outcome<Snapshot> {
    var missing := SortBy(Less, Enumerate(Missing(s, rules)));
    if missing != [] then Err(missing[0])
    else Ok(Snapshot(rules.config.competitionId, now, Standings(Canonical(s), rules, now), frozen))
  }

  ghost function Standings(c: set<Solve>, rules: Rules, now: int): seq<Entry> {
    Ranked(SortBy(RankBefore, Enumerate(EntrySet(c, rules, now))))
  }

  // ---------------------------------------------------------------------------
  // Orders.

  lemma LessTotal(ids: set<string>)
    ensures StrictTotalOn(Less, ids)
  {
    forall x, y ensures Less(x, y) || x == y || Less(y, x) { LessTrichotomy(x, y); }
    forall x, y ensures !(Less(x, y) && Less(y, x)) { LessTrichotomy(x, y); }
    forall x, y, z | Less(x, y) && Less(y, z) ensures Less(x, z) { LessTransitive(x, y, z); }
  }

  lemma EarlierTotal(a: Solve, b: Solve)
    ensures Earlier(a, b) || Earlier(b, a) || (a.solvedAt == b.solvedAt && a.submission == b.submission &&
        a.team == b.team)
    ensures !(Earlier(a, b) && Earlier(b, a))
    ensures a.solvedAt == b.solvedAt && a.submission == b.submission && a.team == b.team ==> !Earlier(a, b)
  {
    LessTrichotomy(a.submission, b.submission);
    LessTrichotomy(a.team, b.team);
  }

  lemma EarlierTransitive(a: Solve, b: Solve, c: Solve)
    requires Earlier(a, b) && Earlier(b, c)
    ensures Earlier(a, c)
  {
    if Less(a.submission, b.submission) && Less(b.submission, c.submission) {
      LessTransitive(a.submission, b.submission, c.submission);
    }
    if Less(a.team, b.team) && Less(b.team, c.team) { LessTransitive(a.team, b.team, c.team); }
  }

  lemma RankTotal(s: set<Entry>)
    requires forall a, b | a in s && b in s && a.team == b.team :: a == b
    ensures StrictTotalOn(RankBefore, s)
  {
    forall x, y | x in s && y in s ensures RankBefore(x, y) || x == y || RankBefore(y, x) {
      LessTrichotomy(x.team, y.team);
    }
    forall x, y ensures !(RankBefore(x, y) && RankBefore(y, x)) { LessTrichotomy(x.team, y.team); }
    forall x, y, z | RankBefore(x, y) && RankBefore(y, z) ensures RankBefore(x, z) {
      if Less(x.team, y.team) && Less(y.team, z.team) { LessTransitive(x.team, y.team, z.team); }
    }
  }

  // ---------------------------------------------------------------------------
  // Canonical solves.

  lemma CanonicalPairsUnique(s: set<Solve>, a: Solve, b: Solve)
    requires a in Canonical(s) && b in Canonical(s) && SamePair(a, b)
    ensures a == b
  {
    EarlierTotal(a, b);
  }

  /** Every solve is matched by a canonical one that is not later. */
  lemma {:induction false} CanonicalCovers(s: set<Solve>, a: Solve) returns (m: Solve)
    requires a in s
    ensures m in Canonical(s) && SamePair(a, m) && !Earlier(a, m)
    decreases set b | b in s && Earlier(b, a)
  {
    EarlierTotal(a, a);
    if b :| b in s && SamePair(a, b) && Earlier(b, a) {
      EarlierTotal(b, b);
      forall x | x in s && Earlier(x, b) ensures Earlier(x, a) { EarlierTransitive(x, b, a); }
      var below, mine := set x | x in s && Earlier(x, b), set x | x in s && Earlier(x, a);
      assert b in mine && b !in below && below <= mine;
      m := CanonicalCovers(s, b);
      if Earlier(a, m) { EarlierTransitive(b, a, m); }
    } else {
      m := a;
    }
  }

  /** Dedupe-by-minimum commutes with the time filter. */
  lemma CanonicalCommutesWithFilter(s: set<Solve>, asOf: Option<int>)
    ensures Canonical(InTime(s, asOf)) == InTime(Canonical(s), asOf)
  {
    forall a | a in Canonical(InTime(s, asOf)) ensures a in Canonical(s) {
      forall b | b in s && SamePair(a, b) ensures !Earlier(b, a) {
        assert Earlier(b, a) ==> b in InTime(s, asOf);
      }
    }
  }

  lemma SolversDistinctTeams(s: set<Solve>, challenge: string)
    ensures forall a, b | a in SolversOf(Canonical(s), challenge) && b in SolversOf(Canonical(s), challenge) &&
        a.team == b.team :: a == b
  {
    forall a, b | a in SolversOf(Canonical(s), challenge) && b in SolversOf(Canonical(s), challenge) && a.team == b.team
      ensures a == b
    {
      CanonicalPairsUnique(s, a, b);
    }
  }

  // ---------------------------------------------------------------------------
  // The loops.

  function FilterSolves(events: seq<SolveEvent>, asOf: Option<int>): (r: seq<SolveEvent>)
    ensures Cores(r) == InTime(Cores(events), asOf)
  {
    if events == [] then []
    else
      assert events == [events[0]] + events[1..];
      assert Cores(events) == {Core(events[0])} + Cores(events[1..]);
      var rest := FilterSolves(events[1..], asOf);
      assert Cores([events[0]] + rest) == {Core(events[0])} + Cores(rest);
      if Included(events[0].solvedAt, asOf) then [events[0]] + rest else rest
  }

  predicate EarlierEvent(a: SolveEvent, b: SolveEvent) { Earlier(Core(a), Core(b)) }

  ghost predicate DistinctPairs(events: seq<SolveEvent>) {
    forall i, j | 0 <= i < j < |events| :: !SamePair(Core(events[i]), Core(events[j]))
  }

  function PairOf(e: SolveEvent): (string, string) { (e.team, e.challenge) }

  /** `canonical` keeps, for every pair seen in `solves`, an earliest solve of that pair. */
  ghost predicate KeepsEarliest(canonical: map<(string, string), SolveEvent>, solves: seq<SolveEvent>) {
    && (forall k | k in canonical :: PairOf(canonical[k]) == k && canonical[k] in solves)
    && (forall e | e in solves :: PairOf(e) in canonical && !EarlierEvent(e, canonical[PairOf(e)]))
  }

  lemma KeepsEarliestIsCanonical(canonical: map<(string, string), SolveEvent>, solves: seq<SolveEvent>)
    requires KeepsEarliest(canonical, solves)
    ensures (set k | k in canonical :: Core(canonical[k])) == Canonical(Cores(solves))
  {
    forall k | k in canonical ensures Core(canonical[k]) in Canonical(Cores(solves)) {
      forall b | b in Cores(solves) && SamePair(Core(canonical[k]), b) ensures !Earlier(b, Core(canonical[k])) {
        var e :| e in solves && Core(e) == b;
        assert PairOf(e) == k;
      }
    }
    forall a | a in Canonical(Cores(solves)) ensures exists k :: k in canonical && Core(canonical[k]) == a {
      var e :| e in solves && Core(e) == a;
      var m := canonical[PairOf(e)];
      assert Core(m) in Cores(solves);
      EarlierTotal(a, Core(m));
    }
  }

  lemma KeepsEarliestStep(canonical: map<(string, string), SolveEvent>, solves: seq<SolveEvent>, solve: SolveEvent)
    requires KeepsEarliest(canonical, solves)
    ensures PairOf(solve) !in canonical ==> KeepsEarliest(canonical[PairOf(solve) := solve], solves + [solve])
    ensures PairOf(solve) in canonical && EarlierEvent(solve, canonical[PairOf(solve)])
            ==> KeepsEarliest(canonical[PairOf(solve) := solve], solves + [solve])
    ensures PairOf(solve) in canonical && !EarlierEvent(solve, canonical[PairOf(solve)])
            ==> KeepsEarliest(canonical, solves + [solve])
  {
    EarlierTotal(Core(solve), Core(solve));
    var key := PairOf(solve);
    if key in canonical && EarlierEvent(solve, canonical[key]) {
      forall e | e in solves && PairOf(e) == key ensures !EarlierEvent(e, solve) {
        if EarlierEvent(e, solve) { EarlierTransitive(Core(e), Core(solve), Core(canonical[key])); }
      }
    }
  }

  method DedupeSolves(solves: seq<SolveEvent>) returns (r: seq<SolveEvent>)
    ensures DistinctPairs(r)
    ensures Cores(r) == Canonical(Cores(solves))
  {
    var canonical: map<(string, string), SolveEvent> := map[];
    var keys: seq<(string, string)> := [];
    for i := 0 to |solves|
      invariant NoDup(keys) && Elems(keys) == canonical.Keys
      invariant KeepsEarliest(canonical, solves[..i])
    {
      var solve := solves[i];
      var key := PairOf(solve);
      KeepsEarliestStep(canonical, solves[..i], solve);
      assert solves[..i + 1] == solves[..i] + [solve];
      if key !in canonical {
        assert key !in Elems(keys);
        keys := keys + [key];
        canonical := canonical[key := solve];
      } else if EarlierEvent(solve, canonical[key]) {
        canonical := canonical[key := solve];
      }
    }
    assert solves[..|solves|] == solves;
    KeepsEarliestIsCanonical(canonical, solves);
    r := ValuesInOrder(canonical, keys);
  }

  /** The values of an insertion-ordered dictionary. */
  function ValuesInOrder(m: map<(string, string), SolveEvent>, keys: seq<(string, string)>): (r: seq<SolveEvent>)
    requires NoDup(keys) && Elems(keys) == m.Keys
    requires forall k | k in m :: PairOf(m[k]) == k
    ensures Cores(r) == (set k | k in m :: Core(m[k]))
    ensures DistinctPairs(r)
  {
    var r := seq(|keys|, i requires 0 <= i < |keys| => assert keys[i] in Elems(keys); m[keys[i]]);
    assert forall i | 0 <= i < |r| :: keys[i] in Elems(keys) && r[i] == m[keys[i]];
    assert Cores(r) == (set k | k in m :: Core(m[k])) by {
      forall k | k in m ensures m[k] in r {
        assert k in Elems(keys);
        var i :| 0 <= i < |keys| && keys[i] == k;
        assert r[i] == m[k];
      }
    }
    assert DistinctPairs(r) by {
      forall i, j | 0 <= i < j < |r| ensures !SamePair(Core(r[i]), Core(r[j])) {
        assert PairOf(r[i]) == keys[i] && PairOf(r[j]) == keys[j];
      }
    }
    r
  }

  lemma CanonicalChallenges(s: set<Solve>)
    ensures ChallengesOf(Canonical(s)) == ChallengesOf(s)
  {
    forall c | c in ChallengesOf(s) ensures c in ChallengesOf(Canonical(s)) {
      var a :| a in s && a.challenge == c;
      var m := CanonicalCovers(s, a);
    }
  }

  /** The elements of a set, in some order. */
  method ListIds(ids: set<string>) returns (list: seq<string>)
    ensures NoDup(list) && Elems(list) == ids
  {
    var rest := ids;
    list := [];
    while rest != {}
      invariant rest <= ids && Elems(list) == ids - rest && NoDup(list)
      decreases rest
    {
      var id :| id in rest;
      assert id !in Elems(list);
      ElemsAppend(list, id);
      list := list + [id];
      rest := rest - {id};
    }
  }

  method SortedIds(ids: set<string>) returns (r: seq<string>)
    ensures r == SortBy(Less, Enumerate(ids))
    ensures Ascending(Less, r) && Elems(r) == ids
  {
    var list := ListIds(ids);
    r := SortBy(Less, list);
    LessTotal(ids);
    SortByAscending(Less, list);
    SortByAscending(Less, Enumerate(ids));
    AscendingUnique(Less, r, SortBy(Less, Enumerate(ids)));
  }

  ghost predicate Counted(counts: map<string, nat>, done: set<Solve>) {
    && counts.Keys == ChallengesOf(done)
    && forall c | c in counts :: counts[c] == |SolversOf(done, c)|
  }

  function Bump(counts: map<string, nat>, id: string): map<string, nat> {
    counts[id := (if id in counts then counts[id] else 0) + 1]
  }

  lemma CountedStep(counts: map<string, nat>, done: set<Solve>, a: Solve)
    requires Counted(counts, done) && a !in done
    ensures Counted(Bump(counts, a.challenge), done + {a})
  {
    var next := Bump(counts, a.challenge);
    assert ChallengesOf(done + {a}) == ChallengesOf(done) + {a.challenge};
    forall c | c in next ensures next[c] == |SolversOf(done + {a}, c)| {
      SolversStep(done, a, c);
    }
  }

  lemma SolversStep(done: set<Solve>, a: Solve, c: string)
    requires a !in done
    ensures |SolversOf(done + {a}, c)| == |SolversOf(done, c)| + (if c == a.challenge then 1 else 0)
    ensures c !in ChallengesOf(done) ==> |SolversOf(done, c)| == 0
  {
    if c == a.challenge {
      assert SolversOf(done + {a}, c) == SolversOf(done, c) + {a};
    } else {
      assert SolversOf(done + {a}, c) == SolversOf(done, c);
    }
    if c !in ChallengesOf(done) { assert SolversOf(done, c) == {}; }
  }

  method CountSolves(solves: seq<SolveEvent>) returns (counts: map<string, nat>)
    requires DistinctPairs(solves)
    ensures Counted(counts, Cores(solves))
  {
    counts := map[];
    ghost var done: set<Solve> := {};
    for i := 0 to |solves|
      invariant done == Cores(solves[..i])
      invariant Counted(counts, done)
    {
      var challenge := solves[i].challenge;
      CoresStep(solves, i);
      CountedStep(counts, done, Core(solves[i]));
      done := done + {Core(solves[i])};
      counts := Bump(counts, challenge);
    }
    assert solves[..|solves|] == solves;
  }

  lemma CoresStep(solves: seq<SolveEvent>, i: nat)
    requires i < |solves| && DistinctPairs(solves)
    ensures Cores(solves[..i + 1]) == Cores(solves[..i]) + {Core(solves[i])}
    ensures Core(solves[i]) !in Cores(solves[..i])
  {
    assert solves[..i + 1] == solves[..i] + [solves[i]];
    forall e | e in solves[..i] ensures Core(e) != Core(solves[i]) {
      var j :| 0 <= j < i && solves[j] == e;
      assert !SamePair(Core(solves[j]), Core(solves[i]));
    }
  }

  lemma FirstIsLeast(s: seq<string>, x: string)
    requires Ascending(Less, s) && x in s
    requires forall y | y in s :: y == x || Less(x, y)
    ensures s[0] == x
  {
    LessTrichotomy(s[0], x);
    assert s[0] in s;
  }

  ghost function ValueRow(c: set<Solve>, rules: Rules, now: int): string -> ValueSnapshot {
    (id: string) => ValueSnapshot(id, ValueOf(c, id, rules, now), |SolversOf(c, id)|, now)
  }

  /** Every configured or solved challenge, in id order, at its value as of the render time. */
  ghost function Values(s: set<Solve>, rules: Rules, asOf: Option<int>): Outcome<seq<ValueSnapshot>> {
    ValuesOf(InTime(s, asOf), rules, Now(rules.config, asOf))
  }

  ghost function ValuesOf(s: set<Solve>, rules: Rules, now: int): Outcome<seq<ValueSnapshot>> {
    var missing := SortBy(Less, Enumerate(Missing(s, rules)));
    if missing != [] then Err(missing[0])
    else Ok(Rows(SortBy(Less, Enumerate(rules.challenges.Keys + ChallengesOf(s))), ValueRow(Canonical(s), rules, now)))
  }

  ghost function Rows(ids: seq<string>, row: string -> ValueSnapshot): (r: seq<ValueSnapshot>)
    ensures |r| == |ids| && forall i | 0 <= i < |ids| :: r[i] == row(ids[i])
  {
    seq(|ids|, i requires 0 <= i < |ids| => row(ids[i]))
  }

  lemma MissingSorted(s: set<Solve>, rules: Rules) returns (missing: seq<string>)
    ensures missing == SortBy(Less, Enumerate(Missing(s, rules)))
    ensures Ascending(Less, missing) && Elems(missing) == Missing(s, rules)
    ensures missing == [] <==> Missing(s, rules) == {}
  {
    missing := SortBy(Less, Enumerate(Missing(s, rules)));
    LessTotal(Missing(s, rules));
    SortByAscending(Less, Enumerate(Missing(s, rules)));
    ElemsNonEmpty(missing);
  }

  /** A row per id, or the first id that has no configuration. */
  ghost predicate LoopResult(
    ids: seq<string>, r: Outcome<seq<ValueSnapshot>>, c: set<Solve>, rules: Rules, now: int)
  {
    match r
    case Ok(rows) =>
      && (forall id | id in ids :: Resolve(id, rules).Some?)
      && |rows| == |ids|
      && forall i | 0 <= i < |ids| :: rows[i] == ValueRow(c, rules, now)(ids[i])
    case Err(id) =>
      exists i :: 0 <= i < |ids| && id == ids[i] && Resolve(ids[i], rules).None? &&
                  forall k | 0 <= k < i :: Resolve(ids[k], rules).Some?
  }

  method ValueLoop(ids: seq<string>, counts: map<string, nat>, rules: Rules, now: int, ghost c: set<Solve>)
    returns (r: Outcome<seq<ValueSnapshot>>)
    requires Counted(counts, c)
    ensures LoopResult(ids, r, c, rules, now)
  {
    var snapshots: seq<ValueSnapshot> := [];
    for i := 0 to |ids|
      invariant |snapshots| == i
      invariant forall k | 0 <= k < i :: Resolve(ids[k], rules).Some?
      invariant forall k | 0 <= k < i :: snapshots[k] == ValueRow(c, rules, now)(ids[k])
    {
      var id := ids[i];
      match Resolve(id, rules)
      case None => return Err(id);
      case Some(cfg) =>
        var count := if id in counts then counts[id] else 0;
        assert id !in counts ==> SolversOf(c, id) == {};
        snapshots := snapshots + [ValueSnapshot(id, rules.engine.value(cfg, count, rules.config, now), count, now)];
    }
    r := Ok(snapshots);
  }

  lemma FirstMissing(ids: seq<string>, i: nat, s: set<Solve>, rules: Rules)
    requires Ascending(Less, ids) && Elems(ids) == rules.challenges.Keys + ChallengesOf(s)
    requires i < |ids| && Resolve(ids[i], rules).None? && forall k | 0 <= k < i :: Resolve(ids[k], rules).Some?
    ensures SortBy(Less, Enumerate(Missing(s, rules))) != []
    ensures SortBy(Less, Enumerate(Missing(s, rules)))[0] == ids[i]
  {
    var missing := MissingSorted(s, rules);
    assert ids[i] in Elems(ids);
    assert ids[i] in Elems(missing);
    forall y | y in missing ensures y == ids[i] || Less(ids[i], y) {
      assert y in Elems(missing);
      assert y in Elems(ids);
      var k :| 0 <= k < |ids| && ids[k] == y;
    }
    FirstIsLeast(missing, ids[i]);
  }

  lemma ValueLoopMeetsSpec(ids: seq<string>, r: Outcome<seq<ValueSnapshot>>, s: set<Solve>, rules: Rules, now: int)
    requires Ascending(Less, ids)
    requires ids == SortBy(Less, Enumerate(rules.challenges.Keys + ChallengesOf(s)))
    requires Elems(ids) == rules.challenges.Keys + ChallengesOf(s)
    requires LoopResult(ids, r, Canonical(s), rules, now)
    ensures r == ValuesOf(s, rules, now)
  {
    if r.Err? {
      var i :| 0 <= i < |ids| && r.error == ids[i] && Resolve(ids[i], rules).None? &&
               forall k | 0 <= k < i :: Resolve(ids[k], rules).Some?;
      FirstMissing(ids, i, s, rules);
    } else {
      var missing := MissingSorted(s, rules);
      assert forall id | id in Elems(ids) :: Resolve(id, rules).Some?;
      assert r.value == Rows(ids, ValueRow(Canonical(s), rules, now));
    }
  }

  method ComputeChallengeValues(events: seq<SolveEvent>, rules: Rules, asOf: Option<int>)
    returns (r: Outcome<seq<ValueSnapshot>>)
    ensures r == Values(Cores(events), rules, asOf)
  {
    var now := Now(rules.config, asOf);
    var solves := DedupeSolves(FilterSolves(events, asOf));
    var counts := CountSolves(solves);
    ghost var included := InTime(Cores(events), asOf);
    CanonicalChallenges(included);
    var ids := SortedIds(rules.challenges.Keys + counts.Keys);
    r := ValueLoop(ids, counts, rules, now, Canonical(included));
    ValueLoopMeetsSpec(ids, r, included, rules, now);
  }

  // ---------------------------------------------------------------------------
  // The board loop.

  /** The three dictionaries of the fold after the solves in `done` have been counted. */
  ghost predicate Tallied(
    score: map<string, int>, solved: map<string, set<string>>, last: map<string, int>,
    done: set<Solve>, pts: Solve -> int)
  {
    && score.Keys == solved.Keys == last.Keys == TeamsOf(done)
    && forall t | t in score ::
         TeamTallied(score[t], solved[t], last[t], OfTeam(done, t), pts)
  }

  ghost predicate TeamTallied(score: int, solved: set<string>, last: int, mine: set<Solve>, pts: Solve -> int) {
    score == Sum(mine, pts) && solved == ChallengesOf(mine) && IsLatest(mine, last)
  }

  lemma TeamTallyStep(
    score: int, solved: set<string>, last: int, known: bool, mine: set<Solve>, pts: Solve -> int, a: Solve)
    requires if known then TeamTallied(score, solved, last, mine, pts) else mine == {}
    requires a !in mine
    ensures TeamTallied((if known then score else 0) + pts(a), (if known then solved else {}) + {a.challenge},
                        if !known || a.solvedAt > last then a.solvedAt else last, mine + {a}, pts)
  {
    SumAdd(mine, pts, a);
    assert ChallengesOf(mine + {a}) == ChallengesOf(mine) + {a.challenge};
    assert a in mine + {a};
  }

  function AddTo(score: map<string, int>, team: string, points: int): map<string, int> {
    score[team := (if team in score then score[team] else 0) + points]
  }

  function AddSolved(solved: map<string, set<string>>, team: string, challenge: string): map<string, set<string>> {
    solved[team := (if team in solved then solved[team] else {}) + {challenge}]
  }

  function AddLast(last: map<string, int>, team: string, at: int): map<string, int> {
    if team !in last || at > last[team] then last[team := at] else last
  }

  lemma TallyStep(
    score: map<string, int>, solved: map<string, set<string>>, last: map<string, int>,
    done: set<Solve>, pts: Solve -> int, a: Solve)
    requires Tallied(score, solved, last, done, pts) && a !in done
    ensures Tallied(AddTo(score, a.team, pts(a)), AddSolved(solved, a.team, a.challenge),
                    AddLast(last, a.team, a.solvedAt), done + {a}, pts)
  {
    var score' := AddTo(score, a.team, pts(a));
    TallyKeys(score, solved, last, done, pts, a);
    TallyMine(score, solved, last, done, pts, a);
    forall t | t in score' && t != a.team
      ensures TeamTallied(score'[t], AddSolved(solved, a.team, a.challenge)[t], AddLast(last, a.team, a.solvedAt)[t],
                          OfTeam(done + {a}, t), pts)
    {
      TallyOther(score, solved, last, done, pts, a, t);
    }
  }

  lemma TallyOther(
    score: map<string, int>, solved: map<string, set<string>>, last: map<string, int>,
    done: set<Solve>, pts: Solve -> int, a: Solve, t: string)
    requires Tallied(score, solved, last, done, pts) && t in score && t != a.team
    ensures TeamTallied(AddTo(score, a.team, pts(a))[t], AddSolved(solved, a.team, a.challenge)[t],
                        AddLast(last, a.team, a.solvedAt)[t], OfTeam(done + {a}, t), pts)
  {
    assert OfTeam(done + {a}, t) == OfTeam(done, t);
  }

  lemma TallyKeys(
    score: map<string, int>, solved: map<string, set<string>>, last: map<string, int>,
    done: set<Solve>, pts: Solve -> int, a: Solve)
    requires score.Keys == solved.Keys == last.Keys == TeamsOf(done)
    ensures AddTo(score, a.team, pts(a)).Keys == AddSolved(solved, a.team, a.challenge).Keys
            == AddLast(last, a.team, a.solvedAt).Keys == TeamsOf(done + {a})
  {
    assert TeamsOf(done + {a}) == TeamsOf(done) + {a.team};
    assert AddLast(last, a.team, a.solvedAt).Keys == last.Keys + {a.team};
  }

  lemma TallyMine(
    score: map<string, int>, solved: map<string, set<string>>, last: map<string, int>,
    done: set<Solve>, pts: Solve -> int, a: Solve)
    requires Tallied(score, solved, last, done, pts) && a !in done
    ensures TeamTallied(AddTo(score, a.team, pts(a))[a.team], AddSolved(solved, a.team, a.challenge)[a.team],
                        AddLast(last, a.team, a.solvedAt)[a.team], OfTeam(done + {a}, a.team), pts)
  {
    var team := a.team;
    var known := team in TeamsOf(done);
    OfTeamStep(done, a);
    assert known ==> TeamTallied(score[team], solved[team], last[team], OfTeam(done, team), pts);
    TeamTallyStep(if known then score[team] else 0, if known then solved[team] else {},
                  if known then last[team] else 0, known, OfTeam(done, team), pts, a);
  }

  lemma OfTeamStep(done: set<Solve>, a: Solve)
    ensures OfTeam(done + {a}, a.team) == OfTeam(done, a.team) + {a}
    ensures a.team !in TeamsOf(done) ==> OfTeam(done, a.team) == {}
  {}

  ghost predicate Grouped(keys: seq<string>, groups: map<string, seq<SolveEvent>>, s: set<Solve>) {
    && NoDup(keys) && Elems(keys) == groups.Keys == ChallengesOf(s)
    && forall c | c in groups :: GroupOf(groups[c], SolversOf(s, c))
  }

  ghost predicate GroupOf(group: seq<SolveEvent>, s: set<Solve>) { DistinctPairs(group) && Cores(group) == s }

  lemma GroupStep(group: seq<SolveEvent>, s: set<Solve>, e: SolveEvent)
    requires GroupOf(group, s) && forall a | a in s :: !SamePair(a, Core(e))
    ensures GroupOf(group + [e], s + {Core(e)})
  {
    assert forall i | 0 <= i < |group| :: Core(group[i]) in Cores(group);
    forall a ensures a in Cores(group + [e]) <==> a in s + {Core(e)} {
      if a in s {
        var x :| x in group && Core(x) == a;
        assert x in group + [e];
      } else if a == Core(e) {
        assert e in group + [e];
      }
    }
  }

  lemma GroupedStep(keys: seq<string>, groups: map<string, seq<SolveEvent>>, s: set<Solve>, e: SolveEvent)
    requires Grouped(keys, groups, s)
    requires forall a | a in s :: !SamePair(a, Core(e))
    ensures Grouped(if e.challenge in groups then keys else keys + [e.challenge],
                    groups[e.challenge := (if e.challenge in groups then groups[e.challenge] else []) + [e]],
                    s + {Core(e)})
  {
    var a, id := Core(e), e.challenge;
    var group := if id in groups then groups[id] else [];
    assert ChallengesOf(s + {a}) == ChallengesOf(s) + {id};
    assert SolversOf(s + {a}, id) == SolversOf(s, id) + {a};
    if id !in groups {
      assert id !in Elems(keys);
      ElemsAppend(keys, id);
      assert SolversOf(s, id) == {};
      assert Cores(group) == {};
    }
    GroupStep(group, SolversOf(s, id), e);
    forall c | c in groups && c != id ensures SolversOf(s + {a}, c) == SolversOf(s, c) {}
  }

  method GroupByChallenge(solves: seq<SolveEvent>)
    returns (keys: seq<string>, groups: map<string, seq<SolveEvent>>)
    requires DistinctPairs(solves)
    ensures Grouped(keys, groups, Cores(solves))
  {
    keys, groups := [], map[];
    ghost var done: set<Solve> := {};
    for i := 0 to |solves|
      invariant done == Cores(solves[..i])
      invariant Grouped(keys, groups, done)
    {
      var e := solves[i];
      CoresStep(solves, i);
      PrefixPairs(solves, i);
      GroupedStep(keys, groups, done, e);
      done := done + {Core(e)};
      if e.challenge in groups {
        groups := groups[e.challenge := groups[e.challenge] + [e]];
      } else {
        keys := keys + [e.challenge];
        groups := groups[e.challenge := [] + [e]];
      }
    }
    assert solves[..|solves|] == solves;
  }

  lemma PrefixPairs(solves: seq<SolveEvent>, i: nat)
    requires i < |solves| && DistinctPairs(solves)
    ensures forall a | a in Cores(solves[..i]) :: !SamePair(a, Core(solves[i]))
  {
    forall a | a in Cores(solves[..i]) ensures !SamePair(a, Core(solves[i])) {
      var j :| 0 <= j < i && Core(solves[j]) == a;
    }
  }

  /** Sorting the solvers of one challenge keeps them and puts every solver before the later ones. */
  lemma OrderedSolvers(group: seq<SolveEvent>, c: set<Solve>, challenge: string)
    returns (ordered: seq<SolveEvent>)
    requires GroupOf(group, SolversOf(c, challenge))
    ensures ordered == SortBy(EarlierEvent, group)
    ensures GroupOf(ordered, SolversOf(c, challenge))
    ensures Ascending(EarlierEvent, ordered)
  {
    ordered := SortBy(EarlierEvent, group);
    GroupTeamsDistinct(group, c, challenge);
    EventOrderTotal(group);
    SortByAscending(EarlierEvent, group);
    AscendingPairsDistinct(ordered, group, challenge);
    forall x ensures x in ordered <==> x in group { assert x in Elems(ordered) <==> x in Elems(group); }
  }

  lemma GroupTeamsDistinct(group: seq<SolveEvent>, c: set<Solve>, challenge: string)
    requires GroupOf(group, SolversOf(c, challenge))
    ensures NoDup(group)
    ensures forall x | x in group :: x.challenge == challenge
    ensures forall x, y | x in group && y in group && x.team == y.team :: x == y
  {
    forall x | x in group ensures x.challenge == challenge { assert Core(x) in Cores(group); }
    forall i, j | 0 <= i < j < |group| ensures group[i].team != group[j].team {
      assert !SamePair(Core(group[i]), Core(group[j]));
    }
  }

  lemma AscendingPairsDistinct(ordered: seq<SolveEvent>, group: seq<SolveEvent>, challenge: string)
    requires Ascending(EarlierEvent, ordered) && Elems(ordered) == Elems(group)
    requires forall x, y | x in group && y in group && x.team == y.team :: x == y
    ensures DistinctPairs(ordered)
  {
    forall i, j | 0 <= i < j < |ordered| ensures !SamePair(Core(ordered[i]), Core(ordered[j])) {
      assert EarlierEvent(ordered[i], ordered[j]);
      assert ordered[i] in Elems(ordered) && ordered[j] in Elems(ordered);
      EarlierTotal(Core(ordered[i]), Core(ordered[i]));
    }
  }

  /** Of the solvers in order, exactly the first is the challenge's first blood. */
  lemma FirstBloodIsFirst(ordered: seq<SolveEvent>, c: set<Solve>, challenge: string)
    requires GroupOf(ordered, SolversOf(c, challenge)) && Ascending(EarlierEvent, ordered)
    ensures forall i | 0 <= i < |ordered| :: FirstBlood(c, Core(ordered[i])) <==> i == 0
  {
    forall i | 0 <= i < |ordered| ensures FirstBlood(c, Core(ordered[i])) <==> i == 0 {
      assert Core(ordered[i]) in Cores(ordered) && Core(ordered[0]) in Cores(ordered);
      if i == 0 {
        forall b | b in SolversOf(c, challenge) ensures !Earlier(b, Core(ordered[0])) {
          var e :| e in ordered && Core(e) == b;
          var k :| 0 <= k < |ordered| && ordered[k] == e;
          assert k > 0 ==> EarlierEvent(ordered[0], ordered[k]);
          EarlierTotal(b, Core(ordered[0]));
        }
        assert forall b | b in c && b.challenge == challenge :: b in SolversOf(c, challenge);
      } else {
        assert EarlierEvent(ordered[0], ordered[i]);
      }
    }
  }

  lemma EventOrderTotal(group: seq<SolveEvent>)
    requires forall x, y | x in group && y in group && x.team == y.team :: x == y
    ensures StrictTotalOn(EarlierEvent, Elems(group))
  {
    forall x, y | x in Elems(group) && y in Elems(group) ensures EarlierEvent(x, y) || x == y || EarlierEvent(y, x) {
      EarlierTotal(Core(x), Core(y));
    }
    forall x, y ensures !(EarlierEvent(x, y) && EarlierEvent(y, x)) { EarlierTotal(Core(x), Core(y)); }
    forall x, y, z | EarlierEvent(x, y) && EarlierEvent(y, z) ensures EarlierEvent(x, z) {
      EarlierTransitive(Core(x), Core(y), Core(z));
    }
  }

  /** Adds one challenge's solvers, earliest first; the first receives the bonus when it is enabled. */
  method AwardChallenge(
    ordered: seq<SolveEvent>, challenge: string, value: int, cfg: ChallengeConfig, rules: Rules,
    score: map<string, int>, solved: map<string, set<string>>, last: map<string, int>,
    ghost c: set<Solve>, ghost now: int, ghost done: set<Solve>)
    returns (score': map<string, int>, solved': map<string, set<string>>, last': map<string, int>)
    requires Tallied(score, solved, last, done, Points(c, rules, now))
    requires GroupOf(ordered, SolversOf(c, challenge)) && Ascending(EarlierEvent, ordered)
    requires SolversOf(c, challenge) !! done
    requires Resolve(challenge, rules) == Some(cfg) && value == ValueOf(c, challenge, rules, now)
    ensures Tallied(score', solved', last', done + SolversOf(c, challenge), Points(c, rules, now))
  {
    score', solved', last' := score, solved, last;
    ghost var pts := Points(c, rules, now);
    ghost var counted := done;
    FirstBloodIsFirst(ordered, c, challenge);
    for i := 0 to |ordered|
      invariant counted == done + Cores(ordered[..i])
      invariant Tallied(score', solved', last', counted, pts)
    {
      var solve := ordered[i];
      assert Core(solve) in Cores(ordered);
      var points := value;
      if i == 0 && cfg.firstBlood.enabled {
        points := points + rules.engine.bonus(cfg.firstBlood, value);
      }
      assert points == pts(Core(solve));
      CoresStep(ordered, i);
      TallyStep(score', solved', last', counted, pts, Core(solve));
      counted := counted + {Core(solve)};
      score' := AddTo(score', solve.team, points);
      solved' := AddSolved(solved', solve.team, challenge);
      last' := AddLast(last', solve.team, solve.solvedAt);
    }
    assert ordered[..|ordered|] == ordered;
  }

  lemma TeamSolvesDistinct(s: set<Solve>, team: string)
    ensures |ChallengesOf(OfTeam(Canonical(s), team))| == |OfTeam(Canonical(s), team)|
  {
    var mine := OfTeam(Canonical(s), team);
    forall a, b | a in mine && b in mine && a.challenge == b.challenge ensures a == b {
      CanonicalPairsUnique(s, a, b);
    }
    ImageSize(mine, (a: Solve) => a.challenge);
    assert Image(mine, (a: Solve) => a.challenge) == ChallengesOf(mine);
  }

  lemma EntryFromTally(score: map<string, int>, solved: map<string, set<string>>, last: map<string, int>,
                       s: set<Solve>, rules: Rules, now: int, t: string)
    requires Tallied(score, solved, last, Canonical(s), Points(Canonical(s), rules, now)) && t in score
    ensures t in last && t in solved && t in TeamsOf(Canonical(s))
    ensures Entry(t, score[t], |solved[t]|, Some(last[t]), 0) == EntryOf(Canonical(s), t, rules, now)
  {
    TeamSolvesDistinct(s, t);
    assert TeamTallied(score[t], solved[t], last[t], OfTeam(Canonical(s), t), Points(Canonical(s), rules, now));
  }

  lemma ListedEntries(c: set<Solve>, rules: Rules, now: int, teams: seq<string>, entries: seq<Entry>)
    requires NoDup(teams) && Elems(teams) == TeamsOf(c) && |entries| == |teams|
    requires forall i | 0 <= i < |teams| :: teams[i] in TeamsOf(c) && entries[i] == EntryOf(c, teams[i], rules, now)
    ensures NoDup(entries) && Elems(entries) == EntrySet(c, rules, now)
  {
    forall t | t in TeamsOf(c) ensures EntryOf(c, t, rules, now) in entries {
      assert t in Elems(teams);
      var i :| 0 <= i < |teams| && teams[i] == t;
      assert entries[i] == EntryOf(c, t, rules, now);
    }
  }

  /** The unordered entries of the dictionaries of a finished fold. */
  method CollectEntries(score: map<string, int>, solved: map<string, set<string>>, last: map<string, int>,
                        ghost s: set<Solve>, ghost rules: Rules, ghost now: int)
    returns (entries: seq<Entry>)
    requires Tallied(score, solved, last, Canonical(s), Points(Canonical(s), rules, now))
    ensures NoDup(entries) && Elems(entries) == EntrySet(Canonical(s), rules, now)
  {
    var teams := ListIds(score.Keys);
    assert forall t | t in teams :: t in Elems(teams);
    entries := EntriesFrom(teams, score, solved, last);
    forall i | 0 <= i < |teams|
      ensures teams[i] in TeamsOf(Canonical(s)) && entries[i] == EntryOf(Canonical(s), teams[i], rules, now)
    {
      assert teams[i] in Elems(teams);
      EntryFromTally(score, solved, last, s, rules, now, teams[i]);
    }
    ListedEntries(Canonical(s), rules, now, teams, entries);
  }

  function EntryFrom(team: string, score: map<string, int>, solved: map<string, set<string>>, last: map<string, int>)
    : Entry
    requires team in score && team in solved
  {
    Entry(team, score[team], |solved[team]|, if team in last then Some(last[team]) else None, 0)
  }

  function EntriesFrom(teams: seq<string>, score: map<string, int>, solved: map<string, set<string>>,
                       last: map<string, int>): (r: seq<Entry>)
    requires forall t | t in teams :: t in score && t in solved
    ensures |r| == |teams| && forall i | 0 <= i < |teams| :: r[i] == EntryFrom(teams[i], score, solved, last)
  {
    seq(|teams|, i requires 0 <= i < |teams| => EntryFrom(teams[i], score, solved, last))
  }

  lemma EntryTeamsDistinct(c: set<Solve>, rules: Rules, now: int)
    ensures forall a, b | a in EntrySet(c, rules, now) && b in EntrySet(c, rules, now) && a.team == b.team :: a == b
    ensures StrictTotalOn(RankBefore, EntrySet(c, rules, now))
  {
    RankTotal(EntrySet(c, rules, now));
  }

  /** Sorting any listing of the entries gives the standings. */
  lemma SortedEntriesAreStandings(entries: seq<Entry>, c: set<Solve>, rules: Rules, now: int)
    requires NoDup(entries) && Elems(entries) == EntrySet(c, rules, now)
    ensures Ranked(SortBy(RankBefore, entries)) == Standings(c, rules, now)
  {
    EntryTeamsDistinct(c, rules, now);
    var listed := Enumerate(EntrySet(c, rules, now));
    SortByAscending(RankBefore, entries);
    SortByAscending(RankBefore, listed);
    AscendingUnique(RankBefore, SortBy(RankBefore, entries), SortBy(RankBefore, listed));
  }

  method ValueMap(rows: seq<ValueSnapshot>) returns (valueOf: map<string, int>)
    requires forall x, y | x in rows && y in rows && x.challenge == y.challenge :: x == y
    ensures forall x | x in rows :: x.challenge in valueOf && valueOf[x.challenge] == x.value
  {
    valueOf := map[];
    for i := 0 to |rows|
      invariant forall k | 0 <= k < i :: rows[k].challenge in valueOf && valueOf[rows[k].challenge] == rows[k].value
    {
      valueOf := valueOf[rows[i].challenge := rows[i].value];
    }
  }

  method ComputeScoreboard(events: seq<SolveEvent>, rules: Rules, asOf: Option<int>)
    returns (r: Outcome<Snapshot>)
    ensures r == Board(Cores(events), rules, asOf)
  {
    var now := Now(rules.config, asOf);
    var solves := DedupeSolves(FilterSolves(events, asOf));
    var values := ComputeChallengeValues(events, rules, asOf);
    ghost var s := InTime(Cores(events), asOf);
    if values.Err? { return Err(values.error); }
    RowsDistinct(s, rules, now, values.value);
    var valueOf := ValueMap(values.value);
    var keys, groups := GroupByChallenge(solves);
    ValuesByChallenge(s, rules, now, values.value, keys, valueOf);
    var entries := FoldChallenges(keys, groups, valueOf, rules, s, now);
    SortedEntriesAreStandings(entries, Canonical(s), rules, now);
    r := Ok(Snapshot(rules.config.competitionId, now, Ranked(SortBy(RankBefore, entries)), asOf.Some?));
  }

  lemma RowsDistinct(s: set<Solve>, rules: Rules, now: int, rows: seq<ValueSnapshot>)
    requires ValuesOf(s, rules, now) == Ok(rows)
    ensures forall x, y | x in rows && y in rows && x.challenge == y.challenge :: x == y
  {}

  lemma ValuesByChallenge(s: set<Solve>, rules: Rules, now: int, rows: seq<ValueSnapshot>,
                          keys: seq<string>, valueOf: map<string, int>)
    requires ValuesOf(s, rules, now) == Ok(rows)
    requires Elems(keys) == ChallengesOf(Canonical(s))
    requires forall x | x in rows :: x.challenge in valueOf && valueOf[x.challenge] == x.value
    ensures Priced(keys, valueOf, s, rules, now)
  {
    CanonicalChallenges(s);
    var missing := MissingSorted(s, rules);
    var all := rules.challenges.Keys + ChallengesOf(s);
    var ids := SortBy(Less, Enumerate(all));
    LessTotal(all);
    SortByAscending(Less, Enumerate(all));
    forall id | id in keys
      ensures Resolve(id, rules).Some? && id in valueOf && valueOf[id] == ValueOf(Canonical(s), id, rules, now)
    {
      assert id in Elems(keys);
      assert id !in Missing(s, rules);
      assert id in Elems(ids);
      var k :| 0 <= k < |ids| && ids[k] == id;
      assert rows[k] == ValueRow(Canonical(s), rules, now)(id);
      assert rows[k] in rows;
    }
  }

  ghost predicate Priced(keys: seq<string>, valueOf: map<string, int>, s: set<Solve>, rules: Rules, now: int) {
    forall id | id in keys ::
      Resolve(id, rules).Some? && id in valueOf && valueOf[id] == ValueOf(Canonical(s), id, rules, now)
  }

  ghost function SolvesOf(c: set<Solve>, ids: seq<string>): set<Solve> { set a | a in c && a.challenge in ids }

  lemma SolvesOfStep(c: set<Solve>, ids: seq<string>, i: nat)
    requires i < |ids| && NoDup(ids)
    ensures SolvesOf(c, ids[..i + 1]) == SolvesOf(c, ids[..i]) + SolversOf(c, ids[i])
    ensures SolversOf(c, ids[i]) !! SolvesOf(c, ids[..i])
  {
    assert ids[..i + 1] == ids[..i] + [ids[i]];
  }

  lemma SolvesOfAll(c: set<Solve>, ids: seq<string>)
    requires Elems(ids) == ChallengesOf(c)
    ensures SolvesOf(c, ids) == c
  {
    forall a | a in c ensures a.challenge in ids {
      assert a.challenge in ChallengesOf(c);
      assert a.challenge in Elems(ids);
    }
  }

  method FoldChallenges(keys: seq<string>, groups: map<string, seq<SolveEvent>>, valueOf: map<string, int>,
                        rules: Rules, ghost s: set<Solve>, ghost now: int)
    returns (entries: seq<Entry>)
    requires Grouped(keys, groups, Canonical(s))
    requires Priced(keys, valueOf, s, rules, now)
    ensures NoDup(entries) && Elems(entries) == EntrySet(Canonical(s), rules, now)
  {
    ghost var c := Canonical(s);
    ghost var pts := Points(c, rules, now);
    var score: map<string, int>, solved: map<string, set<string>>, last: map<string, int> := map[], map[], map[];
    for i := 0 to |keys|
      invariant Tallied(score, solved, last, SolvesOf(c, keys[..i]), pts)
    {
      var id := keys[i];
      assert id in Elems(keys);
      var ordered := SortBy(EarlierEvent, groups[id]);
      ghost var same := OrderedSolvers(groups[id], c, id);
      SolvesOfStep(c, keys, i);
      score, solved, last := AwardChallenge(
        ordered, id, valueOf[id], Resolve(id, rules).value, rules, score, solved, last,
        c, now, SolvesOf(c, keys[..i]));
    }
    assert keys[..|keys|] == keys;
    SolvesOfAll(c, keys);
    entries := CollectEntries(score, solved, last, s, rules, now);
  }
}
