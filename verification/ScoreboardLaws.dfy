/** What the scoreboard fold promises: set semantics, conservation of points and a strict ranking. */
module ScoreboardLaws {
  import opened Basics
  import opened Scoreboard

  // ---------------------------------------------------------------------------
  // Set semantics.

  /** Only the earliest solve of each pair matters, whatever the freeze: dedupe and time filter commute. */
  lemma BoardSeesOnlyCanonical(s: set<Solve>, rules: Rules, asOf: Option<int>)
    ensures Board(Canonical(s), rules, asOf) == Board(s, rules, asOf)
  {
    CanonicalCommutesWithFilter(s, asOf);
    CanonicalCommutesWithFilter(Canonical(s), asOf);
    SameCanonicalSameBoard(InTime(Canonical(s), asOf), InTime(s, asOf), rules, Now(rules.config, asOf), asOf.Some?);
  }

  lemma SameCanonicalSameBoard(s: set<Solve>, t: set<Solve>, rules: Rules, now: int, frozen: bool)
    requires Canonical(s) == Canonical(t)
    ensures BoardOf(s, rules, now, frozen) == BoardOf(t, rules, now, frozen)
  {
    CanonicalChallenges(s);
    CanonicalChallenges(t);
    assert Missing(s, rules) == Missing(t, rules);
  }

  /** Two event lists whose canonical solves agree up to the freeze have the same board. */
  lemma BoardDependsOnCanonicalSolves(e: seq<SolveEvent>, f: seq<SolveEvent>, rules: Rules, asOf: Option<int>)
    requires InTime(Canonical(Cores(e)), asOf) == InTime(Canonical(Cores(f)), asOf)
    ensures Board(Cores(e), rules, asOf) == Board(Cores(f), rules, asOf)
  {
    CanonicalCommutesWithFilter(Cores(e), asOf);
    CanonicalCommutesWithFilter(Cores(f), asOf);
    SameCanonicalSameBoard(InTime(Cores(e), asOf), InTime(Cores(f), asOf), rules, Now(rules.config, asOf), asOf.Some?);
  }

  /** Appending a re-solve that sorts after a known solve of the pair changes nothing. */
  lemma LaterResolveIgnored(events: seq<SolveEvent>, first: SolveEvent, again: SolveEvent, rules: Rules,
      asOf: Option<int>)
    requires first in events && PairOf(first) == PairOf(again) && EarlierEvent(first, again)
    ensures Board(Cores(events + [again]), rules, asOf) == Board(Cores(events), rules, asOf)
  {
    var s := Cores(events);
    assert Cores(events + [again]) == s + {Core(again)};
    forall a ensures a in Canonical(s + {Core(again)}) <==> a in Canonical(s) {
      if a in Canonical(s) && SamePair(a, Core(again)) && Earlier(Core(again), a) {
        EarlierTransitive(Core(first), Core(again), a);
      }
    }
    BoardDependsOnCanonicalSolves(events + [again], events, rules, asOf);
  }

  /** An event after the freeze changes nothing, wherever it stands in the list. */
  lemma AfterFreezeIgnored(before: seq<SolveEvent>, late: SolveEvent, after: seq<SolveEvent>, rules: Rules, asOf: int)
    requires late.solvedAt > asOf
    ensures Board(Cores(before + [late] + after), rules, Some(asOf)) == Board(Cores(before + after), rules, Some(asOf))
  {
    var with, without := Cores(before + [late] + after), Cores(before + after);
    assert with == without + {Core(late)} by {
      forall e ensures e in before + [late] + after <==> e in before + after || e == late {}
    }
    assert InTime(with, Some(asOf)) == InTime(without, Some(asOf));
  }

  // ---------------------------------------------------------------------------
  // Ranking.

  ghost predicate StrictlyRanked(entries: seq<Entry>) {
    && (forall i | 0 <= i < |entries| :: entries[i].rank == i + 1)
    && (forall i, j | 0 <= i < j < |entries| :: RankBefore(entries[i], entries[j]))
    && (forall i, j | 0 <= i < j < |entries| :: entries[i].team != entries[j].team)
  }

  lemma StandingsEntries(c: set<Solve>, rules: Rules, now: int)
    ensures forall e | e in Standings(c, rules, now) ::
      e.team in TeamsOf(c) && e == EntryOf(c, e.team, rules, now).(rank := e.rank)
    ensures (set e | e in Standings(c, rules, now) :: e.team) == TeamsOf(c)
  {
    var sorted := StandingsSorted(c, rules, now);
    var entries := Ranked(sorted);
    forall e | e in entries
      ensures e.team in TeamsOf(c) && e == EntryOf(c, e.team, rules, now).(rank := e.rank)
    {
      var k :| 0 <= k < |entries| && entries[k] == e;
      assert sorted[k] in Elems(sorted);
    }
    forall t | t in TeamsOf(c) ensures t in (set e | e in entries :: e.team) {
      assert EntryOf(c, t, rules, now) in Elems(sorted);
      var k :| 0 <= k < |sorted| && sorted[k] == EntryOf(c, t, rules, now);
      assert entries[k] in entries;
    }
  }

  lemma StandingsRanked(c: set<Solve>, rules: Rules, now: int)
    ensures StrictlyRanked(Standings(c, rules, now))
  {
    var sorted := StandingsSorted(c, rules, now);
    RankedKeepsOrder(sorted, EntrySet(c, rules, now));
  }

  lemma RankedKeepsOrder(sorted: seq<Entry>, es: set<Entry>)
    requires Ascending(RankBefore, sorted)
    requires Elems(sorted) == es && forall a, b | a in es && b in es && a.team == b.team :: a == b
    ensures StrictlyRanked(Ranked(sorted))
  {
    var entries := Ranked(sorted);
    forall i, j | 0 <= i < j < |entries|
      ensures RankBefore(entries[i], entries[j]) && entries[i].team != entries[j].team
    {
      assert RankBefore(sorted[i], sorted[j]);
      assert sorted[i] in Elems(sorted) && sorted[j] in Elems(sorted);
      LessTrichotomy(sorted[i].team, sorted[i].team);
    }
  }

  /** Each scoring team once, ranks 1..n, in the strict (-score, last solve, team) order. */
  lemma Ranking(s: set<Solve>, rules: Rules, asOf: Option<int>)
    requires Board(s, rules, asOf).Ok?
    ensures StrictlyRanked(Board(s, rules, asOf).value.entries)
    ensures (set e | e in Board(s, rules, asOf).value.entries :: e.team) == TeamsOf(InTime(s, asOf))
  {
    StandingsRanked(Canonical(InTime(s, asOf)), rules, Now(rules.config, asOf));
    StandingsEntries(Canonical(InTime(s, asOf)), rules, Now(rules.config, asOf));
    CanonicalTeams(InTime(s, asOf));
  }

  lemma CanonicalTeams(s: set<Solve>)
    ensures TeamsOf(Canonical(s)) == TeamsOf(s)
  {
    forall t | t in TeamsOf(s) ensures t in TeamsOf(Canonical(s)) {
      var a :| a in s && a.team == t;
      var m := CanonicalCovers(s, a);
    }
  }

  lemma StandingsSorted(c: set<Solve>, rules: Rules, now: int) returns (sorted: seq<Entry>)
    ensures Standings(c, rules, now) == Ranked(sorted)
    ensures Ascending(RankBefore, sorted) && Elems(sorted) == EntrySet(c, rules, now)
  {
    var listed := Enumerate(EntrySet(c, rules, now));
    EntryTeamsDistinct(c, rules, now);
    SortByAscending(RankBefore, listed);
    sorted := SortBy(RankBefore, listed);
  }

  // ---------------------------------------------------------------------------
  // Conservation.

  ghost function Total(entries: seq<Entry>, field: Entry -> int): int {
    if entries == [] then 0 else field(entries[0]) + Total(entries[1..], field)
  }

  /** A listing of teams, each with the value `g` gives its team, totals the sum of `g`. */
  lemma {:induction false} TotalByTeam(entries: seq<Entry>, field: Entry -> int, teams: set<string>, g: string -> int)
    requires forall i, j | 0 <= i < j < |entries| :: entries[i].team != entries[j].team
    requires (set e | e in entries :: e.team) == teams
    requires forall e | e in entries :: field(e) == g(e.team)
    ensures Total(entries, field) == Sum(teams, g)
  {
    if entries == [] {
      assert teams == {};
    } else {
      var rest, t := entries[1..], entries[0].team;
      assert entries == [entries[0]] + rest;
      assert (set e | e in rest :: e.team) == teams - {t} by {
        forall e | e in rest ensures e.team != t {
          var k :| 0 <= k < |rest| && rest[k] == e;
          assert entries[k + 1] == e;
        }
      }
      TotalByTeam(rest, field, teams - {t}, g);
      assert entries[0] in entries;
      SumTake(teams, g, t);
    }
  }

  lemma {:induction false} FirstBloodExists(c: set<Solve>, some: set<Solve>) returns (first: Solve)
    requires some != {} && some <= c
    ensures first in some && forall b | b in some :: !Earlier(b, first)
    decreases |some|
  {
    var a :| a in some;
    EarlierTotal(a, a);
    if some == {a} {
      first := a;
    } else {
      first := FirstBloodExists(c, some - {a});
      if Earlier(a, first) {
        forall b | b in some ensures !Earlier(b, a) {
          if Earlier(b, a) { EarlierTransitive(b, a, first); }
        }
        first := a;
      }
    }
  }

  ghost function BonusAt(c: set<Solve>, bonus: int): Solve -> int {
    (a: Solve) => if FirstBlood(c, a) then bonus else 0
  }

  /** Of a challenge's solvers exactly one gets the bonus. */
  lemma BonusTotal(s: set<Solve>, challenge: string, bonus: int)
    requires challenge in ChallengesOf(Canonical(s))
    ensures Sum(SolversOf(Canonical(s), challenge), BonusAt(Canonical(s), bonus)) == bonus
  {
    var c := Canonical(s);
    var extra := BonusAt(c, bonus);
    var solvers := SolversOf(c, challenge);
    var a :| a in c && a.challenge == challenge;
    assert a in solvers;
    var first := FirstBloodExists(c, solvers);
    assert FirstBlood(c, first) by {
      assert forall b | b in c && b.challenge == challenge :: b in solvers;
    }
    SolversDistinctTeams(s, challenge);
    forall b | b in solvers - {first} ensures extra(b) == 0 {
      EarlierTotal(b, first);
    }
    SumTake(solvers, extra, first);
    SumZero(solvers - {first}, extra);
  }

  /** One challenge hands out its value once per solver, plus one first-blood bonus. */
  lemma ChallengeTotal(s: set<Solve>, challenge: string, rules: Rules, now: int)
    requires challenge in ChallengesOf(Canonical(s))
    ensures Sum(SolversOf(Canonical(s), challenge), Points(Canonical(s), rules, now))
            == ChallengeShare(Canonical(s), rules, now)(challenge)
  {
    var c := Canonical(s);
    var bonus := BonusOf(c, challenge, rules, now);
    SumShift(SolversOf(c, challenge), Points(c, rules, now), ValueOf(c, challenge, rules, now), BonusAt(c, bonus));
    BonusTotal(s, challenge, bonus);
  }

  ghost function ChallengeShare(c: set<Solve>, rules: Rules, now: int): string -> int {
    (id: string) => ValueOf(c, id, rules, now) * |SolversOf(c, id)| + BonusOf(c, id, rules, now)
  }

  lemma TeamShares(s: set<Solve>, rules: Rules, asOf: Option<int>)
    requires Board(s, rules, asOf).Ok?
    ensures
      var c := Canonical(InTime(s, asOf));
      forall e | e in Board(s, rules, asOf).value.entries ::
        e.team in TeamsOf(c) && e == EntryOf(c, e.team, rules, Now(rules.config, asOf)).(rank := e.rank)
  {
    StandingsEntries(Canonical(InTime(s, asOf)), rules, Now(rules.config, asOf));
  }

  ghost function TeamSum(c: set<Solve>, f: Solve -> int): string -> int { (t: string) => Sum(OfTeam(c, t), f) }

  lemma SumByTeam(c: set<Solve>, f: Solve -> int)
    ensures Sum(TeamsOf(c), TeamSum(c, f)) == Sum(c, f)
  {
    SumByKey(c, TeamsOf(c), (a: Solve) => a.team, f);
    forall t | t in TeamsOf(c) ensures TeamSum(c, f)(t) == Sum(Fiber(c, (a: Solve) => a.team, t), f) {
      assert Fiber(c, (a: Solve) => a.team, t) == OfTeam(c, t);
    }
    SumSame(TeamsOf(c), TeamSum(c, f), (t: string) => Sum(Fiber(c, (a: Solve) => a.team, t), f));
  }

  lemma SumByChallenge(c: set<Solve>, f: Solve -> int, g: string -> int)
    requires forall id | id in ChallengesOf(c) :: g(id) == Sum(SolversOf(c, id), f)
    ensures Sum(ChallengesOf(c), g) == Sum(c, f)
  {
    SumByKey(c, ChallengesOf(c), (a: Solve) => a.challenge, f);
    forall id | id in ChallengesOf(c) ensures g(id) == Sum(Fiber(c, (a: Solve) => a.challenge, id), f) {
      assert Fiber(c, (a: Solve) => a.challenge, id) == SolversOf(c, id);
    }
    SumSame(ChallengesOf(c), g, (id: string) => Sum(Fiber(c, (a: Solve) => a.challenge, id), f));
  }

  /** A field that every entry draws from its team's canonical solves totals over all of them. */
  lemma TotalOverSolves(s: set<Solve>, rules: Rules, asOf: Option<int>, field: Entry -> int, f: Solve -> int)
    requires Board(s, rules, asOf).Ok?
    requires forall e | e in Board(s, rules, asOf).value.entries ::
      field(e) == Sum(OfTeam(Canonical(InTime(s, asOf)), e.team), f)
    ensures Total(Board(s, rules, asOf).value.entries, field) == Sum(Canonical(InTime(s, asOf)), f)
  {
    var c := Canonical(InTime(s, asOf));
    Ranking(s, rules, asOf);
    CanonicalTeams(InTime(s, asOf));
    TotalByTeam(Board(s, rules, asOf).value.entries, field, TeamsOf(c), TeamSum(c, f));
    SumByTeam(c, f);
  }

  /** No point is created or lost: the scores add up to what the solved challenges pay out. */
  lemma ScoreConservation(s: set<Solve>, rules: Rules, asOf: Option<int>)
    requires Board(s, rules, asOf).Ok?
    ensures Total(Board(s, rules, asOf).value.entries, (e: Entry) => e.score)
            == Sum(ChallengesOf(InTime(s, asOf)),
                   ChallengeShare(Canonical(InTime(s, asOf)), rules, Now(rules.config, asOf)))
  {
    var c, now := Canonical(InTime(s, asOf)), Now(rules.config, asOf);
    TeamShares(s, rules, asOf);
    TotalOverSolves(s, rules, asOf, (e: Entry) => e.score, Points(c, rules, now));
    CanonicalChallenges(InTime(s, asOf));
    forall id | id in ChallengesOf(c)
      ensures ChallengeShare(c, rules, now)(id) == Sum(SolversOf(c, id), Points(c, rules, now))
    {
      ChallengeTotal(InTime(s, asOf), id, rules, now);
    }
    SumByChallenge(c, Points(c, rules, now), ChallengeShare(c, rules, now));
  }

  /** The solve counts add up to the number of distinct (team, challenge) pairs solved in time. */
  lemma SolveCountConservation(s: set<Solve>, rules: Rules, asOf: Option<int>)
    requires Board(s, rules, asOf).Ok?
    ensures Total(Board(s, rules, asOf).value.entries, (e: Entry) => e.solveCount)
            == |Image(InTime(s, asOf), (a: Solve) => (a.team, a.challenge))|
  {
    var c := Canonical(InTime(s, asOf));
    TeamShares(s, rules, asOf);
    var one := (a: Solve) => 1;
    forall e | e in Board(s, rules, asOf).value.entries ensures e.solveCount == Sum(OfTeam(c, e.team), one) {
      SumConst(OfTeam(c, e.team), one, 1);
    }
    TotalOverSolves(s, rules, asOf, (e: Entry) => e.solveCount, one);
    SumConst(c, one, 1);
    PairsSolved(InTime(s, asOf));
  }

  /** One canonical solve per solved pair. */
  lemma PairsSolved(s: set<Solve>)
    ensures |Canonical(s)| == |Image(s, (a: Solve) => (a.team, a.challenge))|
  {
    var pair := (a: Solve) => (a.team, a.challenge);
    var c := Canonical(s);
    forall a, b | a in c && b in c && pair(a) == pair(b) ensures a == b { CanonicalPairsUnique(s, a, b); }
    ImageSize(c, pair);
    forall p | p in Image(s, pair) ensures p in Image(c, pair) {
      var a :| a in s && pair(a) == p;
      var m := CanonicalCovers(s, a);
    }
    assert Image(c, pair) == Image(s, pair);
  }
}
