/**
 Row locks of the quota verbs: every transaction takes its locks one by one, in the order of its plan, keeps
 them, and releases all of them when it ends. A run interleaves any number of transactions.
 */
module LockOrder {
  import opened Basics
  import opened QuotaLedger
  import QuotaLaws

  /** The reservation header's row, or a counter's row. */
  datatype Lock = Header(id: string) | Counter(key: Key)

  /** Holds `plan[..taken]`, waits for `plan[taken]`, and may end once the plan is done. */
  datatype Txn = Txn(plan: seq<Lock>, taken: nat) {
    predicate Ok() { taken <= |plan| }
    predicate Done() { taken == |plan| }
    predicate Has(l: Lock)
      requires Ok()
    {
      l in plan[..taken]
    }
    function Wants(): Lock
      requires taken < |plan|
    {
      plan[taken]
    }
  }

  type Txns = map<nat, Txn>

  ghost predicate AllOk(s: Txns) { forall t | t in s :: s[t].Ok() }

  /** A lock has one holder. */
  ghost predicate Exclusive(s: Txns)
    requires AllOk(s)
  {
    forall t, u, l | t in s && u in s && s[t].Has(l) && s[u].Has(l) :: t == u
  }

  /** `t` waits for a lock that `u` holds. */
  ghost predicate Waits(s: Txns, t: nat, u: nat)
    requires AllOk(s)
  {
    t in s && u in s && t != u && !s[t].Done() && s[u].Has(s[t].Wants())
  }

  ghost predicate Free(s: Txns, t: nat)
    requires AllOk(s) && t in s && !s[t].Done()
  {
    forall u | u in s && u != t :: !s[u].Has(s[t].Wants())
  }

  ghost predicate Enabled(s: Txns, t: nat)
    requires AllOk(s)
  {
    t in s && (s[t].Done() || Free(s, t))
  }

  /** Takes the next lock, or ends; blocked otherwise. */
  ghost function Advance(s: Txns, t: nat): Txns
    requires AllOk(s)
  {
    if !Enabled(s, t) then s
    else if s[t].Done() then s - {t}
    else s[t := s[t].(taken := s[t].taken + 1)]
  }

  ghost function Run(s: Txns, schedule: seq<nat>): (r: Txns)
    requires AllOk(s)
    ensures AllOk(r)
    decreases |schedule|
  {
    if schedule == [] then s else Run(Advance(s, schedule[0]), schedule[1..])
  }

  lemma {:induction false} RunExclusive(s: Txns, schedule: seq<nat>)
    requires AllOk(s) && Exclusive(s)
    ensures Exclusive(Run(s, schedule))
    decreases |schedule|
  {
    if schedule != [] {
      RunExclusive(Advance(s, schedule[0]), schedule[1..]);
    }
  }

  // ---------------------------------------------------------------------------
  // One order for everybody.

  ghost predicate Ordered(s: Txns, less: (Lock, Lock) -> bool) { forall t | t in s :: Ascending(less, s[t].plan) }

  ghost predicate StrictOrder(less: (Lock, Lock) -> bool) {
    && (forall x, y :: !(less(x, y) && less(y, x)))
    && (forall x, y, z | less(x, y) && less(y, z) :: less(x, z))
  }

  ghost predicate WaitPath(s: Txns, path: seq<nat>)
    requires AllOk(s)
  {
    && (forall i | 0 <= i < |path| :: path[i] in s && !s[path[i]].Done())
    && forall i | 0 <= i < |path| - 1 :: Waits(s, path[i], path[i + 1])
  }

  lemma {:induction false} PathUp(s: Txns, less: (Lock, Lock) -> bool, path: seq<nat>)
    requires AllOk(s) && Ordered(s, less) && StrictOrder(less) && WaitPath(s, path) && |path| >= 2
    ensures less(s[path[0]].Wants(), s[path[|path| - 1]].Wants())
    decreases |path|
  {
    var n := |path| - 1;
    assert Waits(s, path[n - 1], path[n]);
    if n > 1 { PathUp(s, less, path[..n]); }
  }

  /** The waits-for relation has no cycle. */
  lemma NoWaitCycle(s: Txns, less: (Lock, Lock) -> bool, path: seq<nat>)
    requires AllOk(s) && Ordered(s, less) && StrictOrder(less) && WaitPath(s, path) && |path| >= 2
    ensures path[0] != path[|path| - 1]
  {
    PathUp(s, less, path);
  }

  /** The blocked transactions have a greatest awaited lock, unless somebody can move. */
  lemma {:induction false} Topmost(s: Txns, less: (Lock, Lock) -> bool, among: set<nat>) returns (top: nat)
    requires AllOk(s) && StrictOrder(less) && among != {}
    requires forall t | t in among :: t in s && s[t].taken < |s[t].plan|
    ensures top in among && forall t | t in among :: !less(s[top].Wants(), s[t].Wants())
    decreases |among|
  {
    top :| top in among;
    if among != {top} {
      var other := Topmost(s, less, among - {top});
      if t :| t in among && less(s[top].Wants(), s[t].Wants()) {
        assert t in among - {top};
        top := other;
      }
    }
  }

  /** Some unfinished transaction can always proceed. */
  lemma SomeoneProceeds(s: Txns, less: (Lock, Lock) -> bool)
    requires AllOk(s) && Ordered(s, less) && StrictOrder(less) && s != map[]
    ensures exists t :: Enabled(s, t)
  {
    if t :| t in s && s[t].Done() {
      assert Enabled(s, t);
    } else {
      assert s.Keys != {} by { var t :| t in s; }
      forall t | t in s ensures s[t].taken < |s[t].plan| { assert s[t].Ok(); }
      var top := Topmost(s, less, s.Keys);
      assert Enabled(s, top);
    }
  }

  ghost function Remaining(s: Txns): int
    requires AllOk(s)
  {
    Sum(s.Keys, (t: nat) => if t in s then |s[t].plan| - s[t].taken + 1 else 0)
  }

  lemma AdvanceShrinks(s: Txns, t: nat)
    requires AllOk(s) && Enabled(s, t)
    ensures 0 <= Remaining(Advance(s, t)) < Remaining(s)
  {
    var s' := Advance(s, t);
    var f := (t: nat) => if t in s then |s[t].plan| - s[t].taken + 1 else 0;
    var g := (t: nat) => if t in s' then |s'[t].plan| - s'[t].taken + 1 else 0;
    SumTake(s.Keys, f, t);
    SumSame(s.Keys - {t}, f, g);
    if s[t].Done() {
      assert s'.Keys == s.Keys - {t};
    } else {
      assert s'.Keys == s.Keys;
      SumTake(s.Keys, g, t);
    }
    PositiveSum(s'.Keys, g);
  }

  lemma {:induction false} PositiveSum(ts: set<nat>, f: nat -> int)
    requires forall t | t in ts :: f(t) >= 0
    ensures Sum(ts, f) >= 0
    decreases |ts|
  {
    if ts != {} {
      var t :| t in ts;
      SumTake(ts, f, t);
      PositiveSum(ts - {t}, f);
    }
  }

  /** However far a run has come, it can be carried on until every transaction has ended. */
  lemma {:induction false} AllCanEnd(s: Txns, less: (Lock, Lock) -> bool) returns (schedule: seq<nat>)
    requires AllOk(s) && Ordered(s, less) && StrictOrder(less)
    ensures Run(s, schedule) == map[]
    decreases Remaining(s)
  {
    schedule := [];
    if s != map[] {
      SomeoneProceeds(s, less);
      var t :| Enabled(s, t);
      AdvanceShrinks(s, t);
      var rest := AllCanEnd(Advance(s, t), less);
      schedule := [t] + rest;
      assert schedule[1..] == rest;
    }
  }

  // ---------------------------------------------------------------------------
  // The verbs' plans. Reserve sorts its items itself, by code point; the others read them `ORDER BY`, in the
  // order of the database's collation.

  datatype Verb =
    | Reserve(d: Demand)
    | Rehold(id: string, items: seq<Item>)
    | Sweep(keys: seq<Key>)

  ghost function Locks(items: seq<Item>): (r: seq<Lock>)
    ensures |r| == |items| && forall i | 0 <= i < |items| :: r[i] == Counter(items[i].key)
  {
    seq(|items|, i requires 0 <= i < |items| => Counter(items[i].key))
  }

  ghost function KeyLocks(keys: seq<Key>): (r: seq<Lock>)
    ensures |r| == |keys| && forall i | 0 <= i < |keys| :: r[i] == Counter(keys[i])
  {
    seq(|keys|, i requires 0 <= i < |keys| => Counter(keys[i]))
  }

  /** `Rehold` is a release or a reactivation, `Sweep` the reconciliation of all counter rows. */
  ghost function PlanOf(verb: Verb, collation: (Key, Key) -> bool): seq<Lock> {
    match verb
    case Reserve(d) => [Header(d.id)] + Locks(Sorted(d.items))
    case Rehold(id, items) => [Header(id)] + Locks(SortBy(ByKey(collation), items))
    case Sweep(keys) => KeyLocks(SortBy(collation, keys))
  }

  predicate Proper(verb: Verb) {
    match verb
    case Reserve(d) => WellFormed(d)
    case Rehold(_, items) => ItemsOk(items)
    case Sweep(keys) => (forall k | k in keys :: Admitted(k)) && forall i, j | 0 <= i < j < |keys| :: keys[i] != keys[j]
  }

  ghost predicate TotalOrder(less: (Key, Key) -> bool) {
    && (forall x, y :: less(x, y) || x == y || less(y, x))
    && (forall x, y :: !(less(x, y) && less(y, x)))
    && (forall x, y, z | less(x, y) && less(y, z) :: less(x, z))
  }

  /** Headers come before counters, and nobody takes two of them. */
  function LockLess(less: (Key, Key) -> bool): (Lock, Lock) -> bool {
    (a: Lock, b: Lock) =>
      match (a, b)
      case (Header(_), Counter(_)) => true
      case (Counter(x), Counter(y)) => less(x, y)
      case _ => false
  }

  lemma LockLessStrict(less: (Key, Key) -> bool)
    requires TotalOrder(less)
    ensures StrictOrder(LockLess(less))
  {}

  lemma KeyLessTotal()
    ensures TotalOrder(KeyLess)
  {
    forall x, y ensures KeyLess(x, y) || x == y || KeyLess(y, x) ensures !(KeyLess(x, y) && KeyLess(y, x)) {
      LessTrichotomy(x.scopeType, y.scopeType);
      LessTrichotomy(x.scopeKey, y.scopeKey);
      LessTrichotomy(x.dimension, y.dimension);
    }
    forall x, y, z | KeyLess(x, y) && KeyLess(y, z) ensures KeyLess(x, z) { KeyLessTransitive(x, y, z); }
  }

  lemma KeyLessTransitive(x: Key, y: Key, z: Key)
    requires KeyLess(x, y) && KeyLess(y, z)
    ensures KeyLess(x, z)
  {
    if Less(x.scopeType, y.scopeType) && Less(y.scopeType, z.scopeType) {
      LessTransitive(x.scopeType, y.scopeType, z.scopeType);
    } else if x.scopeType == y.scopeType == z.scopeType {
      if Less(x.scopeKey, y.scopeKey) && Less(y.scopeKey, z.scopeKey) {
        LessTransitive(x.scopeKey, y.scopeKey, z.scopeKey);
      } else if x.scopeKey == y.scopeKey == z.scopeKey {
        LessTransitive(x.dimension, y.dimension, z.dimension);
      }
    }
  }

  lemma SortedItemsAscend(items: seq<Item>, less: (Key, Key) -> bool)
    requires ItemsOk(items) && TotalOrder(less)
    ensures Ascending(ByKey(less), SortBy(ByKey(less), items))
  {
    forall x, y | x in Elems(items) && y in Elems(items) ensures ByKey(less)(x, y) || x == y || ByKey(less)(y, x) {
      if x.key == y.key {
        var i :| 0 <= i < |items| && items[i] == x;
        var j :| 0 <= j < |items| && items[j] == y;
        assert i == j;
      }
    }
    assert StrictTotalOn(ByKey(less), Elems(items));
    SortByAscending(ByKey(less), items);
  }

  /** A counter that a reservation item can name. */
  predicate Countable(k: Key) { Admitted(k) && !IsCeiling(k) }

  /** The two sort orders agree wherever a reservation item can be. */
  ghost predicate Agrees(collation: (Key, Key) -> bool) {
    forall x, y | Countable(x) && Countable(y) :: collation(x, y) == KeyLess(x, y)
  }

  lemma PlanAscends(verb: Verb, less: (Key, Key) -> bool)
    requires Proper(verb) && TotalOrder(less) && (verb.Reserve? ==> Agrees(less))
    ensures Ascending(LockLess(less), PlanOf(verb, less))
  {
    match verb
    case Reserve(d) => ReserveAscends(d, less);
    case Rehold(_, items) => SortedItemsAscend(items, less);
    case Sweep(keys) => SweepAscends(keys, less);
  }

  lemma SweepAscends(keys: seq<Key>, less: (Key, Key) -> bool)
    requires Proper(Sweep(keys)) && TotalOrder(less)
    ensures Ascending(LockLess(less), PlanOf(Sweep(keys), less))
  {
    assert StrictTotalOn(less, Elems(keys));
    SortByAscending(less, keys);
  }

  lemma ReserveAscends(d: Demand, less: (Key, Key) -> bool)
    requires WellFormed(d) && Agrees(less)
    ensures Ascending(LockLess(less), PlanOf(Reserve(d), less))
  {
    KeyLessTotal();
    SortedItemsAscend(d.items, KeyLess);
    QuotaLaws.SortedItemsOk(d.items);
    var items := Sorted(d.items);
    forall i, j | 0 <= i < j < |items| ensures less(items[i].key, items[j].key) {
      assert PooledItem(items[i]) && PooledItem(items[j]);
      assert ByKey(KeyLess)(items[i], items[j]);
    }
  }

  /** Transactions of the verbs, none of them started. */
  ghost predicate Starting(s: Txns, collation: (Key, Key) -> bool) {
    forall t | t in s :: Unstarted(s[t], collation)
  }

  ghost predicate Unstarted(x: Txn, collation: (Key, Key) -> bool) {
    x.taken == 0 && exists v :: Proper(v) && x.plan == PlanOf(v, collation)
  }

  /** Every run of the verbs can be carried on until all have ended. */
  ghost predicate NeverStuck(collation: (Key, Key) -> bool) {
    forall s: Txns, schedule: seq<nat> | Starting(s, collation) && AllOk(s) :: Endable(Run(s, schedule))
  }

  ghost predicate Endable(s: Txns)
    requires AllOk(s)
  {
    exists rest :: Run(s, rest) == map[]
  }

  lemma {:induction false} RunOrdered(s: Txns, less: (Lock, Lock) -> bool, schedule: seq<nat>)
    requires AllOk(s) && Ordered(s, less)
    ensures Ordered(Run(s, schedule), less)
    decreases |schedule|
  {
    if schedule != [] {
      RunOrdered(Advance(s, schedule[0]), less, schedule[1..]);
    }
  }

  /** Any number of concurrent reserves, on their own, never get stuck, whatever the collation. */
  lemma ReservesNeverStuck(demands: map<nat, Demand>, schedule: seq<nat>)
    requires forall t | t in demands :: WellFormed(demands[t])
    ensures
      var s := map t | t in demands :: Txn([Header(demands[t].id)] + Locks(Sorted(demands[t].items)), 0);
      AllOk(s) && Endable(Run(s, schedule))
  {
    var s := map t | t in demands :: Txn([Header(demands[t].id)] + Locks(Sorted(demands[t].items)), 0);
    KeyLessTotal();
    LockLessStrict(KeyLess);
    forall t | t in s ensures Ascending(LockLess(KeyLess), s[t].plan) { ReserveAscends(demands[t], KeyLess); }
    assert AllOk(s);
    RunOrdered(s, LockLess(KeyLess), schedule);
    var rest := AllCanEnd(Run(s, schedule), LockLess(KeyLess));
  }

  lemma {:induction false} StuckForGood(s: Txns, schedule: seq<nat>)
    requires AllOk(s) && forall t :: !Enabled(s, t)
    ensures Run(s, schedule) == s
    decreases |schedule|
  {
    if schedule != [] { StuckForGood(s, schedule[1..]); }
  }

  function Pair(x: Key, y: Key): seq<Item> { [Item(x, 1), Item(y, 1)] }

  lemma TwoSorted(a: Item, b: Item, less: (Item, Item) -> bool)
    requires less(a, b) != less(b, a)
    ensures SortBy(less, [a, b]) == if less(a, b) then [a, b] else [b, a]
  {
    assert [a, b][1..] == [b] && [b][1..] == [];
    assert SortBy(less, [b]) == [b];
    assert [a] + [b] == [a, b];
  }

  lemma PairOk(x: Key, y: Key)
    requires Countable(x) && Countable(y) && x != y
    ensures ItemsOk(Pair(x, y)) && WellFormed(Demand("one", "w", 0, Pair(x, y), []))
  {}

  lemma ReservePair(collation: (Key, Key) -> bool, x: Key, y: Key)
    requires Countable(x) && Countable(y) && x != y && KeyLess(x, y) && !KeyLess(y, x)
    ensures Unstarted(Txn([Header("one"), Counter(x), Counter(y)], 0), collation)
  {
    var d := Demand("one", "w", 0, Pair(x, y), []);
    PairOk(x, y);
    TwoSorted(Item(x, 1), Item(y, 1), ByKey(KeyLess));
    assert PlanOf(Reserve(d), collation) == [Header("one"), Counter(x), Counter(y)];
    assert Proper(Reserve(d));
  }

  lemma ReholdPair(collation: (Key, Key) -> bool, x: Key, y: Key)
    requires Countable(x) && Countable(y) && x != y && collation(y, x) && !collation(x, y)
    ensures Unstarted(Txn([Header("two"), Counter(y), Counter(x)], 0), collation)
  {
    PairOk(x, y);
    TwoSorted(Item(x, 1), Item(y, 1), ByKey(collation));
    assert PlanOf(Rehold("two", Pair(x, y)), collation) == [Header("two"), Counter(y), Counter(x)];
    assert Proper(Rehold("two", Pair(x, y)));
  }

  /** Two verbs that sort the same two counters differently block each other. */
  lemma DisagreementBlocks(collation: (Key, Key) -> bool, x: Key, y: Key)
    requires Countable(x) && Countable(y)
    requires KeyLess(x, y) && !KeyLess(y, x) && collation(y, x) && !collation(x, y)
    ensures !NeverStuck(collation)
  {
    ReservePair(collation, x, y);
    ReholdPair(collation, x, y);
    assert x != y;
    CrossedPlans([Header("one"), Counter(x), Counter(y)], [Header("two"), Counter(y), Counter(x)], collation);
  }

  function Two(p: seq<Lock>, i: nat, q: seq<Lock>, j: nat): Txns { map[0 := Txn(p, i), 1 := Txn(q, j)] }

  lemma CrossedPlans(p: seq<Lock>, q: seq<Lock>, collation: (Key, Key) -> bool)
    requires |p| == 3 == |q| && p[0] != q[0] && p[1] == q[2] && p[2] == q[1]
    requires p[1] != q[1] && p[0] != q[1] && p[1] != q[0]
    requires Unstarted(Txn(p, 0), collation) && Unstarted(Txn(q, 0), collation)
    ensures !NeverStuck(collation)
  {
    var s, schedule, stuck := CrossedLocks(p, q);
    LeadsToStuck(collation, s, schedule, stuck);
  }

  lemma LeadsToStuck(collation: (Key, Key) -> bool, s: Txns, schedule: seq<nat>, stuck: Txns)
    requires AllOk(s) && Starting(s, collation) && Run(s, schedule) == stuck
    requires stuck != map[] && forall t :: !Enabled(stuck, t)
    ensures !NeverStuck(collation)
  {
    StuckNotEndable(stuck);
  }

  lemma StuckNotEndable(s: Txns)
    requires AllOk(s) && s != map[] && forall t :: !Enabled(s, t)
    ensures !Endable(s)
  {
    forall rest ensures Run(s, rest) != map[] { StuckForGood(s, rest); }
  }

  lemma TakeLeft(p: seq<Lock>, i: nat, q: seq<Lock>, j: nat)
    requires i < |p| && j <= |q| && p[i] !in q[..j]
    ensures AllOk(Two(p, i, q, j)) && Advance(Two(p, i, q, j), 0) == Two(p, i + 1, q, j)
  {
    assert Free(Two(p, i, q, j), 0);
  }

  lemma CrossedLocks(p: seq<Lock>, q: seq<Lock>) returns (s: Txns, schedule: seq<nat>, stuck: Txns)
    requires |p| == 3 == |q| && p[0] != q[0] && p[1] == q[2] && p[2] == q[1]
    requires p[1] != q[1] && p[0] != q[1] && p[1] != q[0]
    ensures s == Two(p, 0, q, 0) && AllOk(s) && Run(s, schedule) == stuck
    ensures stuck != map[] && AllOk(stuck) && forall t :: !Enabled(stuck, t)
  {
    s, schedule, stuck := Two(p, 0, q, 0), [0, 0, 1, 1], Two(p, 2, q, 2);
    TakeLeft(p, 0, q, 0);
    TakeLeft(p, 1, q, 0);
    RunFour(s, 0, 0, 1, 1);
    CrossedStuck(p, q);
    assert 0 in stuck;
  }

  lemma CrossedStuck(p: seq<Lock>, q: seq<Lock>)
    requires |p| == 3 == |q| && p[1] == q[2] && p[2] == q[1]
    ensures AllOk(Two(p, 2, q, 2)) && forall t :: !Enabled(Two(p, 2, q, 2), t)
  {
    var s := Two(p, 2, q, 2);
    assert p[..2][1] == p[1] && q[..2][1] == q[1];
    assert s[1].Has(s[0].Wants()) && s[0].Has(s[1].Wants());
  }

  lemma RunFour(s: Txns, a: nat, b: nat, c: nat, d: nat)
    requires AllOk(s)
    ensures Run(s, [a, b, c, d]) == Advance(Advance(Advance(Advance(s, a), b), c), d)
  {
    assert [a, b, c, d][1..] == [b, c, d] && [b, c, d][1..] == [c, d] && [c, d][1..] == [d] && [d][1..] == [];
    var s1 := Advance(s, a);
    var s2 := Advance(s1, b);
    var s3 := Advance(s2, c);
    assert Run(s, [a, b, c, d]) == Run(s1, [b, c, d]);
    assert Run(s1, [b, c, d]) == Run(s2, [c, d]);
    assert Run(s2, [c, d]) == Run(s3, [d]);
    assert Run(Advance(s3, d), []) == Advance(s3, d);
    assert Run(s3, [d]) == Advance(s3, d);
  }

  /** Mixing reserves with releases, reactivations and sweeps is deadlock-free exactly when the database's
      collation sorts the pooled counters as code points do. */
  lemma AgreementDecides(collation: (Key, Key) -> bool)
    requires TotalOrder(collation)
    ensures NeverStuck(collation) <==> Agrees(collation)
  {
    KeyLessTotal();
    if Agrees(collation) {
      LockLessStrict(collation);
      forall s: Txns, schedule: seq<nat> | Starting(s, collation) && AllOk(s) ensures Endable(Run(s, schedule)) {
        forall t | t in s ensures Ascending(LockLess(collation), s[t].plan) {
          assert Unstarted(s[t], collation);
          var v :| Proper(v) && s[t].plan == PlanOf(v, collation);
          PlanAscends(v, collation);
        }
        RunOrdered(s, LockLess(collation), schedule);
        var rest := AllCanEnd(Run(s, schedule), LockLess(collation));
      }
    } else {
      var x, y :| Countable(x) && Countable(y) && collation(x, y) != KeyLess(x, y);
      if KeyLess(x, y) { DisagreementBlocks(collation, x, y); } else { DisagreementBlocks(collation, y, x); }
    }
  }
}
