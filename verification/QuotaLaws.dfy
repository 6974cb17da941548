/** What the quota verbs keep, and what each one amounts to counter by counter. */
module QuotaLaws {
  import opened Basics
  import opened QuotaLedger

  // ---------------------------------------------------------------------------
  // Holding and releasing a list of items.

  predicate Fits(quotas: map<Key, Quota>, items: seq<Item>) {
    forall i | i in items :: i.key in quotas && quotas[i.key].reserved + i.amount <= quotas[i.key].limit
  }

  /** Same rows and limits, and every counter moved by `sign` times its amount. */
  predicate Moved(quotas: map<Key, Quota>, after: map<Key, Quota>, items: seq<Item>, sign: int) {
    && after.Keys == quotas.Keys
    && forall k | k in quotas ::
         after[k].limit == quotas[k].limit && after[k].reserved == quotas[k].reserved + sign * Amount(items, k)
  }

  lemma {:induction false} AbsentAmount(items: seq<Item>, k: Key)
    requires forall i | i in items :: i.key != k
    ensures Amount(items, k) == 0
    decreases |items|
  {
    if items != [] { AbsentAmount(items[1..], k); }
  }

  lemma {:induction false} AmountAt(items: seq<Item>, i: Item)
    requires DistinctKeys(items) && i in items
    ensures Amount(items, i.key) == i.amount
    decreases |items|
  {
    if items[0].key == i.key {
      assert forall j | j in items[1..] :: j.key != i.key;
      AbsentAmount(items[1..], i.key);
    } else {
      assert i in items[1..];
      AmountAt(items[1..], i);
    }
  }

  /** All or nothing: the counters are taken exactly when every one of them exists and has room. */
  lemma {:induction false} HoldExactly(quotas: map<Key, Quota>, items: seq<Item>)
    requires DistinctKeys(items)
    ensures Hold(quotas, items).Ok? <==> Fits(quotas, items)
    ensures Hold(quotas, items).Ok? ==> Moved(quotas, Hold(quotas, items).value, items, 1)
    decreases |items|
  {
    if items != [] {
      var k, rest := items[0].key, items[1..];
      assert items[0] in items;
      if k in quotas && quotas[k].reserved + items[0].amount <= quotas[k].limit {
        var next := quotas[k := quotas[k].(reserved := quotas[k].reserved + items[0].amount)];
        HoldExactly(next, rest);
        assert forall j | j in rest :: j.key != k;
        assert Fits(next, rest) <==> Fits(quotas, rest);
        assert Fits(quotas, items) <==> Fits(quotas, rest) by {
          assert forall j | j in items :: j == items[0] || j in rest;
        }
        AbsentAmount(rest, k);
      }
    }
  }

  /** Releasing what is there subtracts exactly the amounts. */
  lemma {:induction false} UnholdExactly(quotas: map<Key, Quota>, items: seq<Item>)
    requires DistinctKeys(items)
    requires forall i | i in items :: i.key in quotas && i.amount <= quotas[i.key].reserved
    ensures Moved(quotas, Unhold(quotas, items), items, -1)
    decreases |items|
  {
    if items != [] {
      var k, rest := items[0].key, items[1..];
      assert items[0] in items;
      var next := quotas[k := Lowered(quotas[k], items[0].amount)];
      assert forall j | j in rest :: j.key != k && j in items;
      UnholdExactly(next, rest);
      AbsentAmount(rest, k);
    }
  }

  // ---------------------------------------------------------------------------
  // Held sums.

  lemma SumWithHeld(rs: map<string, Reservation>, id: string, r: Reservation, k: Key)
    requires r.held && (id in rs ==> !rs[id].held)
    ensures HeldSum(rs[id := r], k) == HeldSum(rs, k) + Amount(r.items, k)
  {
    var after := rs[id := r];
    assert HeldIds(after) == HeldIds(rs) + {id};
    SumAdd(HeldIds(rs), AmountIn(after, k), id);
    SumSame(HeldIds(rs), AmountIn(after, k), AmountIn(rs, k));
  }

  lemma SumWithReleased(rs: map<string, Reservation>, id: string, r: Reservation, k: Key)
    requires !r.held && id in rs && rs[id].held
    ensures HeldSum(rs[id := r], k) == HeldSum(rs, k) - Amount(rs[id].items, k)
  {
    var after := rs[id := r];
    assert HeldIds(after) == HeldIds(rs) - {id};
    SumTake(HeldIds(rs), AmountIn(rs, k), id);
    SumSame(HeldIds(after), AmountIn(after, k), AmountIn(rs, k));
  }

  lemma SumRenewed(rs: map<string, Reservation>, id: string, r: Reservation, k: Key)
    requires id in rs && r.held == rs[id].held && r.items == rs[id].items
    ensures HeldSum(rs[id := r], k) == HeldSum(rs, k)
  {
    assert HeldIds(rs[id := r]) == HeldIds(rs);
    SumSame(HeldIds(rs), AmountIn(rs[id := r], k), AmountIn(rs, k));
  }

  lemma {:induction false} AmountNonNegative(items: seq<Item>, k: Key)
    requires forall i | i in items :: i.amount >= 1
    ensures Amount(items, k) >= 0
    decreases |items|
  {
    if items != [] { AmountNonNegative(items[1..], k); }
  }

  lemma {:induction false} SumNonNegative(ids: set<string>, f: string -> int)
    requires forall id | id in ids :: f(id) >= 0
    ensures Sum(ids, f) >= 0
    decreases |ids|
  {
    if ids != {} {
      var id :| id in ids;
      SumTake(ids, f, id);
      SumNonNegative(ids - {id}, f);
    }
  }

  // ---------------------------------------------------------------------------
  // The invariant.

  ghost predicate ReservationsOk(s: Tables) {
    forall id | id in s.reservations ::
      ItemsOk(s.reservations[id].items) && ItemsKnown(s.reservations[id].items, s.quotas.Keys)
  }

  predicate ItemsKnown(items: seq<Item>, keys: set<Key>) { forall i | i in items :: i.key in keys }

  /** Each pooled counter is the sum of what is held there, and ceilings stay at zero. */
  ghost predicate Balanced(s: Tables) {
    forall k | k in s.quotas :: s.quotas[k].limit >= 0 && s.quotas[k].reserved == Expected(s, k)
  }

  ghost predicate Inv(s: Tables) { ReservationsOk(s) && Balanced(s) }

  lemma ExpectedNonNegative(s: Tables, k: Key)
    requires ReservationsOk(s)
    ensures Expected(s, k) >= 0
  {
    forall id | id in HeldIds(s.reservations) ensures AmountIn(s.reservations, k)(id) >= 0 {
      AmountNonNegative(s.reservations[id].items, k);
    }
    SumNonNegative(HeldIds(s.reservations), AmountIn(s.reservations, k));
  }

  /** A held reservation's item is part of its counter. */
  lemma HeldItemCounted(s: Tables, id: string, i: Item)
    requires Inv(s) && IsHeld(s, id) && i in s.reservations[id].items
    ensures i.key in s.quotas && i.amount <= s.quotas[i.key].reserved
  {
    var rs, k := s.reservations, i.key;
    assert ItemsOk(rs[id].items) && ItemsKnown(rs[id].items, s.quotas.Keys);
    var r := rs[id].(held := false);
    SumWithReleased(rs, id, r, k);
    AmountAt(rs[id].items, i);
    var after := s.(reservations := rs[id := r]);
    assert ReservationsOk(after);
    ExpectedNonNegative(after, k);
  }

  lemma CeilingAmount(items: seq<Item>, k: Key)
    requires ItemsOk(items) && IsCeiling(k)
    ensures Amount(items, k) == 0
  {
    forall i | i in items ensures i.key != k { assert PooledItem(i); }
    AbsentAmount(items, k);
  }

  lemma HoldInv(s: Tables, id: string, r: Reservation)
    requires Inv(s) && r.held && (id in s.reservations ==> !s.reservations[id].held)
    requires ItemsOk(r.items) && Hold(s.quotas, r.items).Ok?
    ensures Inv(Tables(Hold(s.quotas, r.items).value, s.reservations[id := r]))
  {
    HoldExactly(s.quotas, r.items);
    var s' := Tables(Hold(s.quotas, r.items).value, s.reservations[id := r]);
    forall k | k in s'.quotas ensures s'.quotas[k].limit >= 0 && s'.quotas[k].reserved == Expected(s', k) {
      SumWithHeld(s.reservations, id, r, k);
      if IsCeiling(k) { CeilingAmount(r.items, k); }
    }
  }

  lemma SortedItemsOk(items: seq<Item>)
    requires ItemsOk(items)
    ensures ItemsOk(Sorted(items)) && Elems(Sorted(items)) == Elems(items)
  {
    var sorted := Sorted(items);
    SameElems(sorted, items);
    forall i | i in sorted ensures PooledItem(i) { assert i in Elems(sorted); }
    forall i, j | 0 <= i < j < |sorted| ensures sorted[i].key != sorted[j].key {
      SameKeysSameItem(items, sorted, i, j);
    }
  }

  lemma SameKeysSameItem(items: seq<Item>, sorted: seq<Item>, i: nat, j: nat)
    requires DistinctKeys(items) && multiset(sorted) == multiset(items) && i < j < |sorted|
    ensures sorted[i].key != sorted[j].key
  {
    if sorted[i].key == sorted[j].key {
      SameElems(sorted, items);
      assert sorted[i] in Elems(items) && sorted[j] in Elems(items);
      assert sorted[i] == sorted[j];
      TwiceInMultiset(sorted, i, j);
      OnceInMultiset(items, sorted[i]);
    }
  }

  lemma TwiceInMultiset(s: seq<Item>, i: nat, j: nat)
    requires i < j < |s| && s[i] == s[j]
    ensures multiset(s)[s[i]] >= 2
  {
    assert s == s[..j] + s[j..];
    assert s[i] in s[..j] && s[j] in s[j..];
    assert s[i] in multiset(s[..j]) && s[j] in multiset(s[j..]);
  }

  lemma {:induction false} OnceInMultiset(s: seq<Item>, x: Item)
    requires DistinctKeys(s)
    ensures multiset(s)[x] <= 1
    decreases |s|
  {
    if s != [] {
      assert s == [s[0]] + s[1..];
      OnceInMultiset(s[1..], x);
      if s[0] == x { assert x !in s[1..]; assert x !in multiset(s[1..]); }
    }
  }

  lemma ReserveInv(s: Tables, d: Demand)
    requires Inv(s) && WellFormed(d) && ReserveSpec(s, d).Ok?
    ensures Inv(ReserveSpec(s, d).value)
  {
    SortedItemsOk(d.items);
    HoldInv(s, d.id, HeaderOf(d));
  }

  lemma ReleaseMoves(s: Tables, id: string)
    requires Inv(s) && IsHeld(s, id)
    ensures Moved(s.quotas, Unhold(s.quotas, s.reservations[id].items), s.reservations[id].items, -1)
  {
    var items := s.reservations[id].items;
    assert ItemsOk(items);
    forall i | i in items ensures i.key in s.quotas && i.amount <= s.quotas[i.key].reserved {
      HeldItemCounted(s, id, i);
    }
    UnholdExactly(s.quotas, items);
  }

  lemma ReleaseInv(s: Tables, id: string, now: int)
    requires Inv(s)
    ensures Inv(ReleaseSpec(s, id, now))
  {
    if IsHeld(s, id) {
      var s', items := ReleaseSpec(s, id, now), s.reservations[id].items;
      ReleaseMoves(s, id);
      forall k | k in s'.quotas ensures s'.quotas[k].limit >= 0 && s'.quotas[k].reserved == Expected(s', k) {
        SumWithReleased(s.reservations, id, s'.reservations[id], k);
        if IsCeiling(k) { assert ItemsOk(items); CeilingAmount(items, k); }
      }
      assert ReservationsOk(s') by {
        forall i | i in s'.reservations
          ensures ItemsOk(s'.reservations[i].items) && ItemsKnown(s'.reservations[i].items, s'.quotas.Keys) {
          assert s'.reservations[i].items == s.reservations[i].items;
        }
      }
    }
  }

  lemma ReactivateInv(s: Tables, id: string, expiresAt: int)
    requires Inv(s) && ReactivateSpec(s, id, expiresAt).Ok?
    ensures Inv(ReactivateSpec(s, id, expiresAt).value)
  {
    if !s.reservations[id].held {
      HoldInv(s, id, s.reservations[id].(held := true, releasedAt := None, expiresAt := expiresAt));
    }
  }

  lemma RenewInv(s: Tables, id: string, expiresAt: int)
    requires Inv(s) && IsHeld(s, id)
    ensures Inv(RenewSpec(s, id, expiresAt).value)
  {
    var s' := RenewSpec(s, id, expiresAt).value;
    forall k | k in s'.quotas ensures s'.quotas[k].reserved == Expected(s', k) {
      SumRenewed(s.reservations, id, s'.reservations[id], k);
    }
  }

  /** Seeding a row keeps the balance exactly when the row exists already or is seeded empty: the caller's
      counter value is written as it is. */
  lemma UpsertKeepsBalance(s: Tables, k: Key, q: Quota)
    requires Inv(s) && UpsertSpec(s, k, q).Ok?
    ensures Inv(UpsertSpec(s, k, q).value) <==> k in s.quotas || q.reserved == 0
  {
    if k !in s.quotas {
      var s' := UpsertSpec(s, k, q).value;
      NothingHeldAt(s, k);
      assert ReservationsOk(s');
      assert s'.quotas[k] == q && Expected(s', k) == 0;
      forall j | j in s.quotas ensures s'.quotas[j].reserved == Expected(s', j) {}
    }
  }

  lemma NothingHeldAt(s: Tables, k: Key)
    requires ReservationsOk(s) && k !in s.quotas
    ensures Expected(s, k) == 0
  {
    forall id | id in HeldIds(s.reservations) ensures AmountIn(s.reservations, k)(id) == 0 {
      assert ItemsKnown(s.reservations[id].items, s.quotas.Keys);
      AbsentAmount(s.reservations[id].items, k);
    }
    SumZero(HeldIds(s.reservations), AmountIn(s.reservations, k));
  }

  // ---------------------------------------------------------------------------
  // Reconciling.

  ghost predicate RowChecks(s: Tables) { forall k | k in s.quotas :: QuotaChecks(k, s.quotas[k]) }

  /** Whatever the counters have drifted to, the sweep restores the balance of every counter at once, unless some
      pool is held above its limit (after a limit cut) and its counter has drifted low: then it changes nothing. */
  lemma ReconcileExactly(s: Tables)
    requires ReservationsOk(s) && RowChecks(s)
    ensures ReconcileSpec(s).Ok? <==>
      forall k | k in s.quotas :: Expected(s, k) <= s.quotas[k].limit || Expected(s, k) <= s.quotas[k].reserved
    ensures ReconcileSpec(s).Ok? ==>
      Inv(ReconcileSpec(s).value) && ReconcileSpec(s).value.reservations == s.reservations
    ensures ReconcileSpec(s).Ok? ==>
      var after := ReconcileSpec(s).value.quotas;
      after.Keys == s.quotas.Keys && forall k | k in after :: after[k].limit == s.quotas[k].limit
  {
    forall k | k in s.quotas
      ensures MayUpdate(k, s.quotas[k], Recomputed(s)[k]) <==>
              Expected(s, k) <= s.quotas[k].limit || Expected(s, k) <= s.quotas[k].reserved
    {
      ExpectedNonNegative(s, k);
      assert QuotaChecks(k, s.quotas[k]);
    }
    var s' := s.(quotas := Recomputed(s));
    assert s'.quotas.Keys == s.quotas.Keys;
    forall k | k in s'.quotas ensures s'.quotas[k].limit >= 0 && s'.quotas[k].reserved == Expected(s', k) {
      assert QuotaChecks(k, s.quotas[k]);
    }
  }

  lemma InvRowChecks(s: Tables)
    requires Inv(s)
    ensures RowChecks(s)
  {
    forall k | k in s.quotas ensures QuotaChecks(k, s.quotas[k]) { ExpectedNonNegative(s, k); }
  }

  /** Without drift the sweep changes nothing. */
  lemma ReconcileNoOp(s: Tables)
    requires Inv(s)
    ensures ReconcileSpec(s) == Ok(s)
  {
    InvRowChecks(s);
    ReconcileExactly(s);
    assert Recomputed(s) == s.quotas;
  }

  // ---------------------------------------------------------------------------
  // Runs.

  datatype Verb =
    | Reserve(d: Demand)
    | Release(id: string, now: int)
    | Reactivate(id: string, expiresAt: int)
    | Renew(id: string, expiresAt: int)
    | Upsert(k: Key, q: Quota)
    | SetLimit(k: Key, limit: int)
    | Delete(k: Key)
    | Reconcile

  ghost function Call(s: Tables, verb: Verb): Outcome<Tables> {
    match verb
    case Reserve(d) => ReserveSpec(s, d)
    case Release(id, now) => Ok(ReleaseSpec(s, id, now))
    case Reactivate(id, expiresAt) => ReactivateSpec(s, id, expiresAt)
    case Renew(id, expiresAt) => RenewSpec(s, id, expiresAt)
    case Upsert(k, q) => UpsertSpec(s, k, q)
    case SetLimit(k, limit) => SetLimitSpec(s, k, limit)
    case Delete(k) => DeleteSpec(s, k)
    case Reconcile => ReconcileSpec(s)
  }

  ghost function After(s: Tables, verb: Verb): Tables {
    match Call(s, verb) case Ok(s') => s' case Err(_) => s
  }

  ghost function Run(s: Tables, verbs: seq<Verb>): Tables
    decreases |verbs|
  {
    if verbs == [] then s else Run(After(s, verbs[0]), verbs[1..])
  }

  /** Demands are well-formed and limits are seeded with an empty counter. */
  predicate Proper(verb: Verb) {
    match verb
    case Reserve(d) => WellFormed(d)
    case Upsert(_, q) => q.reserved == 0
    case _ => true
  }

  lemma StepInv(s: Tables, verb: Verb)
    requires Inv(s) && Proper(verb)
    ensures Inv(After(s, verb))
  {
    if Call(s, verb).Ok? {
      match verb
      case Reserve(d) => ReserveInv(s, d);
      case Release(id, now) => ReleaseInv(s, id, now);
      case Reactivate(id, expiresAt) => ReactivateInv(s, id, expiresAt);
      case Renew(id, expiresAt) => RenewInv(s, id, expiresAt);
      case Upsert(k, q) => UpsertKeepsBalance(s, k, q);
      case SetLimit(k, limit) =>
      case Delete(k) =>
      case Reconcile => ReconcileNoOp(s);
    }
  }

  lemma {:induction false} RunInv(s: Tables, verbs: seq<Verb>)
    requires Inv(s) && forall v | v in verbs :: Proper(v)
    ensures Inv(Run(s, verbs))
    decreases |verbs|
  {
    if verbs != [] {
      StepInv(s, verbs[0]);
      RunInv(After(s, verbs[0]), verbs[1..]);
    }
  }

  /** In every reachable state each pooled counter is exactly the sum of the held items at it, none is negative,
      and ceilings stay at zero. */
  lemma CountersBalance(verbs: seq<Verb>, k: Key)
    requires forall v | v in verbs :: Proper(v)
    ensures
      var s := Run(EMPTY, verbs);
      k in s.quotas ==>
        && s.quotas[k].reserved == (if IsCeiling(k) then 0 else HeldSum(s.reservations, k))
        && s.quotas[k].reserved >= 0
  {
    RunInv(EMPTY, verbs);
    ExpectedNonNegative(Run(EMPTY, verbs), k);
  }

  // ---------------------------------------------------------------------------
  // Verb against verb.

  /** A reserve happens exactly when its id is new and every ceiling and every counter admits it, and then it
      moves exactly the counters it names. */
  lemma ReserveExactly(s: Tables, d: Demand)
    requires Inv(s) && WellFormed(d)
    ensures ReserveSpec(s, d).Ok? <==>
      d.id !in s.reservations && CeilingsAdmit(s.quotas, d.ceilings) && Fits(s.quotas, d.items)
    ensures ReserveSpec(s, d).Ok? ==>
      var s' := ReserveSpec(s, d).value;
      Moved(s.quotas, s'.quotas, d.items, 1) && IsHeld(s', d.id)
  {
    SortedItemsOk(d.items);
    CeilingsExactly(s.quotas, d.ceilings);
    HoldExactly(s.quotas, Sorted(d.items));
    forall i ensures i in Sorted(d.items) <==> i in d.items {
      assert i in Elems(Sorted(d.items)) <==> i in Elems(d.items);
    }
    forall k ensures Amount(Sorted(d.items), k) == Amount(d.items, k) { SameAmount(d.items, Sorted(d.items), k); }
  }

  lemma SameAmount(a: seq<Item>, b: seq<Item>, k: Key)
    requires DistinctKeys(a) && DistinctKeys(b) && Elems(a) == Elems(b)
    ensures Amount(a, k) == Amount(b, k)
  {
    if i :| i in a && i.key == k {
      assert i in Elems(b);
      AmountAt(a, i);
      AmountAt(b, i);
    } else {
      forall i | i in b ensures i.key != k { assert i in Elems(a); }
      AbsentAmount(a, k);
      AbsentAmount(b, k);
    }
  }

  predicate CeilingsAdmit(quotas: map<Key, Quota>, ceilings: seq<Ceiling>) {
    forall c | c in ceilings :: c.key in quotas && c.required <= quotas[c.key].limit
  }

  lemma {:induction false} CeilingsExactly(quotas: map<Key, Quota>, ceilings: seq<Ceiling>)
    ensures CheckCeilings(quotas, ceilings).Ok? <==> CeilingsAdmit(quotas, ceilings)
    decreases |ceilings|
  {
    if ceilings != [] {
      assert ceilings[0] in ceilings;
      CeilingsExactly(quotas, ceilings[1..]);
      assert forall c | c in ceilings :: c == ceilings[0] || c in ceilings[1..];
    }
  }

  lemma SameCounters(a: map<Key, Quota>, b: map<Key, Quota>)
    requires a.Keys == b.Keys
    requires forall k | k in a :: a[k].limit == b[k].limit && a[k].reserved == b[k].reserved
    ensures a == b
  {
    forall k | k in a ensures a[k] == b[k] {}
  }

  /** Releasing what was just reserved puts every counter back. */
  lemma ReleaseUndoesReserve(s: Tables, d: Demand, now: int)
    requires Inv(s) && WellFormed(d) && ReserveSpec(s, d).Ok?
    ensures ReleaseSpec(ReserveSpec(s, d).value, d.id, now).quotas == s.quotas
  {
    var mid := ReserveSpec(s, d).value;
    ReserveInv(s, d);
    SortedItemsOk(d.items);
    HoldExactly(s.quotas, Sorted(d.items));
    ReleaseMoves(mid, d.id);
    SameCounters(ReleaseSpec(mid, d.id, now).quotas, s.quotas);
  }

  /** However often it is released, and whatever else happens in between, a released reservation gives back its
      capacity once: until it is re-held, another release changes nothing. */
  lemma {:induction false} ReleasedOnce(s: Tables, verbs: seq<Verb>, id: string, now: int)
    requires id in s.reservations && !s.reservations[id].held
    requires forall v | v in verbs :: !(v.Reactivate? && v.id == id)
    ensures ReleaseSpec(Run(s, verbs), id, now) == Run(s, verbs)
    decreases |verbs|
  {
    if verbs != [] {
      assert verbs[0] in verbs && forall v | v in verbs[1..] :: v in verbs;
      StaysReleased(s, verbs[0], id);
      ReleasedOnce(After(s, verbs[0]), verbs[1..], id, now);
    }
  }

  lemma StaysReleased(s: Tables, verb: Verb, id: string)
    requires id in s.reservations && !s.reservations[id].held && !(verb.Reactivate? && verb.id == id)
    ensures id in After(s, verb).reservations && !After(s, verb).reservations[id].held
  {}

  /** Re-holding a just released reservation undoes the release exactly when none of its counters was above its
      limit before: a limit cut makes the relaunch fail. */
  lemma ReactivateUndoesRelease(s: Tables, id: string, now: int, expiresAt: int)
    requires Inv(s) && IsHeld(s, id)
    ensures
      var back := ReactivateSpec(ReleaseSpec(s, id, now), id, expiresAt);
      && (back.Ok? <==> forall i | i in s.reservations[id].items :: s.quotas[i.key].reserved <= s.quotas[i.key].limit)
      && (back.Ok? ==> back.value.quotas == s.quotas)
  {
    var r := s.reservations[id];
    var mid := ReleaseSpec(s, id, now);
    assert ItemsOk(r.items);
    ReleaseMoves(s, id);
    HoldExactly(mid.quotas, r.items);
    forall i | i in r.items
      ensures i.key in s.quotas
      ensures mid.quotas[i.key].reserved + i.amount == s.quotas[i.key].reserved
    {
      HeldItemCounted(s, id, i);
      AmountAt(r.items, i);
    }
    var back := ReactivateSpec(mid, id, expiresAt);
    if back.Ok? { SameCounters(back.value.quotas, s.quotas); }
  }

  /** No verb ever raises a counter above its limit: one that is above it can only have fallen. */
  lemma AboveLimitOnlyFalls(s: Tables, verb: Verb, k: Key)
    requires Inv(s) && Proper(verb) && k in s.quotas && k in After(s, verb).quotas
    ensures
      var q := After(s, verb).quotas[k];
      q.reserved > q.limit ==> q.reserved <= s.quotas[k].reserved
  {
    if Call(s, verb).Ok? {
      match verb
      case Reserve(d) =>
        SortedItemsOk(d.items);
        HoldNeverOverruns(s.quotas, Sorted(d.items), k);
      case Release(id, now) =>
        if IsHeld(s, id) {
          ReleaseMoves(s, id);
          assert ItemsOk(s.reservations[id].items);
          AmountNonNegative(s.reservations[id].items, k);
        }
      case Reactivate(id, expiresAt) =>
        assert ItemsOk(s.reservations[id].items);
        if !s.reservations[id].held { HoldNeverOverruns(s.quotas, s.reservations[id].items, k); }
      case Renew(id, expiresAt) =>
      case Upsert(_, q) =>
      case SetLimit(_, limit) =>
      case Delete(_) =>
      case Reconcile => ReconcileNoOp(s);
    }
  }

  lemma HoldNeverOverruns(quotas: map<Key, Quota>, items: seq<Item>, k: Key)
    requires ItemsOk(items) && Hold(quotas, items).Ok? && k in quotas
    ensures k in Hold(quotas, items).value
    ensures
      var q := Hold(quotas, items).value[k];
      q.reserved > q.limit ==> q.reserved <= quotas[k].reserved
  {
    HoldExactly(quotas, items);
    if i :| i in items && i.key == k { AmountAt(items, i); } else { AbsentAmount(items, k); }
  }

  // ---------------------------------------------------------------------------
  // What a limit cut can break.

  function Cpu(): Key { Key("worker", "w", "cpu_millis") }

  function Launch(): Demand { Demand("r", "w", 0, [Item(Cpu(), 6)], []) }

  lemma LaunchOk()
    ensures WellFormed(Launch()) && Sorted(Launch().items) == [Item(Cpu(), 6)]
  {
    assert "w"[0] in "w" && !Blank("w");
    assert [Item(Cpu(), 6)][1..] == [];
  }

  /** Six of ten units are held when the limit is cut to three. */
  lemma CutRun() returns (verbs: seq<Verb>, s: Tables)
    ensures (forall v | v in verbs :: Proper(v)) && s == Run(EMPTY, verbs)
    ensures s.quotas == map[Cpu() := Quota(3, 6)]
    ensures s.reservations == map["r" := Reservation("w", true, 0, None, [Item(Cpu(), 6)])]
  {
    LaunchOk();
    verbs := [Upsert(Cpu(), Quota(10, 0)), Reserve(Launch()), SetLimit(Cpu(), 3)];
    var seeded := Tables(map[Cpu() := Quota(10, 0)], map[]);
    var launched := Tables(map[Cpu() := Quota(10, 6)], map["r" := Reservation("w", true, 0, None, [Item(Cpu(), 6)])]);
    s := launched.(quotas := map[Cpu() := Quota(3, 6)]);
    assert After(EMPTY, verbs[0]) == seeded;
    HeldOne();
    assert After(seeded, verbs[1]) == launched;
    assert After(launched, verbs[2]) == s;
    assert verbs[1..][1..] == verbs[2..] && verbs[2..][1..] == [];
    assert Run(launched, verbs[2..]) == Run(s, []);
    assert Run(seeded, verbs[1..]) == Run(launched, verbs[2..]);
  }

  lemma HeldOne()
    ensures Hold(map[Cpu() := Quota(10, 0)], [Item(Cpu(), 6)]) == Ok(map[Cpu() := Quota(10, 6)])
  {
    assert [Item(Cpu(), 6)][1..] == [];
    assert map[Cpu() := Quota(10, 0)][Cpu() := Quota(10, 6)] == map[Cpu() := Quota(10, 6)];
  }

  /** After the cut the reservation cannot be re-held once it has been released. */
  lemma CutBlocksRelaunch() returns (verbs: seq<Verb>)
    ensures forall v | v in verbs :: Proper(v)
    ensures
      var s := Run(EMPTY, verbs);
      IsHeld(s, "r") && forall now, expiresAt :: ReactivateSpec(ReleaseSpec(s, "r", now), "r", expiresAt).Err?
  {
    var s;
    verbs, s := CutRun();
    RunInv(EMPTY, verbs);
    assert Item(Cpu(), 6) in s.reservations["r"].items;
    forall now, expiresAt ensures ReactivateSpec(ReleaseSpec(s, "r", now), "r", expiresAt).Err? {
      ReactivateUndoesRelease(s, "r", now, expiresAt);
    }
  }

  /** After the cut, a counter that has drifted below what is held makes the sweep fail as a whole. */
  lemma CutBlocksSweep() returns (verbs: seq<Verb>)
    ensures forall v | v in verbs :: Proper(v)
    ensures
      var s := Run(EMPTY, verbs);
      Cpu() in s.quotas && ReconcileSpec(s.(quotas := s.quotas[Cpu() := s.quotas[Cpu()].(reserved := 4)])).Err?
  {
    var s;
    verbs, s := CutRun();
    RunInv(EMPTY, verbs);
    var drifted := s.(quotas := s.quotas[Cpu() := s.quotas[Cpu()].(reserved := 4)]);
    assert s.quotas[Cpu()].reserved == Expected(s, Cpu()) == Expected(drifted, Cpu()) == 6;
    ReconcileExactly(drifted);
  }
}
