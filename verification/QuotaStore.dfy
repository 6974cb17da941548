/** The quota repository, as the methods that change counter rows and reservations in place. */
module QuotaStore {
  import opened Basics
  import opened QuotaLedger
  import Laws = QuotaLaws

  ghost predicate Answers<T>(spec: Outcome<Tables>, before: Tables, after: Tables, r: Outcome<T>) {
    match spec
    case Ok(s) => r.Ok? && after == s
    case Err(e) => r.Err? && r.error == e && after == before
  }

  function At(sums: map<Key, int>, k: Key): int { if k in sums then sums[k] else 0 }

  lemma {:induction false} AmountSnoc(items: seq<Item>, i: nat, k: Key)
    requires i < |items|
    ensures Amount(items[..i + 1], k) == Amount(items[..i], k) + (if items[i].key == k then items[i].amount else 0)
    decreases i
  {
    if i == 0 {
      assert items[..1] == [items[0]] && items[..0] == [];
      assert Amount([items[0]][1..], k) == 0;
    } else {
      AmountSnoc(items[1..], i - 1, k);
      assert items[1..][..i] == items[..i + 1][1..];
      assert items[1..][..i - 1] == items[..i][1..];
    }
  }

  ghost predicate SumsUpTo(sums: map<Key, int>, reservations: map<string, Reservation>, done: set<string>) {
    forall k :: At(sums, k) == Sum(done * HeldIds(reservations), AmountIn(reservations, k))
  }

  ghost predicate AddsItems(before: map<Key, int>, sums: map<Key, int>, items: seq<Item>) {
    forall k :: At(sums, k) == At(before, k) + Amount(items, k)
  }

  lemma AddsItemsStep(before: map<Key, int>, sums: map<Key, int>, items: seq<Item>, i: nat)
    requires i < |items| && AddsItems(before, sums, items[..i])
    ensures AddsItems(before, sums[items[i].key := At(sums, items[i].key) + items[i].amount], items[..i + 1])
  {
    var after := sums[items[i].key := At(sums, items[i].key) + items[i].amount];
    forall k ensures At(after, k) == At(before, k) + Amount(items[..i + 1], k) { AmountSnoc(items, i, k); }
  }

  lemma SumsHeld(before: map<Key, int>, sums: map<Key, int>, reservations: map<string, Reservation>, done: set<string>,
                 id: string)
    requires id in reservations && reservations[id].held && id !in done
    requires SumsUpTo(before, reservations, done) && AddsItems(before, sums, reservations[id].items)
    ensures SumsUpTo(sums, reservations, done + {id})
  {
    var held := HeldIds(reservations);
    assert (done + {id}) * held == done * held + {id};
    forall k ensures At(sums, k) == Sum((done + {id}) * held, AmountIn(reservations, k)) {
      SumAdd(done * held, AmountIn(reservations, k), id);
    }
  }

  lemma SumsReleased(sums: map<Key, int>, reservations: map<string, Reservation>, done: set<string>, id: string)
    requires id in reservations && !reservations[id].held
    requires SumsUpTo(sums, reservations, done)
    ensures SumsUpTo(sums, reservations, done + {id})
  {
    assert (done + {id}) * HeldIds(reservations) == done * HeldIds(reservations);
  }

  /** `SELECT key, sum(amount) ... WHERE held GROUP BY key`. */
  method HeldSums(reservations: map<string, Reservation>) returns (sums: map<Key, int>)
    ensures forall k :: At(sums, k) == HeldSum(reservations, k)
  {
    sums := map[];
    var rest := reservations.Keys;
    ghost var held := HeldIds(reservations);
    assert (reservations.Keys - rest) * held == {};
    while rest != {}
      invariant rest <= reservations.Keys
      invariant SumsUpTo(sums, reservations, reservations.Keys - rest)
      decreases |rest|
    {
      var id :| id in rest;
      ghost var done := reservations.Keys - rest;
      rest := rest - {id};
      assert reservations.Keys - rest == done + {id};
      if reservations[id].held {
        ghost var before := sums;
        var items := reservations[id].items;
        for i := 0 to |items|
          invariant AddsItems(before, sums, items[..i])
        {
          AddsItemsStep(before, sums, items, i);
          sums := sums[items[i].key := At(sums, items[i].key) + items[i].amount];
        }
        assert items[..|items|] == items;
        SumsHeld(before, sums, reservations, done, id);
      } else {
        SumsReleased(sums, reservations, done, id);
      }
    }
    assert reservations.Keys * held == held;
    assert reservations.Keys - rest == reservations.Keys;
  }

  ghost function Drifted(s: Tables): set<Key> { set k | k in s.quotas && s.quotas[k].reserved != Expected(s, k) }

  class Store {
    var quotas: map<Key, Quota>
    var reservations: map<string, Reservation>

    ghost function Rows(): Tables
      reads this
    {
      Tables(quotas, reservations)
    }

    constructor ()
      ensures Rows() == EMPTY
    {
      quotas, reservations := map[], map[];
    }

    method UpsertLimit(k: Key, q: Quota) returns (r: Outcome<()>)
      modifies this
      ensures Answers(UpsertSpec(old(Rows()), k, q), old(Rows()), Rows(), r)
    {
      if !QuotaChecks(k, q) { return Err(Integrity); }
      if k !in quotas { quotas := quotas[k := q]; }
      r := Ok(());
    }

    method CeilingsFit(ceilings: seq<Ceiling>) returns (r: Outcome<()>)
      ensures r == CheckCeilings(quotas, ceilings)
    {
      var i := 0;
      while i < |ceilings|
        invariant 0 <= i <= |ceilings|
        invariant CheckCeilings(quotas, ceilings) == CheckCeilings(quotas, ceilings[i..])
      {
        var c := ceilings[i];
        if c.key !in quotas { return Err(Lookup); }
        if c.required > quotas[c.key].limit { return Err(Exceeded); }
        i := i + 1;
      }
      r := Ok(());
    }

    /** Raises the counters row by row; an overrun leaves them half raised, for the caller to roll back. */
    method HoldItems(items: seq<Item>) returns (r: Outcome<()>)
      modifies `quotas
      ensures r.Ok? <==> Hold(old(quotas), items).Ok?
      ensures r.Ok? ==> Hold(old(quotas), items) == Ok(quotas)
      ensures r.Err? ==> Hold(old(quotas), items) == Err(r.error)
    {
      var i := 0;
      while i < |items|
        invariant 0 <= i <= |items|
        invariant Hold(old(quotas), items) == Hold(quotas, items[i..])
      {
        var k := items[i].key;
        if k !in quotas { return Err(Lookup); }
        var row := quotas[k];
        if row.reserved + items[i].amount > row.limit { return Err(Exceeded); }
        quotas := quotas[k := row.(reserved := row.reserved + items[i].amount)];
        assert items[i..][1..] == items[i + 1..];
        i := i + 1;
      }
      r := Ok(());
    }

    /** Header first, then the ceilings, then the counters; any failure rolls all of it back. */
    method Reserve(d: Demand) returns (r: Outcome<()>)
      requires WellFormed(d)
      modifies this
      ensures Answers(ReserveSpec(old(Rows()), d), old(Rows()), Rows(), r)
    {
      if d.id in reservations { return Err(Integrity); }
      var savedQuotas, savedReservations := quotas, reservations;
      var items := Sorted(d.items);
      reservations := reservations[d.id := Reservation(d.worker, true, d.expiresAt, None, items)];
      r := CeilingsFit(d.ceilings);
      if r.Ok? { r := HoldItems(items); }
      if r.Err? { quotas, reservations := savedQuotas, savedReservations; }
    }

    method Release(id: string, now: int) returns (released: bool)
      modifies this
      ensures released <==> IsHeld(old(Rows()), id)
      ensures Rows() == ReleaseSpec(old(Rows()), id, now)
    {
      if id !in reservations || !reservations[id].held { return false; }
      var items := reservations[id].items;
      var i := 0;
      while i < |items|
        invariant 0 <= i <= |items| && reservations == old(reservations)
        invariant Unhold(old(quotas), items) == Unhold(quotas, items[i..])
      {
        var k := items[i].key;
        if k in quotas { quotas := quotas[k := Lowered(quotas[k], items[i].amount)]; }
        assert items[i..][1..] == items[i + 1..];
        i := i + 1;
      }
      reservations := reservations[id := reservations[id].(held := false, releasedAt := Some(now))];
      released := true;
    }

    method Reactivate(id: string, expiresAt: int) returns (r: Outcome<()>)
      modifies this
      ensures Answers(ReactivateSpec(old(Rows()), id, expiresAt), old(Rows()), Rows(), r)
    {
      if id !in reservations { return Err(Lookup); }
      var header := reservations[id];
      if header.held { return Ok(()); }
      var savedQuotas, savedReservations := quotas, reservations;
      reservations := reservations[id := header.(held := true, releasedAt := None, expiresAt := expiresAt)];
      r := HoldItems(header.items);
      if r.Err? { quotas, reservations := savedQuotas, savedReservations; }
    }

    method Renew(id: string, expiresAt: int) returns (r: Outcome<()>)
      modifies this
      ensures Answers(RenewSpec(old(Rows()), id, expiresAt), old(Rows()), Rows(), r)
    {
      if id !in reservations || !reservations[id].held { return Err(Lookup); }
      reservations := reservations[id := reservations[id].(expiresAt := expiresAt)];
      r := Ok(());
    }

    /** The UPDATE of one row, if it differs. */
    method SweepOne(ghost s: Tables, ghost rest: set<Key>, changed: set<Key>, k: Key,
        expected: int) returns (r: Outcome<set<Key>>)
      requires Laws.RowChecks(s) && Swept(s, quotas, rest, changed) && k in rest && k in quotas
      requires expected == Expected(s, k)
      modifies `quotas
      ensures r.Ok? ==> Swept(s, quotas, rest - {k}, r.value)
      ensures r.Err? ==> r.error == Integrity && ReconcileSpec(s) == Err(Integrity)
    {
      SweepRow(s, quotas, rest, changed, k);
      if quotas[k].reserved == expected { return Ok(changed); }
      var row := quotas[k].(reserved := expected);
      if !MayUpdate(k, quotas[k], row) { return Err(Integrity); }
      quotas := quotas[k := row];
      r := Ok(changed + {k});
    }

    /** Sums the held items, then updates the rows that differ; reports how many did. */
    method ReconcileCounters() returns (r: Outcome<nat>)
      requires Laws.RowChecks(Rows())
      modifies this
      ensures Answers(ReconcileSpec(old(Rows())), old(Rows()), Rows(), r)
      ensures r.Ok? ==> r.value == |Drifted(old(Rows()))|
    {
      var sums := HeldSums(reservations);
      var saved := quotas;
      ghost var s := Rows();
      StartSwept(s);
      var changed: set<Key> := {};
      var rest := quotas.Keys;
      while rest != {}
        invariant reservations == s.reservations && rest <= quotas.Keys == saved.Keys
        invariant Swept(s, quotas, rest, changed)
        decreases |rest|
      {
        var k :| k in rest;
        var swept := SweepOne(s, rest, changed, k, if IsCeiling(k) then 0 else At(sums, k));
        if swept.Err? {
          quotas := saved;
          return Err(Integrity);
        }
        changed := swept.value;
        rest := rest - {k};
      }
      SweptAll(s, quotas, changed);
      r := Ok(|changed|);
    }
  }

  /** The sweep has been over all rows but `rest`, and changed these. */
  ghost predicate Swept(s: Tables, quotas: map<Key, Quota>, rest: set<Key>, changed: set<Key>) {
    && quotas.Keys == s.quotas.Keys
    && (forall k | k in quotas && k in rest :: quotas[k] == s.quotas[k])
    && (forall k | k in quotas && k !in rest :: SweptRow(s, k, quotas[k]))
    && changed == Drifted(s) - rest
  }

  ghost predicate SweptRow(s: Tables, k: Key, q: Quota)
    requires k in s.quotas
  {
    q == s.quotas[k].(reserved := Expected(s, k)) && MayUpdate(k, s.quotas[k], q)
  }

  lemma SweepRow(s: Tables, quotas: map<Key, Quota>, rest: set<Key>, changed: set<Key>, k: Key)
    requires Swept(s, quotas, rest, changed) && k in rest && k in quotas && Laws.RowChecks(s)
    ensures
      var row := quotas[k].(reserved := Expected(s, k));
      if row == quotas[k] then Swept(s, quotas, rest - {k}, changed)
      else if MayUpdate(k, quotas[k], row) then Swept(s, quotas[k := row], rest - {k}, changed + {k})
      else ReconcileSpec(s) == Err(Integrity)
  {
    assert quotas[k] == s.quotas[k] && QuotaChecks(k, s.quotas[k]);
    var row := quotas[k].(reserved := Expected(s, k));
    assert row == Recomputed(s)[k];
    if row != quotas[k] {
      assert k in Drifted(s);
      assert Drifted(s) - (rest - {k}) == changed + {k};
    } else {
      assert k !in Drifted(s);
      assert Drifted(s) - (rest - {k}) == changed;
    }
  }

  lemma SweptAll(s: Tables, quotas: map<Key, Quota>, changed: set<Key>)
    requires Swept(s, quotas, {}, changed)
    ensures ReconcileSpec(s) == Ok(s.(quotas := quotas)) && changed == Drifted(s)
  {
    forall k | k in quotas ensures quotas[k] == Recomputed(s)[k] && MayUpdate(k, s.quotas[k], quotas[k]) {
      assert SweptRow(s, k, quotas[k]);
    }
    assert quotas == Recomputed(s);
  }

  lemma StartSwept(s: Tables)
    ensures Swept(s, s.quotas, s.quotas.Keys, {})
  {
    assert Drifted(s) - s.quotas.Keys == {};
  }

}
