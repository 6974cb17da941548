/**
 The quota ledger: pooled counters, reservation headers with their append-only items, and the verbs that hold
 and release capacity. Every verb is one transaction; one that fails rolls back.
 */
module QuotaLedger {
  import opened Basics
  import Text

  datatype Key = Key(scopeType: string, scopeKey: string, dimension: string)

  datatype Quota = Quota(limit: int, reserved: int)

  datatype Item = Item(key: Key, amount: int)

  datatype Ceiling = Ceiling(key: Key, required: int)

  datatype Demand = Demand(id: string, worker: string, expiresAt: int, items: seq<Item>, ceilings: seq<Ceiling>)

  datatype Reservation = Reservation(
    worker: string, held: bool, expiresAt: int, releasedAt: Option<int>, items: seq<Item>)

  datatype Tables = Tables(quotas: map<Key, Quota>, reservations: map<string, Reservation>)

  datatype Error = Lookup | Exceeded | Integrity

  type Outcome<T> = Result<T, Error>

  const EMPTY := Tables(map[], map[])

  const SCOPE_TYPES := {"challenge", "competition", "platform", "team", "worker"}

  const DIMENSIONS := {
    "active_instances", "build_concurrency", "cpu_millis", "exposed_ports", "max_runtime_seconds", "memory_mb",
    "storage_mb"
  }

  predicate Blank(s: string) { forall c | c in s :: Text.IsSpace(c) }

  predicate Admitted(k: Key) { k.scopeType in SCOPE_TYPES && !Blank(k.scopeKey) && k.dimension in DIMENSIONS }

  predicate IsCeiling(k: Key) { k.dimension == "max_runtime_seconds" }

  predicate DistinctKeys(items: seq<Item>) { forall i, j | 0 <= i < j < |items| :: items[i].key != items[j].key }

  predicate PooledItem(i: Item) { Admitted(i.key) && !IsCeiling(i.key) && i.amount >= 1 }

  predicate ItemsOk(items: seq<Item>) { DistinctKeys(items) && forall i | i in items :: PooledItem(i) }

  /** What constructing a demand validates. */
  predicate WellFormed(d: Demand) {
    && d.id != "" && d.worker != "" && (d.items != [] || d.ceilings != [])
    && ItemsOk(d.items)
    && forall c | c in d.ceilings :: Admitted(c.key) && IsCeiling(c.key) && c.required >= 0
  }

  /** The order every reserver locks the counters in. */
  predicate KeyLess(a: Key, b: Key) {
    || Less(a.scopeType, b.scopeType)
    || (a.scopeType == b.scopeType &&
        (Less(a.scopeKey, b.scopeKey) || (a.scopeKey == b.scopeKey && Less(a.dimension, b.dimension))))
  }

  function ByKey(less: (Key, Key) -> bool): (Item, Item) -> bool { (a: Item, b: Item) => less(a.key, b.key) }

  function Sorted(items: seq<Item>): (r: seq<Item>)
    ensures multiset(r) == multiset(items)
  {
    SortBy(ByKey(KeyLess), items)
  }

  // ---------------------------------------------------------------------------
  // The verbs, as functions of the tables.

  /** Take the counters one after the other; the first that is missing or would overrun ends it. */
  function Hold(quotas: map<Key, Quota>, items: seq<Item>): Outcome<map<Key, Quota>>
    decreases |items|
  {
    if items == [] then Ok(quotas)
    else
      var k, amount := items[0].key, items[0].amount;
      if k !in quotas then Err(Lookup)
      else if quotas[k].reserved + amount > quotas[k].limit then Err(Exceeded)
      else Hold(quotas[k := quotas[k].(reserved := quotas[k].reserved + amount)], items[1..])
  }

  function Lowered(q: Quota, amount: int): Quota {
    q.(reserved := if q.reserved > amount then q.reserved - amount else 0)
  }

  function Unhold(quotas: map<Key, Quota>, items: seq<Item>): map<Key, Quota>
    decreases |items|
  {
    if items == [] then quotas
    else
      var k := items[0].key;
      Unhold(if k in quotas then quotas[k := Lowered(quotas[k], items[0].amount)] else quotas, items[1..])
  }

  function CheckCeilings(quotas: map<Key, Quota>, ceilings: seq<Ceiling>): Outcome<()>
    decreases |ceilings|
  {
    if ceilings == [] then Ok(())
    else if ceilings[0].key !in quotas then Err(Lookup)
    else if ceilings[0].required > quotas[ceilings[0].key].limit then Err(Exceeded)
    else CheckCeilings(quotas, ceilings[1..])
  }

  function HeaderOf(d: Demand): Reservation { Reservation(d.worker, true, d.expiresAt, None, Sorted(d.items)) }

  function ReserveSpec(s: Tables, d: Demand): Outcome<Tables> {
    if d.id in s.reservations then Err(Integrity)
    else
      match CheckCeilings(s.quotas, d.ceilings)
      case Err(e) => Err(e)
      case Ok(_) =>
        match Hold(s.quotas, Sorted(d.items))
        case Err(e) => Err(e)
        case Ok(quotas) => Ok(Tables(quotas, s.reservations[d.id := HeaderOf(d)]))
  }

  predicate IsHeld(s: Tables, id: string) { id in s.reservations && s.reservations[id].held }

  function ReleaseSpec(s: Tables, id: string, now: int): Tables {
    if !IsHeld(s, id) then s
    else
      var r := s.reservations[id];
      Tables(Unhold(s.quotas, r.items), s.reservations[id := r.(held := false, releasedAt := Some(now))])
  }

  function ReactivateSpec(s: Tables, id: string, expiresAt: int): Outcome<Tables> {
    if id !in s.reservations then Err(Lookup)
    else if s.reservations[id].held then Ok(s)
    else
      var r := s.reservations[id];
      match Hold(s.quotas, r.items)
      case Err(e) => Err(e)
      case Ok(quotas) =>
        Ok(Tables(quotas, s.reservations[id := r.(held := true, releasedAt := None, expiresAt := expiresAt)]))
  }

  function RenewSpec(s: Tables, id: string, expiresAt: int): Outcome<Tables> {
    if !IsHeld(s, id) then Err(Lookup)
    else Ok(s.(reservations := s.reservations[id := s.reservations[id].(expiresAt := expiresAt)]))
  }

  predicate QuotaChecks(k: Key, q: Quota) { q.limit >= 0 && q.reserved >= 0 && (IsCeiling(k) ==> q.reserved == 0) }

  /** Seeds a missing row as the caller gives it, and leaves an existing one alone. */
  function UpsertSpec(s: Tables, k: Key, q: Quota): Outcome<Tables> {
    if !QuotaChecks(k, q) then Err(Integrity)
    else if k in s.quotas then Ok(s)
    else Ok(s.(quotas := s.quotas[k := q]))
  }

  /** An UPDATE of one counter row: refused when it raises the counter above the limit, or by a CHECK. */
  predicate MayUpdate(k: Key, old_: Quota, new_: Quota) {
    QuotaChecks(k, new_) && !(new_.reserved > new_.limit && new_.reserved > old_.reserved)
  }

  /** An operator's change of a limit; holds above it stay. */
  function SetLimitSpec(s: Tables, k: Key, limit: int): Outcome<Tables> {
    if k !in s.quotas then Err(Lookup)
    else
      var q := s.quotas[k].(limit := limit);
      if !MayUpdate(k, s.quotas[k], q) then Err(Integrity) else Ok(s.(quotas := s.quotas[k := q]))
  }

  predicate Referenced(s: Tables, k: Key) {
    exists id | id in s.reservations :: exists i | i in s.reservations[id].items :: i.key == k
  }

  /** Refused while anything is reserved, or any item, held or released, refers to the row. */
  function DeleteSpec(s: Tables, k: Key): Outcome<Tables> {
    if k !in s.quotas then Err(Lookup)
    else if s.quotas[k].reserved > 0 || Referenced(s, k) then Err(Integrity)
    else Ok(s.(quotas := s.quotas - {k}))
  }

  function Amount(items: seq<Item>, k: Key): int
    decreases |items|
  {
    if items == [] then 0 else (if items[0].key == k then items[0].amount else 0) + Amount(items[1..], k)
  }

  function HeldIds(reservations: map<string, Reservation>): set<string> {
    set id | id in reservations && reservations[id].held
  }

  function AmountIn(reservations: map<string, Reservation>, k: Key): string -> int {
    id => if id in reservations then Amount(reservations[id].items, k) else 0
  }

  /** The sum of the item amounts of the held reservations at one counter. */
  ghost function HeldSum(reservations: map<string, Reservation>, k: Key): int {
    Sum(HeldIds(reservations), AmountIn(reservations, k))
  }

  ghost function Expected(s: Tables, k: Key): int { if IsCeiling(k) then 0 else HeldSum(s.reservations, k) }

  ghost function Recomputed(s: Tables): map<Key, Quota> {
    map k | k in s.quotas :: s.quotas[k].(reserved := Expected(s, k))
  }

  /** Recomputes every counter; one refused UPDATE rolls the whole sweep back. */
  ghost function ReconcileSpec(s: Tables): Outcome<Tables> {
    if exists k | k in s.quotas :: !MayUpdate(k, s.quotas[k], Recomputed(s)[k]) then Err(Integrity)
    else Ok(s.(quotas := Recomputed(s)))
  }
}
