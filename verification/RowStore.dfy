/** The same store over two tables (internal/state/postgres/quota.go and
    sqlc/quota.sql.go), each statement atomic, and its refinement of the maps. */
module RowStore {
  import opened Prelude
  import Sums
  import opened Ledger

  datatype Row = Row(
    id: Id, namespace: string, provider: string, pool: string, period: string,
    amount: int, cpu: int, memory: int, created: int)

  /** quota_usage, keyed by its conflict target, and quota_reservations. */
  datatype Tables = Tables(usage: Usage, reservations: seq<Row>)

  function RowKey(row: Row): Key { Key(row.namespace, row.provider, row.pool, row.period) }

  function RowRef(row: Row): PoolRef { PoolRef(row.namespace, row.pool) }

  /** SELECT SUM(amount) ... WHERE the row's counter is k. */
  function SumRows(rows: seq<Row>, k: Key): int {
    if rows == [] then 0
    else (if RowKey(rows[0]) == k then rows[0].amount else 0) + SumRows(rows[1..], k)
  }

  /** WHERE execution_id = id. */
  function Of(rows: seq<Row>, id: Id): seq<Row> {
    if rows == [] then []
    else if rows[0].id == id then [rows[0]] + Of(rows[1..], id)
    else Of(rows[1..], id)
  }

  function NotOf(rows: seq<Row>, id: Id): seq<Row> {
    if rows == [] then []
    else if rows[0].id != id then [rows[0]] + NotOf(rows[1..], id)
    else NotOf(rows[1..], id)
  }

  function Charged(t: Tables, k: Key): int {
    Get(t.usage, k) + SumRows(t.reservations, k)
  }

  // ----- ReserveQuota

  /** The statement's parameters: one array per column, zipped by subscript. */
  datatype ReserveParams = ReserveParams(
    id: Id, provider: string, cpu: int, memory: int, created: int,
    namespaces: seq<string>, pools: seq<string>, periods: seq<string>, amounts: seq<int>, limits: seq<Ceiling>)
  {
    predicate Zips() {
      |namespaces| == |pools| == |periods| == |amounts| == |limits|
    }

    function KeyAt(i: nat): Key
      requires Zips() && i < |pools|
    {
      Key(namespaces[i], provider, pools[i], periods[i])
    }
  }

  /** NOT EXISTS a wanted row past its limit. */
  predicate RoomFor(t: Tables, p: ReserveParams)
    requires p.Zips()
  {
    forall i :: 0 <= i < |p.pools| && p.amounts[i] > 0 && p.limits[i].Capped? ==>
      Charged(t, p.KeyAt(i)) + p.amounts[i] <= p.limits[i].limit
  }

  function Inserted(p: ReserveParams): seq<Row>
    requires p.Zips()
  {
    seq(|p.pools|, i requires 0 <= i < |p.pools| =>
      Row(p.id, p.namespaces[i], p.provider, p.pools[i], p.periods[i], p.amounts[i], p.cpu, p.memory, p.created))
  }

  /** Returns the tables and how many rows went in; zero rows reads as a refusal. */
  function ReserveQuota(t: Tables, p: ReserveParams): (Tables, nat)
    requires p.Zips()
  {
    if RoomFor(t, p) then (t.(reservations := t.reservations + Inserted(p)), |p.pools|) else (t, 0)
  }

  // ----- SettleQuota

  /** One element of the statement's zipped arrays. */
  datatype ActualRow = ActualRow(ref: PoolRef, amount: int)

  datatype Upsert = Upsert(key: Key, amount: int)

  function Matches(done: Row, actual: seq<ActualRow>): seq<Upsert> {
    if actual == [] then []
    else if actual[0].ref == RowRef(done) && actual[0].amount != 0 then
      [Upsert(RowKey(done), actual[0].amount)] + Matches(done, actual[1..])
    else Matches(done, actual[1..])
  }

  /** done JOIN actual ON namespace and pool, WHERE actual.amount <> 0. */
  function Join(done: seq<Row>, actual: seq<ActualRow>): seq<Upsert> {
    if done == [] then [] else Matches(done[0], actual) + Join(done[1..], actual)
  }

  ghost predicate NoneTwice(upserts: seq<Upsert>) {
    forall i, j :: 0 <= i < j < |upserts| ==> upserts[i].key != upserts[j].key
  }

  function UpsertAll(usage: Usage, upserts: seq<Upsert>): Usage
    decreases |upserts|
  {
    if upserts == [] then usage
    else UpsertAll(usage[upserts[0].key := Get(usage, upserts[0].key) + upserts[0].amount], upserts[1..])
  }

  /** ON CONFLICT DO UPDATE fails when one statement proposes a counter twice. */
  ghost predicate SettleSucceeds(t: Tables, id: Id, actual: seq<ActualRow>) {
    NoneTwice(Join(Of(t.reservations, id), actual))
  }

  function SettleQuota(t: Tables, id: Id, actual: seq<ActualRow>): Tables {
    Tables(UpsertAll(t.usage, Join(Of(t.reservations, id), actual)), NotOf(t.reservations, id))
  }

  // ----- ReadQuotaUsage and ExecutionReserved

  function KeysOf(rows: seq<Row>): set<Key> {
    set row | row in rows :: RowKey(row)
  }

  function ReadQuotaUsage(t: Tables, periods: seq<string>): Usage {
    map k | k in t.usage.Keys + KeysOf(t.reservations) && k.period in periods :: Charged(t, k)
  }

  predicate ExecutionReserved(t: Tables, id: Id) {
    exists row :: row in t.reservations && row.id == id
  }

  // ----- filters

  lemma {:induction false} SumSplits(rows: seq<Row>, id: Id, k: Key)
    ensures SumRows(rows, k) == SumRows(Of(rows, id), k) + SumRows(NotOf(rows, id), k)
  {
    if rows != [] {
      SumSplits(rows[1..], id, k);
      if rows[0].id == id {
        assert ([rows[0]] + Of(rows[1..], id))[1..] == Of(rows[1..], id);
      } else {
        assert ([rows[0]] + NotOf(rows[1..], id))[1..] == NotOf(rows[1..], id);
      }
    }
  }

  lemma {:induction false} OfNotOf(rows: seq<Row>, id: Id, other: Id)
    ensures Of(NotOf(rows, id), other) == if other == id then [] else Of(rows, other)
  {
    if rows != [] {
      OfNotOf(rows[1..], id, other);
      if rows[0].id != id {
        assert NotOf(rows, id)[1..] == NotOf(rows[1..], id);
      } else {
        assert NotOf(rows, id) == NotOf(rows[1..], id);
        assert other != id ==> Of(rows, other) == Of(rows[1..], other);
      }
    }
  }

  lemma {:induction false} OfConcat(a: seq<Row>, b: seq<Row>, id: Id)
    ensures Of(a + b, id) == Of(a, id) + Of(b, id)
  {
    if a == [] {
      assert a + b == b && [] + Of(b, id) == Of(b, id);
    } else {
      assert (a + b)[1..] == a[1..] + b && (a + b)[0] == a[0];
      OfConcat(a[1..], b, id);
      assert [a[0]] + (Of(a[1..], id) + Of(b, id)) == ([a[0]] + Of(a[1..], id)) + Of(b, id);
    }
  }

  lemma {:induction false} OfAll(rows: seq<Row>, id: Id)
    ensures (forall row :: row in rows ==> row.id == id) ==> Of(rows, id) == rows
    ensures (forall row :: row in rows ==> row.id != id) ==> Of(rows, id) == []
  {
    if rows != [] {
      assert rows[0] in rows && forall row :: row in rows[1..] ==> row in rows;
      OfAll(rows[1..], id);
      assert [rows[0]] + rows[1..] == rows;
    }
  }

  lemma {:induction false} InOf(rows: seq<Row>, id: Id, row: Row)
    ensures row in Of(rows, id) <==> row in rows && row.id == id
  {
    if rows != [] {
      InOf(rows[1..], id, row);
    }
  }

  // ----- the refinement

  function RowsFor(r: Reservation): seq<Row> {
    seq(|r.charges|, i requires 0 <= i < |r.charges| => RowFor(r, r.charges[i]))
  }

  function RowFor(r: Reservation, c: Charge): Row {
    Row(r.id, c.namespace, r.provider, c.pool, c.period, c.amount, r.cpu, r.memory, r.created)
  }

  /** What the ledger hands the store: at least one charge, each on its own pool
      of its own layer. */
  ghost predicate Proper(r: Reservation) {
    r.charges != [] && DistinctRefs(r.charges)
  }

  /** The tables hold exactly the rows of the open reservations, and the same
      settled usage, zero counters aside. */
  ghost predicate Refines(t: Tables, s: Store) {
    && (forall k :: Get(t.usage, k) == Get(s.used, k))
    && Holds(t.reservations, s.held)
    && forall id :: id in s.held ==> s.held[id].id == id && Proper(s.held[id])
  }

  ghost predicate Holds(rows: seq<Row>, held: map<Id, Reservation>) {
    forall id :: Of(rows, id) == if id in held then RowsFor(held[id]) else []
  }

  /** rows are what charges of r are stored as. */
  ghost predicate Aligned(r: Reservation, charges: seq<Charge>, rows: seq<Row>) {
    |rows| == |charges| && forall i :: 0 <= i < |rows| ==> rows[i] == RowFor(r, charges[i])
  }

  lemma AlignedTail(r: Reservation, charges: seq<Charge>, rows: seq<Row>)
    requires rows != [] && Aligned(r, charges, rows)
    ensures rows[0] == RowFor(r, charges[0]) && Aligned(r, charges[1..], rows[1..])
  {
  }

  lemma {:induction false} SumRowsFor(r: Reservation, charges: seq<Charge>, rows: seq<Row>, k: Key)
    requires Aligned(r, charges, rows)
    ensures SumRows(rows, k) == Amount(r.provider, charges, k)
  {
    if rows != [] {
      AlignedTail(r, charges, rows);
      SumRowsFor(r, charges[1..], rows[1..], k);
    }
  }

  lemma SomeOf(rows: seq<Row>)
    ensures rows == [] || exists id :: Of(rows, id) != []
  {
    if rows != [] {
      assert Of(rows, rows[0].id) != [];
    }
  }

  lemma HoldsWithout(rows: seq<Row>, held: map<Id, Reservation>, id: Id)
    requires Holds(rows, held)
    ensures Holds(NotOf(rows, id), Without(held, id))
  {
    forall other
      ensures Of(NotOf(rows, id), other)
           == if other in Without(held, id) then RowsFor(Without(held, id)[other]) else []
    {
      OfNotOf(rows, id, other);
      assert Of(rows, other) == if other in held then RowsFor(held[other]) else [];
    }
  }

  lemma HoldsWith(rows: seq<Row>, held: map<Id, Reservation>, r: Reservation)
    requires Holds(rows, held) && r.id !in held
    ensures Holds(rows + RowsFor(r), held[r.id := r])
  {
    forall id ensures Of(rows + RowsFor(r), id) == if id in held[r.id := r] then RowsFor(held[r.id := r][id]) else [] {
      assert Of(rows, id) == if id in held then RowsFor(held[id]) else [];
      OfAppended(rows, r, id);
    }
  }

  lemma OfAppended(rows: seq<Row>, r: Reservation, id: Id)
    ensures Of(rows + RowsFor(r), id) == Of(rows, id) + (if id == r.id then RowsFor(r) else [])
  {
    OfConcat(rows, RowsFor(r), id);
    OfAll(RowsFor(r), id);
    assert forall row :: row in RowsFor(r) ==> row.id == r.id;
  }

  lemma SumOfHeld(rows: seq<Row>, held: map<Id, Reservation>, id: Id, k: Key)
    requires Holds(rows, held) && id in held
    ensures SumRows(Of(rows, id), k) == Amount(held[id].provider, held[id].charges, k)
  {
    assert Of(rows, id) == RowsFor(held[id]);
    SumRowsFor(held[id], held[id].charges, RowsFor(held[id]), k);
  }

  lemma EmptyHolds(rows: seq<Row>)
    requires Holds(rows, map[])
    ensures rows == []
  {
    SomeOf(rows);
    assert forall id :: Of(rows, id) == [];
  }

  /** The table's SUM is the sum over open reservations. */
  lemma {:induction false} SumHolds(rows: seq<Row>, held: map<Id, Reservation>, k: Key)
    requires Holds(rows, held)
    ensures SumRows(rows, k) == Reserved(held, k)
    decreases |held|
  {
    if held == map[] {
      EmptyHolds(rows);
    } else {
      var id :| id in held;
      var rest := Without(held, id);
      assert rest.Keys == held.Keys - {id};
      assert |rest.Keys| < |held.Keys|;
      HoldsWithout(rows, held, id);
      SumHolds(NotOf(rows, id), rest, k);
      SumSplits(rows, id, k);
      SumOfHeld(rows, held, id, k);
      ReservedWithout(held, id, k);
    }
  }

  lemma ChargedIsStanding(t: Tables, s: Store, k: Key)
    requires Refines(t, s)
    ensures Charged(t, k) == Standing(s, k)
  {
    SumHolds(t.reservations, s.held, k);
  }

  // ----- Reserve refines Reserve

  ghost predicate ParamsOf(p: ReserveParams, r: Reservation) {
    && p.Zips() && |p.pools| == |r.charges|
    && p.id == r.id && p.provider == r.provider && p.cpu == r.cpu && p.memory == r.memory && p.created == r.created
    && forall i :: 0 <= i < |r.charges| ==>
      r.charges[i] == Charge(p.namespaces[i], p.pools[i], p.periods[i], p.amounts[i], p.limits[i])
  }

  lemma ReserveRefines(t: Tables, s: Store, p: ReserveParams, r: Reservation)
    requires Refines(t, s) && ParamsOf(p, r) && Proper(r) && r.id !in s.held
    ensures ReserveQuota(t, p).1 > 0 <==> Fits(s, r)
    ensures Refines(ReserveQuota(t, p).0, Reserve(s, r))
  {
    forall k { ChargedIsStanding(t, s, k); }
    RoomIsFit(t, s, p, r);
    if Fits(s, r) {
      assert Inserted(p) == RowsFor(r);
      HoldsWith(t.reservations, s.held, r);
    }
  }

  lemma RoomIsFit(t: Tables, s: Store, p: ReserveParams, r: Reservation)
    requires ParamsOf(p, r) && forall k :: Charged(t, k) == Standing(s, k)
    ensures RoomFor(t, p) <==> Fits(s, r)
  {
    if RoomFor(t, p) {
      forall c | c in r.charges && c.amount > 0 && c.ceiling.Capped?
        ensures Standing(s, KeyOf(r.provider, c)) + c.amount <= c.ceiling.limit
      {
        var i :| 0 <= i < |r.charges| && r.charges[i] == c;
        assert p.KeyAt(i) == KeyOf(r.provider, c);
      }
    }
    if Fits(s, r) {
      forall i | 0 <= i < |p.pools| && p.amounts[i] > 0 && p.limits[i].Capped?
        ensures Charged(t, p.KeyAt(i)) + p.amounts[i] <= p.limits[i].limit
      {
        assert r.charges[i] in r.charges && p.KeyAt(i) == KeyOf(r.provider, r.charges[i]);
      }
    }
  }

  /** Why a reservation must charge something: with no charges the maps record
      it, while the statement inserts no row and so reads as a refusal. */
  lemma EmptyReservationDiffers(t: Tables, s: Store, p: ReserveParams, r: Reservation)
    requires ParamsOf(p, r) && r.charges == []
    ensures Fits(s, r) && r.id in Reserve(s, r).held
    ensures ReserveQuota(t, p) == (t, 0)
  {
    assert t.reservations + Inserted(p) == t.reservations;
  }

  // ----- Settle refines Settle

  /** The arrays list the map's entries, each once, in any order. */
  ghost predicate Lists(flat: seq<ActualRow>, actual: Actual) {
    && (forall i :: 0 <= i < |flat| ==> flat[i].ref in actual && actual[flat[i].ref] == flat[i].amount)
    && (forall i, j :: 0 <= i < j < |flat| ==> flat[i].ref != flat[j].ref)
    && (forall ref :: ref in actual ==> exists i :: 0 <= i < |flat| && flat[i].ref == ref)
  }

  lemma {:induction false} NoMatch(done: Row, flat: seq<ActualRow>)
    requires forall i :: 0 <= i < |flat| ==> flat[i].ref != RowRef(done)
    ensures Matches(done, flat) == []
  {
    if flat != [] {
      NoMatch(done, flat[1..]);
    }
  }

  lemma {:induction false} MatchAt(done: Row, flat: seq<ActualRow>, i: nat)
    requires i < |flat| && flat[i].ref == RowRef(done)
    requires forall i, j :: 0 <= i < j < |flat| ==> flat[i].ref != flat[j].ref
    ensures Matches(done, flat) == if flat[i].amount == 0 then [] else [Upsert(RowKey(done), flat[i].amount)]
  {
    if i == 0 {
      NoMatch(done, flat[1..]);
    } else {
      MatchAt(done, flat[1..], i - 1);
    }
  }

  lemma MatchesOne(done: Row, flat: seq<ActualRow>, actual: Actual)
    requires Lists(flat, actual)
    ensures Matches(done, flat)
         == if Get(actual, RowRef(done)) == 0 then [] else [Upsert(RowKey(done), Get(actual, RowRef(done)))]
  {
    if RowRef(done) in actual {
      var i :| 0 <= i < |flat| && flat[i].ref == RowRef(done);
      MatchAt(done, flat, i);
    } else {
      NoMatch(done, flat);
    }
  }

  lemma UpsertCons(usage: Usage, u: Upsert, tail: seq<Upsert>)
    ensures UpsertAll(usage, [u] + tail) == UpsertAll(usage[u.key := Get(usage, u.key) + u.amount], tail)
  {
    assert ([u] + tail)[1..] == tail;
  }

  /** The join adds to each counter exactly what the loop over charges adds. */
  lemma {:induction false} JoinAddsActual(
    used: Usage, r: Reservation, charges: seq<Charge>, rows: seq<Row>, flat: seq<ActualRow>, actual: Actual)
    requires Aligned(r, charges, rows)
    requires Lists(flat, actual)
    ensures UpsertAll(used, Join(rows, flat)) == AddActual(used, r.provider, charges, actual)
    decreases |rows|
  {
    if rows != [] {
      AlignedTail(r, charges, rows);
      JoinHead(used, rows, flat, actual);
      var next := Plus(used, RowKey(rows[0]), Get(actual, RowRef(rows[0])));
      AddActualHead(used, r.provider, charges, actual);
      JoinAddsActual(next, r, charges[1..], rows[1..], flat, actual);
    }
  }

  function Plus(used: Usage, k: Key, amount: int): Usage {
    if amount != 0 then used[k := Get(used, k) + amount] else used
  }

  lemma AddActualHead(used: Usage, provider: string, charges: seq<Charge>, actual: Actual)
    requires charges != []
    ensures AddActual(used, provider, charges, actual)
         == AddActual(Plus(used, KeyOf(provider, charges[0]), Get(actual, RefOf(charges[0]))),
                      provider, charges[1..], actual)
  {
  }

  lemma JoinHead(used: Usage, rows: seq<Row>, flat: seq<ActualRow>, actual: Actual)
    requires rows != [] && Lists(flat, actual)
    ensures UpsertAll(used, Join(rows, flat))
         == UpsertAll(Plus(used, RowKey(rows[0]), Get(actual, RowRef(rows[0]))), Join(rows[1..], flat))
  {
    MatchesOne(rows[0], flat, actual);
    var amount, k, tail := Get(actual, RowRef(rows[0])), RowKey(rows[0]), Join(rows[1..], flat);
    if amount != 0 {
      assert Join(rows, flat) == [Upsert(k, amount)] + tail;
      UpsertCons(used, Upsert(k, amount), tail);
    } else {
      assert Join(rows, flat) == [] + tail == tail;
    }
  }

  ghost predicate Proposes(rows: seq<Row>, key: Key) {
    exists i :: 0 <= i < |rows| && RowKey(rows[i]) == key
  }

  lemma NoneTwiceCons(first: Upsert, tail: seq<Upsert>)
    requires NoneTwice(tail) && forall u :: u in tail ==> u.key != first.key
    ensures NoneTwice([first] + tail)
  {
    var all := [first] + tail;
    forall i, j | 0 <= i < j < |all| ensures all[i].key != all[j].key {
      assert all[j] == tail[j - 1] && tail[j - 1] in tail;
      assert i > 0 ==> all[i] == tail[i - 1];
    }
  }

  lemma HeadNotProposed(r: Reservation, charges: seq<Charge>, rows: seq<Row>, key: Key)
    requires rows != [] && Aligned(r, charges, rows)
    requires DistinctRefs(charges) && Proposes(rows[1..], key)
    ensures key != RowKey(rows[0]) && Proposes(rows, key)
  {
    var i :| 0 <= i < |rows[1..]| && RowKey(rows[1..][i]) == key;
    assert RowKey(rows[i + 1]) == key;
    assert RefOf(charges[0]) != RefOf(charges[i + 1]);
  }

  /** No counter is proposed twice, so the upsert never fails. */
  lemma {:induction false} JoinNoneTwice(
    r: Reservation, charges: seq<Charge>, rows: seq<Row>, flat: seq<ActualRow>, actual: Actual)
    requires Aligned(r, charges, rows)
    requires DistinctRefs(charges) && Lists(flat, actual)
    ensures NoneTwice(Join(rows, flat))
    ensures forall u :: u in Join(rows, flat) ==> Proposes(rows, u.key)
    decreases |rows|
  {
    if rows != [] {
      MatchesOne(rows[0], flat, actual);
      AlignedTail(r, charges, rows);
      JoinNoneTwice(r, charges[1..], rows[1..], flat, actual);
      var head, tail := Matches(rows[0], flat), Join(rows[1..], flat);
      assert Join(rows, flat) == head + tail;
      forall u | u in tail ensures u.key != RowKey(rows[0]) && Proposes(rows, u.key) {
        HeadNotProposed(r, charges, rows, u.key);
      }
      if head == [] {
        assert head + tail == tail;
      } else {
        assert head == [head[0]] && head[0].key == RowKey(rows[0]);
        NoneTwiceCons(head[0], tail);
      }
    }
  }

  /** Settling adds alike to counters that read alike. */
  lemma AddActualAlike(one: Usage, two: Usage, r: Reservation, actual: Actual)
    requires forall k :: Get(one, k) == Get(two, k)
    ensures forall k :: Get(AddActual(one, r.provider, r.charges, actual), k)
                     == Get(AddActual(two, r.provider, r.charges, actual), k)
  {
    forall k ensures Get(AddActual(one, r.provider, r.charges, actual), k)
                  == Get(AddActual(two, r.provider, r.charges, actual), k) {
      AddActualAdds(one, r.provider, r.charges, actual, k);
      AddActualAdds(two, r.provider, r.charges, actual, k);
    }
  }

  lemma SettleRefines(t: Tables, s: Store, id: Id, flat: seq<ActualRow>, actual: Actual)
    requires Refines(t, s) && Lists(flat, actual)
    ensures SettleSucceeds(t, id, flat)
    ensures Refines(SettleQuota(t, id, flat), Settle(s, id, actual))
  {
    HoldsWithout(t.reservations, s.held, id);
    assert id !in s.held ==> Without(s.held, id) == s.held;
    assert Of(t.reservations, id) == if id in s.held then RowsFor(s.held[id]) else [];
    if id in s.held {
      var r := s.held[id];
      JoinAddsActual(t.usage, r, r.charges, RowsFor(r), flat, actual);
      JoinNoneTwice(r, r.charges, RowsFor(r), flat, actual);
      AddActualAlike(t.usage, s.used, r, actual);
    }
  }

  /** settleOne for each reaped execution in turn, its amounts flattened by flats. */
  function SettleRows(t: Tables, order: seq<Id>, flats: map<Id, seq<ActualRow>>): Tables
    requires forall id :: id in order ==> id in flats
    decreases |order|
  {
    if order == [] then t else SettleRows(SettleQuota(t, order[0], flats[order[0]]), order[1..], flats)
  }

  ghost predicate ListsAll(flats: map<Id, seq<ActualRow>>, actuals: map<Id, Actual>, order: seq<Id>) {
    forall id :: id in order ==> id in flats && id in actuals && Lists(flats[id], actuals[id])
  }

  lemma {:induction false} SettleRowsRefines(
    t: Tables, s: Store, order: seq<Id>, flats: map<Id, seq<ActualRow>>, actuals: map<Id, Actual>)
    requires Refines(t, s) && ListsAll(flats, actuals, order)
    ensures Refines(SettleRows(t, order, flats), SettleAll(s, order, actuals))
    decreases |order|
  {
    if order != [] {
      SettleRefines(t, s, order[0], flats[order[0]], actuals[order[0]]);
      SettleRowsRefines(SettleQuota(t, order[0], flats[order[0]]), Settle(s, order[0], actuals[order[0]]),
                        order[1..], flats, actuals);
    }
  }

  /** The tables and the maps may visit a reap's reservations in different
      orders, and still agree. */
  lemma ReapRefines(
    t: Tables, s: Store, before: int, resolve: Resolution, rows: seq<Id>, maps: seq<Id>, flats: map<Id, seq<ActualRow>>)
    requires Refines(t, s) && ReapOrder(s, before, resolve, rows) && ReapOrder(s, before, resolve, maps)
    requires ListsAll(flats, Verdicts(s, before, resolve), rows)
    ensures Refines(SettleRows(t, rows, flats), SettleAll(s, maps, Verdicts(s, before, resolve)))
    ensures |rows| == |maps|
  {
    var verdicts := Verdicts(s, before, resolve);
    SettleRowsRefines(t, s, rows, flats, verdicts);
    ReapOrderIrrelevant(s, before, resolve, rows, maps);
    SettleAllHeld(s, rows, verdicts);
    SameLength(rows, maps);
  }

  lemma {:induction false} SameLength(one: seq<Id>, two: seq<Id>)
    requires Distinct(one) && Distinct(two) && forall id :: id in one <==> id in two
    ensures |one| == |two|
  {
    CountDistinct(one);
    CountDistinct(two);
    assert IdsOf(one) == IdsOf(two);
  }

  lemma {:induction false} CountDistinct(order: seq<Id>)
    requires Distinct(order)
    ensures |IdsOf(order)| == |order|
  {
    if order == [] {
      assert IdsOf(order) == {};
    } else {
      CountDistinct(order[1..]);
      assert order[0] !in order[1..];
      assert IdsOf(order) == {order[0]} + IdsOf(order[1..]);
    }
  }

  lemma ReservedRefines(t: Tables, s: Store, id: Id)
    requires Refines(t, s)
    ensures ExecutionReserved(t, id) <==> id in s.held
  {
    if id in s.held {
      assert Of(t.reservations, id) == RowsFor(s.held[id]) != [];
      InOf(t.reservations, id, RowsFor(s.held[id])[0]);
      assert RowsFor(s.held[id])[0] in RowsFor(s.held[id]);
    }
    if row :| row in t.reservations && row.id == id {
      InOf(t.reservations, id, row);
    }
  }

  lemma ReadRefines(t: Tables, s: Store, periods: seq<string>, k: Key)
    requires Refines(t, s)
    ensures Get(ReadQuotaUsage(t, periods), k) == if k.period in periods then Standing(s, k) else 0
  {
    ChargedIsStanding(t, s, k);
    if k !in KeysOf(t.reservations) {
      NoRows(t.reservations, k);
    }
  }

  lemma {:induction false} NoRows(rows: seq<Row>, k: Key)
    requires k !in KeysOf(rows)
    ensures SumRows(rows, k) == 0
  {
    if rows != [] {
      assert rows[0] in rows;
      assert forall row :: row in rows[1..] ==> row in rows;
      NoRows(rows[1..], k);
    }
  }

  // ----- whole runs

  datatype Op =
    | Reserving(r: Reservation, params: ReserveParams)
    | Settling(id: Id, actual: Actual, flat: seq<ActualRow>)
    | Reaping(before: int, resolve: Resolution, maps: seq<Id>, rows: seq<Id>, flats: map<Id, seq<ActualRow>>)
    | Asking(id: Id)
    | Reading(periods: seq<string>)

  datatype Answer =
    | Accepted
    | Refused(against: Key -> int)
    | Done
    | Failed
    | Reaped(count: nat)
    | Reserves(yes: bool)
    | Usage(used: Key -> int)

  /** What the ledger asks of a store: fresh reservations that charge something,
      maps flattened faithfully, and each reaped execution visited once. */
  ghost predicate Sensible(s: Store, op: Op) {
    match op
    case Reserving(r, p) => Proper(r) && r.id !in s.held && ParamsOf(p, r)
    case Settling(_, actual, flat) => Lists(flat, actual)
    case Reaping(before, resolve, maps, rows, flats) =>
      && ReapOrder(s, before, resolve, maps) && ReapOrder(s, before, resolve, rows)
      && ListsAll(flats, Verdicts(s, before, resolve), rows)
    case _ => true
  }

  ghost function MapsDo(s: Store, op: Op): (Store, Answer)
    requires Sensible(s, op)
  {
    match op
    case Reserving(r, _) => (Reserve(s, r), if Fits(s, r) then Accepted else Refused((k: Key) => Standing(s, k)))
    case Settling(id, actual, _) => (Settle(s, id, actual), Done)
    case Reaping(before, resolve, maps, _, _) => (SettleAll(s, maps, Verdicts(s, before, resolve)), Reaped(|maps|))
    case Asking(id) => (s, Reserves(id in s.held))
    case Reading(periods) => (s, Answer.Usage((k: Key) => if k.period in periods then Standing(s, k) else 0))
  }

  ghost function RowsDo(t: Tables, op: Op): (Tables, Answer)
    requires op.Reserving? ==> op.params.Zips()
    requires op.Reaping? ==> forall id :: id in op.rows ==> id in op.flats
  {
    match op
    case Reserving(_, p) =>
      (ReserveQuota(t, p).0,
       if ReserveQuota(t, p).1 > 0 then Accepted else Refused((k: Key) => Get(ReadQuotaUsage(t, p.periods), k)))
    case Settling(id, _, flat) => (SettleQuota(t, id, flat), if SettleSucceeds(t, id, flat) then Done else Failed)
    case Reaping(_, _, _, rows, flats) => (SettleRows(t, rows, flats), Reaped(|rows|))
    case Asking(id) => (t, Reserves(ExecutionReserved(t, id)))
    case Reading(periods) => (t, Answer.Usage((k: Key) => Get(ReadQuotaUsage(t, periods), k)))
  }

  /** A refusal's usage need agree only where the reservation was counted. */
  ghost predicate SameAnswer(op: Op, a: Answer, b: Answer) {
    match (a, b)
    case (Accepted, Accepted) => true
    case (Refused(f), Refused(g)) =>
      op.Reserving? && forall c :: c in op.r.charges ==> f(KeyOf(op.r.provider, c)) == g(KeyOf(op.r.provider, c))
    case (Done, Done) => true
    case (Reaped(m), Reaped(n)) => m == n
    case (Reserves(x), Reserves(y)) => x == y
    case (Usage(f), Usage(g)) => forall k :: f(k) == g(k)
    case _ => false
  }

  ghost predicate SensibleRun(s: Store, ops: seq<Op>)
    decreases |ops|
  {
    ops != [] ==> Sensible(s, ops[0]) && SensibleRun(MapsDo(s, ops[0]).0, ops[1..])
  }

  ghost predicate Indistinguishable(t: Tables, s: Store, ops: seq<Op>)
    decreases |ops|
  {
    ops != [] ==>
      && Sensible(s, ops[0])
      && SameAnswer(ops[0], MapsDo(s, ops[0]).1, RowsDo(t, ops[0]).1)
      && Indistinguishable(RowsDo(t, ops[0]).0, MapsDo(s, ops[0]).0, ops[1..])
  }

  lemma StepRefines(t: Tables, s: Store, op: Op)
    requires Refines(t, s) && Sensible(s, op)
    ensures op.Reserving? ==> op.params.Zips()
    ensures SameAnswer(op, MapsDo(s, op).1, RowsDo(t, op).1)
    ensures Refines(RowsDo(t, op).0, MapsDo(s, op).0)
  {
    match op
    case Reserving(r, p) =>
      ReserveRefines(t, s, p, r);
      forall c | c in r.charges
        ensures Get(ReadQuotaUsage(t, p.periods), KeyOf(r.provider, c)) == Standing(s, KeyOf(r.provider, c))
      {
        var i :| 0 <= i < |r.charges| && r.charges[i] == c;
        assert c.period == p.periods[i] && p.periods[i] in p.periods;
        ReadRefines(t, s, p.periods, KeyOf(r.provider, c));
      }
    case Settling(id, actual, flat) => SettleRefines(t, s, id, flat, actual);
    case Reaping(before, resolve, maps, rows, flats) => ReapRefines(t, s, before, resolve, rows, maps, flats);
    case Asking(id) => ReservedRefines(t, s, id);
    case Reading(periods) => forall k { ReadRefines(t, s, periods, k); }
  }

  /** Any sequence of operations gets the same answers from the tables as from
      the maps: the two stores follow the same rules. */
  lemma {:induction false} StoresIndistinguishable(t: Tables, s: Store, ops: seq<Op>)
    requires Refines(t, s) && SensibleRun(s, ops)
    ensures Indistinguishable(t, s, ops)
    decreases |ops|
  {
    if ops != [] {
      StepRefines(t, s, ops[0]);
      StoresIndistinguishable(RowsDo(t, ops[0]).0, MapsDo(s, ops[0]).0, ops[1..]);
    }
  }

  // ----- grouping claimed rows

  ghost predicate ById(rows: seq<Row>) {
    forall i, j :: 0 <= i < j < |rows| ==> rows[i].id <= rows[j].id
  }

  function AmountsIn(rows: seq<Row>): Actual {
    if rows == [] then map[]
    else
      var last := rows[|rows| - 1];
      AmountsIn(rows[..|rows| - 1])[RowRef(last) := last.amount]
  }

  /** One execution's entry: its first row's columns, and every row's amount. */
  function HeldIn(rows: seq<Row>, id: Id): Held
    requires Of(rows, id) != []
  {
    var own := Of(rows, id);
    Held(id, own[0].provider, own[0].cpu, own[0].memory, AmountsIn(own))
  }

  ghost predicate Entry(h: Held, rows: seq<Row>) {
    Of(rows, h.id) != [] && h == HeldIn(rows, h.id)
  }

  ghost predicate HasId(held: seq<Held>, id: Id) {
    exists i :: 0 <= i < |held| && held[i].id == id
  }

  /** Each execution with a row appears exactly once, in order, whole. */
  ghost predicate Grouped(held: seq<Held>, rows: seq<Row>) {
    && (forall i, j :: 0 <= i < j < |held| ==> held[i].id < held[j].id)
    && (forall i :: 0 <= i < |held| ==> Entry(held[i], rows))
    && (forall row :: row in rows ==> HasId(held, row.id))
  }

  /** A row opens a new group, or joins the last one. */
  function Extended(held: seq<Held>, row: Row): seq<Held> {
    if |held| == 0 || held[|held| - 1].id != row.id
    then held + [Held(row.id, row.provider, row.cpu, row.memory, map[RowRef(row) := row.amount])]
    else
      var last := held[|held| - 1];
      held[..|held| - 1] + [last.(amounts := last.amounts[RowRef(row) := row.amount])]
  }

  lemma ExtendedGroups(held: seq<Held>, rows: seq<Row>, i: nat)
    requires ById(rows) && i < |rows| && Grouped(held, rows[..i])
    requires |held| == 0 <==> i == 0
    requires |held| > 0 ==> held[|held| - 1].id == rows[i - 1].id
    ensures Grouped(Extended(held, rows[i]), rows[..i + 1])
    ensures |Extended(held, rows[i])| > 0
    ensures Extended(held, rows[i])[|Extended(held, rows[i])| - 1].id == rows[i].id
  {
    assert rows[..i + 1] == rows[..i] + [rows[i]];
    if |held| == 0 || held[|held| - 1].id != rows[i].id {
      EarlierIsLess(rows, i);
      NewGroup(held, rows[..i], rows[i]);
    } else {
      GrownGroup(held, rows[..i], rows[i]);
    }
  }

  /** Rows ordered by execution come back as one entry per execution. */
  method HeldFromRows(rows: seq<Row>) returns (held: seq<Held>)
    requires ById(rows)
    ensures Grouped(held, rows)
  {
    held := [];
    for i := 0 to |rows|
      invariant Grouped(held, rows[..i])
      invariant |held| == 0 <==> i == 0
      invariant |held| > 0 ==> held[|held| - 1].id == rows[i - 1].id
    {
      ExtendedGroups(held, rows, i);
      held := Extended(held, rows[i]);
    }
    assert rows[..|rows|] == rows;
  }

  lemma EarlierIsLess(rows: seq<Row>, i: nat)
    requires i < |rows| && ById(rows) && (i > 0 ==> rows[i - 1].id != rows[i].id)
    ensures forall x :: x in rows[..i] ==> x.id < rows[i].id
  {
    forall j | 0 <= j < i ensures rows[j].id < rows[i].id {
      assert rows[j].id <= rows[i - 1].id || j == i - 1;
    }
  }

  /** A further row of another execution changes no entry. */
  lemma EntryStays(h: Held, rows: seq<Row>, row: Row)
    requires Entry(h, rows) && h.id != row.id
    ensures Entry(h, rows + [row])
  {
    OfConcat(rows, [row], h.id);
    assert Of([row], h.id) == [];
    assert Of(rows + [row], h.id) == Of(rows, h.id);
  }

  lemma EntryGrows(h: Held, rows: seq<Row>, row: Row)
    requires Entry(h, rows) && h.id == row.id
    ensures Entry(h.(amounts := h.amounts[RowRef(row) := row.amount]), rows + [row])
  {
    OfConcat(rows, [row], row.id);
    assert Of([row], row.id) == [row];
    assert (Of(rows, row.id) + [row])[..|Of(rows, row.id)|] == Of(rows, row.id);
  }

  lemma EntryStarts(rows: seq<Row>, row: Row)
    requires forall x :: x in rows ==> x.id < row.id
    ensures Entry(Held(row.id, row.provider, row.cpu, row.memory, map[RowRef(row) := row.amount]), rows + [row])
  {
    OfAll(rows, row.id);
    OfConcat(rows, [row], row.id);
    assert Of(rows + [row], row.id) == [row];
    assert AmountsIn([row][..0]) == map[];
  }

  lemma EntryHasRow(h: Held, rows: seq<Row>)
    requires Entry(h, rows)
    ensures exists x :: x in rows && x.id == h.id
  {
    InOf(rows, h.id, Of(rows, h.id)[0]);
  }

  lemma Covered(held: seq<Held>, next: seq<Held>, rows: seq<Row>, row: Row)
    requires forall x :: x in rows ==> HasId(held, x.id)
    requires |held| <= |next| && forall i :: 0 <= i < |held| ==> next[i].id == held[i].id
    requires HasId(next, row.id)
    ensures forall x :: x in rows + [row] ==> HasId(next, x.id)
  {
    forall x | x in rows + [row] ensures HasId(next, x.id) {
      if x in rows {
        var i :| 0 <= i < |held| && held[i].id == x.id;
        assert next[i].id == x.id;
      }
    }
  }

  lemma NewGroup(held: seq<Held>, rows: seq<Row>, row: Row)
    requires Grouped(held, rows) && forall x :: x in rows ==> x.id < row.id
    ensures Grouped(held + [Held(row.id, row.provider, row.cpu, row.memory, map[RowRef(row) := row.amount])],
      rows + [row])
  {
    var next := held + [Held(row.id, row.provider, row.cpu, row.memory, map[RowRef(row) := row.amount])];
    EntryStarts(rows, row);
    forall i | 0 <= i < |held| ensures held[i].id < row.id && Entry(held[i], rows + [row]) {
      EntryHasRow(held[i], rows);
      EntryStays(held[i], rows, row);
    }
    assert next[|held|].id == row.id;
    Covered(held, next, rows, row);
  }

  lemma GrownGroup(held: seq<Held>, rows: seq<Row>, row: Row)
    requires Grouped(held, rows) && |held| > 0 && held[|held| - 1].id == row.id
    ensures var last := held[|held| - 1];
      Grouped(held[..|held| - 1] + [last.(amounts := last.amounts[RowRef(row) := row.amount])], rows + [row])
  {
    var n := |held| - 1;
    var next := held[..n] + [held[n].(amounts := held[n].amounts[RowRef(row) := row.amount])];
    EntryGrows(held[n], rows, row);
    forall i | 0 <= i < n ensures Entry(held[i], rows + [row]) {
      assert held[i].id < held[n].id;
      EntryStays(held[i], rows, row);
    }
    assert next[n].id == row.id;
    Covered(held, next, rows, row);
  }

  // ----- reaping claimed rows

  /** ClaimStaleReservations: the rows created before the cutoff, by execution. */
  ghost predicate Claims(claimed: seq<Row>, t: Tables, before: int) {
    ById(claimed) && forall row :: row in claimed <==> row in t.reservations && row.created < before
  }

  lemma {:induction false} AmountsInSome(rows: seq<Row>)
    ensures forall row :: row in rows ==> RowRef(row) in AmountsIn(rows)
    ensures forall ref :: ref in AmountsIn(rows) ==>
      exists row :: row in rows && RowRef(row) == ref && AmountsIn(rows)[ref] == row.amount
  {
    if rows != [] {
      var n := |rows| - 1;
      AmountsInSome(rows[..n]);
      assert rows == rows[..n] + [rows[n]];
      forall ref | ref in AmountsIn(rows)
        ensures exists row :: row in rows && RowRef(row) == ref && AmountsIn(rows)[ref] == row.amount
      {
        if ref == RowRef(rows[n]) {
          assert rows[n] in rows;
        } else {
          assert ref in AmountsIn(rows[..n]);
          var row :| row in rows[..n] && RowRef(row) == ref && AmountsIn(rows[..n])[ref] == row.amount;
          assert row in rows;
        }
      }
    }
  }

  lemma RowsOfHeld(t: Tables, s: Store, row: Row)
    requires Refines(t, s) && row in t.reservations
    ensures row.id in s.held
    ensures exists i :: 0 <= i < |s.held[row.id].charges| && row == RowFor(s.held[row.id], s.held[row.id].charges[i])
  {
    InOf(t.reservations, row.id, row);
    assert Of(t.reservations, row.id) == if row.id in s.held then RowsFor(s.held[row.id]) else [];
    var i :| 0 <= i < |RowsFor(s.held[row.id])| && RowsFor(s.held[row.id])[i] == row;
  }

  lemma HeldRows(t: Tables, s: Store, id: Id, i: nat)
    requires Refines(t, s) && id in s.held && i < |s.held[id].charges|
    ensures RowFor(s.held[id], s.held[id].charges[i]) in t.reservations
  {
    assert Of(t.reservations, id) == RowsFor(s.held[id]);
    assert RowsFor(s.held[id])[i] in RowsFor(s.held[id]);
    InOf(t.reservations, id, RowsFor(s.held[id])[i]);
  }

  /** Every claimed execution is a stale reservation. */
  lemma ClaimedIsStale(t: Tables, s: Store, before: int, claimed: seq<Row>, row: Row)
    requires Refines(t, s) && Claims(claimed, t, before) && row in claimed
    ensures row.id in s.held && s.held[row.id].created < before
  {
    RowsOfHeld(t, s, row);
  }

  /** Every stale reservation is claimed, whole. */
  lemma StaleIsClaimed(t: Tables, s: Store, before: int, claimed: seq<Row>, id: Id, i: nat)
    requires Refines(t, s) && Claims(claimed, t, before)
    requires id in s.held && s.held[id].created < before && i < |s.held[id].charges|
    ensures RowFor(s.held[id], s.held[id].charges[i]) in claimed
    ensures RowFor(s.held[id], s.held[id].charges[i]) in Of(claimed, id)
  {
    HeldRows(t, s, id, i);
    InOf(claimed, id, RowFor(s.held[id], s.held[id].charges[i]));
  }

  lemma ClaimedCharge(t: Tables, s: Store, before: int, claimed: seq<Row>, id: Id, row: Row)
    returns (i: nat)
    requires Refines(t, s) && Claims(claimed, t, before) && id in s.held && row in Of(claimed, id)
    ensures i < |s.held[id].charges| && row == RowFor(s.held[id], s.held[id].charges[i])
  {
    InOf(claimed, id, row);
    RowsOfHeld(t, s, row);
    i :| 0 <= i < |s.held[id].charges| && row == RowFor(s.held[id], s.held[id].charges[i]);
  }

  lemma ClaimedAmounts(t: Tables, s: Store, before: int, claimed: seq<Row>, id: Id)
    requires Refines(t, s) && Claims(claimed, t, before) && id in s.held && s.held[id].created < before
    requires DistinctRefs(s.held[id].charges)
    ensures AmountsIn(Of(claimed, id)) == AmountsOf(s.held[id].charges)
  {
    var r, own := s.held[id], Of(claimed, id);
    var from, of := AmountsIn(own), AmountsOf(s.held[id].charges);
    AmountsInSome(own);
    AmountsOfAt(r.charges);
    forall ref | ref in from ensures ref in of && from[ref] == of[ref] {
      var row :| row in own && RowRef(row) == ref && from[ref] == row.amount;
      var i := ClaimedCharge(t, s, before, claimed, id, row);
      assert RefOf(r.charges[i]) == ref;
    }
    forall ref | ref in of ensures ref in from {
      var i :| 0 <= i < |r.charges| && RefOf(r.charges[i]) == ref;
      StaleIsClaimed(t, s, before, claimed, id, i);
      assert RowRef(RowFor(r, r.charges[i])) == ref;
    }
  }

  /** The reaper is shown from rows exactly what it is shown from the maps. */
  lemma HeldInIsHeldOf(t: Tables, s: Store, before: int, claimed: seq<Row>, id: Id)
    requires Refines(t, s) && Claims(claimed, t, before) && id in s.held && s.held[id].created < before
    ensures Of(claimed, id) != [] && HeldIn(claimed, id) == HeldOf(id, s.held[id])
  {
    assert Proper(s.held[id]);
    StaleIsClaimed(t, s, before, claimed, id, 0);
    var own := Of(claimed, id);
    assert own[0] in own;
    var k := ClaimedCharge(t, s, before, claimed, id, own[0]);
    ClaimedAmounts(t, s, before, claimed, id);
  }

  /** Each group of claimed rows is one stale reservation, as the maps hold it. */
  lemma GroupIsHeld(t: Tables, s: Store, before: int, claimed: seq<Row>, h: Held)
    requires Refines(t, s) && Claims(claimed, t, before) && Entry(h, claimed)
    ensures h.id in s.held && s.held[h.id].created < before && h == HeldOf(h.id, s.held[h.id])
  {
    var row := Of(claimed, h.id)[0];
    InOf(claimed, h.id, row);
    ClaimedIsStale(t, s, before, claimed, row);
    HeldInIsHeldOf(t, s, before, claimed, h.id);
  }

  /** Every reservation a reap accepts has its group. */
  lemma StaleHasGroup(t: Tables, s: Store, before: int, resolve: Resolution, claimed: seq<Row>, held: seq<Held>, id: Id)
    requires Refines(t, s) && Claims(claimed, t, before) && Grouped(held, claimed) && Stale(s, before, resolve, id)
    ensures HasId(held, id)
  {
    assert Proper(s.held[id]);
    StaleIsClaimed(t, s, before, claimed, id, 0);
  }

  /** The groups before i have been dealt with: those resolve accepts are in
      order, once each. */
  ghost predicate Visited(s: Store, before: int, resolve: Resolution, held: seq<Held>, i: nat, order: seq<Id>)
    requires i <= |held|
  {
    Distinct(order) && forall id :: id in order <==> Stale(s, before, resolve, id) && HasId(held[..i], id)
  }

  lemma VisitNext(s: Store, before: int, resolve: Resolution, held: seq<Held>, i: nat, order: seq<Id>)
    requires i < |held| && Visited(s, before, resolve, held, i, order)
    requires forall j, k :: 0 <= j < k < |held| ==> held[j].id < held[k].id
    requires held[i].id in s.held && s.held[held[i].id].created < before
      && held[i] == HeldOf(held[i].id, s.held[held[i].id])
    ensures held[i].id !in order
    ensures resolve(held[i]).None? ==> Visited(s, before, resolve, held, i + 1, order)
    ensures resolve(held[i]).Some? ==> Visited(s, before, resolve, held, i + 1, order + [held[i].id])
    ensures resolve(held[i]).Some? ==>
      held[i].id in Verdicts(s, before, resolve) && Verdicts(s, before, resolve)[held[i].id] == resolve(held[i]).value
  {
    HasIdSnoc(held, i);
    NotYet(held, i);
  }

  lemma AllVisited(
    t: Tables, s: Store, before: int, resolve: Resolution, claimed: seq<Row>, held: seq<Held>, order: seq<Id>)
    requires Refines(t, s) && Claims(claimed, t, before) && Grouped(held, claimed)
    requires Visited(s, before, resolve, held, |held|, order)
    ensures ReapOrder(s, before, resolve, order)
  {
    assert held[..|held|] == held;
    forall id | Stale(s, before, resolve, id) ensures id in order {
      StaleHasGroup(t, s, before, resolve, claimed, held, id);
    }
  }

  lemma ListsAllSnoc(
    flats: map<Id, seq<ActualRow>>, actuals: map<Id, Actual>, order: seq<Id>, id: Id, flat: seq<ActualRow>)
    requires ListsAll(flats, actuals, order) && id !in order && id in actuals && Lists(flat, actuals[id])
    ensures ListsAll(flats[id := flat], actuals, order + [id])
  {
  }

  // ----- the store itself

  class PostgresStore {
    var usage: Usage
    var reservations: seq<Row>

    ghost function State(): Tables
      reads this
    {
      Tables(usage, reservations)
    }

    constructor ()
      ensures State() == Tables(map[], [])
    {
      usage := map[];
      reservations := [];
    }

    method ReserveFor(r: Reservation) returns (fits: bool, standing: Usage, ghost params: ReserveParams)
      modifies this
      ensures ParamsOf(params, r)
      ensures State() == ReserveQuota(old(State()), params).0
      ensures fits <==> ReserveQuota(old(State()), params).1 > 0
      ensures !fits ==> standing == ReadQuotaUsage(old(State()), params.periods)
    {
      var p := ReserveParams(r.id, r.provider, r.cpu, r.memory, r.created, [], [], [], [], []);
      for i := 0 to |r.charges|
        invariant ParamsOf(p, r.(charges := r.charges[..i]))
      {
        var c := r.charges[i];
        p := p.(namespaces := p.namespaces + [c.namespace], pools := p.pools + [c.pool],
                periods := p.periods + [c.period], amounts := p.amounts + [c.amount], limits := p.limits + [c.ceiling]);
      }
      assert r.charges[..|r.charges|] == r.charges;
      params := p;
      var (after, inserted) := ReserveQuota(Tables(usage, reservations), p);
      usage, reservations := after.usage, after.reservations;
      fits := inserted > 0;
      standing := if fits then map[] else ReadQuotaUsage(Tables(usage, reservations), p.periods);
    }

    /** SettleQuota with actual flattened into its arrays, in the map's order. */
    method SettleOne(id: Id, actual: Actual) returns (ghost flat: seq<ActualRow>)
      modifies this
      ensures Lists(flat, actual)
      ensures State() == SettleQuota(old(State()), id, flat)
    {
      var params: seq<ActualRow> := [];
      var todo := actual.Keys;
      while todo != {}
        invariant todo <= actual.Keys
        invariant forall i :: 0 <= i < |params| ==>
          params[i].ref in actual && params[i].ref !in todo && actual[params[i].ref] == params[i].amount
        invariant forall i, j :: 0 <= i < j < |params| ==> params[i].ref != params[j].ref
        invariant forall ref :: ref in actual && ref !in todo ==> exists i :: 0 <= i < |params| && params[i].ref == ref
        decreases todo
      {
        var ref :| ref in todo;
        ghost var before, left := params, todo - {ref};
        params, todo := params + [ActualRow(ref, actual[ref])], todo - {ref};
        forall x | x in actual && x !in left ensures exists i :: 0 <= i < |params| && params[i].ref == x {
          if x == ref {
            assert params[|before|].ref == x;
          } else {
            var i :| 0 <= i < |before| && before[i].ref == x;
            assert params[i].ref == x;
          }
        }
      }
      flat := params;
      var after := SettleQuota(Tables(usage, reservations), id, params);
      usage, reservations := after.usage, after.reservations;
    }

    /** Asks about the i-th group, and settles it unless it is kept. */
    method ReapGroup(
      ghost t: Tables, ghost s: Store, before: int, resolve: Resolution, ghost claimed: seq<Row>, held: seq<Held>,
      i: nat, ghost order: seq<Id>, ghost flats: map<Id, seq<ActualRow>>)
      returns (settled: bool, ghost next: seq<Id>, ghost nextFlats: map<Id, seq<ActualRow>>)
      requires Refines(t, s) && Claims(claimed, t, before) && Grouped(held, claimed) && i < |held|
      requires ReapedSoFar(t, State(), s, before, resolve, held, i, order, flats)
      modifies this
      ensures ReapedSoFar(t, State(), s, before, resolve, held, i + 1, next, nextFlats)
      ensures |next| == |order| + if settled then 1 else 0
      ensures settled <==> resolve(held[i]).Some?
    {
      var actual := resolve(held[i]);
      GroupTaken(t, State(), s, before, resolve, claimed, held, i, order, flats);
      if actual.None? { return false, order, flats; }
      ghost var now := State();
      ghost var flat := SettleOne(held[i].id, actual.value);
      ReapNext(t, now, s, before, resolve, held, i, order, flats, flat);
      return true, order + [held[i].id], flats[held[i].id := flat];
    }

    /** Settles the claimed reservations that resolve accepts. Read against the
        maps it refines, it is a reap of them, in the rows' order. */
    method Reap(before: int, resolve: Resolution, claimed: seq<Row>, ghost s: Store)
      returns (reaped: nat, ghost order: seq<Id>, ghost flats: map<Id, seq<ActualRow>>)
      requires Refines(State(), s) && Claims(claimed, State(), before)
      modifies this
      ensures ReapOrder(s, before, resolve, order) && reaped == |order|
      ensures ListsAll(flats, Verdicts(s, before, resolve), order)
      ensures State() == SettleRows(old(State()), order, flats)
    {
      ghost var t := State();
      var held := HeldFromRows(claimed);
      reaped, order, flats := 0, [], map[];
      for i := 0 to |held|
        invariant ReapedSoFar(t, State(), s, before, resolve, held, i, order, flats) && reaped == |order|
      {
        var settled;
        settled, order, flats := ReapGroup(t, s, before, resolve, claimed, held, i, order, flats);
        if settled { reaped := reaped + 1; }
      }
      AllVisited(t, s, before, resolve, claimed, held, order);
    }
  }

  /** The first i groups have been reaped: the tables stand as settling the order so
      far leaves them. */
  ghost predicate ReapedSoFar(
    t: Tables, now: Tables, s: Store, before: int, resolve: Resolution, held: seq<Held>, i: nat,
    order: seq<Id>, flats: map<Id, seq<ActualRow>>)
    requires i <= |held|
  {
    && Visited(s, before, resolve, held, i, order) && ListsAll(flats, Verdicts(s, before, resolve), order)
    && now == SettleRows(t, order, flats)
  }

  /** The next group is a stale reservation not reaped before; the reaper may keep it. */
  lemma GroupTaken(
    t: Tables, now: Tables, s: Store, before: int, resolve: Resolution, claimed: seq<Row>, held: seq<Held>, i: nat,
    order: seq<Id>, flats: map<Id, seq<ActualRow>>)
    requires Refines(t, s) && Claims(claimed, t, before) && Grouped(held, claimed) && i < |held|
    requires ReapedSoFar(t, now, s, before, resolve, held, i, order, flats)
    ensures Turn(s, before, resolve, held, i, order)
    ensures resolve(held[i]).None? ==> ReapedSoFar(t, now, s, before, resolve, held, i + 1, order, flats)
  {
    GroupIsHeld(t, s, before, claimed, held[i]);
    VisitNext(s, before, resolve, held, i, order);
  }

  /** What reaping the i-th group would add to the order. */
  ghost predicate Turn(s: Store, before: int, resolve: Resolution, held: seq<Held>, i: nat, order: seq<Id>)
    requires i < |held|
  {
    && held[i].id !in order
    && (resolve(held[i]).Some? ==>
          && Visited(s, before, resolve, held, i + 1, order + [held[i].id])
          && held[i].id in Verdicts(s, before, resolve)
          && Verdicts(s, before, resolve)[held[i].id] == resolve(held[i]).value)
  }

  lemma ReapNext(t: Tables, now: Tables, s: Store, before: int, resolve: Resolution, held: seq<Held>, i: nat,
                 order: seq<Id>, flats: map<Id, seq<ActualRow>>, flat: seq<ActualRow>)
    requires i < |held| && ReapedSoFar(t, now, s, before, resolve, held, i, order, flats)
    requires resolve(held[i]).Some? && Turn(s, before, resolve, held, i, order) && Lists(flat, resolve(held[i]).value)
    ensures ReapedSoFar(t, SettleQuota(now, held[i].id, flat), s, before, resolve, held, i + 1,
                   order + [held[i].id], flats[held[i].id := flat])
  {
    SettleRowsSnoc(t, order, flats, held[i].id, flat);
    ListsAllSnoc(flats, Verdicts(s, before, resolve), order, held[i].id, flat);
  }

  lemma NotYet(held: seq<Held>, i: nat)
    requires i < |held| && forall j, k :: 0 <= j < k < |held| ==> held[j].id < held[k].id
    ensures !HasId(held[..i], held[i].id)
  {
  }

  lemma {:induction false} SettleRowsSnoc(
    t: Tables, order: seq<Id>, flats: map<Id, seq<ActualRow>>, id: Id, flat: seq<ActualRow>)
    requires id !in order && forall i :: i in order ==> i in flats
    ensures SettleRows(t, order + [id], flats[id := flat]) == SettleQuota(SettleRows(t, order, flats), id, flat)
    decreases |order|
  {
    if order == [] {
      assert order + [id] == [id];
    } else {
      assert (order + [id])[1..] == order[1..] + [id];
      SettleRowsSnoc(SettleQuota(t, order[0], flats[order[0]]), order[1..], flats, id, flat);
    }
  }

  lemma HasIdSnoc(held: seq<Held>, i: nat)
    requires i < |held|
    ensures forall id :: HasId(held[..i + 1], id) <==> HasId(held[..i], id) || id == held[i].id
  {
    forall id ensures HasId(held[..i + 1], id) <==> HasId(held[..i], id) || id == held[i].id {
      if HasId(held[..i + 1], id) {
        var j :| 0 <= j < i + 1 && held[..i + 1][j].id == id;
        if j < i { assert held[..i][j].id == id; }
      }
      if HasId(held[..i], id) {
        var j :| 0 <= j < i && held[..i][j].id == id;
        assert held[..i + 1][j].id == id;
      }
      assert held[..i + 1][i].id == held[i].id;
    }
  }
}
