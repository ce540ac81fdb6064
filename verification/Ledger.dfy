/** The quota store held in memory (internal/ledger/memory.go): settled usage and
    open reservations, as values, with the operations the store decides by. */
module Ledger {
  import opened Prelude
  import Sums

  /** The namespace a provider's own pools are counted under. */
  const TOTAL := ""

  datatype Key = Key(namespace: string, provider: string, pool: string, period: string)

  datatype PoolRef = PoolRef(namespace: string, pool: string)

  type Usage = map<Key, int>

  type Actual = map<PoolRef, int>

  /** A charge's limit. A paying job's charge carries math.MaxInt64 in the
      source, which no counter reaches: no ceiling. */
  datatype Ceiling = NoCeiling | Capped(limit: int)

  datatype Charge = Charge(namespace: string, pool: string, period: string, amount: int, ceiling: Ceiling)

  datatype Reservation = Reservation(
    id: Id, provider: string, cpu: int, memory: int, created: int, charges: seq<Charge>)

  /** An open reservation as the reaper is shown it. */
  datatype Held = Held(id: Id, provider: string, cpu: int, memory: int, amounts: Actual)

  datatype Store = Store(used: Usage, held: map<Id, Reservation>)

  function KeyOf(provider: string, c: Charge): Key {
    Key(c.namespace, provider, c.pool, c.period)
  }

  function RefOf(c: Charge): PoolRef {
    PoolRef(c.namespace, c.pool)
  }

  // ----- what a reservation adds to a counter

  /** The amount charges add to counter k. */
  function Amount(provider: string, charges: seq<Charge>, k: Key): int {
    if charges == [] then 0
    else (if KeyOf(provider, charges[0]) == k then charges[0].amount else 0) + Amount(provider, charges[1..], k)
  }

  /** What settling charges at actual adds to counter k. */
  function Settled(provider: string, charges: seq<Charge>, actual: Actual, k: Key): int {
    if charges == [] then 0
    else (if KeyOf(provider, charges[0]) == k then Get(actual, RefOf(charges[0])) else 0)
         + Settled(provider, charges[1..], actual, k)
  }

  ghost function Reserved(held: map<Id, Reservation>, k: Key): int {
    Sums.Sum(held.Keys, ReservedBy(held, k))
  }

  ghost function ReservedBy(held: map<Id, Reservation>, k: Key): Id -> int {
    id => if id in held then Amount(held[id].provider, held[id].charges, k) else 0
  }

  /** Settled plus reserved: what admission, ranking and reserving all read. */
  ghost function Standing(s: Store, k: Key): int {
    Get(s.used, k) + Reserved(s.held, k)
  }

  // ----- the three mutations

  /** Every positive capped charge leaves its counter within its limit. */
  ghost predicate Takes(s: Store, provider: string, charges: seq<Charge>) {
    forall c :: c in charges && c.amount > 0 && c.ceiling.Capped? ==>
      Standing(s, KeyOf(provider, c)) + c.amount <= c.ceiling.limit
  }

  ghost predicate Fits(s: Store, r: Reservation) { Takes(s, r.provider, r.charges) }

  ghost function Reserve(s: Store, r: Reservation): Store {
    if Fits(s, r) then s.(held := s.held[r.id := r]) else s
  }

  function Without(held: map<Id, Reservation>, id: Id): map<Id, Reservation> {
    map i | i in held && i != id :: held[i]
  }

  function AddActual(used: Usage, provider: string, charges: seq<Charge>, actual: Actual): Usage
    decreases |charges|
  {
    if charges == [] then used
    else
      var amount, k := Get(actual, RefOf(charges[0])), KeyOf(provider, charges[0]);
      AddActual(if amount != 0 then used[k := Get(used, k) + amount] else used, provider, charges[1..], actual)
  }

  /** One with no reservation settles to nothing. */
  function Settle(s: Store, id: Id, actual: Actual): Store {
    if id !in s.held then s
    else Store(AddActual(s.used, s.held[id].provider, s.held[id].charges, actual), Without(s.held, id))
  }

  /** Settling a batch one after another, as a reap does. */
  function SettleAll(s: Store, order: seq<Id>, actuals: map<Id, Actual>): Store
    requires forall id :: id in order ==> id in actuals
    decreases |order|
  {
    if order == [] then s
    else SettleAll(Settle(s, order[0], actuals[order[0]]), order[1..], actuals)
  }

  // ----- what each mutation does to a counter

  lemma {:induction false} AddActualAdds(used: Usage, provider: string, charges: seq<Charge>, actual: Actual, k: Key)
    ensures Get(AddActual(used, provider, charges, actual), k)
         == Get(used, k) + Settled(provider, charges, actual, k)
    decreases |charges|
  {
    if charges != [] {
      var amount, key := Get(actual, RefOf(charges[0])), KeyOf(provider, charges[0]);
      AddActualAdds(if amount != 0 then used[key := Get(used, key) + amount] else used,
                    provider, charges[1..], actual, k);
    }
  }

  /** A reservation taken out of the map takes its amount off every counter. */
  lemma ReservedWithout(held: map<Id, Reservation>, id: Id, k: Key)
    requires id in held
    ensures Reserved(Without(held, id), k) == Reserved(held, k) - Amount(held[id].provider, held[id].charges, k)
  {
    var rest := Without(held, id);
    Sums.Take(held.Keys, ReservedBy(held, k), id);
    assert held.Keys - {id} == rest.Keys;
    Sums.Same(rest.Keys, ReservedBy(held, k), ReservedBy(rest, k));
  }

  lemma ReservedWith(held: map<Id, Reservation>, r: Reservation, k: Key)
    ensures Reserved(held[r.id := r], k)
         == Amount(r.provider, r.charges, k) + Reserved(Without(held, r.id), k)
  {
    ReservedWithout(held[r.id := r], r.id, k);
    assert Without(held[r.id := r], r.id) == Without(held, r.id);
  }

  /** Settling moves a counter by exactly actual minus reserved. */
  lemma SettleMoves(s: Store, id: Id, actual: Actual, k: Key)
    requires id in s.held
    ensures var r := s.held[id];
      Standing(Settle(s, id, actual), k)
      == Standing(s, k) - Amount(r.provider, r.charges, k) + Settled(r.provider, r.charges, actual, k)
  {
    AddActualAdds(s.used, s.held[id].provider, s.held[id].charges, actual, k);
    ReservedWithout(s.held, id, k);
  }

  // ----- charges that land on distinct counters

  /** Each charge of a reservation lands on its own pool of its own layer, as
      pool names unique per layer ensure. */
  ghost predicate DistinctRefs(charges: seq<Charge>) {
    forall i, j :: 0 <= i < j < |charges| ==> RefOf(charges[i]) != RefOf(charges[j])
  }

  lemma {:induction false} AmountOf(provider: string, charges: seq<Charge>, i: nat)
    requires DistinctRefs(charges) && i < |charges|
    ensures Amount(provider, charges, KeyOf(provider, charges[i])) == charges[i].amount
  {
    if i == 0 {
      AmountElsewhere(provider, charges[1..], KeyOf(provider, charges[0]));
    } else {
      AmountOf(provider, charges[1..], i - 1);
    }
  }

  lemma {:induction false} AmountElsewhere(provider: string, charges: seq<Charge>, k: Key)
    requires forall i :: 0 <= i < |charges| ==> KeyOf(provider, charges[i]) != k
    ensures Amount(provider, charges, k) == 0
    ensures forall actual :: Settled(provider, charges, actual, k) == 0
  {
    if charges != [] {
      AmountElsewhere(provider, charges[1..], k);
    }
  }

  lemma {:induction false} SettledOf(provider: string, charges: seq<Charge>, actual: Actual, i: nat)
    requires DistinctRefs(charges) && i < |charges|
    ensures Settled(provider, charges, actual, KeyOf(provider, charges[i])) == Get(actual, RefOf(charges[i]))
  {
    if i == 0 {
      AmountElsewhere(provider, charges[1..], KeyOf(provider, charges[0]));
    } else {
      SettledOf(provider, charges[1..], actual, i - 1);
    }
  }

  // ----- the reaper's view

  function AmountsOf(charges: seq<Charge>): Actual {
    if charges == [] then map[]
    else AmountsOf(charges[..|charges| - 1])[RefOf(charges[|charges| - 1]) := charges[|charges| - 1].amount]
  }

  function HeldOf(id: Id, r: Reservation): Held {
    Held(id, r.provider, r.cpu, r.memory, AmountsOf(r.charges))
  }

  lemma {:induction false} AmountsOfAt(charges: seq<Charge>)
    requires DistinctRefs(charges)
    ensures forall i :: 0 <= i < |charges| ==>
      RefOf(charges[i]) in AmountsOf(charges) && AmountsOf(charges)[RefOf(charges[i])] == charges[i].amount
    ensures forall ref :: ref in AmountsOf(charges) ==> exists i :: 0 <= i < |charges| && RefOf(charges[i]) == ref
  {
    if charges != [] {
      var n := |charges| - 1;
      AmountsOfAt(charges[..n]);
      forall ref | ref in AmountsOf(charges) ensures exists i :: 0 <= i < |charges| && RefOf(charges[i]) == ref {
        if ref == RefOf(charges[n]) {
        } else {
          var i :| 0 <= i < |charges[..n]| && RefOf(charges[..n][i]) == ref;
          assert RefOf(charges[i]) == ref;
        }
      }
    }
  }

  /** What the reaper's callback answers: None keeps the reservation, a map
      settles it at those amounts. A pass asks about each reservation once, so any
      answers it meets, however they came about, are such a function. */
  type Resolution = Held -> Option<Actual>

  ghost predicate Stale(s: Store, before: int, resolve: Resolution, id: Id) {
    && id in s.held
    && s.held[id].created < before
    && resolve(HeldOf(id, s.held[id])).Some?
  }

  ghost function Verdicts(s: Store, before: int, resolve: Resolution): map<Id, Actual> {
    map id | id in s.held && Stale(s, before, resolve, id) :: resolve(HeldOf(id, s.held[id])).value
  }

  /** order lists each reservation the reap accepts, once. */
  ghost predicate ReapOrder(s: Store, before: int, resolve: Resolution, order: seq<Id>) {
    Distinct(order) && forall id :: id in order <==> Stale(s, before, resolve, id)
  }

  // ----- the order of a reap does not matter

  /** What one entry of a batch does to a counter. */
  ghost function MovedBy(s: Store, actuals: map<Id, Actual>, k: Key): Id -> int {
    id => if id in s.held && id in actuals
          then Settled(s.held[id].provider, s.held[id].charges, actuals[id], k)
          else 0
  }

  ghost function IdsOf(order: seq<Id>): set<Id> {
    set id | id in order
  }

  lemma {:induction false} SettleAllHeld(s: Store, order: seq<Id>, actuals: map<Id, Actual>)
    requires forall id :: id in order ==> id in actuals
    ensures SettleAll(s, order, actuals).held == (map id | id in s.held && id !in order :: s.held[id])
    decreases |order|
  {
    if order != [] {
      SettleAllHeld(Settle(s, order[0], actuals[order[0]]), order[1..], actuals);
      assert forall id :: id in order <==> id == order[0] || id in order[1..];
    }
  }

  lemma {:induction false} SettleAllMoves(s: Store, order: seq<Id>, actuals: map<Id, Actual>, k: Key)
    requires Distinct(order)
    requires forall id :: id in order ==> id in actuals && id in s.held
    ensures Get(SettleAll(s, order, actuals).used, k)
         == Get(s.used, k) + Sums.Sum(IdsOf(order), MovedBy(s, actuals, k))
    decreases |order|
  {
    if order == [] {
      assert IdsOf(order) == {};
    } else {
      var id, rest := order[0], order[1..];
      var next := Settle(s, id, actuals[id]);
      assert forall i :: i in rest ==> i in order && i != id && i in next.held && next.held[i] == s.held[i];
      assert Get(SettleAll(next, rest, actuals).used, k)
          == Get(next.used, k) + Sums.Sum(IdsOf(rest), MovedBy(next, actuals, k)) by {
        SettleAllMoves(next, rest, actuals, k);
      }
      assert Get(next.used, k) == Get(s.used, k) + MovedBy(s, actuals, k)(id) by {
        AddActualAdds(s.used, s.held[id].provider, s.held[id].charges, actuals[id], k);
      }
      assert IdsOf(order) - {id} == IdsOf(rest);
      Sums.Take(IdsOf(order), MovedBy(s, actuals, k), id);
      Sums.Same(IdsOf(rest), MovedBy(s, actuals, k), MovedBy(next, actuals, k));
    }
  }

  /** Two stores no reader can tell apart: zero counters aside. */
  ghost predicate Agree(s: Store, t: Store) {
    s.held == t.held && forall k :: Get(s.used, k) == Get(t.used, k)
  }

  /** Whatever order a reap visits its reservations in, it leaves the same store. */
  lemma ReapOrderIrrelevant(s: Store, before: int, resolve: Resolution, one: seq<Id>, two: seq<Id>)
    requires ReapOrder(s, before, resolve, one) && ReapOrder(s, before, resolve, two)
    ensures var verdicts := Verdicts(s, before, resolve);
      Agree(SettleAll(s, one, verdicts), SettleAll(s, two, verdicts))
  {
    var verdicts := Verdicts(s, before, resolve);
    assert IdsOf(one) == IdsOf(two);
    forall k ensures Get(SettleAll(s, one, verdicts).used, k) == Get(SettleAll(s, two, verdicts).used, k) {
      SettleAllMoves(s, one, verdicts, k);
      SettleAllMoves(s, two, verdicts, k);
    }
    SettleAllHeld(s, one, verdicts);
    SettleAllHeld(s, two, verdicts);
  }

  // ----- the store itself

  class Memory {
    var used: Usage
    var held: map<Id, Reservation>

    ghost function State(): Store
      reads this
    {
      Store(used, held)
    }

    constructor (initial: Usage)
      ensures State() == Store(initial, map[])
    {
      used := initial;
      held := map[];
    }

    /** Settled and reserved usage, summed counter by counter. */
    method StandingUsage() returns (usage: Usage)
      ensures forall k :: Get(usage, k) == Standing(State(), k)
    {
      usage := used;
      var todo := held.Keys;
      ghost var seen: set<Id> := {};
      while todo != {}
        invariant seen !! todo && seen + todo == held.Keys
        invariant forall k :: Get(usage, k) == Get(used, k) + Sums.Sum(seen, ReservedBy(held, k))
        decreases todo
      {
        var id :| id in todo;
        usage := AddCharges(usage, held[id]);
        forall k { Sums.Put(seen, ReservedBy(held, k), id); }
        seen, todo := seen + {id}, todo - {id};
      }
      assert seen == held.Keys;
    }

    /** Records r if every charge fits against settled plus reserved usage, and
        otherwise hands back the usage it was refused against. */
    method ReserveFor(r: Reservation) returns (fits: bool, standing: Usage)
      modifies this
      ensures fits <==> Fits(old(State()), r)
      ensures State() == Reserve(old(State()), r)
      ensures !fits ==> forall k :: Get(standing, k) == Standing(old(State()), k)
    {
      standing := StandingUsage();
      for i := 0 to |r.charges|
        invariant State() == old(State())
        invariant forall j :: 0 <= j < i && r.charges[j].amount > 0 && r.charges[j].ceiling.Capped? ==>
          Standing(State(), KeyOf(r.provider, r.charges[j])) + r.charges[j].amount <= r.charges[j].ceiling.limit
      {
        var c := r.charges[i];
        if c.amount > 0 && c.ceiling.Capped? && Get(standing, KeyOf(r.provider, c)) + c.amount > c.ceiling.limit {
          assert c in r.charges;
          return false, standing;
        }
      }
      held := held[r.id := r];
      return true, map[];
    }

    method SettleOne(id: Id, actual: Actual)
      modifies this
      ensures State() == Settle(old(State()), id, actual)
    {
      if id !in held { return; }
      var r := held[id];
      held := map i | i in held && i != id :: held[i];
      ghost var goal := AddActual(used, r.provider, r.charges, actual);
      for i := 0 to |r.charges|
        invariant held == Without(old(held), id)
        invariant AddActual(used, r.provider, r.charges[i..], actual) == goal
      {
        var c := r.charges[i];
        assert r.charges[i..][1..] == r.charges[i + 1..];
        var amount := Get(actual, RefOf(c));
        if amount != 0 {
          used := used[KeyOf(r.provider, c) := Get(used, KeyOf(r.provider, c)) + amount];
        }
      }
    }

    method IsReserved(id: Id) returns (yes: bool)
      ensures yes <==> id in State().held
    {
      yes := id in held;
    }

    method ReadUsage(periods: seq<string>) returns (usage: Usage)
      ensures forall k :: Get(usage, k) == if k.period in periods then Standing(State(), k) else 0
    {
      var standing := StandingUsage();
      usage := map k | k in standing && k.period in periods :: standing[k];
    }

    /** Settles the reservations created before the cutoff that resolve accepts,
        in whatever order the map yields them. */
    method Reap(before: int, resolve: Resolution) returns (reaped: nat, ghost order: seq<Id>)
      modifies this
      ensures ReapOrder(old(State()), before, resolve, order)
      ensures reaped == |order|
      ensures State() == SettleAll(old(State()), order, Verdicts(old(State()), before, resolve))
    {
      ghost var start := State();
      ghost var verdicts := Verdicts(start, before, resolve);
      var todo := held.Keys;
      reaped, order := 0, [];
      while todo != {}
        invariant Reaping(start, before, resolve, todo, order)
        invariant reaped == |order| && State() == SettleAll(start, order, verdicts)
        decreases todo
      {
        var id :| id in todo;
        ReapingHeld(start, before, resolve, todo, order, id, verdicts);
        ReapingNext(start, before, resolve, todo, order, id);
        todo := todo - {id};
        var r := held[id];
        if r.created >= before { continue; }
        var amounts := Shown(r);
        var actual := resolve(Held(id, r.provider, r.cpu, r.memory, amounts));
        if actual.None? { continue; }
        SettleAllSnoc(start, order, id, verdicts);
        SettleOne(id, actual.value);
        reaped, order := reaped + 1, order + [id];
      }
    }
  }

  /** Of the reservations not left to visit, those accepted are in order, each once. */
  ghost predicate Reaping(s: Store, before: int, resolve: Resolution, todo: set<Id>, order: seq<Id>) {
    && Distinct(order) && todo <= s.held.Keys
    && forall id :: id in order <==> id !in todo && Stale(s, before, resolve, id)
  }

  lemma ReapingHeld(
    s: Store, before: int, resolve: Resolution, todo: set<Id>, order: seq<Id>, id: Id, verdicts: map<Id, Actual>)
    requires Reaping(s, before, resolve, todo, order) && id in todo && verdicts == Verdicts(s, before, resolve)
    ensures id in SettleAll(s, order, verdicts).held && SettleAll(s, order, verdicts).held[id] == s.held[id]
  {
    SettleAllHeld(s, order, verdicts);
  }

  lemma ReapingNext(s: Store, before: int, resolve: Resolution, todo: set<Id>, order: seq<Id>, id: Id)
    requires Reaping(s, before, resolve, todo, order) && id in todo
    ensures Reaping(s, before, resolve, todo - {id}, if Stale(s, before, resolve, id) then order + [id] else order)
  {
  }

  /** What the resolver is shown of a reservation. */
  method Shown(r: Reservation) returns (amounts: Actual)
    ensures amounts == AmountsOf(r.charges)
  {
    amounts := map[];
    for i := 0 to |r.charges|
      invariant amounts == AmountsOf(r.charges[..i])
    {
      assert r.charges[..i + 1][..i] == r.charges[..i];
      amounts := amounts[RefOf(r.charges[i]) := r.charges[i].amount];
    }
    assert r.charges[..|r.charges|] == r.charges;
  }

  method AddCharges(usage: Usage, r: Reservation) returns (sum: Usage)
    ensures forall k :: Get(sum, k) == Get(usage, k) + Amount(r.provider, r.charges, k)
  {
    sum := usage;
    for i := 0 to |r.charges|
      invariant forall k :: Get(sum, k) == Get(usage, k) + Amount(r.provider, r.charges[..i], k)
    {
      var c := r.charges[i];
      forall k { AmountSnoc(r.provider, r.charges, i, k); }
      sum := sum[KeyOf(r.provider, c) := Get(sum, KeyOf(r.provider, c)) + c.amount];
    }
    assert r.charges[..|r.charges|] == r.charges;
  }

  lemma AmountSnoc(provider: string, charges: seq<Charge>, i: nat, k: Key)
    requires i < |charges|
    ensures Amount(provider, charges[..i + 1], k)
         == Amount(provider, charges[..i], k) + (if KeyOf(provider, charges[i]) == k then charges[i].amount else 0)
  {
    assert charges[..i + 1] == charges[..i] + [charges[i]];
    AmountConcat(provider, charges[..i], [charges[i]], k);
  }

  lemma {:induction false} AmountConcat(provider: string, a: seq<Charge>, b: seq<Charge>, k: Key)
    ensures Amount(provider, a + b, k) == Amount(provider, a, k) + Amount(provider, b, k)
  {
    if a == [] {
      assert a + b == b;
    } else {
      assert (a + b)[1..] == a[1..] + b;
      AmountConcat(provider, a[1..], b, k);
    }
  }

  lemma {:induction false} SettleAllSnoc(s: Store, order: seq<Id>, id: Id, actuals: map<Id, Actual>)
    requires id in actuals && forall i :: i in order ==> i in actuals
    ensures SettleAll(s, order + [id], actuals) == Settle(SettleAll(s, order, actuals), id, actuals[id])
    decreases |order|
  {
    if order == [] {
      assert order + [id] == [id];
    } else {
      assert (order + [id])[1..] == order[1..] + [id];
      SettleAllSnoc(Settle(s, order[0], actuals[order[0]]), order[1..], id, actuals);
    }
  }
}
