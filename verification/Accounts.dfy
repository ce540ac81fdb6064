/** The usage ledger (internal/ledger/ledger.go): executions turned into charges
    on two layers of pools, and the snapshot admission reads. */
module Accounts {
  import opened Prelude
  import opened Quota
  import opened Ledger

  // ----- pricing

  /** One layer's charges, zero amounts included. A paying job's have no ceiling. */
  function ChargesOf(namespace: string, limits: Limits, e: Execution, now: Instant, pays: bool): seq<Charge> {
    seq(|limits|, i requires 0 <= i < |limits| =>
      Charge(namespace, limits[i].name, PeriodKey(limits[i].period, now), Delta(limits, limits[i].name, e),
             if pays then NoCeiling else Capped(limits[i].limit)))
  }

  function ReservationFor(
    b: Budgets, id: Id, namespace: string, provider: string, e: Execution, pays: bool, now: Instant): Reservation
  {
    Reservation(id, provider, e.cpu, e.memory, now.nanos,
                ChargesOf(TOTAL, Total(b, provider), e, now, pays)
                + ChargesOf(namespace, Share(b, namespace, provider), e, now, pays))
  }

  /** No pool of either layer can refuse: nothing is reserved, settled or reaped. */
  predicate Unlimited(b: Budgets, namespace: string, provider: string) {
    Total(b, provider) == [] && Share(b, namespace, provider) == []
  }

  /** What e costs the pool ref names. */
  function Priced(b: Budgets, namespace: string, provider: string, e: Execution, ref: PoolRef): nat {
    if ref.namespace == TOTAL then Delta(Total(b, provider), ref.pool, e)
    else if ref.namespace == namespace then Delta(Share(b, namespace, provider), ref.pool, e)
    else 0
  }

  function RefsOf(b: Budgets, namespace: string, provider: string): set<PoolRef> {
    (set p | p in Total(b, provider) :: PoolRef(TOTAL, p.name))
    + (set p | p in Share(b, namespace, provider) :: PoolRef(namespace, p.name))
  }

  /** An execution priced against both layers, omitting the pools it does not touch. */
  function DeltasOf(b: Budgets, namespace: string, provider: string, e: Execution): Actual {
    map ref | ref in RefsOf(b, namespace, provider) && Priced(b, namespace, provider, e, ref) > 0
      :: Priced(b, namespace, provider, e, ref)
  }

  ghost predicate Known(b: Budgets, namespace: string) {
    ValidBudgets(b) && namespace != TOTAL
  }

  /** The i-th charge of a reservation, read off the pool it came from. */
  lemma ChargeAt(
    b: Budgets, id: Id, namespace: string, provider: string, e: Execution, pays: bool, now: Instant, i: nat)
    requires i < |Total(b, provider)| + |Share(b, namespace, provider)|
    ensures var c := ReservationFor(b, id, namespace, provider, e, pays, now).charges[i];
      var limits := if i < |Total(b, provider)| then Total(b, provider) else Share(b, namespace, provider);
      var j := if i < |Total(b, provider)| then i else i - |Total(b, provider)|;
      && c.namespace == (if i < |Total(b, provider)| then TOTAL else namespace)
      && c.pool == limits[j].name
      && c.period == PeriodKey(limits[j].period, now)
      && c.amount == Delta(limits, limits[j].name, e)
      && c.ceiling == (if pays then NoCeiling else Capped(limits[j].limit))
      && |ReservationFor(b, id, namespace, provider, e, pays, now).charges|
         == |Total(b, provider)| + |Share(b, namespace, provider)|
  {
  }

  lemma ReservationDistinct(
    b: Budgets, id: Id, namespace: string, provider: string, e: Execution, pays: bool, now: Instant)
    requires Known(b, namespace)
    ensures DistinctRefs(ReservationFor(b, id, namespace, provider, e, pays, now).charges)
  {
    var total, share := Total(b, provider), Share(b, namespace, provider);
    assert Valid(total) && Valid(share);
  }

  /** Settling at a price moves each reserved counter by that price. */
  lemma DeltaSettles(
    b: Budgets, id: Id, namespace: string, provider: string, e: Execution, pays: bool, now: Instant,
    actual: Execution, i: nat)
    requires Known(b, namespace)
    requires i < |ReservationFor(b, id, namespace, provider, e, pays, now).charges|
    ensures var c := ReservationFor(b, id, namespace, provider, e, pays, now).charges[i];
      Get(DeltasOf(b, namespace, provider, actual), RefOf(c)) == Priced(b, namespace, provider, actual, RefOf(c))
    ensures var c := ReservationFor(b, id, namespace, provider, e, pays, now).charges[i];
      c.amount == Priced(b, namespace, provider, e, RefOf(c))
  {
    ChargeAt(b, id, namespace, provider, e, pays, now, i);
    var total, share := Total(b, provider), Share(b, namespace, provider);
    if i < |total| {
      assert total[i] in total;
    } else {
      assert share[i - |total|] in share;
    }
  }

  /** c is what one configured pool of a layer is charged for e. */
  ghost predicate ChargeOn(c: Charge, layer: string, pool: Pool, e: Execution, pays: bool, now: Instant) {
    && c.namespace == layer && c.pool == pool.name
    && c.period == (if pool.period == Daily then now.day else now.month)
    && c.amount == Cost(pool.meter, e)
    && c.ceiling == (if pays then NoCeiling else Capped(pool.limit))
  }

  ghost predicate SomePool(c: Charge, layer: string, limits: Limits, e: Execution, pays: bool, now: Instant) {
    exists pool :: pool in limits && ChargeOn(c, layer, pool, e, pays, now)
  }

  lemma LayerCharges(layer: string, limits: Limits, e: Execution, now: Instant, pays: bool)
    requires Valid(limits)
    ensures var charges := ChargesOf(layer, limits, e, now, pays);
      && (forall c :: c in charges ==> SomePool(c, layer, limits, e, pays, now))
      && (forall pool :: pool in limits ==> exists c :: c in charges && ChargeOn(c, layer, pool, e, pays, now))
  {
    var charges := ChargesOf(layer, limits, e, now, pays);
    forall i | 0 <= i < |limits| ensures charges[i] in charges && ChargeOn(charges[i], layer, limits[i], e, pays, now) {
      DeltaAt(limits, i, e);
    }
  }

  /** Both layers are charged as configured: every pool declared for the provider, and
      every pool the namespace declared for it, each at its own meter's price in its own
      calendar period, and nothing besides. */
  lemma ChargesAsConfigured(
    b: Budgets, id: Id, namespace: string, provider: string, e: Execution, pays: bool, now: Instant)
    requires Known(b, namespace)
    ensures var charges := ReservationFor(b, id, namespace, provider, e, pays, now).charges;
      && (provider in b.totals ==> forall pool :: pool in b.totals[provider] ==>
            exists c :: c in charges && ChargeOn(c, TOTAL, pool, e, pays, now))
      && (namespace in b.namespaces && provider in b.namespaces[namespace] ==>
            forall pool :: pool in b.namespaces[namespace][provider] ==>
              exists c :: c in charges && ChargeOn(c, namespace, pool, e, pays, now))
      && (forall c :: c in charges ==>
            || (provider in b.totals && SomePool(c, TOTAL, b.totals[provider], e, pays, now))
            || (&& namespace in b.namespaces && provider in b.namespaces[namespace]
                && SomePool(c, namespace, b.namespaces[namespace][provider], e, pays, now)))
  {
    LayerCharges(TOTAL, Total(b, provider), e, now, pays);
    LayerCharges(namespace, Share(b, namespace, provider), e, now, pays);
  }

  /** Counters roll over with the calendar: charged at two moments, a daily pool counts on
      one counter within a day and on another the next, a monthly one within its month. */
  lemma CountersRollOver(
    layer: string, pool: Pool, e: Execution, pays: bool, one: Instant, two: Instant, provider: string)
    ensures forall c, d :: ChargeOn(c, layer, pool, e, pays, one) && ChargeOn(d, layer, pool, e, pays, two) ==>
      (KeyOf(provider, c) == KeyOf(provider, d)
       <==> if pool.period == Daily then one.day == two.day else one.month == two.month)
  {
  }

  // ----- the reaper's verdicts

  datatype Verdict = Keep | Drop | Finished(ran: int) | Stand

  /** The namespace whose share a reservation charged. Its amounts never mix two
      shares, so which entry the source's map iteration meets first is immaterial. */
  function NamespaceOf(amounts: Actual): string {
    var shares := set ref | ref in amounts && ref.namespace != TOTAL :: ref.namespace;
    if |shares| == 1 then OnlyOf(shares) else TOTAL
  }

  function OnlyOf(s: set<string>): string
    requires |s| == 1
  {
    assert forall x, y :: x in s && y in s ==> x == y by {
      forall x, y | x in s && y in s ensures x == y {
        assert |s - {x}| == 0;
        assert y !in s - {x};
      }
    }
    assert s != {};
    var x :| x in s;
    x
  }

  type Resolver = Held -> Verdict

  function Resolve(b: Budgets, resolver: Resolver): Resolution {
    h => match resolver(h)
      case Keep => None
      case Drop => Some(map[])
      case Stand => Some(h.amounts)
      case Finished(ran) => Some(DeltasOf(b, NamespaceOf(h.amounts), h.provider, Execution(h.cpu, h.memory, ran)))
  }

  const STALE_AFTER := 3_600_000_000_000 // one hour

  lemma OneShare(charges: seq<Charge>, namespace: string)
    requires DistinctRefs(charges) && namespace != TOTAL
    requires forall i :: 0 <= i < |charges| ==> charges[i].namespace == TOTAL || charges[i].namespace == namespace
    ensures NamespaceOf(AmountsOf(charges))
         == if exists i :: 0 <= i < |charges| && charges[i].namespace == namespace then namespace else TOTAL
  {
    var amounts := AmountsOf(charges);
    var shares := set ref | ref in amounts && ref.namespace != TOTAL :: ref.namespace;
    AmountsOfAt(charges);
    assert forall name :: name in shares ==> name == namespace;
    if i :| 0 <= i < |charges| && charges[i].namespace == namespace {
      assert RefOf(charges[i]) in amounts;
      assert shares == {namespace};
    } else {
      assert shares == {};
    }
  }

  lemma NamespaceRecovered(
    b: Budgets, id: Id, namespace: string, provider: string, e: Execution, pays: bool, now: Instant)
    requires Known(b, namespace)
    ensures NamespaceOf(AmountsOf(ReservationFor(b, id, namespace, provider, e, pays, now).charges))
         == if Share(b, namespace, provider) == [] then TOTAL else namespace
  {
    var charges := ReservationFor(b, id, namespace, provider, e, pays, now).charges;
    var n := |Total(b, provider)|;
    ReservationDistinct(b, id, namespace, provider, e, pays, now);
    forall i | 0 <= i < |charges| ensures charges[i].namespace == if i < n then TOTAL else namespace {
      ChargeAt(b, id, namespace, provider, e, pays, now, i);
    }
    OneShare(charges, namespace);
    if Share(b, namespace, provider) != [] {
      assert charges[n].namespace == namespace;
    }
  }

  lemma RecoveredDeltas(b: Budgets, id: Id, namespace: string, provider: string, e: Execution, pays: bool, now: Instant,
                        ran: Execution, i: nat)
    requires Known(b, namespace)
    requires i < |ReservationFor(b, id, namespace, provider, e, pays, now).charges|
    ensures var charges := ReservationFor(b, id, namespace, provider, e, pays, now).charges;
      Get(DeltasOf(b, NamespaceOf(AmountsOf(charges)), provider, ran), RefOf(charges[i]))
      == Get(DeltasOf(b, namespace, provider, ran), RefOf(charges[i]))
  {
    NamespaceRecovered(b, id, namespace, provider, e, pays, now);
    ChargeAt(b, id, namespace, provider, e, pays, now, i);
  }

  lemma RecoveredSettle(
    b: Budgets, s: Store, id: Id, namespace: string, provider: string, e: Execution, pays: bool, now: Instant,
    ran: Execution)
    requires Known(b, namespace)
    requires id in s.held && s.held[id] == ReservationFor(b, id, namespace, provider, e, pays, now)
    ensures Settle(s, id, DeltasOf(b, NamespaceOf(AmountsOf(s.held[id].charges)), provider, ran))
         == Settle(s, id, DeltasOf(b, namespace, provider, ran))
  {
    var r := s.held[id];
    var answer := DeltasOf(b, NamespaceOf(AmountsOf(r.charges)), provider, ran);
    var plain := DeltasOf(b, namespace, provider, ran);
    forall i | 0 <= i < |r.charges| ensures Get(answer, RefOf(r.charges[i])) == Get(plain, RefOf(r.charges[i])) {
      RecoveredDeltas(b, id, namespace, provider, e, pays, now, ran, i);
    }
    SameActuals(s.used, r.provider, r.charges, answer, plain);
  }

  /** Reaping a reservation as having run for d is settling it with its held
      shape and d: the share layer is recovered from the amounts alone. */
  lemma FinishedIsSettle(
    b: Budgets, s: Store, id: Id, namespace: string, provider: string, e: Execution, pays: bool, now: Instant,
    resolver: Resolver, d: int)
    requires Known(b, namespace)
    requires id in s.held && s.held[id] == ReservationFor(b, id, namespace, provider, e, pays, now)
    requires resolver(HeldOf(id, s.held[id])) == Finished(d)
    ensures var answer := Resolve(b, resolver)(HeldOf(id, s.held[id]));
      && answer.Some?
      && Settle(s, id, answer.value) == Settle(s, id, DeltasOf(b, namespace, provider, Execution(e.cpu, e.memory, d)))
  {
    RecoveredSettle(b, s, id, namespace, provider, e, pays, now, Execution(e.cpu, e.memory, d));
    var h := HeldOf(id, s.held[id]);
    assert h.provider == provider && Execution(h.cpu, h.memory, d) == Execution(e.cpu, e.memory, d);
  }

  lemma {:induction false} SameActuals(used: Usage, provider: string, charges: seq<Charge>, x: Actual, y: Actual)
    requires forall i :: 0 <= i < |charges| ==> Get(x, RefOf(charges[i])) == Get(y, RefOf(charges[i]))
    ensures AddActual(used, provider, charges, x) == AddActual(used, provider, charges, y)
    decreases |charges|
  {
    if charges != [] {
      var amount, k := Get(x, RefOf(charges[0])), KeyOf(provider, charges[0]);
      SameActuals(if amount != 0 then used[k := Get(used, k) + amount] else used, provider, charges[1..], x, y);
    }
  }

  /** A run that stands at its estimate leaves every counter where it was. */
  lemma StandConserves(s: Store, id: Id, k: Key)
    requires id in s.held && DistinctRefs(s.held[id].charges)
    ensures Standing(Settle(s, id, AmountsOf(s.held[id].charges)), k) == Standing(s, k)
  {
    var r := s.held[id];
    SettleMoves(s, id, AmountsOf(r.charges), k);
    AmountsOfAt(r.charges);
    if i :| 0 <= i < |r.charges| && KeyOf(r.provider, r.charges[i]) == k {
      AmountOf(r.provider, r.charges, i);
      SettledOf(r.provider, r.charges, AmountsOf(r.charges), i);
    } else {
      AmountElsewhere(r.provider, r.charges, k);
    }
  }

  lemma {:induction false} SameAmountsSettle(used: Usage, provider: string, charges: seq<Charge>, x: Actual, y: Actual)
    requires forall i :: 0 <= i < |charges| ==> Get(x, RefOf(charges[i])) == Get(y, RefOf(charges[i]))
    ensures AddActual(used, provider, charges, x) == AddActual(used, provider, charges, y)
    decreases |charges|
  {
    if charges != [] {
      var amount, k := Get(x, RefOf(charges[0])), KeyOf(provider, charges[0]);
      assert amount == Get(y, RefOf(charges[0]));
      var next := if amount != 0 then used[k := Get(used, k) + amount] else used;
      SameAmountsSettle(next, provider, charges[1..], x, y);
    }
  }

  /** Two settlements of one reservation come to the same exactly when they agree on
      each pool it charged. */
  lemma SettleAlikeExactly(s: Store, id: Id, x: Actual, y: Actual)
    requires id in s.held && DistinctRefs(s.held[id].charges)
    ensures var charges := s.held[id].charges;
      Settle(s, id, x) == Settle(s, id, y)
      <==> forall i :: 0 <= i < |charges| ==> Get(x, RefOf(charges[i])) == Get(y, RefOf(charges[i]))
  {
    var r := s.held[id];
    if forall i :: 0 <= i < |r.charges| ==> Get(x, RefOf(r.charges[i])) == Get(y, RefOf(r.charges[i])) {
      SameAmountsSettle(s.used, r.provider, r.charges, x, y);
    } else {
      var i :| 0 <= i < |r.charges| && Get(x, RefOf(r.charges[i])) != Get(y, RefOf(r.charges[i]));
      var k := KeyOf(r.provider, r.charges[i]);
      AddActualAdds(s.used, r.provider, r.charges, x, k);
      AddActualAdds(s.used, r.provider, r.charges, y, k);
      SettledOf(r.provider, r.charges, x, i);
      SettledOf(r.provider, r.charges, y, i);
    }
  }

  /** A dropped run gives back exactly what it reserved, and charges nothing. */
  lemma DropReturns(s: Store, id: Id, k: Key)
    requires id in s.held
    ensures Settle(s, id, map[]).used == s.used
    ensures Standing(Settle(s, id, map[]), k)
         == Standing(s, k) - Amount(s.held[id].provider, s.held[id].charges, k)
  {
    NothingSettles(s.used, s.held[id].provider, s.held[id].charges, k);
    SettleMoves(s, id, map[], k);
  }

  lemma {:induction false} NothingSettles(used: Usage, provider: string, charges: seq<Charge>, k: Key)
    ensures AddActual(used, provider, charges, map[]) == used
    ensures Settled(provider, charges, map[], k) == 0
  {
    if charges != [] {
      NothingSettles(used, provider, charges[1..], k);
    }
  }

  // ----- three decisions about the same room

  /** One layer's pools in their current periods. */
  function UsageOf(usage: Usage, namespace: string, provider: string, limits: Limits, now: Instant): PoolUsage {
    map p | p in limits :: p.name := CounterIn(usage, namespace, provider, limits, p.name, now)
  }

  /** The counter of the last pool named name, as repeated map writes leave it. */
  function CounterIn(
    usage: Usage, namespace: string, provider: string, limits: Limits, name: string, now: Instant): int
  {
    if limits == [] then 0
    else if limits[|limits| - 1].name == name
    then Get(usage, Key(namespace, provider, name, PeriodKey(limits[|limits| - 1].period, now)))
    else CounterIn(usage, namespace, provider, limits[..|limits| - 1], name, now)
  }

  lemma {:induction false} UsageAt(
    usage: Usage, namespace: string, provider: string, limits: Limits, now: Instant, i: nat)
    requires Valid(limits) && i < |limits|
    ensures Get(UsageOf(usage, namespace, provider, limits, now), limits[i].name)
         == Get(usage, Key(namespace, provider, limits[i].name, PeriodKey(limits[i].period, now)))
  {
    assert limits[i] in limits;
    CounterAt(usage, namespace, provider, limits, now, i);
  }

  lemma {:induction false} CounterAt(
    usage: Usage, namespace: string, provider: string, limits: Limits, now: Instant, i: nat)
    requires Valid(limits) && i < |limits|
    ensures CounterIn(usage, namespace, provider, limits, limits[i].name, now)
         == Get(usage, Key(namespace, provider, limits[i].name, PeriodKey(limits[i].period, now)))
  {
    if i < |limits| - 1 {
      CounterAt(usage, namespace, provider, limits[..|limits| - 1], now, i);
    }
  }

  /** Whether e fits one layer, as admission reads it from a snapshot. */
  predicate LayerAdmits(
    snapshot: Usage, namespace: string, provider: string, limits: Limits, e: Execution, now: Instant)
  {
    FirstExceeded(limits, UsageOf(snapshot, namespace, provider, limits, now), e).None?
  }

  /** Admission's decision (internal/scheduler/checks_condition.go): a job that
      pays is admitted at any usage; any other must fit both layers. */
  predicate QuotaAdmits(
    b: Budgets, snapshot: Usage, namespace: string, provider: string, e: Execution, pays: bool, now: Instant)
  {
    pays
    || (&& LayerAdmits(snapshot, TOTAL, provider, Total(b, provider), e, now)
        && LayerAdmits(snapshot, namespace, provider, Share(b, namespace, provider), e, now))
  }

  ghost predicate SamePeriods(a: Instant, b: Instant) {
    a.day == b.day && a.month == b.month
  }

  /** A snapshot of s covering every pool's current period, as Refresh reads it. */
  ghost predicate SnapshotOf(b: Budgets, snapshot: Usage, s: Store, now: Instant) {
    && (forall provider, p :: p in Total(b, provider) ==> forall k: Key ::
          k.period == PeriodKey(p.period, now) ==> Get(snapshot, k) == Standing(s, k))
    && (forall namespace, provider, p :: p in Share(b, namespace, provider) ==> forall k: Key ::
          k.period == PeriodKey(p.period, now) ==> Get(snapshot, k) == Standing(s, k))
  }

  lemma FitsByLayer(s: Store, r: Reservation, total: seq<Charge>, share: seq<Charge>)
    requires r.charges == total + share
    ensures Fits(s, r) <==> Takes(s, r.provider, total) && Takes(s, r.provider, share)
  {
    assert forall c :: c in r.charges <==> c in total || c in share;
  }

  /** Charge i does not fit. */
  ghost predicate OverCharge(s: Store, provider: string, charges: seq<Charge>, i: nat)
    requires i < |charges|
  {
    var c := charges[i];
    c.amount > 0 && c.ceiling.Capped? && Standing(s, KeyOf(provider, c)) + c.amount > c.ceiling.limit
  }

  /** A layer's charges, and its pools as a usage sees them, say the same thing
      about the same room, pool by pool. */
  ghost predicate Reflects(
    s: Store, usage: PoolUsage, provider: string, limits: Limits, e: Execution, charges: seq<Charge>)
  {
    && |charges| == |limits|
    && forall i :: 0 <= i < |limits| ==>
      && charges[i].pool == limits[i].name
      && charges[i].ceiling == Capped(limits[i].limit)
      && charges[i].amount == Delta(limits, limits[i].name, e)
      && Get(usage, limits[i].name) == Standing(s, KeyOf(provider, charges[i]))
      && (OverCharge(s, provider, charges, i) <==> Over(limits[i], usage, e))
  }

  /** A usage agrees with the store on the counters of one layer's current periods. */
  ghost predicate Covers(
    standing: Usage, s: Store, namespace: string, provider: string, limits: Limits, now: Instant)
  {
    forall i :: 0 <= i < |limits| ==>
      var k := Key(namespace, provider, limits[i].name, PeriodKey(limits[i].period, now));
      Get(standing, k) == Standing(s, k)
  }

  lemma LayerReflects(
    s: Store, standing: Usage, namespace: string, provider: string, limits: Limits, e: Execution, now: Instant)
    requires Valid(limits) && Covers(standing, s, namespace, provider, limits, now)
    ensures Reflects(s, UsageOf(standing, namespace, provider, limits, now), provider, limits, e,
                     ChargesOf(namespace, limits, e, now, false))
  {
    var usage := UsageOf(standing, namespace, provider, limits, now);
    var charges := ChargesOf(namespace, limits, e, now, false);
    forall i | 0 <= i < |limits|
      ensures Get(usage, limits[i].name) == Standing(s, KeyOf(provider, charges[i]))
      ensures charges[i].amount == Cost(limits[i].meter, e)
    {
      UsageAt(standing, namespace, provider, limits, now, i);
      DeltaAt(limits, i, e);
    }
  }

  /** One layer fits a usage exactly when each of its charges fits the store. */
  lemma LayerFits(s: Store, usage: PoolUsage, provider: string, limits: Limits, e: Execution, charges: seq<Charge>)
    requires Reflects(s, usage, provider, limits, e, charges)
    ensures FirstExceeded(limits, usage, e).None? <==> Takes(s, provider, charges)
  {
    if FirstExceeded(limits, usage, e).Some? {
      var i :| 0 <= i < |limits| && Over(limits[i], usage, e);
      assert OverCharge(s, provider, charges, i);
      assert charges[i] in charges;
    } else {
      forall c | c in charges && c.amount > 0 && c.ceiling.Capped?
        ensures Standing(s, KeyOf(provider, c)) + c.amount <= c.ceiling.limit
      {
        var i :| 0 <= i < |charges| && charges[i] == c;
        assert !Over(limits[i], usage, e);
        assert !OverCharge(s, provider, charges, i);
      }
    }
  }

  /** On a snapshot read in the current periods with nothing charged since,
      admission accepts a provider exactly when the store would take the
      reservation. */
  lemma DecidersAgree(
    b: Budgets, s: Store, snapshot: Usage, read: Instant, id: Id, namespace: string, provider: string,
    e: Execution, pays: bool, planned: Instant, dispatched: Instant)
    requires Known(b, namespace)
    requires SnapshotOf(b, snapshot, s, read) && SamePeriods(read, planned) && SamePeriods(read, dispatched)
    ensures QuotaAdmits(b, snapshot, namespace, provider, e, pays, planned)
       <==> Fits(s, ReservationFor(b, id, namespace, provider, e, pays, dispatched))
  {
    if pays {
      PayingFits(b, s, id, namespace, provider, e, dispatched);
    } else {
      var total, share := Total(b, provider), Share(b, namespace, provider);
      var r := ReservationFor(b, id, namespace, provider, e, pays, dispatched);
      var one, two := ChargesOf(TOTAL, total, e, dispatched, false), ChargesOf(namespace, share, e, dispatched, false);
      FitsByLayer(s, r, one, two);
      SnapshotCovers(b, s, snapshot, read, namespace, provider, planned);
      LayerDecides(s, snapshot, TOTAL, provider, total, e, planned);
      LayerDecides(s, snapshot, namespace, provider, share, e, planned);
      SameCharges(TOTAL, total, e, planned, dispatched);
      SameCharges(namespace, share, e, planned, dispatched);
    }
  }

  lemma LayerDecides(
    s: Store, snapshot: Usage, namespace: string, provider: string, limits: Limits, e: Execution, now: Instant)
    requires Valid(limits) && Covers(snapshot, s, namespace, provider, limits, now)
    ensures LayerAdmits(snapshot, namespace, provider, limits, e, now)
       <==> Takes(s, provider, ChargesOf(namespace, limits, e, now, false))
  {
    LayerReflects(s, snapshot, namespace, provider, limits, e, now);
    LayerFits(s, UsageOf(snapshot, namespace, provider, limits, now), provider, limits, e,
              ChargesOf(namespace, limits, e, now, false));
  }

  lemma SnapshotCovers(
    b: Budgets, s: Store, snapshot: Usage, read: Instant, namespace: string, provider: string, now: Instant)
    requires SnapshotOf(b, snapshot, s, read) && SamePeriods(read, now)
    ensures Covers(snapshot, s, TOTAL, provider, Total(b, provider), now)
    ensures Covers(snapshot, s, namespace, provider, Share(b, namespace, provider), now)
  {
    assert forall i :: 0 <= i < |Total(b, provider)| ==> Total(b, provider)[i] in Total(b, provider);
    var share := Share(b, namespace, provider);
    assert forall i :: 0 <= i < |share| ==> share[i] in share;
  }

  lemma SameCharges(namespace: string, limits: Limits, e: Execution, one: Instant, two: Instant)
    requires SamePeriods(one, two)
    ensures ChargesOf(namespace, limits, e, one, false) == ChargesOf(namespace, limits, e, two, false)
  {
  }

  /** A reservation that would have taken a pool past its limit. */
  datatype Refusal = Refusal(namespace: string, provider: string, pool: string, limit: int, used: int, needed: int)

  /** The pool e did not fit, the provider's own first; None is the source's
      "refused a reservation its usage has room for". */
  function RefusalOf(
    b: Budgets, namespace: string, provider: string, standing: Usage, e: Execution, now: Instant): Option<Refusal>
  {
    var total, share := Total(b, provider), Share(b, namespace, provider);
    var first := LayerRefusal(UsageOf(standing, TOTAL, provider, total, now), TOTAL, provider, total, e);
    if first.Some? then first
    else LayerRefusal(UsageOf(standing, namespace, provider, share, now), namespace, provider, share, e)
  }

  function LayerRefusal(
    usage: PoolUsage, namespace: string, provider: string, limits: Limits, e: Execution): Option<Refusal>
  {
    match FirstExceeded(limits, usage, e)
    case None => None
    case Some(p) => Some(Refusal(namespace, provider, p.name, p.limit, Get(usage, p.name), Delta(limits, p.name, e)))
  }

  /** The usage a refusal is explained from need only cover the reservation's
      own counters, as a store reading only its periods does. */
  ghost predicate Explains(standing: Usage, s: Store, r: Reservation) {
    forall c :: c in r.charges ==> Get(standing, KeyOf(r.provider, c)) == Standing(s, KeyOf(r.provider, c))
  }

  /** Charge i is the first that does not fit. */
  ghost predicate FirstOver(s: Store, provider: string, charges: seq<Charge>, i: nat) {
    && i < |charges| && OverCharge(s, provider, charges, i)
    && forall j: nat :: j < i ==> !OverCharge(s, provider, charges, j)
  }

  /** The refusal reports charge c: its pool, its limit, what had been used and
      what was needed. */
  ghost predicate Names(refusal: Refusal, s: Store, provider: string, c: Charge) {
    c.ceiling.Capped?
    && refusal == Refusal(c.namespace, provider, c.pool, c.ceiling.limit, Standing(s, KeyOf(provider, c)), c.amount)
  }

  /** The refusal reports the first charge that does not fit, which is past its limit. */
  ghost predicate NamesFirst(refusal: Refusal, s: Store, provider: string, charges: seq<Charge>) {
    && refusal.used + refusal.needed > refusal.limit
    && exists i: nat :: FirstOver(s, provider, charges, i) && Names(refusal, s, provider, charges[i])
  }

  /** Within one layer, the pool Exceeded returns is the one the first charge that
      does not fit was priced from. */
  lemma LayerNames(
    s: Store, usage: PoolUsage, namespace: string, provider: string, limits: Limits, e: Execution,
    charges: seq<Charge>)
    returns (i: nat)
    requires Reflects(s, usage, provider, limits, e, charges)
    requires forall j :: 0 <= j < |charges| ==> charges[j].namespace == namespace
    ensures LayerRefusal(usage, namespace, provider, limits, e).None? <==> Takes(s, provider, charges)
    ensures LayerRefusal(usage, namespace, provider, limits, e).Some? ==>
      && FirstOver(s, provider, charges, i)
      && Names(LayerRefusal(usage, namespace, provider, limits, e).value, s, provider, charges[i])
  {
    LayerFits(s, usage, provider, limits, e, charges);
    i := 0;
    if FirstExceeded(limits, usage, e).Some? {
      i :| i < |limits| && limits[i] == FirstExceeded(limits, usage, e).value && Over(limits[i], usage, e)
           && forall j :: 0 <= j < i ==> !Over(limits[j], usage, e);
      forall j: nat | j < i ensures !OverCharge(s, provider, charges, j) {
        assert !Over(limits[j], usage, e);
      }
    }
  }

  /** A refusal always names a pool that was full: the first charge that does not
      fit, total before share, with what it had used and what it needed. The
      fallback that names none is unreachable. */
  lemma RefusalNamesFirst(
    b: Budgets, s: Store, standing: Usage, id: Id, namespace: string, provider: string, e: Execution, pays: bool,
    now: Instant)
    requires Known(b, namespace)
    requires var r := ReservationFor(b, id, namespace, provider, e, pays, now); !Fits(s, r) && Explains(standing, s, r)
    ensures var charges := ReservationFor(b, id, namespace, provider, e, pays, now).charges;
      var refusal := RefusalOf(b, namespace, provider, standing, e, now);
      refusal.Some? && NamesFirst(refusal.value, s, provider, charges)
  {
    if pays { PayingFits(b, s, id, namespace, provider, e, now); }
    ChargesNamed(b, s, standing, ReservationFor(b, id, namespace, provider, e, pays, now), namespace, e, now);
  }

  lemma PayingFits(b: Budgets, s: Store, id: Id, namespace: string, provider: string, e: Execution, now: Instant)
    ensures Fits(s, ReservationFor(b, id, namespace, provider, e, true, now))
  {
  }

  lemma ChargesNamed(
    b: Budgets, s: Store, standing: Usage, r: Reservation, namespace: string, e: Execution, now: Instant)
    requires Known(b, namespace) && !Fits(s, r) && Explains(standing, s, r)
    requires var total, share := Total(b, r.provider), Share(b, namespace, r.provider);
      r.charges == ChargesOf(TOTAL, total, e, now, false) + ChargesOf(namespace, share, e, now, false)
    ensures var refusal := RefusalOf(b, namespace, r.provider, standing, e, now);
      refusal.Some? && NamesFirst(refusal.value, s, r.provider, r.charges)
  {
    var total, share := Total(b, r.provider), Share(b, namespace, r.provider);
    var one, two := ChargesOf(TOTAL, total, e, now, false), ChargesOf(namespace, share, e, now, false);
    ExplainedCovers(s, standing, r, one, two, TOTAL, namespace, total, share, e, now);
    var k := LayerNamed(s, standing, TOTAL, r.provider, total, e, now);
    var l := LayerNamed(s, standing, namespace, r.provider, share, e, now);
    FitsByLayer(s, r, one, two);
    var x := LayerRefusal(UsageOf(standing, TOTAL, r.provider, total, now), TOTAL, r.provider, total, e);
    var y := LayerRefusal(UsageOf(standing, namespace, r.provider, share, now), namespace, r.provider, share, e);
    FirstOfLayers(s, r.provider, one, two, x, y, k, l);
  }

  /** Within one layer, a refusal is of its first charge that does not fit. */
  lemma LayerNamed(
    s: Store, standing: Usage, namespace: string, provider: string, limits: Limits, e: Execution, now: Instant)
    returns (i: nat)
    requires Valid(limits) && Covers(standing, s, namespace, provider, limits, now)
    ensures var charges := ChargesOf(namespace, limits, e, now, false);
      var refusal := LayerRefusal(UsageOf(standing, namespace, provider, limits, now), namespace, provider, limits, e);
      && (refusal.None? <==> Takes(s, provider, charges))
      && (refusal.Some? ==> FirstOver(s, provider, charges, i) && Names(refusal.value, s, provider, charges[i]))
  {
    LayerReflects(s, standing, namespace, provider, limits, e, now);
    i := LayerNames(s, UsageOf(standing, namespace, provider, limits, now), namespace, provider, limits, e,
                    ChargesOf(namespace, limits, e, now, false));
  }

  lemma FirstOfLayers(
    s: Store, provider: string, one: seq<Charge>, two: seq<Charge>, x: Option<Refusal>, y: Option<Refusal>,
    k: nat, l: nat)
    requires (x.None? <==> Takes(s, provider, one)) && (y.None? <==> Takes(s, provider, two)) && (x.Some? || y.Some?)
    requires x.Some? ==> FirstOver(s, provider, one, k) && Names(x.value, s, provider, one[k])
    requires y.Some? ==> FirstOver(s, provider, two, l) && Names(y.value, s, provider, two[l])
    ensures var refusal := if x.Some? then x else y;
      refusal.Some? && NamesFirst(refusal.value, s, provider, one + two)
  {
    if x.None? {
      TakesAll(s, provider, one);
      FirstOverRight(s, provider, one, two, l);
    } else {
      FirstOverLeft(s, provider, one, two, k);
    }
  }

  lemma TakesAll(s: Store, provider: string, charges: seq<Charge>)
    requires Takes(s, provider, charges)
    ensures forall j: nat :: j < |charges| ==> !OverCharge(s, provider, charges, j)
  {
    forall j: nat | j < |charges| ensures !OverCharge(s, provider, charges, j) {
      assert charges[j] in charges;
    }
  }

  /** A usage that covers a reservation's own counters covers both its layers. */
  lemma ExplainedCovers(
    s: Store, standing: Usage, r: Reservation, one: seq<Charge>, two: seq<Charge>, first: string, second: string,
    total: Limits, share: Limits, e: Execution, now: Instant)
    requires Explains(standing, s, r) && r.charges == one + two
    requires one == ChargesOf(first, total, e, now, false) && two == ChargesOf(second, share, e, now, false)
    ensures Covers(standing, s, first, r.provider, total, now)
    ensures Covers(standing, s, second, r.provider, share, now)
  {
    forall i | 0 <= i < |total| ensures
      var k := Key(first, r.provider, total[i].name, PeriodKey(total[i].period, now));
      Get(standing, k) == Standing(s, k)
    {
      assert r.charges[i] == one[i] && r.charges[i] in r.charges;
    }
    forall i | 0 <= i < |share| ensures
      var k := Key(second, r.provider, share[i].name, PeriodKey(share[i].period, now));
      Get(standing, k) == Standing(s, k)
    {
      assert r.charges[|one| + i] == two[i] && r.charges[|one| + i] in r.charges;
    }
  }

  lemma FirstOverLeft(s: Store, provider: string, one: seq<Charge>, two: seq<Charge>, i: nat)
    requires FirstOver(s, provider, one, i)
    ensures FirstOver(s, provider, one + two, i) && (one + two)[i] == one[i]
  {
    forall j: nat | j < |one| ensures OverCharge(s, provider, one + two, j) <==> OverCharge(s, provider, one, j) {
    }
  }

  lemma FirstOverRight(s: Store, provider: string, one: seq<Charge>, two: seq<Charge>, i: nat)
    requires FirstOver(s, provider, two, i)
    requires forall j: nat :: j < |one| ==> !OverCharge(s, provider, one, j)
    ensures FirstOver(s, provider, one + two, |one| + i) && (one + two)[|one| + i] == two[i]
  {
    forall j: nat | j < |one| + i ensures !OverCharge(s, provider, one + two, j) {
      if j < |one| {
        assert !OverCharge(s, provider, one, j);
      } else {
        assert !OverCharge(s, provider, two, j - |one|);
      }
    }
  }

  // ----- the ledger itself

  ghost predicate PeriodOf(limits: Limits, now: Instant, key: string) {
    exists p :: p in limits && PeriodKey(p.period, now) == key
  }

  method AddPeriods(limits: Limits, now: Instant, seen: set<string>) returns (periods: set<string>)
    requires now.day != "" && now.month != ""
    ensures forall key :: key in periods <==> key in seen || PeriodOf(limits, now, key)
  {
    periods := seen;
    for i := 0 to |limits|
      invariant forall key :: key in periods <==> key in seen || PeriodOf(limits[..i], now, key)
    {
      var key := PeriodKey(limits[i].period, now);
      assert limits[..i + 1] == limits[..i] + [limits[i]];
      periods := periods + {key};
    }
    assert limits[..|limits|] == limits;
  }

  class UsageLedger {
    const budgets: Budgets
    const store: Memory
    var snapshot: Usage
    var refreshed: int

    constructor (budgets: Budgets, store: Memory)
      ensures this.budgets == budgets && this.store == store
    {
      this.budgets := budgets;
      this.store := store;
      snapshot := map[];
      refreshed := 0;
    }

    /** Charges e against both layers, or against neither; a refusal names the
        pool that was full. */
    method Reserve(id: Id, namespace: string, provider: string, e: Execution, pays: bool, now: Instant)
      returns (refused: bool, refusal: Option<Refusal>)
      requires Known(budgets, namespace)
      modifies store
      ensures var r := ReservationFor(budgets, id, namespace, provider, e, pays, now);
        refused <==> !Unlimited(budgets, namespace, provider) && !Fits(old(store.State()), r)
      ensures store.State() ==
        if Unlimited(budgets, namespace, provider) then old(store.State())
        else Ledger.Reserve(old(store.State()), ReservationFor(budgets, id, namespace, provider, e, pays, now))
      ensures var charges := ReservationFor(budgets, id, namespace, provider, e, pays, now).charges;
        refused ==> refusal.Some? && NamesFirst(refusal.value, old(store.State()), provider, charges)
      // where either layer has a pool, what is not refused is counted
      ensures Total(budgets, provider) != [] || Share(budgets, namespace, provider) != [] ==>
        var r := ReservationFor(budgets, id, namespace, provider, e, pays, now);
        && (!Fits(old(store.State()), r) ==> refused && store.State() == old(store.State()))
        && (!refused ==> id in store.State().held && store.State().held[id] == r)
    {
      if Unlimited(budgets, namespace, provider) { return false, None; }
      var r := ReservationFor(budgets, id, namespace, provider, e, pays, now);
      ghost var before := store.State();
      var fits, standing := store.ReserveFor(r);
      if fits { return false, None; }
      RefusalNamesFirst(budgets, before, standing, id, namespace, provider, e, pays, now);
      return true, RefusalOf(budgets, namespace, provider, standing, e, now);
    }

    method Settle(id: Id, namespace: string, provider: string, actual: Execution)
      modifies store
      ensures store.State() ==
        if Unlimited(budgets, namespace, provider) then old(store.State())
        else Ledger.Settle(old(store.State()), id, DeltasOf(budgets, namespace, provider, actual))
      ensures Total(budgets, provider) != [] || Share(budgets, namespace, provider) != [] ==>
        id !in store.State().held
    {
      if Unlimited(budgets, namespace, provider) { return; }
      store.SettleOne(id, DeltasOf(budgets, namespace, provider, actual));
    }

    method Reap(now: Instant, resolver: Resolver) returns (reaped: nat, ghost order: seq<Id>)
      modifies store
      ensures var resolve := Resolve(budgets, resolver);
        && ReapOrder(old(store.State()), now.nanos - STALE_AFTER, resolve, order)
        && reaped == |order|
        && store.State() == SettleAll(old(store.State()), order,
                                      Verdicts(old(store.State()), now.nanos - STALE_AFTER, resolve))
    {
      reaped, order := store.Reap(now.nanos - STALE_AFTER, Resolve(budgets, resolver));
    }

    /** The distinct calendar keys any pool of either layer counts under. */
    method Periods(now: Instant) returns (periods: set<string>)
      requires now.day != "" && now.month != ""
      ensures forall key :: key in periods <==>
        || (exists provider :: PeriodOf(Total(budgets, provider), now, key))
        || (exists namespace, provider :: PeriodOf(Share(budgets, namespace, provider), now, key))
    {
      periods := {};
      var totals := budgets.totals.Keys;
      while totals != {}
        invariant totals <= budgets.totals.Keys
        invariant forall key :: key in periods <==>
          exists provider :: provider !in totals && PeriodOf(Total(budgets, provider), now, key)
        decreases totals
      {
        var provider :| provider in totals;
        periods := AddPeriods(budgets.totals[provider], now, periods);
        totals := totals - {provider};
      }
      ghost var own := periods;
      var pairs := set namespace, provider |
        namespace in budgets.namespaces && provider in budgets.namespaces[namespace] :: (namespace, provider);
      ghost var all := pairs;
      while pairs != {}
        invariant pairs <= all
        invariant forall key :: key in periods <==>
          (key in own
           || exists namespace, provider ::
                (namespace, provider) !in pairs && PeriodOf(Share(budgets, namespace, provider), now, key))
        decreases pairs
      {
        var pair :| pair in pairs;
        periods := AddPeriods(budgets.namespaces[pair.0][pair.1], now, periods);
        pairs := pairs - {pair};
      }
    }

    /** Replaces the snapshot with what the store holds now. A read that fails keeps
        the last one. */
    method Refresh(now: Instant, reachable: bool) returns (failed: bool)
      requires now.day != "" && now.month != ""
      modifies this
      ensures failed <==> !reachable
      ensures failed ==> snapshot == old(snapshot) && refreshed == old(refreshed)
      ensures !failed ==> SnapshotOf(budgets, snapshot, store.State(), now) && refreshed == now.nanos
    {
      var periods := Periods(now);
      var listed := InOrder(periods);
      if !reachable { return true; }
      var usage := store.ReadUsage(listed);
      snapshot, refreshed := usage, now.nanos;
      failed := false;
      forall provider, p, k: Key | p in Total(budgets, provider) && k.period == PeriodKey(p.period, now)
        ensures Get(snapshot, k) == Standing(store.State(), k)
      {
        assert PeriodOf(Total(budgets, provider), now, k.period);
      }
      forall namespace, provider, p, k: Key |
        p in Share(budgets, namespace, provider) && k.period == PeriodKey(p.period, now)
        ensures Get(snapshot, k) == Standing(store.State(), k)
      {
        assert PeriodOf(Share(budgets, namespace, provider), now, k.period);
      }
    }
  }

  /** The keys of a set, each once, in whatever order it yields them. */
  method InOrder(keys: set<string>) returns (listed: seq<string>)
    ensures forall key :: key in listed <==> key in keys
  {
    listed := [];
    var todo := keys;
    while todo != {}
      invariant todo <= keys && forall key :: key in keys <==> key in todo || key in listed
      decreases todo
    {
      var key :| key in todo;
      listed, todo := listed + [key], todo - {key};
    }
  }
}
