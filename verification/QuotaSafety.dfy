/** Whole runs of the ledger: any interleaving of Reserve, Settle and Reap, each
    decided atomically by the store, from any process. */
module QuotaSafety {
  import opened Prelude
  import opened Quota
  import opened Ledger
  import opened Accounts

  /** What an execution was reserved as. */
  datatype Declared = Declared(namespace: string, provider: string, shape: Execution, pays: bool, at: Instant)

  /** The store, with the history of every ID minted and of what each accepted
      reservation declared. */
  datatype Run = Run(store: Store, declared: map<Id, Declared>, minted: set<Id>)

  datatype Event =
    | Reserves(id: Id, d: Declared)
    | Settles(id: Id, namespace: string, provider: string, actual: Execution)
    | Reaps(before: int, resolver: Resolver, order: seq<Id>)

  function Wanted(b: Budgets, id: Id, d: Declared): Reservation {
    ReservationFor(b, id, d.namespace, d.provider, d.shape, d.pays, d.at)
  }

  /** Every job runs in a named namespace, an execution ID is minted once and
      reserved under once, and a reap visits each reservation it accepts once. */
  ghost predicate Enabled(b: Budgets, run: Run, event: Event) {
    match event
    case Reserves(id, d) => d.namespace != TOTAL && id !in run.minted && id !in run.store.held
    case Settles(_, _, _, _) => true
    case Reaps(before, resolver, order) => ReapOrder(run.store, before, Resolve(b, resolver), order)
  }

  ghost function Apply(b: Budgets, run: Run, event: Event): Run
    requires Enabled(b, run, event)
  {
    match event
    case Reserves(id, d) =>
      if Unlimited(b, d.namespace, d.provider) || !Fits(run.store, Wanted(b, id, d)) then
        run.(minted := run.minted + {id})
      else Run(Ledger.Reserve(run.store, Wanted(b, id, d)), run.declared[id := d], run.minted + {id})
    case Settles(id, namespace, provider, actual) =>
      if Unlimited(b, namespace, provider) then run
      else run.(store := Ledger.Settle(run.store, id, DeltasOf(b, namespace, provider, actual)))
    case Reaps(before, resolver, order) =>
      run.(store := SettleAll(run.store, order, Verdicts(run.store, before, Resolve(b, resolver))))
  }

  ghost predicate Legal(b: Budgets, start: Run, events: seq<Event>)
    decreases |events|, 0
  {
    events == []
    || (&& Legal(b, start, events[..|events| - 1])
        && Enabled(b, After(b, start, events[..|events| - 1]), events[|events| - 1]))
  }

  ghost function After(b: Budgets, start: Run, events: seq<Event>): Run
    requires Legal(b, start, events)
    decreases |events|, 1
  {
    if events == [] then start
    else Apply(b, After(b, start, events[..|events| - 1]), events[|events| - 1])
  }

  /** Where either layer has a pool every event counts: a reservation that fits is
      held from then on, one that does not changes nothing but the ID's minting, and a
      settle removes what it settles. */
  lemma LimitedCounts(b: Budgets, run: Run, event: Event)
    requires Enabled(b, run, event) && !event.Reaps?
    requires var (namespace, provider) := if event.Reserves? then (event.d.namespace, event.d.provider)
                                          else (event.namespace, event.provider);
      Total(b, provider) != [] || Share(b, namespace, provider) != []
    ensures var after := Apply(b, run, event).store;
      && (event.Settles? ==> after.held.Keys == run.store.held.Keys - {event.id})
      && (event.Reserves? && !Fits(run.store, Wanted(b, event.id, event.d)) ==> after == run.store)
      && (event.Reserves? && Fits(run.store, Wanted(b, event.id, event.d)) ==>
            event.id in after.held && after.held[event.id] == Wanted(b, event.id, event.d))
  {
  }

  // ----- what may legitimately push a counter past its limit

  /** What a paying job's accepted reservation adds to k. */
  ghost function PaidBy(b: Budgets, run: Run, event: Event, k: Key): nat {
    if event.Reserves? && event.d.pays && !Unlimited(b, event.d.namespace, event.d.provider)
    then Floor0(Amount(event.d.provider, Wanted(b, event.id, event.d).charges, k))
    else 0
  }

  /** How far one settle charges k past what was reserved on it. */
  ghost function Excess(s: Store, id: Id, actual: Actual, k: Key): nat {
    if id !in s.held then 0
    else Floor0(Settled(s.held[id].provider, s.held[id].charges, actual, k)
                - Amount(s.held[id].provider, s.held[id].charges, k))
  }

  ghost function ExcessAll(s: Store, order: seq<Id>, actuals: map<Id, Actual>, k: Key): nat
    requires forall id :: id in order ==> id in actuals
    decreases |order|
  {
    if order == [] then 0
    else Excess(s, order[0], actuals[order[0]], k)
         + ExcessAll(Ledger.Settle(s, order[0], actuals[order[0]]), order[1..], actuals, k)
  }

  ghost function OverrunBy(b: Budgets, run: Run, event: Event, k: Key): nat
    requires Enabled(b, run, event)
  {
    match event
    case Reserves(_, _) => 0
    case Settles(id, namespace, provider, actual) => Excess(run.store, id, DeltasOf(b, namespace, provider, actual), k)
    case Reaps(before, resolver, order) =>
      ExcessAll(run.store, order, Verdicts(run.store, before, Resolve(b, resolver)), k)
  }

  ghost function Paid(b: Budgets, start: Run, events: seq<Event>, k: Key): nat
    requires Legal(b, start, events)
    decreases |events|
  {
    if events == [] then 0 else
      var before := events[..|events| - 1];
      Paid(b, start, before, k) + PaidBy(b, After(b, start, before), events[|events| - 1], k)
  }

  ghost function Overrun(b: Budgets, start: Run, events: seq<Event>, k: Key): nat
    requires Legal(b, start, events)
    decreases |events|
  {
    if events == [] then 0 else
      var before := events[..|events| - 1];
      Overrun(b, start, before, k) + OverrunBy(b, After(b, start, before), events[|events| - 1], k)
  }

  /** The configured limit of the pool counter k counts. */
  function LimitOf(b: Budgets, k: Key): Option<int> {
    PoolLimit(if k.namespace == TOTAL then Total(b, k.provider) else Share(b, k.namespace, k.provider), k.pool)
  }

  function PoolLimit(limits: Limits, name: string): Option<int> {
    if limits == [] then None
    else if limits[0].name == name then Some(limits[0].limit)
    else PoolLimit(limits[1..], name)
  }

  lemma {:induction false} PoolLimitAt(limits: Limits, i: nat)
    requires Valid(limits) && i < |limits|
    ensures PoolLimit(limits, limits[i].name) == Some(limits[i].limit)
  {
    if i > 0 {
      PoolLimitAt(limits[1..], i - 1);
    }
  }

  /** Every charge carries the limit configured for its own counter. */
  lemma WantedLimits(b: Budgets, id: Id, d: Declared, i: nat)
    requires Known(b, d.namespace) && i < |Wanted(b, id, d).charges|
    ensures var c := Wanted(b, id, d).charges[i];
      && c.amount >= 0
      && (d.pays ==> c.ceiling == NoCeiling)
      && (!d.pays ==> c.ceiling.Capped? && LimitOf(b, KeyOf(d.provider, c)) == Some(c.ceiling.limit))
  {
    ChargeAt(b, id, d.namespace, d.provider, d.shape, d.pays, d.at, i);
    var total, share := Total(b, d.provider), Share(b, d.namespace, d.provider);
    if i < |total| {
      PoolLimitAt(total, i);
    } else {
      PoolLimitAt(share, i - |total|);
    }
  }

  lemma WantedAmount(b: Budgets, id: Id, d: Declared, k: Key)
    requires Known(b, d.namespace)
    ensures Amount(d.provider, Wanted(b, id, d).charges, k) >= 0
  {
    var charges := Wanted(b, id, d).charges;
    ReservationDistinct(b, id, d.namespace, d.provider, d.shape, d.pays, d.at);
    if i: nat :| i < |charges| && KeyOf(d.provider, charges[i]) == k {
      WantedLimits(b, id, d, i);
      AmountOf(d.provider, charges, i);
    } else {
      AmountElsewhere(d.provider, charges, k);
    }
  }

  // ----- safety, step by step

  /** What an accepted charge with a limit comes to is within it. */
  lemma ChargeFits(s: Store, r: Reservation, i: nat, limit: int)
    requires Fits(s, r) && DistinctRefs(r.charges) && i < |r.charges|
    requires r.charges[i].amount > 0 && r.charges[i].ceiling == Capped(limit)
    ensures Standing(s, KeyOf(r.provider, r.charges[i])) + r.charges[i].amount <= limit
  {
    assert r.charges[i] in r.charges;
  }

  lemma UnpaidFits(b: Budgets, s: Store, id: Id, d: Declared, k: Key, limit: int)
    requires Known(b, d.namespace) && LimitOf(b, k) == Some(limit) && !d.pays
    requires Fits(s, Wanted(b, id, d))
    ensures var amount := Amount(d.provider, Wanted(b, id, d).charges, k);
      amount > 0 ==> Standing(s, k) + amount <= limit
  {
    var r := Wanted(b, id, d);
    ReservationDistinct(b, id, d.namespace, d.provider, d.shape, d.pays, d.at);
    if i: nat :| i < |r.charges| && KeyOf(d.provider, r.charges[i]) == k {
      WantedLimits(b, id, d, i);
      AmountOf(d.provider, r.charges, i);
      if r.charges[i].amount > 0 { ChargeFits(s, r, i, limit); }
    } else {
      AmountElsewhere(d.provider, r.charges, k);
    }
  }

  lemma ReserveAdds(s: Store, r: Reservation, k: Key)
    requires Fits(s, r) && r.id !in s.held
    ensures Standing(Ledger.Reserve(s, r), k) == Standing(s, k) + Amount(r.provider, r.charges, k)
  {
    ReservedWith(s.held, r, k);
    assert Without(s.held, r.id) == s.held;
  }

  /** A reservation that is accepted either leaves k within its limit, or belongs
      to a paying job. */
  lemma ReserveBounded(b: Budgets, s: Store, id: Id, d: Declared, k: Key, limit: int)
    requires Known(b, d.namespace) && id !in s.held && LimitOf(b, k) == Some(limit)
    requires Fits(s, Wanted(b, id, d))
    ensures var amount := Amount(d.provider, Wanted(b, id, d).charges, k);
      && Standing(Ledger.Reserve(s, Wanted(b, id, d)), k) == Standing(s, k) + amount
      && (!d.pays && amount > 0 ==> Standing(s, k) + amount <= limit)
  {
    ReserveAdds(s, Wanted(b, id, d), k);
    if !d.pays { UnpaidFits(b, s, id, d, k, limit); }
  }

  lemma SettleBounded(s: Store, id: Id, actual: Actual, k: Key)
    ensures Standing(Ledger.Settle(s, id, actual), k) <= Standing(s, k) + Excess(s, id, actual, k)
  {
    if id in s.held {
      SettleMoves(s, id, actual, k);
    }
  }

  lemma {:induction false} SettleAllBounded(s: Store, order: seq<Id>, actuals: map<Id, Actual>, k: Key)
    requires forall id :: id in order ==> id in actuals
    ensures Standing(SettleAll(s, order, actuals), k) <= Standing(s, k) + ExcessAll(s, order, actuals, k)
    decreases |order|
  {
    if order != [] {
      SettleBounded(s, order[0], actuals[order[0]], k);
      SettleAllBounded(Ledger.Settle(s, order[0], actuals[order[0]]), order[1..], actuals, k);
    }
  }

  lemma StepBounded(b: Budgets, run: Run, event: Event, k: Key, limit: int, slack: nat)
    requires ValidBudgets(b) && Enabled(b, run, event) && LimitOf(b, k) == Some(limit)
    requires Standing(run.store, k) <= limit + slack
    ensures Standing(Apply(b, run, event).store, k)
         <= limit + slack + PaidBy(b, run, event, k) + OverrunBy(b, run, event, k)
  {
    match event
    case Reserves(id, d) =>
      if !Unlimited(b, d.namespace, d.provider) && Fits(run.store, Wanted(b, id, d)) {
        ReserveBounded(b, run.store, id, d, k, limit);
        WantedAmount(b, id, d, k);
      }
    case Settles(id, namespace, provider, actual) =>
      SettleBounded(run.store, id, DeltasOf(b, namespace, provider, actual), k);
    case Reaps(before, resolver, order) =>
      SettleAllBounded(run.store, order, Verdicts(run.store, before, Resolve(b, resolver)), k);
  }

  /** Over every interleaving, no counter of either layer stands higher than its
      limit plus what paying jobs were let past it plus what settles charged
      beyond their reservations. */
  lemma {:induction false} SafetyBound(b: Budgets, start: Run, events: seq<Event>, k: Key, limit: int)
    requires ValidBudgets(b) && Legal(b, start, events)
    requires LimitOf(b, k) == Some(limit) && Standing(start.store, k) <= limit
    ensures Standing(After(b, start, events).store, k)
         <= limit + Paid(b, start, events, k) + Overrun(b, start, events, k)
    decreases |events|
  {
    if events != [] {
      var before := events[..|events| - 1];
      SafetyBound(b, start, before, k, limit);
      StepBounded(b, After(b, start, before), events[|events| - 1], k, limit,
                  Paid(b, start, before, k) + Overrun(b, start, before, k));
    }
  }

  // ----- runs that stay inside what they declared

  /** Nobody pays, and no run is settled or reaped above the shape it declared. */
  ghost predicate Honest(b: Budgets, run: Run, event: Event)
    requires Enabled(b, run, event)
  {
    match event
    case Reserves(_, d) => !d.pays
    case Settles(id, namespace, provider, actual) =>
      id in run.store.held && id in run.declared ==>
        var d := run.declared[id];
        d.namespace == namespace && d.provider == provider && Quota.Within(actual, d.shape)
    case Reaps(_, resolver, order) =>
      forall id :: id in order && id in run.declared ==>
        match resolver(HeldOf(id, run.store.held[id]))
        case Finished(ran) => ran <= run.declared[id].shape.duration
        case _ => true
  }

  ghost predicate HonestRun(b: Budgets, start: Run, events: seq<Event>)
    requires Legal(b, start, events)
    decreases |events|
  {
    events == []
    || (&& HonestRun(b, start, events[..|events| - 1])
        && Honest(b, After(b, start, events[..|events| - 1]), events[|events| - 1]))
  }

  /** Every open reservation is the one its execution declared. */
  ghost predicate Shaped(b: Budgets, run: Run) {
    forall id :: id in run.store.held ==>
      id in run.declared && run.declared[id].namespace != TOTAL && run.store.held[id] == Wanted(b, id, run.declared[id])
  }

  lemma ShapedStep(b: Budgets, run: Run, event: Event)
    requires Enabled(b, run, event) && Shaped(b, run)
    ensures Shaped(b, Apply(b, run, event))
  {
    if event.Reaps? {
      SettleAllHeld(run.store, event.order, Verdicts(run.store, event.before, Resolve(b, event.resolver)));
    }
  }

  /** Settling at a shape within the declared one never exceeds the reservation. */
  lemma WithinHasNoExcess(b: Budgets, s: Store, id: Id, d: Declared, actual: Execution, k: Key)
    requires Known(b, d.namespace) && id in s.held && s.held[id] == Wanted(b, id, d)
    requires Quota.Within(actual, d.shape)
    ensures Excess(s, id, DeltasOf(b, d.namespace, d.provider, actual), k) == 0
  {
    var charges := s.held[id].charges;
    var deltas := DeltasOf(b, d.namespace, d.provider, actual);
    ReservationDistinct(b, id, d.namespace, d.provider, d.shape, d.pays, d.at);
    if i: nat :| i < |charges| && KeyOf(d.provider, charges[i]) == k {
      AmountOf(d.provider, charges, i);
      SettledOf(d.provider, charges, deltas, i);
      DeltaSettles(b, id, d.namespace, d.provider, d.shape, d.pays, d.at, actual, i);
      var ref := RefOf(charges[i]);
      DeltaMonotone(Total(b, d.provider), ref.pool, actual, d.shape);
      DeltaMonotone(Share(b, d.namespace, d.provider), ref.pool, actual, d.shape);
    } else {
      AmountElsewhere(d.provider, charges, k);
    }
  }

  /** Nor does any verdict of the reaper, unless the run outlived its declaration. */
  lemma VerdictHasNoExcess(b: Budgets, s: Store, id: Id, d: Declared, resolver: Resolver, k: Key)
    requires Known(b, d.namespace) && id in s.held && s.held[id] == Wanted(b, id, d)
    requires var v := resolver(HeldOf(id, s.held[id])); v != Keep && (v.Finished? ==> v.ran <= d.shape.duration)
    ensures Excess(s, id, Resolve(b, resolver)(HeldOf(id, s.held[id])).value, k) == 0
  {
    var r := s.held[id];
    match resolver(HeldOf(id, r))
    case Drop =>
      NothingSettles(s.used, r.provider, r.charges, k);
      WantedAmount(b, id, d, k);
    case Stand =>
      ReservationDistinct(b, id, d.namespace, d.provider, d.shape, d.pays, d.at);
      StandConserves(s, id, k);
      SettleMoves(s, id, AmountsOf(r.charges), k);
    case Finished(ran) =>
      var actual := Execution(d.shape.cpu, d.shape.memory, ran);
      WithinHasNoExcess(b, s, id, d, actual, k);
      FinishedIsSettle(b, s, id, d.namespace, d.provider, d.shape, d.pays, d.at, resolver, ran);
      SettleMoves(s, id, DeltasOf(b, d.namespace, d.provider, actual), k);
      SettleMoves(s, id, Resolve(b, resolver)(HeldOf(id, r)).value, k);
  }

  lemma {:induction false} ReapHasNoExcess(b: Budgets, s: Store, order: seq<Id>, actuals: map<Id, Actual>, k: Key)
    requires Distinct(order)
    requires forall id :: id in order ==> id in actuals && id in s.held && Excess(s, id, actuals[id], k) == 0
    ensures ExcessAll(s, order, actuals, k) == 0
    decreases |order|
  {
    if order != [] {
      var next := Ledger.Settle(s, order[0], actuals[order[0]]);
      forall id | id in order[1..]
        ensures id in actuals && id in next.held && Excess(next, id, actuals[id], k) == 0
      {
        assert id in order && id != order[0] && next.held[id] == s.held[id];
        assert Excess(s, id, actuals[id], k) == 0;
      }
      ReapHasNoExcess(b, next, order[1..], actuals, k);
    }
  }

  lemma HonestAddsNothing(b: Budgets, run: Run, event: Event, k: Key)
    requires ValidBudgets(b) && Enabled(b, run, event) && Shaped(b, run) && Honest(b, run, event)
    ensures PaidBy(b, run, event, k) == 0 && OverrunBy(b, run, event, k) == 0
  {
    match event
    case Reserves(_, _) =>
    case Settles(id, namespace, provider, actual) =>
      if id in run.store.held {
        WithinHasNoExcess(b, run.store, id, run.declared[id], actual, k);
      }
    case Reaps(before, resolver, order) =>
      var verdicts := Verdicts(run.store, before, Resolve(b, resolver));
      forall id | id in order
        ensures id in verdicts && id in run.store.held && Excess(run.store, id, verdicts[id], k) == 0
      {
        assert Stale(run.store, before, Resolve(b, resolver), id);
        VerdictHasNoExcess(b, run.store, id, run.declared[id], resolver, k);
      }
      ReapHasNoExcess(b, run.store, order, verdicts, k);
  }

  lemma {:induction false} HonestRunsAddNothing(b: Budgets, start: Run, events: seq<Event>, k: Key)
    requires ValidBudgets(b) && Legal(b, start, events) && Shaped(b, start) && HonestRun(b, start, events)
    ensures Paid(b, start, events, k) == 0 && Overrun(b, start, events, k) == 0
    ensures Shaped(b, After(b, start, events))
    decreases |events|
  {
    if events != [] {
      var before := events[..|events| - 1];
      HonestRunsAddNothing(b, start, before, k);
      HonestAddsNothing(b, After(b, start, before), events[|events| - 1], k);
      ShapedStep(b, After(b, start, before), events[|events| - 1]);
    }
  }

  /** A ledger that starts with settled usage and nothing reserved. */
  function Begun(used: Usage): Run { Run(Store(used, map[]), map[], {}) }

  /** With no paying job and every run inside the shape it declared, no pool of
      either layer ever passes its limit, whatever the interleaving. */
  lemma NoPoolPassesItsLimit(b: Budgets, used: Usage, events: seq<Event>, k: Key, limit: int)
    requires ValidBudgets(b) && LimitOf(b, k) == Some(limit) && Get(used, k) <= limit
    requires Legal(b, Begun(used), events)
    requires HonestRun(b, Begun(used), events)
    ensures Standing(After(b, Begun(used), events).store, k) <= limit
  {
    var start := Begun(used);
    assert Standing(start.store, k) == Get(used, k);
    SafetyBound(b, start, events, k, limit);
    HonestRunsAddNothing(b, start, events, k);
  }
}
