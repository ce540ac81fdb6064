/** What whole runs of the ledger charge: each execution at most once, nothing lost
    and nothing invented (internal/ledger/memory.go, ledger.go). */
module Settlement {
  import opened Prelude
  import opened Quota
  import opened Ledger
  import opened Accounts
  import opened QuotaSafety
  import Sums

  /** The open reservations an event settles, each at the amounts it settles for. */
  ghost function SettledBy(b: Budgets, run: Run, event: Event): map<Id, Actual>
    requires Enabled(b, run, event)
  {
    match event
    case Reserves(_, _) => map[]
    case Settles(id, namespace, provider, actual) =>
      if id in run.store.held && !Unlimited(b, namespace, provider)
      then map[id := DeltasOf(b, namespace, provider, actual)]
      else map[]
    case Reaps(before, resolver, _) => Verdicts(run.store, before, Resolve(b, resolver))
  }

  /** What settling one execution adds to counter k. */
  ghost function ChargedBy(b: Budgets, run: Run, event: Event, id: Id, k: Key): int
    requires Enabled(b, run, event)
  {
    MovedBy(run.store, SettledBy(b, run, event), k)(id)
  }

  /** What an accepted reservation adds to counter k. */
  ghost function AcceptedBy(b: Budgets, run: Run, event: Event, k: Key): int {
    if && event.Reserves? && !Unlimited(b, event.d.namespace, event.d.provider)
       && Fits(run.store, Wanted(b, event.id, event.d))
    then Amount(event.d.provider, Wanted(b, event.id, event.d).charges, k)
    else 0
  }

  /** Settled minus reserved, of each reservation a batch settles. */
  ghost function NetOf(s: Store, actuals: map<Id, Actual>, k: Key): Id -> int {
    id => if id in s.held && id in actuals
          then Settled(s.held[id].provider, s.held[id].charges, actuals[id], k)
               - Amount(s.held[id].provider, s.held[id].charges, k)
          else 0
  }

  // ----- one event

  lemma ReapSettles(b: Budgets, run: Run, event: Event)
    requires Enabled(b, run, event) && event.Reaps?
    ensures IdsOf(event.order) == SettledBy(b, run, event).Keys
    ensures forall id :: id in event.order ==> id in run.store.held
  {
    forall id ensures id in event.order <==> id in SettledBy(b, run, event) {
      assert id in event.order <==> Stale(run.store, event.before, Resolve(b, event.resolver), id);
    }
  }

  /** An event takes out of the store exactly what it settles. */
  lemma EventHolds(b: Budgets, run: Run, event: Event, id: Id)
    requires Enabled(b, run, event)
    ensures var after := Apply(b, run, event);
      && (id in SettledBy(b, run, event) <==> id in run.store.held && id !in after.store.held)
      && (id in after.store.held && id !in run.store.held ==> id !in run.minted && id in after.minted)
      && (id in run.minted ==> id in after.minted)
      && (id in run.store.held && id in after.store.held ==> after.store.held[id] == run.store.held[id])
  {
    if event.Reaps? {
      ReapSettles(b, run, event);
      SettleAllHeld(run.store, event.order, Verdicts(run.store, event.before, Resolve(b, event.resolver)));
    }
  }

  lemma SettleNets(s: Store, id: Id, actuals: map<Id, Actual>, k: Key)
    requires id in s.held && id in actuals
    ensures Standing(Ledger.Settle(s, id, actuals[id]), k) == Standing(s, k) + NetOf(s, actuals, k)(id)
  {
    SettleMoves(s, id, actuals[id], k);
  }

  /** Settling one execution leaves what the others will come to. */
  lemma NetsKept(s: Store, first: Id, actual: Actual, rest: seq<Id>, actuals: map<Id, Actual>, k: Key)
    requires first !in rest && first in s.held
    ensures var next := Ledger.Settle(s, first, actual);
      && (forall id :: id in rest && id in s.held ==> id in next.held)
      && Sums.Sum(IdsOf(rest), NetOf(next, actuals, k)) == Sums.Sum(IdsOf(rest), NetOf(s, actuals, k))
  {
    Sums.Same(IdsOf(rest), NetOf(Ledger.Settle(s, first, actual), actuals, k), NetOf(s, actuals, k));
  }

  lemma {:induction false} SettleAllNets(s: Store, order: seq<Id>, actuals: map<Id, Actual>, k: Key)
    requires Distinct(order) && forall id :: id in order ==> id in actuals && id in s.held
    ensures Standing(SettleAll(s, order, actuals), k) == Standing(s, k) + Sums.Sum(IdsOf(order), NetOf(s, actuals, k))
    decreases |order|
  {
    if order == [] {
      assert IdsOf(order) == {};
    } else {
      var id, rest := order[0], order[1..];
      assert id in order && forall i :: i in rest ==> i in order;
      SplitFirst(order);
      SettleNets(s, id, actuals, k);
      NetsKept(s, id, actuals[id], rest, actuals, k);
      SettleAllNets(Ledger.Settle(s, id, actuals[id]), rest, actuals, k);
      Sums.Take(IdsOf(order), NetOf(s, actuals, k), id);
    }
  }

  lemma SplitFirst(order: seq<Id>)
    requires order != [] && Distinct(order)
    ensures order[0] in IdsOf(order) && order[0] !in order[1..] && IdsOf(order) - {order[0]} == IdsOf(order[1..])
  {
    assert order[0] !in order[1..];
  }

  lemma SumOne(f: Id -> int, id: Id)
    ensures Sums.Sum({id}, f) == f(id)
  {
    Sums.Take({id}, f, id);
    assert {id} - {id} == {};
  }

  /** One event moves a counter by what it accepts, and by settled minus reserved
      for each reservation it settles. */
  lemma EventMoves(b: Budgets, run: Run, event: Event, k: Key)
    requires Enabled(b, run, event)
    ensures var settled := SettledBy(b, run, event);
      Standing(Apply(b, run, event).store, k)
      == Standing(run.store, k) + AcceptedBy(b, run, event, k) + Sums.Sum(settled.Keys, NetOf(run.store, settled, k))
  {
    var settled := SettledBy(b, run, event);
    match event
    case Reserves(id, d) =>
      assert settled.Keys == {};
      ReservedWith(run.store.held, Wanted(b, id, d), k);
      assert Without(run.store.held, id) == run.store.held;
    case Settles(id, namespace, provider, actual) =>
      if id in settled {
        assert settled.Keys == {id};
        SumOne(NetOf(run.store, settled, k), id);
        SettleMoves(run.store, id, settled[id], k);
      } else {
        assert settled.Keys == {};
      }
    case Reaps(before, resolver, order) =>
      ReapSettles(b, run, event);
      SettleAllNets(run.store, order, settled, k);
  }

  /** And it charges a counter what it charges for the executions it settles. */
  lemma EventCharges(b: Budgets, run: Run, event: Event, k: Key)
    requires Enabled(b, run, event)
    ensures var settled := SettledBy(b, run, event);
      Get(Apply(b, run, event).store.used, k)
      == Get(run.store.used, k) + Sums.Sum(settled.Keys, MovedBy(run.store, settled, k))
  {
    var settled := SettledBy(b, run, event);
    match event
    case Reserves(_, _) => assert settled.Keys == {};
    case Settles(id, namespace, provider, actual) =>
      if id in settled {
        assert settled.Keys == {id};
        SumOne(MovedBy(run.store, settled, k), id);
        AddActualAdds(run.store.used, run.store.held[id].provider, run.store.held[id].charges, settled[id], k);
      } else {
        assert settled.Keys == {};
      }
    case Reaps(before, resolver, order) =>
      ReapSettles(b, run, event);
      SettleAllMoves(run.store, order, settled, k);
  }

  // ----- whole runs

  lemma {:induction false} LegalPrefix(b: Budgets, start: Run, events: seq<Event>, i: nat)
    requires Legal(b, start, events) && i <= |events|
    ensures Legal(b, start, events[..i])
    ensures i < |events| ==> Enabled(b, After(b, start, events[..i]), events[i])
    decreases |events|
  {
    if i == |events| {
      assert events[..i] == events;
    } else {
      var before := events[..|events| - 1];
      if i < |before| {
        LegalPrefix(b, start, before, i);
        assert before[..i] == events[..i];
      }
    }
  }

  ghost function Accepted(b: Budgets, start: Run, events: seq<Event>, k: Key): int
    requires Legal(b, start, events)
    decreases |events|
  {
    if events == [] then 0 else
      var before := events[..|events| - 1];
      Accepted(b, start, before, k) + AcceptedBy(b, After(b, start, before), events[|events| - 1], k)
  }

  ghost function Net(b: Budgets, start: Run, events: seq<Event>, k: Key): int
    requires Legal(b, start, events)
    decreases |events|
  {
    if events == [] then 0 else
      var before, last := events[..|events| - 1], events[|events| - 1];
      var run := After(b, start, before);
      Net(b, start, before, k)
      + Sums.Sum(SettledBy(b, run, last).Keys, NetOf(run.store, SettledBy(b, run, last), k))
  }

  /** Conservation: over any run a counter's standing changes by exactly what was
      accepted on it, plus settled minus reserved for every settlement. */
  lemma {:induction false} StandingConserved(b: Budgets, start: Run, events: seq<Event>, k: Key)
    requires Legal(b, start, events)
    ensures Standing(After(b, start, events).store, k)
         == Standing(start.store, k) + Accepted(b, start, events, k) + Net(b, start, events, k)
    decreases |events|
  {
    if events != [] {
      var before := events[..|events| - 1];
      StandingConserved(b, start, before, k);
      EventMoves(b, After(b, start, before), events[|events| - 1], k);
    }
  }

  // ----- once

  /** How many events of the run settle id. */
  ghost function Settlements(b: Budgets, start: Run, events: seq<Event>, id: Id): nat
    requires Legal(b, start, events)
    decreases |events|
  {
    if events == [] then 0 else
      var before, last := events[..|events| - 1], events[|events| - 1];
      Settlements(b, start, before, id) + if id in SettledBy(b, After(b, start, before), last) then 1 else 0
  }

  /** What the run charges counter k for id, all its events together. */
  ghost function Charged(b: Budgets, start: Run, events: seq<Event>, id: Id, k: Key): int
    requires Legal(b, start, events)
    decreases |events|
  {
    if events == [] then 0 else
      var before, last := events[..|events| - 1], events[|events| - 1];
      Charged(b, start, before, id, k) + ChargedBy(b, After(b, start, before), last, id, k)
  }

  /** Every open reservation is under a minted ID. */
  ghost predicate Minted(run: Run) { run.store.held.Keys <= run.minted }

  lemma MintedStep(b: Budgets, run: Run, event: Event)
    requires Enabled(b, run, event) && Minted(run)
    ensures Minted(Apply(b, run, event))
  {
    forall id | id in Apply(b, run, event).store.held ensures id in Apply(b, run, event).minted {
      EventHolds(b, run, event, id);
    }
  }

  lemma {:induction false} MintedStays(b: Budgets, start: Run, events: seq<Event>, id: Id)
    requires Legal(b, start, events) && id in start.minted
    ensures id in After(b, start, events).minted
    decreases |events|
  {
    if events != [] {
      var before := events[..|events| - 1];
      MintedStays(b, start, before, id);
      EventHolds(b, After(b, start, before), events[|events| - 1], id);
    }
  }

  /** An ID once minted and out of the store stays out of it, whatever follows. */
  lemma {:induction false} StaysOut(b: Budgets, start: Run, events: seq<Event>, id: Id)
    requires Legal(b, start, events) && id in start.minted && id !in start.store.held
    ensures id in After(b, start, events).minted && id !in After(b, start, events).store.held
    ensures Settlements(b, start, events, id) == 0
    decreases |events|
  {
    if events != [] {
      var before := events[..|events| - 1];
      StaysOut(b, start, before, id);
      EventHolds(b, After(b, start, before), events[|events| - 1], id);
    }
  }

  /** The i-th event settles id, and what it charges is all that is charged. */
  ghost predicate SettledAt(b: Budgets, start: Run, events: seq<Event>, id: Id, k: Key, i: nat)
    requires Legal(b, start, events)
  {
    && i < |events|
    && (LegalPrefix(b, start, events, i);
        id in SettledBy(b, After(b, start, events[..i]), events[i])
        && Charged(b, start, events, id, k) == ChargedBy(b, After(b, start, events[..i]), events[i], id, k))
  }

  /** What all the events charge for id is what one of them, the only one to settle
      it, charges; or nothing, where none does. */
  ghost predicate ChargedOnce(b: Budgets, start: Run, events: seq<Event>, id: Id, k: Key)
    requires Legal(b, start, events)
  {
    if Settlements(b, start, events, id) == 0 then Charged(b, start, events, id, k) == 0
    else Settlements(b, start, events, id) == 1 && exists i: nat :: SettledAt(b, start, events, id, k, i)
  }

  /** Under a minted ID, and out of the store for good. */
  ghost predicate Gone(run: Run, id: Id) { id in run.minted && id !in run.store.held }

  lemma ChargedStill(b: Budgets, start: Run, events: seq<Event>, id: Id, k: Key)
    requires Legal(b, start, events) && events != []
    requires ChargedOnce(b, start, events[..|events| - 1], id, k)
    requires id !in SettledBy(b, After(b, start, events[..|events| - 1]), events[|events| - 1])
    ensures ChargedOnce(b, start, events, id, k)
  {
    var before := events[..|events| - 1];
    if i: nat :| SettledAt(b, start, before, id, k, i) {
      assert before[..i] == events[..i];
      assert SettledAt(b, start, events, id, k, i);
    }
  }

  /** Settle once: in any run, whatever the interleaving of settles and reaps of this
      and every other execution, at most one event settles id, and what all of them
      charge a counter for it is what that one event charges. */
  lemma {:induction false} SettlesOnce(b: Budgets, start: Run, events: seq<Event>, id: Id, k: Key)
    requires Legal(b, start, events) && Minted(start)
    ensures Settlements(b, start, events, id) <= 1
    ensures ChargedOnce(b, start, events, id, k)
    ensures Settlements(b, start, events, id) == 1 ==> Gone(After(b, start, events), id)
    ensures Minted(After(b, start, events))
    decreases |events|
  {
    if events != [] {
      var n := |events| - 1;
      var run := After(b, start, events[..n]);
      SettlesOnce(b, start, events[..n], id, k);
      EventHolds(b, run, events[n], id);
      MintedStep(b, run, events[n]);
      if id in SettledBy(b, run, events[n]) {
        assert SettledAt(b, start, events, id, k, n);
      } else {
        ChargedStill(b, start, events, id, k);
      }
    }
  }

  /** And only counters it was reserved on are ever charged for it, in the periods it
      was reserved in. */
  lemma ChargedWhereReserved(b: Budgets, run: Run, event: Event, id: Id, k: Key)
    requires Enabled(b, run, event) && ChargedBy(b, run, event, id, k) != 0
    ensures id in run.store.held
    ensures var r := run.store.held[id]; exists i :: 0 <= i < |r.charges| && KeyOf(r.provider, r.charges[i]) == k
  {
    var r := run.store.held[id];
    if forall i :: 0 <= i < |r.charges| ==> KeyOf(r.provider, r.charges[i]) != k {
      Untouched(r.provider, r.charges, SettledBy(b, run, event)[id], k);
    }
  }

  lemma {:induction false} Untouched(provider: string, charges: seq<Charge>, actual: Actual, k: Key)
    requires forall i :: 0 <= i < |charges| ==> KeyOf(provider, charges[i]) != k
    ensures Settled(provider, charges, actual, k) == 0
  {
    if charges != [] { Untouched(provider, charges[1..], actual, k); }
  }
}
