/** The reaper's side of a stale reservation: what a provider's answer makes of it
    (internal/dispatch/reap.go). */
module Reaping {
  import opened Prelude
  import opened Accounts
  import Quota
  import Ledger
  import L = Lifecycle

  /** What asking the reservation's provider about its execution comes to. */
  datatype Reply =
    | NotConfigured
    | NoRecord
    | NoStatus
    | NoReply
    | Status(state: L.State, startedAt: Option<int>, endedAt: Option<int>)

  function Resolve(reply: Reply): Verdict {
    match reply
    case NotConfigured => Keep
    case NoRecord => Drop
    case NoStatus => Stand
    case NoReply => Keep
    case Status(state, startedAt, endedAt) =>
      if !L.Terminal(state) then Keep
      else if startedAt.None? then Finished(0)
      else if endedAt.None? then Stand
      else Finished(endedAt.value - startedAt.value)
  }

  function StatusOf(r: L.Record): Reply { Status(r.state, r.startedAt, r.endedAt) }

  /** How long its provider says a finished execution ran: not at all, where it never
      started. */
  function RanFor(r: L.Record): int
    requires r.endedAt.Some?
  {
    if r.startedAt.None? then 0 else r.endedAt.value - r.startedAt.value
  }

  /** A provider whose timestamps agree with its state is never left to the estimate
      and never loses a charge: it is kept while it may run, and settled at the
      time it ran once it is over. */
  lemma StampedIsSettled(r: L.Record)
    requires L.Stamped(r)
    ensures Resolve(StatusOf(r)) == Keep <==> !L.Terminal(r.state)
    ensures L.Terminal(r.state) ==>
      Resolve(StatusOf(r)) == Finished(RanFor(r))
    ensures Resolve(StatusOf(r)) != Drop && Resolve(StatusOf(r)) != Stand
  {
  }

  /** What the dispatcher charges for a result: what the platform billed, or else the
      declared shape over how long it ran. */
  function ChargeOf(rec: L.Record, result: L.Result): Quota.Execution {
    if result.billed.Some? then result.billed.value
    else Quota.Execution(rec.cpu, rec.memory, result.duration)
  }

  /** Two runs of an execution cost the same on every pool it is counted against. */
  ghost predicate CostAlike(
    b: Quota.Budgets, namespace: string, provider: string, one: Quota.Execution, two: Quota.Execution,
    charges: seq<Ledger.Charge>)
  {
    forall i :: 0 <= i < |charges| ==>
      Priced(b, namespace, provider, one, Ledger.RefOf(charges[i]))
      == Priced(b, namespace, provider, two, Ledger.RefOf(charges[i]))
  }

  lemma ChargedAlikeExactly(
    b: Quota.Budgets, s: Ledger.Store, id: Id, namespace: string, provider: string, e: Quota.Execution, pays: bool,
    now: Quota.Instant, one: Quota.Execution, two: Quota.Execution)
    requires Known(b, namespace) && id in s.held
    requires s.held[id] == ReservationFor(b, id, namespace, provider, e, pays, now)
    ensures Ledger.Settle(s, id, DeltasOf(b, namespace, provider, one))
         == Ledger.Settle(s, id, DeltasOf(b, namespace, provider, two))
       <==> CostAlike(b, namespace, provider, one, two, s.held[id].charges)
  {
    var charges := s.held[id].charges;
    ReservationDistinct(b, id, namespace, provider, e, pays, now);
    SettleAlikeExactly(s, id, DeltasOf(b, namespace, provider, one), DeltasOf(b, namespace, provider, two));
    forall i | 0 <= i < |charges| ensures
      && Get(DeltasOf(b, namespace, provider, one), Ledger.RefOf(charges[i]))
         == Priced(b, namespace, provider, one, Ledger.RefOf(charges[i]))
      && Get(DeltasOf(b, namespace, provider, two), Ledger.RefOf(charges[i]))
         == Priced(b, namespace, provider, two, Ledger.RefOf(charges[i]))
    {
      DeltaSettles(b, id, namespace, provider, e, pays, now, one, i);
      DeltaSettles(b, id, namespace, provider, e, pays, now, two, i);
    }
  }

  /** A crash between reserving and settling costs nothing but time: the reaper
      settles an execution that is over at what its provider says it ran. That is the
      charge its dispatcher would have made for the result exactly when the two cost
      the same on every pool reserved, as they do when the result ran that long and
      nothing was billed. */
  lemma ReapedAsCharged(
    b: Quota.Budgets, s: Ledger.Store, namespace: string, provider: string, e: Quota.Execution, pays: bool,
    now: Quota.Instant, rec: L.Record, result: L.Result, status: L.Record, replies: Id -> Reply)
    requires Known(b, namespace) && rec.id in s.held
    requires s.held[rec.id] == ReservationFor(b, rec.id, namespace, provider, e, pays, now)
    requires rec.cpu == e.cpu && rec.memory == e.memory
    requires L.Stamped(status) && L.Terminal(status.state)
    requires replies(rec.id) == StatusOf(status)
    ensures var answer := Accounts.Resolve(b, Asking(replies))(Ledger.HeldOf(rec.id, s.held[rec.id]));
      var ran := Quota.Execution(e.cpu, e.memory, RanFor(status));
      && answer.Some?
      && (Ledger.Settle(s, rec.id, answer.value)
          == Ledger.Settle(s, rec.id, DeltasOf(b, namespace, provider, ChargeOf(rec, result)))
          <==> CostAlike(b, namespace, provider, ran, ChargeOf(rec, result), s.held[rec.id].charges))
      && (result.billed.None? && result.duration == RanFor(status) ==> ChargeOf(rec, result) == ran)
      && (result.billed.Some? ==> ChargeOf(rec, result) == result.billed.value)
  {
    StampedIsSettled(status);
    FinishedIsSettle(b, s, rec.id, namespace, provider, e, pays, now, Asking(replies), RanFor(status));
    ChargedAlikeExactly(b, s, rec.id, namespace, provider, e, pays, now,
                        Quota.Execution(e.cpu, e.memory, RanFor(status)), ChargeOf(rec, result));
  }

  /** The resolver dispatch hands the ledger. */
  function Asking(replies: Id -> Reply): Resolver {
    (h: Ledger.Held) => Resolve(replies(h.id))
  }

  /** The provider has settled the matter: it disowns the execution, cannot say how it
      ended, or reports it over. */
  ghost predicate Answers(reply: Reply) {
    reply == NoRecord || reply == NoStatus || (reply.Status? && reply.state in {L.Succeeded, L.Failed, L.Cancelled})
  }

  /** It ran for a time its provider knows, or never started. */
  ghost predicate Timed(reply: Reply) { reply.Status? && (reply.startedAt.None? || reply.endedAt.Some?) }

  ghost function TimeOf(reply: Reply): int
    requires Timed(reply)
  {
    if reply.startedAt.None? then 0 else reply.endedAt.value - reply.startedAt.value
  }

  /** What an answer charges counter k for a reservation of e: nothing for an execution
      disowned, the time it ran where that is known, and else the estimate as it
      stands. */
  ghost predicate ChargesAs(
    b: Quota.Budgets, namespace: string, e: Quota.Execution, r: Ledger.Reservation, reply: Reply, k: Ledger.Key,
    charged: int)
  {
    if reply == NoRecord then charged == 0
    else if Timed(reply) then
      var ran := Quota.Execution(e.cpu, e.memory, TimeOf(reply));
      charged == Ledger.Settled(r.provider, r.charges, DeltasOf(b, namespace, r.provider, ran), k)
    else charged == Ledger.Amount(r.provider, r.charges, k)
  }

  /** The amounts the reaper settles a reservation at. */
  ghost predicate SettledAt(
    b: Quota.Budgets, replies: Id -> Reply, id: Id, r: Ledger.Reservation, actual: Ledger.Actual)
  {
    Accounts.Resolve(b, Asking(replies))(Ledger.HeldOf(id, r)) == Some(actual)
  }

  lemma SettlesAt(b: Quota.Budgets, replies: Id -> Reply, id: Id, r: Ledger.Reservation, actual: Ledger.Actual)
    requires SettledAt(b, replies, id, r, actual)
    ensures replies(id) == NoRecord ==> actual == map[]
    ensures replies(id) != NoRecord && !Timed(replies(id)) ==> actual == Ledger.AmountsOf(r.charges)
    ensures Timed(replies(id)) ==> Asking(replies)(Ledger.HeldOf(id, r)) == Finished(TimeOf(replies(id)))
  {
  }

  lemma VerdictCharges(
    b: Quota.Budgets, s: Ledger.Store, id: Id, namespace: string, provider: string, e: Quota.Execution, pays: bool,
    at: Quota.Instant, replies: Id -> Reply, actual: Ledger.Actual, k: Ledger.Key)
    requires Known(b, namespace) && id in s.held
    requires s.held[id] == ReservationFor(b, id, namespace, provider, e, pays, at)
    requires SettledAt(b, replies, id, s.held[id], actual)
    ensures ChargesAs(b, namespace, e, s.held[id], replies(id), k,
                      Ledger.Settled(provider, s.held[id].charges, actual, k))
  {
    SettlesAt(b, replies, id, s.held[id], actual);
    if replies(id) == NoRecord {
      NothingSettles(s.used, provider, s.held[id].charges, k);
    } else if Timed(replies(id)) {
      TimeSettles(b, s, id, namespace, provider, e, pays, at, replies, actual, TimeOf(replies(id)), k);
    } else {
      ReservationDistinct(b, id, namespace, provider, e, pays, at);
      StandSettles(s.held[id], k);
    }
  }

  lemma StandSettles(r: Ledger.Reservation, k: Ledger.Key)
    requires Ledger.DistinctRefs(r.charges)
    ensures Ledger.Settled(r.provider, r.charges, Ledger.AmountsOf(r.charges), k)
         == Ledger.Amount(r.provider, r.charges, k)
  {
    var s := Ledger.Store(map[], map[0 := r]);
    StandConserves(s, 0, k);
    Ledger.SettleMoves(s, 0, Ledger.AmountsOf(r.charges), k);
  }

  lemma TimeSettles(
    b: Quota.Budgets, s: Ledger.Store, id: Id, namespace: string, provider: string, e: Quota.Execution, pays: bool,
    at: Quota.Instant, replies: Id -> Reply, actual: Ledger.Actual, ran: int, k: Ledger.Key)
    requires Known(b, namespace) && id in s.held
    requires s.held[id] == ReservationFor(b, id, namespace, provider, e, pays, at)
    requires SettledAt(b, replies, id, s.held[id], actual)
    requires Asking(replies)(Ledger.HeldOf(id, s.held[id])) == Finished(ran)
    ensures Ledger.Settled(provider, s.held[id].charges, actual, k)
         == Ledger.Settled(provider, s.held[id].charges,
                           DeltasOf(b, namespace, provider, Quota.Execution(e.cpu, e.memory, ran)), k)
  {
    var charges := s.held[id].charges;
    FinishedIsSettle(b, s, id, namespace, provider, e, pays, at, Asking(replies), ran);
    Ledger.AddActualAdds(s.used, provider, charges, actual, k);
    Ledger.AddActualAdds(s.used, provider, charges,
                         DeltasOf(b, namespace, provider, Quota.Execution(e.cpu, e.memory, ran)), k);
  }

  /** What a reap leaves of one reservation: gone exactly when it is an hour old and its
      provider has answered, charged as that answer says; else untouched. */
  lemma ReapLeaves(
    b: Quota.Budgets, s: Ledger.Store, namespace: string, provider: string, e: Quota.Execution, pays: bool,
    at: Quota.Instant, id: Id, now: int, replies: Id -> Reply, order: seq<Id>, k: Ledger.Key)
    requires Known(b, namespace) && id in s.held
    requires s.held[id] == ReservationFor(b, id, namespace, provider, e, pays, at)
    requires Ledger.ReapOrder(s, now - STALE_AFTER, Accounts.Resolve(b, Asking(replies)), order)
    ensures var verdicts := Ledger.Verdicts(s, now - STALE_AFTER, Accounts.Resolve(b, Asking(replies)));
      var after := Ledger.SettleAll(s, order, verdicts);
      && (id !in after.held <==> now - at.nanos > 3_600_000_000_000 && Answers(replies(id)))
      && (id in after.held ==> after.held[id] == s.held[id])
      && (id !in after.held ==>
            ChargesAs(b, namespace, e, s.held[id], replies(id), k, Ledger.MovedBy(s, verdicts, k)(id)))
  {
    ReapTakes(b, s, id, now, replies, order);
    var verdicts := Ledger.Verdicts(s, now - STALE_AFTER, Accounts.Resolve(b, Asking(replies)));
    if id in verdicts && SettledAt(b, replies, id, s.held[id], verdicts[id]) {
      VerdictCharges(b, s, id, namespace, provider, e, pays, at, replies, verdicts[id], k);
    }
  }

  lemma ReapTakes(b: Quota.Budgets, s: Ledger.Store, id: Id, now: int, replies: Id -> Reply, order: seq<Id>)
    requires id in s.held
    requires Ledger.ReapOrder(s, now - STALE_AFTER, Accounts.Resolve(b, Asking(replies)), order)
    ensures var verdicts := Ledger.Verdicts(s, now - STALE_AFTER, Accounts.Resolve(b, Asking(replies)));
      var after := Ledger.SettleAll(s, order, verdicts);
      && (id !in after.held <==> now - s.held[id].created > 3_600_000_000_000 && Answers(replies(id)))
      && (id in after.held ==> after.held[id] == s.held[id])
      && (id !in after.held ==> id in verdicts && SettledAt(b, replies, id, s.held[id], verdicts[id]))
  {
    var resolve := Accounts.Resolve(b, Asking(replies));
    Ledger.SettleAllHeld(s, order, Ledger.Verdicts(s, now - STALE_AFTER, resolve));
    assert id in order <==> Ledger.Stale(s, now - STALE_AFTER, resolve, id);
  }

  /** The reaper errs toward over-counting: it frees quota only for an execution its
      provider disowns or reports over. Otherwise every counter stands where it did. */
  lemma FreesOnlyOnAnswer(b: Quota.Budgets, s: Ledger.Store, id: Id, replies: Id -> Reply, k: Ledger.Key)
    requires id in s.held && Ledger.DistinctRefs(s.held[id].charges)
    requires replies(id) != NoRecord && !(replies(id).Status? && L.Terminal(replies(id).state))
    ensures var answer := Accounts.Resolve(b, Asking(replies))(Ledger.HeldOf(id, s.held[id]));
      answer.Some? ==> Ledger.Standing(Ledger.Settle(s, id, answer.value), k) == Ledger.Standing(s, k)
    ensures Accounts.Resolve(b, Asking(replies))(Ledger.HeldOf(id, s.held[id])).Some? <==> replies(id) == NoStatus
  {
    StandConserves(s, id, k);
  }
}
