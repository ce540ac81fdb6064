/** Dispatches and execution records in memory (internal/state/memory/executions.go):
    leases that exclude, and records changed only from the state they were read in. */
module ExecutionStore {
  import opened Prelude
  import opened Lifecycle

  datatype DispatchState = DispatchRunning | DispatchSucceeded | DispatchFailed | DispatchUnanswered

  datatype Dispatch = Dispatch(
    id: Id, tasks: nat, state: DispatchState, error: string, owner: string,
    leaseUntil: int, created: int, ended: Option<int>)

  type Dispatches = map<Id, Dispatch>

  type Records = map<Id, Record>

  datatype Outcome = Done | AlreadyRecorded | Stale | NotFound

  // ----- dispatches

  predicate HeldBy(ds: Dispatches, id: Id, owner: string) {
    id in ds && ds[id].state == DispatchRunning && ds[id].owner == owner
  }

  function CreateDispatch(ds: Dispatches, d: Dispatch): (Dispatches, Outcome) {
    if d.id in ds then (ds, AlreadyRecorded) else (ds[d.id := d], Done)
  }

  function FinishDispatch(ds: Dispatches, d: Dispatch): (Dispatches, Outcome) {
    if !HeldBy(ds, d.id, d.owner) then (ds, Stale)
    else (ds[d.id := ds[d.id].(state := d.state, error := d.error, ended := d.ended)], Done)
  }

  function RenewDispatch(ds: Dispatches, id: Id, owner: string, until: int): (Dispatches, Outcome) {
    if !HeldBy(ds, id, owner) then (ds, Stale)
    else (ds[id := ds[id].(leaseUntil := until)], Done)
  }

  function ClaimDispatches(ds: Dispatches, owner: string, now: int, until: int, skip: seq<Id>): Dispatches {
    map id | id in ds ::
      if ds[id].state == DispatchRunning && ds[id].leaseUntil < now && id !in skip
      then ds[id].(owner := owner, leaseUntil := until)
      else ds[id]
  }

  // ----- records

  function CreateRecord(rs: Records, r: Record): (Records, Outcome) {
    if r.id in rs then (rs, AlreadyRecorded) else (rs[r.id := r], Done)
  }

  /** Release is written on its own, so an update leaves it as stored. */
  function UpdateRecord(rs: Records, r: Record, from: State): (Records, Outcome) {
    if r.id !in rs || rs[r.id].state != from then (rs, Stale)
    else (rs[r.id := r.(released := rs[r.id].released)], Done)
  }

  function MarkReleased(rs: Records, id: Id, at: int): (Records, Outcome) {
    if id !in rs then (rs, NotFound) else (rs[id := rs[id].(released := Some(at))], Done)
  }

  class Executions {
    var dispatches: Dispatches
    var records: Records

    constructor ()
      ensures dispatches == map[] && records == map[]
    {
      dispatches := map[];
      records := map[];
    }

    method Begin(d: Dispatch) returns (outcome: Outcome)
      modifies this`dispatches
      ensures (dispatches, outcome) == CreateDispatch(old(dispatches), d)
    {
      if d.id in dispatches { return AlreadyRecorded; }
      dispatches := dispatches[d.id := d];
      outcome := Done;
    }

    method Finish(d: Dispatch) returns (outcome: Outcome)
      modifies this`dispatches
      ensures (dispatches, outcome) == FinishDispatch(old(dispatches), d)
    {
      if !HeldBy(dispatches, d.id, d.owner) { return Stale; }
      dispatches := dispatches[d.id := dispatches[d.id].(state := d.state, error := d.error, ended := d.ended)];
      outcome := Done;
    }

    method Renew(id: Id, owner: string, until: int) returns (outcome: Outcome)
      modifies this`dispatches
      ensures (dispatches, outcome) == RenewDispatch(old(dispatches), id, owner, until)
    {
      if !HeldBy(dispatches, id, owner) { return Stale; }
      dispatches := dispatches[id := dispatches[id].(leaseUntil := until)];
      outcome := Done;
    }

    /** Takes over every lapsed dispatch not in skip, and returns those it took. */
    method Claim(owner: string, now: int, until: int, skip: seq<Id>) returns (claimed: set<Id>)
      modifies this`dispatches
      ensures dispatches == ClaimDispatches(old(dispatches), owner, now, until, skip)
      ensures forall id :: id in claimed <==>
        && id in old(dispatches) && old(dispatches)[id].state == DispatchRunning
        && old(dispatches)[id].leaseUntil < now && id !in skip
      ensures dispatches.Keys == old(dispatches).Keys
      ensures forall id :: id in old(dispatches) ==>
        dispatches[id] == if id in claimed then old(dispatches)[id].(owner := owner, leaseUntil := until)
                          else old(dispatches)[id]
    {
      claimed := {};
      var todo := dispatches.Keys;
      ghost var before := dispatches;
      ghost var after := ClaimDispatches(before, owner, now, until, skip);
      while todo != {}
        invariant todo <= before.Keys && dispatches.Keys == before.Keys
        invariant forall id :: id in before ==> dispatches[id] == if id in todo then before[id] else after[id]
        invariant forall id :: id in claimed <==>
          && id in before && id !in todo && before[id].state == DispatchRunning
          && before[id].leaseUntil < now && id !in skip
        decreases todo
      {
        var id :| id in todo;
        todo := todo - {id};
        var stored := dispatches[id];
        if stored.state != DispatchRunning || stored.leaseUntil >= now || id in skip { continue; }
        dispatches := dispatches[id := stored.(owner := owner, leaseUntil := until)];
        claimed := claimed + {id};
      }
    }

    method Create(r: Record) returns (outcome: Outcome)
      modifies this`records
      ensures (records, outcome) == CreateRecord(old(records), r)
    {
      if r.id in records { return AlreadyRecorded; }
      records := records[r.id := r];
      outcome := Done;
    }

    method Update(r: Record, from: State) returns (outcome: Outcome)
      modifies this`records
      ensures (records, outcome) == UpdateRecord(old(records), r, from)
    {
      if r.id !in records || records[r.id].state != from { return Stale; }
      records := records[r.id := r.(released := records[r.id].released)];
      outcome := Done;
    }

    method Release(id: Id, at: int) returns (outcome: Outcome)
      modifies this`records
      ensures (records, outcome) == MarkReleased(old(records), id, at)
    {
      if id !in records { return NotFound; }
      records := records[id := records[id].(released := Some(at))];
      outcome := Done;
    }
  }
}

/** Lease exclusion, over any interleaving of any number of owners. */
module Leases {
  import opened Prelude
  import opened ExecutionStore

  /** The stored dispatches and the shared clock. */
  datatype World = World(dispatches: Dispatches, clock: int)

  /** A claim carries the time its caller read before making it. */
  datatype Op =
    | Create(d: Dispatch)
    | Renew(id: Id, owner: string, until: int)
    | Claim(owner: string, now: int, until: int, skip: seq<Id>)
    | Finish(d: Dispatch)
    | Tick(clock: int)

  ghost predicate Enabled(w: World, op: Op) {
    match op
    case Claim(_, now, _, _) => now <= w.clock
    case Finish(d) => d.state != DispatchRunning
    case Tick(clock) => w.clock <= clock
    case _ => true
  }

  function Do(w: World, op: Op): World {
    match op
    case Create(d) => w.(dispatches := CreateDispatch(w.dispatches, d).0)
    case Renew(id, owner, until) => w.(dispatches := RenewDispatch(w.dispatches, id, owner, until).0)
    case Claim(owner, now, until, skip) => w.(dispatches := ClaimDispatches(w.dispatches, owner, now, until, skip))
    case Finish(d) => w.(dispatches := FinishDispatch(w.dispatches, d).0)
    case Tick(clock) => w.(clock := clock)
  }

  function Run(w: World, ops: seq<Op>): World
    decreases |ops|
  {
    if ops == [] then w else Run(Do(w, ops[0]), ops[1..])
  }

  ghost predicate Possible(w: World, ops: seq<Op>)
    decreases |ops|
  {
    ops != [] ==> Enabled(w, ops[0]) && Possible(Do(w, ops[0]), ops[1..])
  }

  /** owner is the stored owner of a running dispatch, leased until until. */
  ghost predicate Holding(w: World, id: Id, owner: string, until: int) {
    HeldBy(w.dispatches, id, owner) && w.dispatches[id].leaseUntil == until
  }

  /** op leases id to owner until until. */
  ghost predicate Grants(w: World, op: Op, id: Id, owner: string, until: int) {
    match op
    case Create(d) =>
      d.id == id && id !in w.dispatches && d.state == DispatchRunning && d.owner == owner && d.leaseUntil == until
    case Renew(i, o, u) => i == id && o == owner && u == until && HeldBy(w.dispatches, id, owner)
    case Claim(o, now, u, skip) =>
      && o == owner && u == until && id in w.dispatches && id !in skip
      && w.dispatches[id].state == DispatchRunning && w.dispatches[id].leaseUntil < now
    case _ => false
  }

  /** owner's own calls that change what it holds: renewing again, or finishing. */
  ghost predicate OwnCall(op: Op, id: Id, owner: string) {
    match op
    case Renew(i, o, _) => i == id && o == owner
    case Finish(d) => d.id == id && d.owner == owner
    case _ => false
  }

  ghost predicate Quiet(ops: seq<Op>, id: Id, owner: string) {
    forall i :: 0 <= i < |ops| ==> !OwnCall(ops[i], id, owner)
  }

  lemma {:induction false} ClockMoves(w: World, ops: seq<Op>)
    requires Possible(w, ops)
    ensures w.clock <= Run(w, ops).clock
    decreases |ops|
  {
    if ops != [] {
      ClockMoves(Do(w, ops[0]), ops[1..]);
    }
  }

  lemma {:induction false} HoldingLasts(w: World, ops: seq<Op>, id: Id, owner: string, until: int)
    requires Possible(w, ops) && Quiet(ops, id, owner)
    requires Holding(w, id, owner, until) && Run(w, ops).clock <= until
    ensures Holding(Run(w, ops), id, owner, until)
    decreases |ops|
  {
    if ops != [] {
      ClockMoves(w, ops);
      assert !OwnCall(ops[0], id, owner);
      var next := Do(w, ops[0]);
      assert Holding(next, id, owner, until);
      assert forall i :: 0 <= i < |ops[1..]| ==> ops[1..][i] == ops[i + 1];
      HoldingLasts(next, ops[1..], id, owner, until);
    }
  }

  /** Exclusion: an owner granted a lease until until still holds the running
      dispatch for as long as the clock has not passed until, whatever every
      other process does meanwhile, unless it renewed or finished it itself. */
  lemma LeaseExcludes(w: World, grant: Op, rest: seq<Op>, id: Id, owner: string, until: int)
    requires Enabled(w, grant) && Possible(Do(w, grant), rest)
    requires Grants(w, grant, id, owner, until) && Quiet(rest, id, owner)
    requires Run(Do(w, grant), rest).clock <= until
    ensures Holding(Run(Do(w, grant), rest), id, owner, until)
  {
    HoldingLasts(Do(w, grant), rest, id, owner, until);
  }

  const LEASE_TTL := 60_000_000_000
  const LEASE_RENEW := 20_000_000_000

  /** Two renewals can fail before another process may take the dispatch over: the
      third, made three intervals after the lease was granted, is still accepted. */
  lemma RoomForTwoMisses(w: World, grant: Op, rest: seq<Op>, id: Id, owner: string, at: int, until: int)
    requires Enabled(w, grant) && Possible(Do(w, grant), rest)
    requires Grants(w, grant, id, owner, at + LEASE_TTL) && Quiet(rest, id, owner)
    requires Run(Do(w, grant), rest).clock <= at + 3 * LEASE_RENEW
    ensures RenewDispatch(Run(Do(w, grant), rest).dispatches, id, owner, until).1 == Done
  {
    LeaseExcludes(w, grant, rest, id, owner, at + LEASE_TTL);
  }

  /** And no more than that: once the lease has lapsed the next claim takes it, and
      the old owner's renewal is refused. */
  lemma LapsedIsTaken(w: World, id: Id, owner: string, until: int, other: string, later: int)
    requires Holding(w, id, owner, until) && until < w.clock && other != owner
    ensures var claim := Claim(other, w.clock, later, []);
      && Enabled(w, claim) && Grants(w, claim, id, other, later) && Holding(Do(w, claim), id, other, later)
      && RenewDispatch(Do(w, claim).dispatches, id, owner, later).1 == Stale
  {
    assert id !in [];
  }

  /** At most one owner holds a dispatch, and only a claim after the lease lapsed
      takes it from another. */
  lemma TakenOnlyLapsed(w: World, op: Op, id: Id, owner: string, until: int, other: string)
    requires Enabled(w, op) && Holding(w, id, owner, until) && owner != other && HeldBy(Do(w, op).dispatches, id, other)
    ensures op.Claim? && op.owner == other && until < op.now <= w.clock
  {
  }

  ghost predicate NeverClaims(ops: seq<Op>, owner: string) {
    forall i :: 0 <= i < |ops| ==> !(ops[i].Claim? && ops[i].owner == owner)
  }

  /** A displaced owner stays displaced until it claims again: every renew and
      finish it attempts is refused and changes nothing. */
  lemma {:induction false} DisplacedIsRefused(w: World, ops: seq<Op>, id: Id, owner: string, until: int, d: Dispatch)
    requires id in w.dispatches && w.dispatches[id].owner != owner && NeverClaims(ops, owner)
    requires d.id == id && d.owner == owner
    ensures var end := Run(w, ops).dispatches;
      && id in end && end[id].owner != owner
      && RenewDispatch(end, id, owner, until) == (end, Stale)
      && FinishDispatch(end, d) == (end, Stale)
    decreases |ops|
  {
    if ops != [] {
      var next := Do(w, ops[0]);
      assert !(ops[0].Claim? && ops[0].owner == owner);
      assert id in next.dispatches && next.dispatches[id].owner != owner;
      assert forall i :: 0 <= i < |ops[1..]| ==> ops[1..][i] == ops[i + 1];
      DisplacedIsRefused(next, ops[1..], id, owner, until, d);
    }
  }

  /** An ending, once written, is never written again. */
  lemma {:induction false} EndingIsFinal(w: World, ops: seq<Op>, id: Id)
    requires id in w.dispatches && w.dispatches[id].state != DispatchRunning
    ensures id in Run(w, ops).dispatches && Run(w, ops).dispatches[id] == w.dispatches[id]
    decreases |ops|
  {
    if ops != [] {
      var next := Do(w, ops[0]);
      assert id in next.dispatches && next.dispatches[id] == w.dispatches[id];
      EndingIsFinal(next, ops[1..], id);
    }
  }

  /** What a finish that lands writes is what every later reader sees. */
  lemma FinishedOnce(w: World, d: Dispatch, rest: seq<Op>)
    requires Enabled(w, Finish(d)) && HeldBy(w.dispatches, d.id, d.owner)
    ensures var end := Run(Do(w, Finish(d)), rest).dispatches;
      && d.id in end && end[d.id].state == d.state && end[d.id].error == d.error && end[d.id].ended == d.ended
      && end[d.id].owner == d.owner && end[d.id].created == w.dispatches[d.id].created
  {
    EndingIsFinal(Do(w, Finish(d)), rest, d.id);
  }
}

/** Compare-and-swap on records, over any interleaving of any number of writers. */
module RecordWrites {
  import opened Prelude
  import opened Lifecycle
  import opened ExecutionStore

  datatype Write =
    | Creates(r: Record)
    | Updates(r: Record, from: State)
    | Marks(id: Id, at: int)

  /** Every writer moves its own copy with To, so it offers only legal moves. */
  ghost predicate Disciplined(write: Write) {
    write.Updates? ==> CanTransition(write.from, write.r.state)
  }

  ghost predicate AllDisciplined(writes: seq<Write>) {
    forall i :: 0 <= i < |writes| ==> Disciplined(writes[i])
  }

  function Do(rs: Records, write: Write): Records {
    match write
    case Creates(r) => CreateRecord(rs, r).0
    case Updates(r, from) => UpdateRecord(rs, r, from).0
    case Marks(id, at) => MarkReleased(rs, id, at).0
  }

  function Run(rs: Records, writes: seq<Write>): Records
    decreases |writes|
  {
    if writes == [] then rs else Run(Do(rs, writes[0]), writes[1..])
  }

  /** write changes the stored state of id. */
  predicate Lands(rs: Records, write: Write, id: Id) {
    write.Updates? && write.r.id == id && UpdateRecord(rs, write.r, write.from).1 == Done
  }

  /** The states id passes through: the one it is in, then one per update that
      lands. */
  function History(rs: Records, writes: seq<Write>, id: Id): seq<State>
    requires id in rs
    decreases |writes|
  {
    if writes == [] then [rs[id].state]
    else if Lands(rs, writes[0], id) then [rs[id].state] + History(Do(rs, writes[0]), writes[1..], id)
    else History(Do(rs, writes[0]), writes[1..], id)
  }

  ghost predicate LegalPath(states: seq<State>) {
    forall i :: 0 <= i < |states| - 1 ==> CanTransition(states[i], states[i + 1])
  }

  /** Whoever writes, a stored record's history is a path through the machine,
      from where it was to where it is. */
  lemma {:induction false} HistoryIsLegal(rs: Records, writes: seq<Write>, id: Id)
    requires id in rs && AllDisciplined(writes)
    ensures var h := History(rs, writes, id);
      && LegalPath(h) && |h| >= 1 && h[0] == rs[id].state
      && id in Run(rs, writes) && h[|h| - 1] == Run(rs, writes)[id].state
    decreases |writes|
  {
    if writes != [] {
      assert Disciplined(writes[0]);
      assert AllDisciplined(writes[1..]);
      HistoryIsLegal(Do(rs, writes[0]), writes[1..], id);
    }
  }

  lemma {:induction false} PathRises(states: seq<State>)
    requires LegalPath(states) && |states| >= 1
    ensures Rank(states[0]) + |states| - 1 <= Rank(states[|states| - 1])
  {
    if |states| > 1 {
      RankRises(states[0], states[1]);
      assert forall i :: 0 <= i < |states[1..]| ==> states[1..][i] == states[i + 1];
      PathRises(states[1..]);
    }
  }

  /** So at most five updates ever land on one record, however many are tried. */
  lemma AtMostFiveUpdates(rs: Records, writes: seq<Write>, id: Id)
    requires id in rs && AllDisciplined(writes)
    ensures |History(rs, writes, id)| - 1 <= 5
  {
    HistoryIsLegal(rs, writes, id);
    PathRises(History(rs, writes, id));
  }

  /** The bound is met: pending, submitted, accepted, running, lost, succeeded. */
  lemma FiveIsReached()
    ensures LegalPath([Pending, Submitted, Accepted, Running, Lost, Succeeded])
  {
  }

  ghost predicate SameButRelease(a: Record, b: Record) {
    a == b.(released := a.released)
  }

  /** A record read in some state and found there again has not been updated in
      between: a compare-and-swap on the state alone never overwrites an update
      its writer did not see. */
  lemma {:induction false} NoUpdateUnseen(rs: Records, writes: seq<Write>, id: Id)
    requires id in rs && AllDisciplined(writes)
    requires id in Run(rs, writes) && Run(rs, writes)[id].state == rs[id].state
    ensures |History(rs, writes, id)| == 1
    ensures SameButRelease(Run(rs, writes)[id], rs[id])
    decreases |writes|
  {
    HistoryIsLegal(rs, writes, id);
    PathRises(History(rs, writes, id));
    if writes != [] {
      assert Disciplined(writes[0]) && AllDisciplined(writes[1..]);
      HistoryIsLegal(Do(rs, writes[0]), writes[1..], id);
      NoUpdateUnseen(Do(rs, writes[0]), writes[1..], id);
    }
  }

  /** A writer that read stored, and whose update from that state lands after any
      writes by others, replaces exactly what it read. */
  lemma SwapReplacesWhatWasRead(rs: Records, writes: seq<Write>, r: Record)
    requires r.id in rs && AllDisciplined(writes)
    requires UpdateRecord(Run(rs, writes), r, rs[r.id].state).1 == Done
    ensures SameButRelease(Run(rs, writes)[r.id], rs[r.id])
  {
    NoUpdateUnseen(rs, writes, r.id);
  }

  /** Of two writers moving a record from the same state, at most one lands, with
      any writes in between. */
  lemma OneOfTwoLands(rs: Records, one: Record, two: Record, from: State, between: seq<Write>)
    requires one.id == two.id && CanTransition(from, one.state) && AllDisciplined(between)
    requires UpdateRecord(rs, one, from).1 == Done
    ensures UpdateRecord(Run(UpdateRecord(rs, one, from).0, between), two, from).1 == Stale
  {
    var after := UpdateRecord(rs, one, from).0;
    HistoryIsLegal(after, between, one.id);
    PathRises(History(after, between, one.id));
    RankRises(from, one.state);
  }

  /** A terminal record is frozen: only its release may still be marked. */
  lemma TerminalIsFrozen(rs: Records, writes: seq<Write>, id: Id)
    requires id in rs && AllDisciplined(writes) && Terminal(rs[id].state)
    ensures id in Run(rs, writes) && SameButRelease(Run(rs, writes)[id], rs[id])
  {
    HistoryIsLegal(rs, writes, id);
    var h := History(rs, writes, id);
    PathRises(h);
    assert |h| == 1;
    NoUpdateUnseen(rs, writes, id);
  }

  /** Updating and marking released may come in either order. */
  lemma UpdateAndMarkCommute(rs: Records, r: Record, from: State, id: Id, at: int)
    ensures var one := MarkReleased(UpdateRecord(rs, r, from).0, id, at);
      var two := UpdateRecord(MarkReleased(rs, id, at).0, r, from);
      && one.0 == two.0
      && one.1 == MarkReleased(rs, id, at).1
      && two.1 == UpdateRecord(rs, r, from).1
  {
    assert MarkReleased(UpdateRecord(rs, r, from).0, id, at).0 == UpdateRecord(MarkReleased(rs, id, at).0, r, from).0;
  }
}

/** One attempt's record and the store it is written to (internal/dispatch/track.go).
    A write may be lost to an outage: the writer's copy then runs ahead. */
module Tracking {
  import opened Prelude
  import opened Lifecycle
  import opened ExecutionStore
  import RecordWrites

  /** What to does to the writer's copy and, when the write lands, to the stored record. */
  function Advance(rec: Record, stored: Record, next: State, now: int, reachable: bool): (Record, Record) {
    if rec.state == next then (rec, stored)
    else
      match To(rec, next, now)
      case None => (rec, stored)
      case Some(moved) =>
        (moved, if reachable && stored.state == rec.state then moved.(released := stored.released) else stored)
  }

  /** And to the store, which holds the record once it has been created. */
  function Written(rec: Record, rs: Records, next: State, now: int, reachable: bool): Records {
    if rec.id in rs then rs[rec.id := Advance(rec, rs[rec.id], next, now, reachable).1] else rs
  }

  class Tracked {
    var rec: Record
    const store: Executions

    constructor (rec: Record, store: Executions)
      ensures this.rec == rec && this.store == store
    {
      this.rec := rec;
      this.store := store;
    }

    /** A move the machine refuses, or to the state it is already in, writes
        nothing. */
    method MoveTo(next: State, now: int, reachable: bool)
      modifies this, store`records
      ensures store.records == Written(old(rec), old(store.records), next, now, reachable)
      ensures forall stored :: rec == Advance(old(rec), stored, next, now, reachable).0
    {
      var from := rec.state;
      if from == next { return; }
      var moved := To(rec, next, now);
      if moved.None? { return; }
      rec := moved.value;
      if reachable {
        var _ := store.Update(rec, from);
      }
    }
  }

  /** Every write a tracked record makes is a legal move from the state its copy
      was in: the discipline the store's guarantees rest on. */
  lemma AdvanceIsDisciplined(rec: Record, rs: Records, next: State, now: int, reachable: bool)
    ensures var moved, after := Advance(rec, rec, next, now, reachable).0, Written(rec, rs, next, now, reachable);
      || after == rs
      || (RecordWrites.Disciplined(RecordWrites.Updates(moved, rec.state))
          && after == RecordWrites.Do(rs, RecordWrites.Updates(moved, rec.state)))
  {
  }

  // ----- a writer's life, among others

  /** A move of the writer's own, or any other process's write. */
  datatype Deed =
    | Moves(next: State, now: int, reachable: bool)
    | Others(write: RecordWrites.Write)

  function Live(rec: Record, rs: Records, deeds: seq<Deed>): (Record, Records)
    decreases |deeds|
  {
    if deeds == [] then (rec, rs)
    else
      match deeds[0]
      case Moves(next, now, reachable) =>
        Live(Advance(rec, rec, next, now, reachable).0, Written(rec, rs, next, now, reachable), deeds[1..])
      case Others(write) => Live(rec, RecordWrites.Do(rs, write), deeds[1..])
  }

  /** Others write other records, and mark any of them released. */
  ghost predicate Aside(deeds: seq<Deed>, id: Id) {
    forall i :: 0 <= i < |deeds| ==> deeds[i].Others? ==> !(deeds[i].write.Updates? && deeds[i].write.r.id == id)
  }

  lemma OthersKeep(rs: Records, write: RecordWrites.Write, id: Id)
    requires id in rs && !(write.Updates? && write.r.id == id)
    ensures id in RecordWrites.Do(rs, write) && RecordWrites.SameButRelease(RecordWrites.Do(rs, write)[id], rs[id])
  {
  }

  /** A write lost to an outage strands the record, whatever others write and mark
      meanwhile: the writer's copy is ahead from then on, none of its later writes
      lands, and the record stays at the last state written. */
  lemma {:induction false} LostWriteStrands(rec: Record, rs: Records, deeds: seq<Deed>)
    requires rec.id in rs && Rank(rs[rec.id].state) < Rank(rec.state) && Aside(deeds, rec.id)
    ensures var (mine, after) := Live(rec, rs, deeds);
      && rec.id in after && RecordWrites.SameButRelease(after[rec.id], rs[rec.id])
      && mine.id == rec.id && Rank(after[rec.id].state) < Rank(mine.state)
    decreases |deeds|
  {
    if deeds != [] {
      assert forall i :: 0 <= i < |deeds[1..]| ==> deeds[1..][i] == deeds[i + 1];
      match deeds[0]
      case Moves(next, now, reachable) =>
        RankRises(rec.state, next);
        assert Written(rec, rs, next, now, reachable) == rs;
        LostWriteStrands(Advance(rec, rec, next, now, reachable).0, rs, deeds[1..]);
      case Others(write) =>
        OthersKeep(rs, write, rec.id);
        LostWriteStrands(rec, RecordWrites.Do(rs, write), deeds[1..]);
    }
  }

  /** The store holds the writer's copy. */
  ghost predicate Kept(rec: Record, rs: Records) {
    rec.id in rs && RecordWrites.SameButRelease(rs[rec.id], rec)
  }

  /** The writer never made a move it could not write. */
  ghost predicate NoneLost(rec: Record, deeds: seq<Deed>)
    decreases |deeds|
  {
    deeds == []
    || match deeds[0]
       case Moves(next, now, reachable) =>
         var moved := Advance(rec, rec, next, now, reachable).0;
         (reachable || moved == rec) && NoneLost(moved, deeds[1..])
       case Others(_) => NoneLost(rec, deeds[1..])
  }

  /** The store ends up with the writer's copy exactly when no move was lost. */
  lemma {:induction false} LandedWritesMatch(rec: Record, rs: Records, deeds: seq<Deed>)
    requires Kept(rec, rs) && Aside(deeds, rec.id)
    ensures var (mine, after) := Live(rec, rs, deeds); Kept(mine, after) <==> NoneLost(rec, deeds)
    decreases |deeds|
  {
    if deeds != [] {
      assert forall i :: 0 <= i < |deeds[1..]| ==> deeds[1..][i] == deeds[i + 1];
      match deeds[0]
      case Moves(next, now, reachable) =>
        RankRises(rec.state, next);
        var moved := Advance(rec, rec, next, now, reachable).0;
        if reachable || moved == rec {
          LandedWritesMatch(moved, Written(rec, rs, next, now, reachable), deeds[1..]);
        } else {
          assert Written(rec, rs, next, now, reachable) == rs;
          LostWriteStrands(moved, rs, deeds[1..]);
        }
      case Others(write) =>
        OthersKeep(rs, write, rec.id);
        LandedWritesMatch(rec, RecordWrites.Do(rs, write), deeds[1..]);
    }
  }
}
