/** The states of one execution and its record (internal/execution/state.go,
    status.go, record.go). */
module Lifecycle {
  import opened Prelude
  import Quota

  datatype State = Pending | Submitted | Accepted | Running | Succeeded | Failed | Cancelled | Lost

  function LegalTransitions(s: State): set<State> {
    match s
    case Pending => {Submitted, Failed, Cancelled}
    case Submitted => {Accepted, Running, Succeeded, Failed, Cancelled, Lost}
    case Accepted => {Running, Succeeded, Failed, Cancelled, Lost}
    case Running => {Succeeded, Failed, Cancelled, Lost}
    case Lost => {Succeeded, Failed, Cancelled}
    case _ => {}
  }

  predicate CanTransition(s: State, next: State) { next in LegalTransitions(s) }

  predicate Terminal(s: State) { s == Succeeded || s == Failed || s == Cancelled }

  /** How far along the machine a state is. */
  function Rank(s: State): nat {
    match s
    case Pending => 0
    case Submitted => 1
    case Accepted => 2
    case Running => 3
    case Lost => 4
    case _ => 5
  }

  /** The machine is acyclic, and only a terminal state has nowhere to go. */
  lemma RankRises(s: State, next: State)
    ensures CanTransition(s, next) ==> Rank(s) < Rank(next)
    ensures Terminal(s) ==> !CanTransition(s, next)
    ensures !Terminal(s) ==> CanTransition(s, Failed)
  {
  }

  /** Every later state can be reached directly, but for one thing: a pending execution
      must be submitted before anything but its failure or cancellation is known. */
  lemma TransitionsExactly(s: State, next: State)
    ensures CanTransition(s, next) <==>
      Rank(s) < Rank(next) && (s == Pending ==> next in {Submitted, Failed, Cancelled})
    ensures Rank(Pending) < Rank(Submitted) < Rank(Accepted) < Rank(Running) < Rank(Lost) < Rank(Succeeded)
    ensures Rank(Succeeded) == Rank(Failed) == Rank(Cancelled)
    ensures Terminal(s) <==> s in {Succeeded, Failed, Cancelled}
  {
  }

  /** What a finished execution produced. Billed is what the platform says it
      charged, when it says. */
  datatype Result = Result(duration: int, billed: Option<Quota.Execution>)

  /** Times are None until they happen, as the source's zero times are. */
  datatype Record = Record(
    id: Id, state: State, providerId: string,
    startedAt: Option<int>, endedAt: Option<int>, updatedAt: int,
    dispatch: Id, task: string, provider: string, attempt: nat, previous: Option<Id>,
    cpu: int, memory: int,
    result: Option<Result>, failure: string, released: Option<int>)

  /** Status.To: a checked move, refused without a trace when it is illegal. */
  function To(r: Record, next: State, now: int): Option<Record> {
    if !CanTransition(r.state, next) then None
    else Some(r.(
      state := next,
      updatedAt := now,
      startedAt := if next == Running && r.startedAt.None? then Some(now) else r.startedAt,
      endedAt := if Terminal(next) then Some(now) else r.endedAt))
  }

  const LOST_GRACE_PERIOD := 86_400_000_000_000 // a day

  predicate LostExpired(r: Record, now: int) {
    r.state == Lost && now - r.updatedAt >= LOST_GRACE_PERIOD
  }

  predicate ConsumedCapacity(r: Record) {
    r.startedAt.Some? || r.state == Lost
  }

  /** Timestamps agree with the state: an end exactly on terminal states, and a
      start on whatever is running. */
  ghost predicate Stamped(r: Record) {
    && (r.endedAt.Some? <==> Terminal(r.state))
    && (r.state == Running ==> r.startedAt.Some?)
  }

  lemma ToStamps(r: Record, next: State, now: int)
    requires Stamped(r) && To(r, next, now).Some?
    ensures Stamped(To(r, next, now).value)
    ensures Rank(r.state) < Rank(To(r, next, now).value.state)
    ensures r.startedAt.Some? ==> To(r, next, now).value.startedAt == r.startedAt
    ensures ConsumedCapacity(To(r, next, now).value) <==> r.startedAt.Some? || next == Running || next == Lost
  {
    RankRises(r.state, next);
  }

  /** What a move writes down: the state and the time, the start the first time it runs,
      the end when it is over; and nothing else. */
  lemma ToRecords(r: Record, next: State, now: int)
    requires To(r, next, now).Some?
    ensures var moved := To(r, next, now).value;
      && moved.state == next && moved.updatedAt == now
      && (next == Running && r.startedAt.None? ==> moved.startedAt == Some(now))
      && (next != Running ==> moved.startedAt == r.startedAt)
      && (next in {Succeeded, Failed, Cancelled} ==> moved.endedAt == Some(now))
      && (next !in {Succeeded, Failed, Cancelled} ==> moved.endedAt == r.endedAt)
      && moved == r.(state := next, updatedAt := now, startedAt := moved.startedAt, endedAt := moved.endedAt)
  {
  }
}
