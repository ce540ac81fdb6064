/** Running a job (internal/dispatch/dispatcher.go, poll.go, track.go, outcome.go)
    and judging a run from its records alone (internal/dispatch/resume.go).
    Providers, the ledger and the caller's patience are scripts: every script is
    some behaviour of the environment. Store writes land. */
module Dispatch {
  import opened Prelude
  import opened Lifecycle
  import Waits
  import ExecutionStore
  import Tracking

  // ----- what the environment does

  /** Who is at fault for a failed provider call; Unclassified is any error a
      plugin did not classify. */
  datatype Fault = Infrastructure | Internal | Unclassified

  predicate Reroutable(f: Fault) { f == Infrastructure }

  function ClassOf(f: Fault): string {
    if f == Infrastructure then "infrastructure" else "internal"
  }

  datatype Submission = Submission(providerId: string, state: State, result: Option<Result>)

  /** Submission.Validate. */
  predicate Coherent(sub: Submission) {
    && (sub.state == Accepted || sub.state == Running || sub.state == Succeeded || sub.state == Failed)
    && (sub.result.Some? <==> Terminal(sub.state))
  }

  datatype SubmitReply = SubmitFails(fault: Fault) | Submits(sub: Submission)

  /** How watching ends: a status call or the caller giving up, or a state the
      provider will not leave. */
  datatype Ending = PollFails(fault: Fault, cancelled: bool) | Ends(state: State)

  datatype Fetch = FetchFails(fault: Fault) | Fetched(result: Result)

  /** One provider's side of one attempt: the answer to the submission, the states
      it reports while it is polled, how that ends, its result, and whether what it
      left behind is released and marked so. */
  datatype Conversation = Conversation(
    submit: SubmitReply, polls: seq<State>, ending: Ending, fetch: Fetch, frees: bool)

  predicate Plausible(talk: Conversation) {
    && (forall i :: 0 <= i < |talk.polls| ==> !Terminal(talk.polls[i]))
    && (talk.ending.Ends? ==> Terminal(talk.ending.state))
  }

  // ----- one attempt's record

  /** The dispatcher's copy of a record and the stored one, which differ only where
      a field was set and no write followed. */
  datatype Copies = Copies(mine: Record, stored: Record)

  /** tracked.to, with the write landing. */
  function MoveTo(c: Copies, next: State, now: int): Copies {
    var (mine, stored) := Tracking.Advance(c.mine, c.stored, next, now, true);
    Copies(mine, stored)
  }

  /** release, after the result: best effort, so the mark may not be made. */
  function Freed(c: Copies, talk: Conversation, now: int): Copies {
    if talk.frees then c.(stored := c.stored.(released := Some(now))) else c
  }

  function FailedWith(c: Copies, f: Fault, now: int): Copies {
    var marked := c.(mine := c.mine.(failure := ClassOf(f)));
    MoveTo(marked, if c.mine.state == Pending then Failed else Lost, now)
  }

  function FinishWith(c: Copies, state: State, result: Option<Result>, now: int): Copies {
    MoveTo(c.(mine := c.mine.(result := result)), state, now)
  }

  ghost predicate SameIdentity(a: Record, b: Record) {
    && a.id == b.id && a.dispatch == b.dispatch && a.task == b.task && a.provider == b.provider
    && a.attempt == b.attempt && a.previous == b.previous && a.cpu == b.cpu && a.memory == b.memory
  }

  /** A result is recorded with the end it belongs to, and nothing is released before
      its result is recorded. */
  ghost predicate Tidy(r: Record) {
    (r.result.Some? ==> Terminal(r.state)) && (r.released.Some? ==> r.result.Some?)
  }

  /** A later version of the same record. */
  ghost predicate Continues(r: Record, was: Record) {
    SameIdentity(r, was) && (Tidy(was) ==> Tidy(r))
  }

  ghost predicate AllContinue(trail: seq<Record>, was: Record) {
    forall i :: 0 <= i < |trail| ==> Continues(trail[i], was)
  }

  /** The two copies of one record, in the same state with the same result. */
  ghost predicate Abreast(c: Copies) {
    c.mine.state == c.stored.state && c.mine.result == c.stored.result && SameIdentity(c.mine, c.stored)
  }

  /** The provider answered, one way or the other, and the answer was kept. */
  predicate Answered(r: Record) {
    (r.state == Succeeded || r.state == Failed) && r.result.Some? && r.failure == ""
  }

  datatype Answer = Answer(state: State, result: Option<Result>)

  const NO_ANSWER := Answer(Pending, None)

  // ----- what a conversation comes to

  /** How a followed execution ends, from the provider's side alone: a result read
      from a provider that cancelled the work is kept, but is no answer. */
  function EndOf(talk: Conversation): (Answer, Option<Fault>) {
    match talk.ending
    case PollFails(fault, _) => (NO_ANSWER, Some(fault))
    case Ends(state) =>
      match talk.fetch
      case FetchFails(fault) => (NO_ANSWER, Some(fault))
      case Fetched(result) => (Answer(state, Some(result)), if state == Cancelled then Some(Infrastructure) else None)
  }

  /** The state a followed execution is recorded in at the end: given up on, lost
      track of, or ended by its provider. */
  function LastState(talk: Conversation): State {
    match talk.ending
    case PollFails(_, true) => Cancelled
    case PollFails(_, false) => Lost
    case Ends(state) => state
  }

  /** How an attempt ends: a submission that fails or describes itself incoherently
      is an error, one that finished at once is its own answer. */
  function Outcome(talk: Conversation): (Answer, Option<Fault>) {
    match talk.submit
    case SubmitFails(fault) => (NO_ANSWER, Some(fault))
    case Submits(sub) =>
      if !Coherent(sub) then (NO_ANSWER, Some(Internal))
      else if sub.result.Some? then (Answer(sub.state, sub.result), None)
      else EndOf(talk)
  }

  // ----- watching, following, executing

  /** The states polled are recorded only when they change. */
  function Watched(c: Copies, last: State, polls: seq<State>, now: int): Copies
    decreases |polls|
  {
    if polls == [] then c
    else if polls[0] == last then Watched(c, last, polls[1..], now)
    else Watched(MoveTo(c, polls[0], now), polls[0], polls[1..], now)
  }

  function RecordAll(c: Copies, polls: seq<State>, now: int): Copies
    decreases |polls|
  {
    if polls == [] then c else RecordAll(MoveTo(c, polls[0], now), polls[1..], now)
  }

  /** Once the state polling starts from has been recorded, recording only changes
      leaves the record that recording every poll would. */
  lemma {:induction false} ChangesSuffice(c: Copies, last: State, polls: seq<State>, now: int)
    requires MoveTo(c, last, now) == c
    ensures Watched(c, last, polls, now) == RecordAll(c, polls, now)
    decreases |polls|
  {
    if polls != [] {
      ChangesSuffice(MoveTo(c, polls[0], now), polls[0], polls[1..], now);
    }
  }

  /** And only then: the two agree on every sequence of polls exactly from a state
      that has been recorded, or that the record cannot move to. */
  lemma ChangesSufficeExactly(c: Copies, last: State, now: int)
    ensures (forall polls :: Watched(c, last, polls, now) == RecordAll(c, polls, now)) <==> MoveTo(c, last, now) == c
  {
    if MoveTo(c, last, now) == c {
      forall polls ensures Watched(c, last, polls, now) == RecordAll(c, polls, now) {
        ChangesSuffice(c, last, polls, now);
      }
    } else {
      assert Watched(c, last, [last], now) == Watched(c, last, [], now) == c;
      assert RecordAll(c, [last], now) == RecordAll(MoveTo(c, last, now), [], now);
    }
  }

  /** Resuming starts from a state it has not recorded: a provider that goes on
      saying running leaves the record as submitted. */
  lemma FirstStateSkipped(c: Copies, now: int)
    requires c.mine.state == Submitted
    ensures Watched(c, Running, [Running, Running], now) == c
    ensures RecordAll(c, [Running, Running], now).mine.state == Running
  {
    assert [Running, Running][1..] == [Running] && [Running][1..] == [];
    assert Watched(c, Running, [Running], now) == Watched(c, Running, [], now);
    var moved := MoveTo(c, Running, now);
    assert RecordAll(moved, [Running], now) == RecordAll(MoveTo(moved, Running, now), [], now);
  }

  /** A record being watched, c being where it was when watching began. */
  ghost predicate Watching(out: Copies, c: Copies) {
    && Abreast(out) && Continues(out.stored, c.stored)
    && !Terminal(out.mine.state) && out.mine.state != Pending
    && out.mine.failure == c.mine.failure && out.mine.result == c.mine.result
    && out.stored.released == c.stored.released
  }

  lemma WatchingOn(out: Copies, c: Copies, state: State, now: int)
    requires Watching(out, c) && !Terminal(state)
    ensures Watching(MoveTo(out, state, now), c)
  {
  }

  /** Polls to a state the execution never leaves, recording what it passes through. */
  method Watch(c: Copies, last: State, talk: Conversation, now: int) returns (out: Copies, trail: seq<Record>)
    requires Plausible(talk) && Watching(c, c)
    ensures Watching(out, c) && AllContinue(trail, c.stored)
    ensures out == Watched(c, last, talk.polls, now)
  {
    out, trail := c, [];
    var event := last;
    for n := 0 to |talk.polls|
      invariant Watched(out, event, talk.polls[n..], now) == Watched(c, last, talk.polls, now)
      invariant Watching(out, c) && AllContinue(trail, c.stored)
    {
      assert talk.polls[n..][0] == talk.polls[n] && talk.polls[n..][1..] == talk.polls[n + 1..];
      if talk.polls[n] != event {
        event := talk.polls[n];
        WatchingOn(out, c, event, now);
        out := MoveTo(out, event, now);
        trail := trail + [out.stored];
      }
    }
  }

  /** A record given up on or lost track of is no answer, and keeps what result it had. */
  lemma GivenUp(c: Copies, fault: Fault, cancelled: bool, now: int)
    requires Abreast(c) && !Terminal(c.mine.state) && c.mine.state != Pending
    ensures var out := if cancelled then MoveTo(c, Cancelled, now) else FailedWith(c, fault, now);
      && Abreast(out) && Continues(out.stored, c.stored) && !Answered(out.stored) && !Answered(out.mine)
      && out.stored.state == (if cancelled then Cancelled else Lost)
      && out.stored.result == c.stored.result && out.stored.released == c.stored.released
      && (!cancelled && c.mine.state != Lost ==>
            out.stored.failure == if fault == Infrastructure then "infrastructure" else "internal")
  {
  }

  /** The end a provider reported is recorded with its result, and only then released. */
  lemma Finished(c: Copies, state: State, result: Option<Result>, talk: Conversation, now: int)
    requires Abreast(c) && !Terminal(c.mine.state) && c.mine.state != Pending && Terminal(state)
    ensures var out := FinishWith(c, state, result, now);
      && Abreast(out) && Continues(out.stored, c.stored)
      && out.stored.state == state && out.stored.result == out.mine.result == result
      && out.stored.failure == out.mine.failure == c.mine.failure && out.stored.released == c.stored.released
      && (result.Some? ==> Abreast(Freed(out, talk, now)) && Continues(Freed(out, talk, now).stored, c.stored))
  {
  }

  /** Watches a submitted execution to its end and collects its result. An error
      never leaves an answered record behind, and an answer always does. */
  method Follow(c: Copies, last: State, talk: Conversation, now: int)
    returns (out: Copies, trail: seq<Record>, answer: Answer, err: Option<Fault>)
    requires Plausible(talk) && Abreast(c) && !Terminal(c.mine.state) && c.mine.state != Pending
    ensures Abreast(out) && Continues(out.stored, c.stored) && AllContinue(trail, c.stored)
    ensures |trail| > 0 && trail[|trail| - 1] == out.stored
    ensures (answer, err) == EndOf(talk)
    ensures out.stored.state == LastState(talk)
    // given up on, lost track of, or ended as the provider says
    ensures talk.ending.PollFails? ==>
      && out.stored.state == (if talk.ending.cancelled then Cancelled else Lost)
      && answer.result.None? && err == Some(talk.ending.fault)
    ensures talk.ending.PollFails? && !talk.ending.cancelled && Watched(c, last, talk.polls, now).mine.state != Lost ==>
      out.stored.failure == if talk.ending.fault == Infrastructure then "infrastructure" else "internal"
    ensures talk.ending.Ends? ==> out.stored.state == talk.ending.state
    ensures talk.ending.Ends? && talk.fetch.FetchFails? ==> answer.result.None? && err == Some(talk.fetch.fault)
    ensures talk.ending.Ends? && talk.fetch.Fetched? ==>
      && answer == Answer(talk.ending.state, Some(talk.fetch.result))
      && err == if talk.ending.state == Cancelled then Some(Infrastructure) else None
    ensures err.None? ==> (answer.state == Succeeded || answer.state == Failed) && out.stored.failure == c.mine.failure
    ensures err.Some? ==> !Answered(out.stored) && !Answered(out.mine)
    ensures out.stored.result == if talk.ending.Ends? then answer.result else c.stored.result
    ensures out.stored.released == if answer.result.Some? && talk.frees then Some(now) else c.stored.released
  {
    out, trail := Watch(c, last, talk, now);
    match talk.ending {
      case PollFails(fault, cancelled) =>
        GivenUp(out, fault, cancelled, now);
        out := if cancelled then MoveTo(out, Cancelled, now) else FailedWith(out, fault, now);
        trail := trail + [out.stored];
        return out, trail, NO_ANSWER, Some(fault);
      case Ends(state) =>
        var result := if talk.fetch.Fetched? then Some(talk.fetch.result) else None;
        Finished(out, state, result, talk, now);
        out := FinishWith(out, state, result, now);
        trail := trail + [out.stored];
        if talk.fetch.FetchFails? {
          return out, trail, NO_ANSWER, Some(talk.fetch.fault);
        }
        out := Freed(out, talk, now);
        trail := trail + [out.stored];
        answer := Answer(state, result);
        if state == Cancelled {
          return out, trail, answer, Some(Infrastructure);
        }
        return out, trail, answer, None;
    }
  }

  /** tracked.submitted: the provider's acceptance, and then the state it reported. */
  method RecordSubmission(c: Copies, sub: Submission, now: int) returns (out: Copies, trail: seq<Record>)
    requires Abreast(c) && c.mine.state == Pending && c.mine == c.stored && c.mine.result.None? && Coherent(sub)
    ensures Abreast(out) && Continues(out.stored, c.stored) && AllContinue(trail, c.stored)
    ensures |trail| == 2 && trail[1] == out.stored && trail[0].state == Submitted
    ensures out.stored.state == sub.state && out.mine.failure == out.stored.failure == c.mine.failure
    ensures out.stored.result == sub.result && out.stored.providerId == sub.providerId
    ensures out.stored.released == c.stored.released
  {
    out := MoveTo(c.(mine := c.mine.(providerId := sub.providerId)), Submitted, now);
    trail := [out.stored];
    out := if sub.result.Some? then FinishWith(out, sub.state, sub.result, now) else MoveTo(out, sub.state, now);
    trail := trail + [out.stored];
  }

  /** Submits a task on one provider and follows it to its end. */
  method Execute(c: Copies, talk: Conversation, now: int)
    returns (out: Copies, trail: seq<Record>, answer: Answer, err: Option<Fault>)
    requires Plausible(talk) && Abreast(c) && c.mine.state == Pending
    requires c.mine.result.None? && c.mine.failure == "" && c.mine == c.stored
    ensures Abreast(out) && Continues(out.stored, c.stored) && AllContinue(trail, c.stored)
    ensures |trail| > 0 && trail[|trail| - 1] == out.stored
    ensures (answer, err) == Outcome(talk)
    ensures err.None? <==> Answered(out.stored)
    ensures err.None? ==> answer == Answer(out.stored.state, out.stored.result)
    ensures out.stored.result == answer.result && (answer.result.Some? ==> Terminal(out.stored.state))
    ensures out.stored.released == if answer.result.Some? && talk.frees then Some(now) else c.stored.released
    ensures talk.submit.SubmitFails? || !Coherent(talk.submit.sub) ==>
      && out.stored.state == Failed && err.Some?
      && out.stored.failure == if err.value == Infrastructure then "infrastructure" else "internal"
    // a submission accepted, finished at once, failed, or described in a way that makes no sense
    ensures talk.submit.SubmitFails? ==> err == Some(talk.submit.fault)
    ensures talk.submit.Submits? ==>
      var sub := talk.submit.sub;
      if sub.state in {Accepted, Running} && sub.result.None? then (answer, err) == EndOf(talk)
      else if sub.state in {Succeeded, Failed} && sub.result.Some? then
        answer == Answer(sub.state, sub.result) && err.None?
      else err == Some(Internal)
  {
    if talk.submit.SubmitFails? || !Coherent(talk.submit.sub) {
      var fault := if talk.submit.SubmitFails? then talk.submit.fault else Internal;
      out := FailedWith(c, fault, now);
      return out, [out.stored], NO_ANSWER, Some(fault);
    }
    var sub := talk.submit.sub;
    out, trail := RecordSubmission(c, sub, now);
    if sub.result.Some? {
      out := Freed(out, talk, now);
      trail := trail + [out.stored];
      return out, trail, Answer(sub.state, sub.result), None;
    }
    var more;
    ghost var submitted := out.stored;
    out, more, answer, err := Follow(out, sub.state, talk, now);
    ContinueOn(more, submitted, c.stored);
    trail := trail + more;
  }

  lemma ContinueOn(trail: seq<Record>, mid: Record, was: Record)
    requires AllContinue(trail, mid) && Continues(mid, was)
    ensures AllContinue(trail, was)
  {
  }

  // ----- one task, down its ranking

  datatype ReserveReply = Reserves | Refuses | Fails

  /** One ranked candidate: whether the registry knows it, whether its pools are
      limited, what the ledger answers, whether the record is created, whether the
      backoff before it is waited out, and what it says when asked. */
  datatype Turn = Turn(
    provider: string, registered: bool, limited: bool, reserve: ReserveReply,
    recorded: bool, waited: bool, talk: Conversation)

  /** A task as the dispatcher finds it: whether its request could be built, and
      the candidates admission and ranking produced. */
  datatype Task = Task(name: string, understood: bool, ranking: seq<Turn>, policy: Waits.Policy, cpu: int, memory: int)

  datatype Error =
    | BadRequest
    | NoCandidates
    | NoProvider
    | ReserveFailed
    | NotRecorded
    | Interrupted
    | Faulted(fault: Fault)
    | Exhausted
    | LeaseLost

  datatype AttemptError = Refusal | Failure(fault: Fault)

  datatype Attempt = Attempt(provider: string, id: Id, err: Option<AttemptError>, refused: bool)

  datatype TaskOutcome = TaskOutcome(
    task: string, provider: string, state: State, result: Option<Result>, attempts: seq<Attempt>)

  predicate TaskSucceeded(o: TaskOutcome) {
    o.result.Some? && o.state == Succeeded
  }

  /** How many of the first n attempts were submissions. */
  function TriedOf(attempts: seq<Attempt>, n: nat): nat
    requires n <= |attempts|
  {
    if n == 0 then 0 else TriedOf(attempts, n - 1) + (if attempts[n - 1].refused then 0 else 1)
  }

  function Tried(attempts: seq<Attempt>): nat { TriedOf(attempts, |attempts|) }

  ghost predicate WellFormed(task: Task) {
    task.policy.attempts >= 1 && forall i :: 0 <= i < |task.ranking| ==> Plausible(task.ranking[i].talk)
  }

  /** A task's records, in order: numbered from one, each linked to the one before,
      each tidy and under its own ID. */
  ghost predicate Chained(records: seq<Record>, task: string) {
    && (forall k :: 0 <= k < |records| ==> Linked(records, task, k))
    && (forall k, l :: 0 <= k < l < |records| ==> records[k].id < records[l].id)
  }

  ghost predicate Linked(records: seq<Record>, task: string, k: nat)
    requires k < |records|
  {
    && records[k].task == task && records[k].attempt == k + 1
    && records[k].previous == LastId(records[..k], k) && Tidy(records[k])
  }

  /** Every attempt was either turned down by the ledger before anything was sent,
      or failed in a way another provider may not. */
  ghost predicate PassedOver(a: Attempt) {
    || (a.refused && a.err == Some(Refusal))
    || (!a.refused && a.err.Some? && a.err.value.Failure? && Reroutable(a.err.value.fault))
  }

  /** snapshot is before with only tidy records of task added. */
  ghost predicate AddsOnly(snapshot: seq<Record>, before: seq<Record>, task: string) {
    && before <= snapshot
    && forall k :: |before| <= k < |snapshot| ==> snapshot[k].task == task && Tidy(snapshot[k])
  }

  ghost predicate Passed(attempts: seq<Attempt>, task: Task) {
    Tries(attempts, task) && forall k :: 0 <= k < |attempts| ==> PassedOver(attempts[k])
  }

  /** The providers tried are a prefix of the ranking, and all but the last were
      passed over. */
  ghost predicate Tries(attempts: seq<Attempt>, task: Task) {
    && |attempts| <= |task.ranking|
    && (forall k :: 0 <= k < |attempts| ==> attempts[k].provider == task.ranking[k].provider)
    && (forall k :: 0 <= k < |attempts| - 1 ==> PassedOver(attempts[k]))
  }

  /** Every attempt but the last was refused by the ledger or failed in an outage. */
  ghost predicate SentOn(attempts: seq<Attempt>) {
    forall k :: 0 <= k < |attempts| - 1 ==> attempts[k].err in {Some(Refusal), Some(Failure(Infrastructure))}
  }

  /** A task stops at a fault that is no outage. After a refusal or an outage, with
      ranking and budget left, only the next candidate can stop it; and the budget is
      the declared attempts, or one without reroute. */
  ghost predicate EndsWhere(task: Task, attempts: seq<Attempt>, err: Option<Error>) {
    var budget := if task.policy.reroute then task.policy.attempts else 1;
    && Tried(attempts) <= budget
    && (err.Some? && err.value.Faulted? ==> err.value.fault != Infrastructure)
    && (err in {Some(Exhausted), Some(NoCandidates)} ==> |attempts| == |task.ranking| || Tried(attempts) == budget)
    && (&& 0 < |attempts| < |task.ranking| && Tried(attempts) < budget
        && attempts[|attempts| - 1].err in {Some(Refusal), Some(Failure(Infrastructure))}
        ==> err in {Some(NoProvider), Some(ReserveFailed), Some(NotRecorded), Some(Interrupted)})
  }

  lemma ExplainedEndsWhere(task: Task, attempts: seq<Attempt>, err: Option<Error>)
    requires task.policy.attempts >= 1 && Tries(attempts, task) && Tried(attempts) <= Waits.Budget(task.policy)
    requires err.None? ==> |attempts| > 0 && attempts[|attempts| - 1].err.None?
    requires err.Some? ==> Explains(task, attempts, err.value)
    requires err in {Some(Exhausted), Some(NoCandidates)} ==>
      Tried(attempts) == Waits.Budget(task.policy) || |attempts| == |task.ranking|
    ensures EndsWhere(task, attempts, err)
  {
  }

  lemma TriesSentOn(attempts: seq<Attempt>, task: Task)
    requires Tries(attempts, task)
    ensures SentOn(attempts)
  {
    forall k | 0 <= k < |attempts| - 1 ensures attempts[k].err in {Some(Refusal), Some(Failure(Infrastructure))} {
      assert PassedOver(attempts[k]);
    }
  }

  lemma PassedOn(attempts: seq<Attempt>, task: Task, a: Attempt)
    requires Passed(attempts, task) && |attempts| < |task.ranking|
    requires a.provider == task.ranking[|attempts|].provider
    ensures Tries(attempts + [a], task)
    ensures PassedOver(a) ==> Passed(attempts + [a], task)
    ensures Tried(attempts + [a]) == Tried(attempts) + (if a.refused then 0 else 1)
  {
    TriedSnoc(attempts, a);
  }

  /** The record kept under an ID carries a result. */
  ghost predicate HasResult(records: seq<Record>, id: Id) {
    exists r :: r in records && r.id == id && r.result.Some?
  }

  /** The ledger accepted the candidate given this ID, of those minted from low on,
      on a limited provider, and its record carries no result. */
  ghost predicate Unanswered(task: Task, records: seq<Record>, low: Id, id: Id) {
    && low <= id < low + |task.ranking|
    && task.ranking[id - low].reserve == Reserves && task.ranking[id - low].limited && !HasResult(records, id)
  }

  /** Each attempt took the next ID, was refused exactly when the ledger refused it,
      and otherwise failed or not as its provider's conversation says; its record is of
      its provider; and what stands reserved is what stood before and got no result. */
  ghost predicate Tally(task: Task, attempts: seq<Attempt>, records: seq<Record>, low: Id, next: Id,
                        open: set<Id>, reserved: set<Id>)
  {
    && Numbered(task, attempts, low) && |attempts| <= next - low <= |task.ranking|
    && Open(task, records, low, next, open, reserved) && Placed(task, records, low)
  }

  /** Each record the task wrote is of the candidate its ID was minted for. */
  ghost predicate Placed(task: Task, records: seq<Record>, low: Id) {
    forall k :: 0 <= k < |records| && records[k].id >= low ==>
      records[k].id < low + |task.ranking| && Shaped(records[k], task, task.ranking[records[k].id - low].provider)
  }

  ghost predicate Numbered(task: Task, attempts: seq<Attempt>, low: Id) {
    && |attempts| <= |task.ranking|
    && forall k :: 0 <= k < |attempts| ==>
         && attempts[k].id == low + k
         && task.ranking[k].reserve == (if attempts[k].refused then Refuses else Reserves)
         && attempts[k].err == if attempts[k].refused then Some(Refusal) else ErrorOf(task.ranking[k].talk)
  }

  /** What was submitted to a limited provider stays reserved until a result of it is
      stored; a refusal reserves nothing. */
  ghost predicate StillReserved(task: Task, attempts: seq<Attempt>, records: seq<Record>, reserved: set<Id>) {
    && |attempts| <= |task.ranking|
    && forall k :: 0 <= k < |attempts| ==>
         var a := attempts[k];
         a.id in reserved <==>
           !a.refused && task.ranking[k].limited && !exists r :: r in records && r.id == a.id && r.result.Some?
  }

  lemma AttemptsReserve(task: Task, attempts: seq<Attempt>, records: seq<Record>, low: Id, next: Id,
                        open: set<Id>, reserved: set<Id>)
    requires Tally(task, attempts, records, low, next, open, reserved) && forall id :: id in open ==> id < low
    ensures StillReserved(task, attempts, records, reserved)
  {
    forall k | 0 <= k < |attempts| ensures
      var a := attempts[k];
      a.id in reserved <==>
        !a.refused && task.ranking[k].limited && !exists r :: r in records && r.id == a.id && r.result.Some?
    {
      assert attempts[k].id in reserved <==> Unanswered(task, records, low, attempts[k].id);
      assert HasResult(records, attempts[k].id)
        <==> exists r :: r in records && r.id == attempts[k].id && r.result.Some?;
    }
  }

  function ErrorOf(talk: Conversation): Option<AttemptError> {
    match Outcome(talk).1
    case None => None
    case Some(fault) => Some(Failure(fault))
  }

  ghost predicate Open(task: Task, records: seq<Record>, low: Id, next: Id, open: set<Id>, reserved: set<Id>) {
    forall id: Id :: id in reserved <==> id in open || (id < next && Unanswered(task, records, low, id))
  }

  lemma OpenSnoc(task: Task, stored: seq<Record>, after: seq<Record>, low: Id, id: Id,
                 open: set<Id>, held: set<Id>, reserved: set<Id>)
    requires low <= id && Open(task, stored, low, id, open, held)
    requires forall other: Id :: other < id ==> (HasResult(stored, other) <==> HasResult(after, other))
    requires reserved == held + (if Unanswered(task, after, low, id) then {id} else {})
    ensures Open(task, after, low, id + 1, open, reserved)
  {
    forall other: Id
      ensures other in reserved <==> other in open || (other < id + 1 && Unanswered(task, after, low, other))
    {
      if other < id {
        assert Unanswered(task, stored, low, other) <==> Unanswered(task, after, low, other);
      }
    }
  }

  lemma HasResultSnoc(stored: seq<Record>, after: seq<Record>, id: Id)
    requires |after| == |stored| + 1 && after[..|stored|] == stored && after[|stored|].id == id
    requires forall r :: r in stored ==> r.id < id
    ensures forall other: Id :: other < id ==> (HasResult(stored, other) <==> HasResult(after, other))
    ensures HasResult(after, id) <==> after[|stored|].result.Some?
  {
    assert after == stored + [after[|stored|]];
    assert forall r :: r in after <==> r in stored || r == after[|stored|];
  }

  lemma {:induction false} TriedOfPrefix(attempts: seq<Attempt>, more: seq<Attempt>, n: nat)
    requires n <= |attempts|
    ensures TriedOf(attempts + more, n) == TriedOf(attempts, n)
  {
    if n > 0 { TriedOfPrefix(attempts, more, n - 1); }
  }

  lemma TriedSnoc(attempts: seq<Attempt>, a: Attempt)
    ensures Tried(attempts + [a]) == Tried(attempts) + (if a.refused then 0 else 1)
  {
    TriedOfPrefix(attempts, [a], |attempts|);
  }

  /** A new record of task, numbered and linked after those before it. */
  ghost predicate Follows(r: Record, task: string, tried: nat, previous: Option<Id>, id: Id) {
    r.task == task && r.attempt == tried + 1 && r.previous == previous && r.id == id && Tidy(r)
  }

  function LastId(records: seq<Record>, tried: nat): Option<Id>
    requires tried <= |records|
  {
    if tried == 0 then None else Some(records[|records| - 1].id)
  }

  lemma ChainedSnoc(own: seq<Record>, task: string, r: Record)
    requires Chained(own, task)
    requires forall x :: x in own ==> x.id < r.id
    requires Follows(r, task, |own|, LastId(own, |own|), r.id)
    ensures Chained(own + [r], task)
  {
    var next := own + [r];
    forall k | 0 <= k < |next| ensures Linked(next, task, k) {
      assert next[..k] == own[..k];
      if k < |own| {
        assert Linked(own, task, k);
      } else {
        assert own[..k] == own;
      }
    }
    forall k, l | 0 <= k < l < |next| ensures next[k].id < next[l].id {
      assert next[k] == own[k] && own[k] in own;
      assert l < |own| ==> next[l] == own[l];
    }
  }

  /** The records a task has written since before: one per submission. */
  ghost predicate Recorded(task: string, before: seq<Record>, records: seq<Record>, tried: nat) {
    before <= records && |records| == |before| + tried && Chained(records[|before|..], task)
  }

  /** Numbered from one, and naming the one before. */
  ghost predicate InChain(records: seq<Record>, task: string, first: nat, k: nat) {
    first <= k < |records| ==>
      && records[k].task == task && records[k].attempt == k - first + 1
      && (k == first ==> records[k].previous == None)
      && (k > first ==> records[k].previous == Some(records[k - 1].id))
  }

  ghost predicate AllInChain(records: seq<Record>, task: string, first: nat) {
    forall k :: first <= k < |records| ==> InChain(records, task, first, k)
  }

  lemma RecordedLinks(task: string, before: seq<Record>, records: seq<Record>, tried: nat)
    requires Recorded(task, before, records, tried)
    ensures AllInChain(records, task, |before|)
  {
    var own := records[|before|..];
    forall k | |before| <= k < |records| ensures InChain(records, task, |before|, k) {
      var j := k - |before|;
      assert Linked(own, task, j) && own[j] == records[k];
      if j > 0 { assert own[..j][|own[..j]| - 1] == own[j - 1] == records[k - 1]; }
    }
  }

  lemma RecordedSnoc(task: string, before: seq<Record>, records: seq<Record>, after: seq<Record>, tried: nat, id: Id)
    requires Recorded(task, before, records, tried)
    requires |after| == |records| + 1 && after[..|records|] == records
    requires Follows(after[|records|], task, tried, LastId(records, tried), id)
    requires forall r :: r in records ==> r.id < id
    ensures Recorded(task, before, after, tried + 1)
  {
    var own := records[|before|..];
    forall x | x in own ensures x.id < id {
      assert x in records;
    }
    ChainedSnoc(own, task, after[|records|]);
    assert after[|before|..] == own + [after[|records|]];
  }

  /** From the n-th on, every stored version of the records only adds to before. */
  ghost predicate Grows(history: seq<seq<Record>>, n: nat, before: seq<Record>, task: string) {
    forall k :: n <= k < |history| ==> AddsOnly(history[k], before, task)
  }

  lemma GrowsOn(
    history: seq<seq<Record>>, n: nat, m: nat, before: seq<Record>, stored: seq<Record>, task: string, tried: nat)
    requires n <= m <= |history| && Grows(history[..m], n, before, task) && Grows(history, m, stored, task)
    requires Recorded(task, before, stored, tried)
    ensures Grows(history, n, before, task)
  {
    forall k | n <= k < |history| ensures AddsOnly(history[k], before, task) {
      if k < m {
        assert history[..m][k] == history[k];
      } else {
        forall j | |before| <= j < |history[k]| ensures history[k][j].task == task && Tidy(history[k][j]) {
          if j < |stored| {
            assert history[k][j] == stored[j] == stored[|before|..][j - |before|];
            assert Linked(stored[|before|..], task, j - |before|);
          }
        }
      }
    }
  }

  lemma GrowsJoin(history: seq<seq<Record>>, n: nat, written: seq<seq<Record>>, before: seq<Record>, task: string)
    requires n <= |written| && written <= history
    requires Grows(written, n, before, task) && Grows(history, |written|, before, task)
    ensures Grows(history, n, before, task)
  {
    forall k | n <= k < |history| ensures AddsOnly(history[k], before, task) {
      if k < |written| { assert history[k] == written[k]; }
    }
  }

  lemma PendingGrows(history: seq<seq<Record>>, n: nat, before: seq<Record>, pending: Record, task: string)
    requires |history| == n + 1 && history[n] == before + [pending] && pending.task == task && Tidy(pending)
    ensures Grows(history, n, before, task)
  {
  }

  /** How one candidate's turn ended: the task stops, the ledger turned it down, or
      it was submitted. */
  datatype Turned =
    | Stopped(error: Error)
    | Refused(attempt: Attempt)
    | Ran(attempt: Attempt, answer: Answer)

  function Minted(end: Turned): nat {
    if end == Stopped(NoProvider) then 0 else 1
  }

  /** What one candidate's turn does to the records and the reservations: a
      refusal touches neither; otherwise one record is made for the ID reserved,
      and the reservation is left standing unless a result came back. */
  ghost predicate Effect(task: Task, i: nat, tried: nat, previous: Option<Id>, id: Id, stored: seq<Record>,
                         after: seq<Record>, held: set<Id>, reserved: set<Id>, end: Turned)
    requires i < |task.ranking|
  {
    match end
    case Stopped(NoProvider) => after == stored && reserved == held && !task.ranking[i].registered
    case Stopped(ReserveFailed) => after == stored && reserved == held && task.ranking[i].reserve == Fails
    case Stopped(NotRecorded) =>
      after == stored && Opened(task, i, id, held, reserved, false) && !task.ranking[i].recorded
    case Stopped(Interrupted) =>
      && tried > 0 && !task.ranking[i].waited && Created(task, i, tried, previous, id, stored, after)
      && !Answered(after[|stored|]) && Opened(task, i, id, held, reserved, after[|stored|].result.Some?)
    case Stopped(_) => false
    case Refused(attempt) =>
      && after == stored && reserved == held && task.ranking[i].reserve == Refuses
      && attempt == Attempt(task.ranking[i].provider, id, Some(Refusal), true)
    case Ran(attempt, answer) =>
      && Created(task, i, tried, previous, id, stored, after)
      && Opened(task, i, id, held, reserved, after[|stored|].result.Some?)
      && attempt.provider == task.ranking[i].provider && attempt.id == id && !attempt.refused
      && attempt.err == ErrorOf(task.ranking[i].talk)
      && (attempt.err.None? <==> Answered(after[|stored|]))
      && (attempt.err.None? ==> answer == Answer(after[|stored|].state, after[|stored|].result))
  }

  ghost predicate Opened(task: Task, i: nat, id: Id, held: set<Id>, reserved: set<Id>, settled: bool)
    requires i < |task.ranking|
  {
    && task.ranking[i].reserve == Reserves
    && reserved == held + (if task.ranking[i].limited && !settled then {id} else {})
  }

  ghost predicate Created(
    task: Task, i: nat, tried: nat, previous: Option<Id>, id: Id, stored: seq<Record>, after: seq<Record>)
    requires i < |task.ranking|
  {
    && |after| == |stored| + 1 && after[..|stored|] == stored
    && Follows(after[|stored|], task.name, tried, previous, id)
    && Shaped(after[|stored|], task, task.ranking[i].provider)
  }

  /** A record of the task's declared shape, on this provider. */
  ghost predicate Shaped(r: Record, task: Task, provider: string) {
    r.provider == provider && r.cpu == task.cpu && r.memory == task.memory
  }

  ghost predicate LastAnswered(records: seq<Record>) {
    |records| > 0 && Answered(records[|records| - 1])
  }

  /** The answer is what the newest record holds. */
  ghost predicate Gave(answer: Answer, records: seq<Record>) {
    |records| > 0 && answer == Answer(records[|records| - 1].state, records[|records| - 1].result)
  }

  function Taken(attempts: seq<Attempt>, end: Turned): seq<Attempt> {
    if end.Stopped? then attempts else attempts + [end.attempt]
  }

  /** Why a task stopped after these attempts: what went wrong with the next
      candidate, or an error of the last that another provider would repeat. */
  ghost predicate Explains(task: Task, attempts: seq<Attempt>, error: Error) {
    match error
    case Faulted(fault) =>
      |attempts| > 0 && attempts[|attempts| - 1].err == Some(Failure(fault)) && !Reroutable(fault)
    case Exhausted => true
    case NoCandidates => true
    case BadRequest => false
    case _ => |attempts| < |task.ranking| && Stops(task.ranking[|attempts|], Tried(attempts), error)
  }

  ghost predicate Stops(turn: Turn, tried: nat, error: Error) {
    match error
    case NoProvider => !turn.registered
    case ReserveFailed => turn.reserve == Fails
    case NotRecorded => turn.reserve == Reserves && !turn.recorded
    case Interrupted => turn.reserve == Reserves && tried > 0 && !turn.waited
    case _ => false
  }

  /** How a task's turns end, added records having been written: all passed over, the
      last one stopped, or the last one decisive. */
  ghost predicate EndsSo(task: Task, attempts: seq<Attempt>, added: nat, records: seq<Record>, end: Option<Turned>) {
    match end
    case None =>
      && Passed(attempts, task) && (Tried(attempts) == Waits.Budget(task.policy) || |attempts| == |task.ranking|)
      && (added > 0 ==> !LastAnswered(records))
    case Some(Stopped(error)) =>
      && Passed(attempts, task) && Explains(task, attempts, error) && error !in {Exhausted, NoCandidates}
      && (added > 0 ==> !LastAnswered(records))
    case Some(Ran(attempt, answer)) =>
      && Tries(attempts, task) && attempts != [] && attempt == attempts[|attempts| - 1] && added > 0
      && (if attempt.err.None? then LastAnswered(records) && Gave(answer, records)
          else !LastAnswered(records) && attempt.err.value.Failure? && !Reroutable(attempt.err.value.fault))
    case Some(Refused(_)) => false
  }

  lemma TurnNumbers(task: Task, attempts: seq<Attempt>, low: Id, stored: seq<Record>, after: seq<Record>,
                    held: set<Id>, reserved: set<Id>, tried: nat, previous: Option<Id>, end: Turned)
    requires |attempts| < |task.ranking| && Numbered(task, attempts, low)
    requires Effect(task, |attempts|, tried, previous, low + |attempts|, stored, after, held, reserved, end)
    ensures Numbered(task, Taken(attempts, end), low) && |Taken(attempts, end)| <= |attempts| + Minted(end)
  {
  }

  /** A reservation is left exactly where the ledger accepted and no result came back. */
  lemma TurnOpens(task: Task, i: nat, low: Id, stored: seq<Record>, after: seq<Record>, open: set<Id>, held: set<Id>,
                  reserved: set<Id>, tried: nat, previous: Option<Id>, end: Turned)
    requires i < |task.ranking| && (forall r :: r in stored ==> r.id < low + i)
    requires Open(task, stored, low, low + i, open, held)
    requires Effect(task, i, tried, previous, low + i, stored, after, held, reserved, end)
    ensures Open(task, after, low, low + i + Minted(end), open, reserved)
  {
    var id := low + i;
    if |after| > |stored| {
      HasResultSnoc(stored, after, id);
    } else if end != Stopped(NoProvider) {
      NoResultYet(stored, id);
    }
    if end != Stopped(NoProvider) {
      OpenSnoc(task, stored, after, low, id, open, held, reserved);
    }
  }

  lemma TurnPlaces(task: Task, i: nat, low: Id, stored: seq<Record>, after: seq<Record>, held: set<Id>,
                   reserved: set<Id>, tried: nat, previous: Option<Id>, end: Turned)
    requires i < |task.ranking| && Placed(task, stored, low)
    requires Effect(task, i, tried, previous, low + i, stored, after, held, reserved, end)
    ensures Placed(task, after, low)
  {
    if |after| > |stored| {
      forall k | 0 <= k < |stored| ensures after[k] == stored[k] {
        assert after[k] == after[..|stored|][k];
      }
    }
  }

  lemma NoResultYet(stored: seq<Record>, id: Id)
    requires forall r :: r in stored ==> r.id < id
    ensures !HasResult(stored, id)
  {
  }

  /** A turn keeps the reservations accounted for, whatever its end. */
  lemma TurnTallies(task: Task, attempts: seq<Attempt>, low: Id, stored: seq<Record>, after: seq<Record>,
                    open: set<Id>, held: set<Id>, reserved: set<Id>, tried: nat, previous: Option<Id>, end: Turned)
    requires |attempts| < |task.ranking| && forall r :: r in stored ==> r.id < low + |attempts|
    requires Tally(task, attempts, stored, low, low + |attempts|, open, held)
    requires Effect(task, |attempts|, tried, previous, low + |attempts|, stored, after, held, reserved, end)
    ensures Tally(task, Taken(attempts, end), after, low, low + |attempts| + Minted(end), open, reserved)
  {
    TurnNumbers(task, attempts, low, stored, after, held, reserved, tried, previous, end);
    TurnOpens(task, |attempts|, low, stored, after, open, held, reserved, tried, previous, end);
    TurnPlaces(task, |attempts|, low, stored, after, held, reserved, tried, previous, end);
  }

  /** What the turn adds to the records: one more when it was submitted or its
      backoff cut short, answered exactly when the attempt did not fail. */
  ghost predicate Writes(
    task: string, before: seq<Record>, stored: seq<Record>, after: seq<Record>, tried: nat, end: Turned)
  {
    match end
    case Stopped(error) =>
      if error == Interrupted then Recorded(task, before, after, tried + 1) && !LastAnswered(after)
      else after == stored && error !in {NoCandidates, Exhausted}
    case Refused(_) => after == stored
    case Ran(attempt, answer) =>
      && Recorded(task, before, after, tried + 1) && LastId(after, tried + 1) == Some(attempt.id)
      && (LastAnswered(after) <==> attempt.err.None?) && (attempt.err.None? ==> Gave(answer, after))
  }

  lemma TurnWrites(task: Task, before: seq<Record>, stored: seq<Record>, after: seq<Record>, i: nat, tried: nat, id: Id,
                   held: set<Id>, reserved: set<Id>, end: Turned)
    requires i < |task.ranking| && Recorded(task.name, before, stored, tried) && forall r :: r in stored ==> r.id < id
    requires Effect(task, i, tried, LastId(stored, tried), id, stored, after, held, reserved, end)
    ensures Writes(task.name, before, stored, after, tried, end)
  {
    if end == Stopped(Interrupted) || end.Ran? {
      RecordedSnoc(task.name, before, stored, after, tried, id);
      assert after[|after| - 1] == after[|stored|];
    }
  }

  // ----- a task's books, from turn to turn

  /** Between turns: what was tried so far, with the records written, the IDs minted
      from low on and the reservations left, before and open being what it began with. */
  ghost predicate Books(task: Task, attempts: seq<Attempt>, tried: nat, previous: Option<Id>, before: seq<Record>,
                        records: seq<Record>, low: Id, next: Id, open: set<Id>, reserved: set<Id>)
  {
    && Passed(attempts, task) && tried == Tried(attempts)
    && Recorded(task.name, before, records, tried) && previous == LastId(records, tried)
    && low + |attempts| == next && Tally(task, attempts, records, low, next, open, reserved)
    && (tried > 0 ==> !LastAnswered(records))
  }

  lemma BooksOpen(task: Task, records: seq<Record>, next: Id, open: set<Id>)
    requires (forall id :: id in open ==> id < next) && forall r :: r in records ==> r.id < next
    ensures Books(task, [], 0, None, records, records, next, next, open, open)
  {
    assert records[|records|..] == [];
  }

  lemma BooksClose(task: Task, attempts: seq<Attempt>, tried: nat, previous: Option<Id>, before: seq<Record>,
                   records: seq<Record>, low: Id, next: Id, open: set<Id>, reserved: set<Id>)
    requires Books(task, attempts, tried, previous, before, records, low, next, open, reserved)
    requires |attempts| >= |task.ranking| || tried == Waits.Budget(task.policy)
    ensures Closed(task, attempts, tried, before, records, low, next, open, reserved, None)
  {
  }

  /** A turn after which the next candidate's comes. */
  predicate Goes(end: Turned) {
    || end.Refused?
    || (end.Ran? && end.attempt.err.Some? && end.attempt.err.value.Failure? && Reroutable(end.attempt.err.value.fault))
  }

  function TriedBy(end: Turned): nat { if end.Ran? then 1 else 0 }

  /** At the end of the ranking, of the budget, or with the turn that ended it. */
  ghost predicate Closed(task: Task, attempts: seq<Attempt>, tried: nat, before: seq<Record>, records: seq<Record>,
                         low: Id, next: Id, open: set<Id>, reserved: set<Id>, end: Option<Turned>)
  {
    && tried == Tried(attempts)
    && Recorded(task.name, before, records, tried + (if end == Some(Stopped(Interrupted)) then 1 else 0))
    && Tally(task, attempts, records, low, next, open, reserved)
    && EndsSo(task, attempts, |records| - |before|, records, end)
  }

  /** What closed books say, read off attempt by attempt and record by record. */
  lemma ClosedSays(task: Task, attempts: seq<Attempt>, tried: nat, before: seq<Record>, records: seq<Record>, low: Id,
                   next: Id, open: set<Id>, reserved: set<Id>, end: Option<Turned>)
    requires Closed(task, attempts, tried, before, records, low, next, open, reserved, end)
    requires forall id :: id in open ==> id < low
    ensures SentOn(attempts) && StillReserved(task, attempts, records, reserved)
    ensures AllInChain(records, task.name, |before|)
  {
    TriesSentOn(attempts, task);
    RecordedLinks(task.name, before, records, |records| - |before|);
    AttemptsReserve(task, attempts, records, low, next, open, reserved);
  }

  /** The attempts of a task that ended with err: a prefix of the ranking, each but the
      last refused or cut off by an outage; without an error the last one answered, and
      an error is explained by the last attempt, by the next candidate or by running
      out. Submissions stay within the budget, refusals are free. */
  ghost predicate Attempted(task: Task, attempts: seq<Attempt>, err: Option<Error>) {
    && Tries(attempts, task) && SentOn(attempts) && EndsWhere(task, attempts, err)
    && (err.None? ==> |attempts| > 0 && attempts[|attempts| - 1].err.None?)
    && (err.Some? ==> Explains(task, attempts, err.value))
    && Tried(attempts) <= Waits.Budget(task.policy)
    && (err in {Some(Exhausted), Some(NoCandidates)} ==>
          && (Tried(attempts) == Waits.Budget(task.policy) || |attempts| == |task.ranking|)
          && Passed(attempts, task)
          && (err == Some(NoCandidates) <==> Tried(attempts) == 0))
  }

  /** What they left: one record per submission, numbered and linked, each of its
      candidate's provider, and the reservations of those without a result. */
  ghost predicate Accounted(task: Task, attempts: seq<Attempt>, err: Option<Error>, before: seq<Record>,
                            records: seq<Record>, low: Id, next: Id, open: set<Id>, reserved: set<Id>)
  {
    && Recorded(task.name, before, records, Tried(attempts) + (if err == Some(Interrupted) then 1 else 0))
    && AllInChain(records, task.name, |before|)
    && Tally(task, attempts, records, low, next, open, reserved)
    && StillReserved(task, attempts, records, reserved)
  }

  /** The newest record is answered exactly when there is no error, and then the outcome
      is its answer. */
  ghost predicate Told(outcome: TaskOutcome, err: Option<Error>, before: seq<Record>, records: seq<Record>) {
    && (err.None? ==>
          && |records| > |before| && LastAnswered(records)
          && Gave(Answer(outcome.state, outcome.result), records)
          && |outcome.attempts| > 0 && outcome.provider == outcome.attempts[|outcome.attempts| - 1].provider)
    && (err.Some? && |records| > |before| ==> !LastAnswered(records))
    && (err.Some? ==> outcome.result.None? && outcome.provider == "")
  }

  /** How a task is concluded from the turn that ended it. */
  ghost predicate ConcludedFrom(tried: nat, end: Option<Turned>, outcome: TaskOutcome, err: Option<Error>) {
    && (err.Some? ==> outcome.result.None? && outcome.provider == "")
    && match end
    case None => err == Some(if tried == 0 then NoCandidates else Exhausted)
    case Some(Stopped(error)) => err == Some(error)
    case Some(Ran(attempt, answer)) =>
      if attempt.err.None? then
        && err.None? && outcome.provider == attempt.provider
        && outcome.state == answer.state && outcome.result == answer.result
      else attempt.err.value.Failure? && err == Some(Faulted(attempt.err.value.fault))
    case Some(Refused(_)) => false
  }

  lemma Concludes(task: Task, tried: nat, before: seq<Record>, records: seq<Record>, low: Id, next: Id, open: set<Id>,
                  reserved: set<Id>, end: Option<Turned>, outcome: TaskOutcome, err: Option<Error>)
    requires task.policy.attempts >= 1 && tried <= Waits.Budget(task.policy) && forall id :: id in open ==> id < low
    requires Closed(task, outcome.attempts, tried, before, records, low, next, open, reserved, end)
    requires ConcludedFrom(tried, end, outcome, err)
    ensures Attempted(task, outcome.attempts, err)
    ensures Accounted(task, outcome.attempts, err, before, records, low, next, open, reserved)
    ensures Told(outcome, err, before, records)
  {
    ClosedSays(task, outcome.attempts, tried, before, records, low, next, open, reserved, end);
    ExplainedEndsWhere(task, outcome.attempts, err);
  }

  lemma StopExplained(task: Task, attempts: seq<Attempt>, tried: nat, previous: Option<Id>, id: Id, stored: seq<Record>,
                      after: seq<Record>, held: set<Id>, reserved: set<Id>, end: Turned)
    requires |attempts| < |task.ranking| && tried == Tried(attempts) && end.Stopped?
    requires Effect(task, |attempts|, tried, previous, id, stored, after, held, reserved, end)
    ensures Explains(task, attempts, end.error) && end.error !in {Exhausted, NoCandidates}
  {
  }

  lemma TurnCloses(task: Task, attempts: seq<Attempt>, tried: nat, before: seq<Record>, stored: seq<Record>,
                   records: seq<Record>, low: Id, next: Id, open: set<Id>, reserved: set<Id>, end: Turned)
    requires |attempts| < |task.ranking| && Passed(attempts, task) && tried == Tried(attempts)
    requires Recorded(task.name, before, stored, tried) && (tried > 0 ==> !LastAnswered(stored))
    requires Writes(task.name, before, stored, records, tried, end)
    requires Tally(task, Taken(attempts, end), records, low, next, open, reserved)
    requires end.Stopped? ==> Explains(task, attempts, end.error) && end.error !in {Exhausted, NoCandidates}
    requires end.Ran? ==> end.attempt.provider == task.ranking[|attempts|].provider && !end.attempt.refused
    requires end.Ran? && end.attempt.err.Some? ==> end.attempt.err.value.Failure?
    requires !Goes(end)
    ensures Closed(task, Taken(attempts, end), tried + TriedBy(end), before, records, low, next, open, reserved,
                   Some(end))
  {
    if end.Ran? { PassedOn(attempts, task, end.attempt); }
  }

  lemma TurnGoes(task: Task, attempts: seq<Attempt>, tried: nat, previous: Option<Id>, before: seq<Record>,
                 stored: seq<Record>, records: seq<Record>, low: Id, next: Id, open: set<Id>, held: set<Id>,
                 reserved: set<Id>, end: Turned)
    requires |attempts| < |task.ranking|
    requires Books(task, attempts, tried, previous, before, stored, low, next, open, held)
    requires Writes(task.name, before, stored, records, tried, end)
    requires Tally(task, Taken(attempts, end), records, low, next + 1, open, reserved)
    requires Goes(end) && end.attempt.provider == task.ranking[|attempts|].provider
    requires end.Refused? ==> end.attempt.refused && end.attempt.err == Some(Refusal)
    requires end.Ran? ==> !end.attempt.refused
    ensures Books(task, Taken(attempts, end), tried + TriedBy(end), if end.Ran? then Some(end.attempt.id) else previous,
                  before, records, low, next + 1, open, reserved)
  {
    PassedOn(attempts, task, end.attempt);
  }

  /** A turn leaves the books open for the next one, or closes them. */
  lemma TurnBooked(task: Task, attempts: seq<Attempt>, tried: nat, previous: Option<Id>, before: seq<Record>,
                   stored: seq<Record>, records: seq<Record>, low: Id, id: Id, open: set<Id>, held: set<Id>,
                   reserved: set<Id>, end: Turned)
    requires |attempts| < |task.ranking| && forall r :: r in stored ==> r.id < id
    requires Books(task, attempts, tried, previous, before, stored, low, id, open, held)
    requires Effect(task, |attempts|, tried, previous, id, stored, records, held, reserved, end)
    ensures Goes(end) ==>
      Books(task, Taken(attempts, end), tried + TriedBy(end), if end.Ran? then Some(end.attempt.id) else previous,
            before, records, low, id + Minted(end), open, reserved)
    ensures !Goes(end) ==>
      Closed(task, Taken(attempts, end), tried + TriedBy(end), before, records, low, id + Minted(end), open, reserved,
             Some(end))
  {
    TurnTallies(task, attempts, low, stored, records, open, held, reserved, tried, previous, end);
    TurnWrites(task, before, stored, records, |attempts|, tried, id, held, reserved, end);
    if Goes(end) {
      TurnGoes(task, attempts, tried, previous, before, stored, records, low, id, open, held, reserved, end);
    } else {
      if end.Stopped? {
        StopExplained(task, attempts, tried, previous, id, stored, records, held, reserved, end);
      }
      TurnCloses(task, attempts, tried, before, stored, records, low, id + Minted(end), open, reserved, end);
    }
  }

  lemma CutEffect(task: Task, i: nat, tried: nat, previous: Option<Id>, id: Id, stored: seq<Record>, pending: Record,
                  after: seq<Record>, held: set<Id>, reserved: set<Id>)
    requires i < |task.ranking| && tried > 0 && !task.ranking[i].waited
    requires Follows(pending, task.name, tried, previous, id) && Opened(task, i, id, held, reserved, false)
    requires after == stored + [pending] && pending.result.None? && Shaped(pending, task, task.ranking[i].provider)
    ensures Effect(task, i, tried, previous, id, stored, after, held, reserved, Stopped(Interrupted))
  {
  }

  lemma RanEffect(task: Task, i: nat, tried: nat, previous: Option<Id>, id: Id, stored: seq<Record>, pending: Record,
                  after: seq<Record>, held: set<Id>, taken: set<Id>, reserved: set<Id>, end: Turned)
    requires i < |task.ranking| && id !in held && end.Ran?
    requires Follows(pending, task.name, tried, previous, id) && Opened(task, i, id, held, taken, false)
    requires |after| == |stored| + 1 && after[..|stored|] == stored
    requires SameIdentity(after[|stored|], pending) && Tidy(after[|stored|])
    requires Shaped(pending, task, task.ranking[i].provider)
    requires end.attempt == Attempt(task.ranking[i].provider, id, ErrorOf(task.ranking[i].talk), false)
    requires end.attempt.err.None? <==> Answered(after[|stored|])
    requires end.attempt.err.None? ==> end.answer == Answer(after[|stored|].state, after[|stored|].result)
    requires reserved == if after[|stored|].result.Some? && task.ranking[i].limited then taken - {id} else taken
    ensures Effect(task, i, tried, previous, id, stored, after, held, reserved, end)
  {
  }

  /** A task adds its own records only, the newest answered exactly when there is no
      error, and then its outcome is that answer. */
  ghost predicate TaskRan(before: seq<Record>, after: seq<Record>, task: string, outcome: Option<TaskOutcome>,
                          err: Option<Error>)
  {
    && AddsOnly(after, before, task) && err != Some(LeaseLost) && (outcome.Some? ==> outcome.value.task == task)
    && (err.None? ==>
          && outcome.Some? && |after| > |before| && LastAnswered(after)
          && Gave(Answer(outcome.value.state, outcome.value.result), after))
    && (err.Some? && |after| > |before| ==> !LastAnswered(after))
  }

  class Dispatcher {
    const dispatch: Id
    var records: seq<Record>      // this dispatch's stored records, oldest first
    var reserved: set<Id>         // open reservations on limited providers
    var nextId: Id
    ghost var history: seq<seq<Record>>  // the stored records after every write

    constructor (dispatch: Id)
      ensures this.dispatch == dispatch && records == [] && reserved == {} && history == [] && nextId == 0
    {
      this.dispatch := dispatch;
      records := [];
      reserved := {};
      nextId := 0;
      history := [];
    }

    ghost predicate FreshIds()
      reads this
    {
      (forall r :: r in records ==> r.id < nextId) && (forall id :: id in reserved ==> id < nextId)
    }

    /** Stores each version of the newest record in turn. */
    method Rewrite(trail: seq<Record>, ghost task: string)
      requires |records| > 0 && |trail| > 0
      requires forall j :: 0 <= j < |trail| ==> trail[j].task == task && Tidy(trail[j])
      modifies this`records, this`history
      ensures records == old(records)[..|old(records)| - 1] + [trail[|trail| - 1]]
      ensures old(history) <= history
      ensures forall k :: |old(history)| <= k < |history| ==>
        AddsOnly(history[k], old(records)[..|old(records)| - 1], task)
    {
      ghost var base := records[..|records| - 1];
      for i := 0 to |trail|
        invariant |records| == |base| + 1 && records[..|base|] == base
        invariant i > 0 ==> records == base + [trail[i - 1]]
        invariant old(history) <= history
        invariant forall k :: |old(history)| <= k < |history| ==> AddsOnly(history[k], base, task)
      {
        records := records[..|records| - 1] + [trail[i]];
        history := history + [records];
      }
    }

    /** Mints the next ID, reserves it and records it as pending. */
    method Prepare(
      task: Task, i: nat, tried: nat, previous: Option<Id>, now: int) returns (end: Turned, pending: Option<Record>)
      requires i < |task.ranking| && task.ranking[i].registered && FreshIds()
      modifies this
      ensures FreshIds() && nextId == old(nextId) + 1
      ensures pending.None? ==>
        && end != Stopped(NoProvider) && history == old(history)
        && Effect(task, i, tried, previous, old(nextId), old(records), records, old(reserved), reserved, end)
      ensures pending.Some? ==>
        && records == old(records) + [pending.value] && history == old(history) + [records]
        && Follows(pending.value, task.name, tried, previous, old(nextId))
        && pending.value.state == Pending && pending.value.result.None? && pending.value.failure == ""
        && pending.value.released.None?
        && Shaped(pending.value, task, task.ranking[i].provider) && pending.value.dispatch == dispatch
        && Opened(task, i, old(nextId), old(reserved), reserved, false)
    {
      var turn := task.ranking[i];
      var id := nextId;
      nextId := nextId + 1;
      match turn.reserve {
        case Refuses => return Refused(Attempt(turn.provider, id, Some(Refusal), true)), None;
        case Fails => return Stopped(ReserveFailed), None;
        case Reserves =>
      }
      if turn.limited { reserved := reserved + {id}; }
      if !turn.recorded { return Stopped(NotRecorded), None; }
      var rec := Record(id, Pending, "", None, None, now, dispatch, task.name, turn.provider, tried + 1, previous,
                        task.cpu, task.memory, None, "", None);
      records := records + [rec];
      history := history + [records];
      return Stopped(Interrupted), Some(rec);
    }

    /** Submits the newest record's execution, follows it to its end and settles it. */
    method Submit(task: Task, i: nat, pending: Record, now: int) returns (end: Turned)
      requires i < |task.ranking| && WellFormed(task) && FreshIds()
      requires |records| > 0 && records[|records| - 1] == pending
      requires pending.state == Pending && pending.result.None? && pending.released.None?
      requires pending.failure == "" && pending.task == task.name
      modifies this
      ensures nextId == old(nextId) && FreshIds() && end.Ran?
      ensures |records| == |old(records)| && records[..|records| - 1] == old(records)[..|records| - 1]
      ensures var r := records[|records| - 1];
        && SameIdentity(r, pending) && Tidy(r)
        && end.attempt.provider == task.ranking[i].provider && end.attempt.id == pending.id && !end.attempt.refused
        && end.attempt.err == ErrorOf(task.ranking[i].talk)
        && (end.attempt.err.None? <==> Answered(r))
        && (end.attempt.err.None? ==> end.answer == Answer(r.state, r.result))
        && reserved == if r.result.Some? && task.ranking[i].limited then old(reserved) - {pending.id} else old(reserved)
      ensures old(history) <= history && Grows(history, |old(history)|, old(records)[..|old(records)| - 1], task.name)
    {
      var turn := task.ranking[i];
      var out, trail, answer, fault := Execute(Copies(pending, pending), turn.talk, now);
      assert pending in records;
      Rewrite(trail, task.name);
      assert records[|records| - 1] == out.stored;
      if answer.result.Some? && turn.limited { reserved := reserved - {pending.id}; }
      var err := if fault.Some? then Some(Failure(fault.value)) else None;
      return Ran(Attempt(turn.provider, pending.id, err, false), answer);
    }

    /** One candidate's turn: reserve and record, wait out the backoff, submit and
        settle. The record exists before the submission, under an ID of its own. */
    method TakeTurn(task: Task, i: nat, tried: nat, previous: Option<Id>, now: int) returns (end: Turned)
      requires i < |task.ranking| && WellFormed(task) && FreshIds()
      modifies this
      ensures FreshIds()
      ensures nextId == old(nextId) + Minted(end)
      ensures Effect(task, i, tried, previous, old(nextId), old(records), records, old(reserved), reserved, end)
      ensures old(history) <= history && Grows(history, |old(history)|, old(records), task.name)
    {
      if !task.ranking[i].registered { return Stopped(NoProvider); }
      var pending;
      end, pending := Prepare(task, i, tried, previous, now);
      if pending.None? { return; }
      assert records[..|records| - 1] == old(records);
      PendingGrows(history, |old(history)|, old(records), pending.value, task.name);
      if tried > 0 && !task.ranking[i].waited {
        CutEffect(task, i, tried, previous, old(nextId), old(records), pending.value, records, old(reserved), reserved);
        return Stopped(Interrupted);
      }
      ghost var held, written := reserved, history;
      end := Submit(task, i, pending.value, now);
      assert records[..|old(records)|] == old(records);
      GrowsJoin(history, |old(history)|, written, old(records), task.name);
      RanEffect(task, i, tried, previous, old(nextId), old(records), pending.value, records, old(reserved), held,
                reserved, end);
    }

    /** The next candidate's turn, with the task's books kept. */
    method NextTurn(task: Task, attempts: seq<Attempt>, tried: nat, previous: Option<Id>, now: int,
                    ghost before: seq<Record>, ghost low: Id, ghost open: set<Id>) returns (end: Turned)
      requires WellFormed(task) && FreshIds() && |attempts| < |task.ranking|
      requires Books(task, attempts, tried, previous, before, records, low, nextId, open, reserved)
      modifies this
      ensures FreshIds()
      ensures Goes(end) ==>
        Books(task, Taken(attempts, end), tried + TriedBy(end), if end.Ran? then Some(end.attempt.id) else previous,
              before, records, low, nextId, open, reserved)
      ensures !Goes(end) ==>
        Closed(task, Taken(attempts, end), tried + TriedBy(end), before, records, low, nextId, open, reserved,
               Some(end))
      ensures old(history) <= history && Grows(history, |old(history)|, before, task.name)
    {
      ghost var stored, held, written, id := records, reserved, history, nextId;
      end := TakeTurn(task, |attempts|, tried, previous, now);
      TurnBooked(task, attempts, tried, previous, before, stored, records, low, id, open, held, reserved, end);
      GrowsOn(history, |written|, |written|, before, stored, task.name, tried);
    }

    /** Works down the ranking until something answers, stops or the budget runs out:
        end is the turn that ended it, None when nothing did. */
    method TryInOrder(task: Task, now: int) returns (attempts: seq<Attempt>, tried: nat, end: Option<Turned>)
      requires WellFormed(task) && FreshIds()
      modifies this
      ensures FreshIds() && tried <= Waits.Budget(task.policy)
      ensures Closed(task, attempts, tried, old(records), records, old(nextId), nextId, old(reserved), reserved, end)
      ensures old(history) <= history && Grows(history, |old(history)|, old(records), task.name)
    {
      ghost var before, low, open := records, nextId, reserved;
      attempts, tried, end := [], 0, None;
      var previous: Option<Id> := None;
      BooksOpen(task, records, nextId, reserved);
      while |attempts| < |task.ranking| && tried < Waits.Budget(task.policy)
        invariant FreshIds() && tried <= Waits.Budget(task.policy) && end.None?
        invariant Books(task, attempts, tried, previous, before, records, low, nextId, open, reserved)
        invariant old(history) <= history && Grows(history, |old(history)|, before, task.name)
        decreases |task.ranking| - |attempts|
      {
        var turn := NextTurn(task, attempts, tried, previous, now, before, low, open);
        attempts := Taken(attempts, turn);
        if turn.Ran? {
          previous := Some(turn.attempt.id);
          tried := tried + 1;
        }
        if !Goes(turn) { return attempts, tried, Some(turn); }
      }
      BooksClose(task, attempts, tried, previous, before, records, low, nextId, open, reserved);
    }

    /** Runs one task down its ranking, and says what became of it. */
    method AttemptTask(task: Task, now: int)
      returns (outcome: TaskOutcome, err: Option<Error>)
      requires task.ranking != [] && WellFormed(task) && FreshIds()
      modifies this
      ensures FreshIds()
      ensures outcome.task == task.name && Attempted(task, outcome.attempts, err)
      ensures Accounted(task, outcome.attempts, err, old(records), records, old(nextId), nextId, old(reserved),
                        reserved)
      ensures Told(outcome, err, old(records), records)
      // every write on the way left the records of earlier tasks alone
      ensures old(history) <= history && Grows(history, |old(history)|, old(records), task.name)
    {
      ghost var before := records;
      var attempts, tried, end := TryInOrder(task, now);
      outcome := TaskOutcome(task.name, "", Pending, None, attempts);
      match end {
        case None =>
          err := if tried == 0 then Some(NoCandidates) else Some(Exhausted);
        case Some(Stopped(error)) =>
          err := Some(error);
        case Some(Ran(attempt, answer)) =>
          if attempt.err.None? {
            outcome := TaskOutcome(task.name, attempt.provider, answer.state, answer.result, attempts);
            err := None;
          } else {
            err := Some(Faulted(attempt.err.value.fault));
          }
      }
      Concludes(task, tried, before, records, old(nextId), nextId, old(reserved), reserved, end, outcome, err);
    }

    /** Admits, ranks and runs one task; None when its request cannot be built. */
    method RunTask(task: Task, now: int) returns (outcome: Option<TaskOutcome>, err: Option<Error>)
      requires WellFormed(task) && FreshIds()
      modifies this
      ensures FreshIds()
      ensures TaskRan(old(records), records, task.name, outcome, err)
      ensures old(history) <= history
      ensures Grows(history, |old(history)|, old(records), task.name)
    {
      if !task.understood { return None, Some(BadRequest); }
      if task.ranking == [] { return Some(TaskOutcome(task.name, "", Pending, None, [])), Some(NoCandidates); }
      ghost var before := records;
      var done;
      done, err := AttemptTask(task, now);
      outcome := Some(done);
      forall k | |before| <= k < |records| ensures records[k].task == task.name && Tidy(records[k]) {
        assert records[k] == records[|before|..][k - |before|];
        assert Linked(records[|before|..], task.name, k - |before|);
      }
    }

    /** The next task of a run whose earlier ones all succeeded: the run goes on when it
        succeeds, and otherwise ends with its verdict. */
    method RunNext(task: Task, done: JobOutcome, now: int, ghost names: seq<string>)
      returns (outcome: JobOutcome, err: Option<Error>, going: bool)
      requires WellFormed(task) && FreshIds() && |done.tasks| < |names| && names[|done.tasks|] == task.name
      requires AllSucceeded(done.tasks) && Named(done.tasks, names)
      requires Going(records, names, |done.tasks|) && AllSound(history, names)
      modifies this
      ensures FreshIds() && AllSound(history, names) && Sound(records, names) && Neat(records)
      ensures Named(outcome.tasks, names) && |done.tasks| <= |outcome.tasks| <= |done.tasks| + 1
      ensures going ==>
        && |outcome.tasks| == |done.tasks| + 1 && AllSucceeded(outcome.tasks)
        && Going(records, names, |outcome.tasks|)
      ensures !going ==>
        err != Some(LeaseLost) && Rebuilt(names, Ended(|names|, records), FinishState(outcome, err))
    {
      ghost var before, written := records, history;
      var result;
      result, err := RunTask(task, now);
      NamedOn(done.tasks, result, names);
      TaskJudged(history, written, records, before, names, |done.tasks|, done.tasks, result, err);
      outcome := if result.Some? then JobOutcome(done.tasks + [result.value]) else done;
      going := err.None? && TaskSucceeded(result.value);
    }

    /** Every task in declaration order, stopping at the first that did not
        succeed, and before any once another process is seen to have taken the run
        over. For a job with tasks and distinct names, the verdict rebuilt from
        the records is the verdict the run itself would write; a job without tasks
        never agrees, and one that repeats a name disagrees exactly when it
        succeeds. After every write on the way, the stored records are sound. taken
        says whether the loss of the lease is seen before each task. */
    method Run(tasks: seq<Task>, taken: seq<bool>, now: int) returns (outcome: JobOutcome, err: Option<Error>)
      requires records == [] && history == [] && reserved == {}
      requires |taken| == |tasks| && forall i :: 0 <= i < |tasks| ==> WellFormed(tasks[i])
      modifies this
      ensures Rebuilt(Names(tasks), Ended(|tasks|, records), FinishState(outcome, err))
      ensures AllSound(history, Names(tasks)) && Sound(records, Names(tasks)) && Neat(records)
      ensures |outcome.tasks| <= |tasks| && Held(|outcome.tasks|, taken) && Named(outcome.tasks, Names(tasks))
      ensures err == Some(LeaseLost) ==>
        |outcome.tasks| < |tasks| && taken[|outcome.tasks|] && AllSucceeded(outcome.tasks)
    {
      outcome := JobOutcome([]);
      ghost var names := Names(tasks);
      for i := 0 to |tasks|
        invariant FreshIds() && |outcome.tasks| == i
        invariant AllSucceeded(outcome.tasks) && Held(i, taken) && Named(outcome.tasks, names)
        invariant Going(records, names, i) && AllSound(history, names)
      {
        if taken[i] {
          CutShort(records, names, i);
          return outcome, Some(LeaseLost);
        }
        HeldOn(i, taken);
        var going;
        outcome, err, going := RunNext(tasks[i], outcome, now, names);
        if !going { return outcome, err; }
      }
      PassedVerdict(records, names);
      err := None;
    }
  }

  // ----- the run's own verdict

  datatype JobOutcome = JobOutcome(tasks: seq<TaskOutcome>)

  /** JobOutcome.Succeeded: false for a job with no tasks at all. */
  predicate JobSucceeded(o: JobOutcome) {
    |o.tasks| > 0 && forall i :: 0 <= i < |o.tasks| ==> TaskSucceeded(o.tasks[i])
  }

  ghost predicate AllSucceeded(tasks: seq<TaskOutcome>) {
    forall j :: 0 <= j < |tasks| ==> TaskSucceeded(tasks[j])
  }

  /** The outcomes are of the job's tasks, in their order. */
  ghost predicate Named(tasks: seq<TaskOutcome>, names: seq<string>) {
    |tasks| <= |names| && forall j :: 0 <= j < |tasks| ==> tasks[j].task == names[j]
  }

  /** The lease was seen to be held before each of the first n tasks. */
  ghost predicate Held(n: nat, taken: seq<bool>) {
    n <= |taken| && forall j :: 0 <= j < n ==> !taken[j]
  }

  lemma HeldOn(n: nat, taken: seq<bool>)
    requires n < |taken| && Held(n, taken) && !taken[n]
    ensures Held(n + 1, taken)
  {
  }

  lemma NamedOn(done: seq<TaskOutcome>, result: Option<TaskOutcome>, names: seq<string>)
    requires |done| < |names| && Named(done, names)
    requires result.Some? ==> result.value.task == names[|done|]
    ensures result.Some? ==> Named(done + [result.value], names)
  {
  }

  lemma JobFails(outcome: JobOutcome, i: nat)
    requires i < |outcome.tasks| && !TaskSucceeded(outcome.tasks[i])
    ensures FinishState(outcome, None) == ExecutionStore.DispatchFailed
  {
  }

  /** The state Finish records. */
  function FinishState(outcome: JobOutcome, err: Option<Error>): ExecutionStore.DispatchState {
    if err.Some? then ExecutionStore.DispatchUnanswered
    else if JobSucceeded(outcome) then ExecutionStore.DispatchSucceeded
    else ExecutionStore.DispatchFailed
  }

  /** A run is recorded succeeded exactly when it has tasks and each of them came to a
      result its provider called a success, unanswered exactly on an error. */
  lemma FinishedExactly(outcome: JobOutcome, err: Option<Error>)
    ensures var state := FinishState(outcome, err);
      && (state == ExecutionStore.DispatchUnanswered <==> err.Some?)
      && (state == ExecutionStore.DispatchSucceeded <==>
            && err.None? && outcome.tasks != []
            && forall o :: o in outcome.tasks ==> o.result.Some? && o.state == Succeeded)
      && state != ExecutionStore.DispatchRunning
  {
    if err.None? && exists o :: o in outcome.tasks && !(o.result.Some? && o.state == Succeeded) {
      var o :| o in outcome.tasks && !(o.result.Some? && o.state == Succeeded);
      var i :| 0 <= i < |outcome.tasks| && outcome.tasks[i] == o;
      JobFails(outcome, i);
    }
  }

  // ----- the verdict from records alone

  /** How the verdict rebuilt from a run's records compares with the one the run
      writes: for a job with tasks and distinct names they are the same. */
  ghost predicate Rebuilt(
    names: seq<string>, rebuilt: ExecutionStore.DispatchState, written: ExecutionStore.DispatchState)
  {
    if names == [] then rebuilt != written
    else if Distinct(names) then rebuilt == written
    else (rebuilt == written <==> written != ExecutionStore.DispatchSucceeded)
  }

  function RanIn(records: seq<Record>): set<string> {
    set r | r in records :: r.task
  }

  /** ended: the last record is the task in flight. */
  function Ended(tasks: nat, records: seq<Record>): ExecutionStore.DispatchState {
    if records == [] then ExecutionStore.DispatchUnanswered
    else
      var last := records[|records| - 1];
      if Answered(last) && last.state == Succeeded && |RanIn(records)| >= tasks then ExecutionStore.DispatchSucceeded
      else if Answered(last) && last.state == Succeeded then ExecutionStore.DispatchUnanswered
      else if Answered(last) then ExecutionStore.DispatchFailed
      else ExecutionStore.DispatchUnanswered
  }

  function Names(tasks: seq<Task>): seq<string> {
    seq(|tasks|, i requires 0 <= i < |tasks| => tasks[i].name)
  }

  ghost function NameSet(names: seq<string>): set<string> {
    set name | name in names
  }

  lemma DistinctSnoc(names: seq<string>, name: string)
    ensures Distinct(names + [name]) <==> Distinct(names) && name !in names
  {
    var next := names + [name];
    if k :| 0 <= k < |names| && names[k] == name {
      assert next[k] == next[|names|];
    }
    if Distinct(next) {
      forall i, j | 0 <= i < j < |names| ensures names[i] != names[j] {
        assert next[i] != next[j];
      }
    }
  }

  lemma {:induction false} NameSetBound(names: seq<string>)
    ensures |NameSet(names)| <= |names|
    ensures |NameSet(names)| == |names| <==> Distinct(names)
  {
    if names == [] {
      assert NameSet(names) == {};
    } else {
      var n := |names| - 1;
      var rest, name := names[..n], names[n];
      assert names == rest + [name];
      NameSetBound(rest);
      DistinctSnoc(rest, name);
      assert NameSet(names) == NameSet(rest) + {name};
      if name in rest { assert NameSet(names) == NameSet(rest); }
    }
  }

  // ----- what a crash leaves behind

  /** Some record shows the task answered with success. */
  ghost predicate Succeeding(records: seq<Record>, name: string) {
    exists r :: r in records && r.task == name && Answered(r) && r.state == Succeeded
  }

  /** The newest record is of task m, none is of a later one, and every task
      before m is recorded as having succeeded. */
  ghost predicate Reached(records: seq<Record>, names: seq<string>, m: nat) {
    && |records| > 0 && m < |names|
    && records[|records| - 1].task == names[m]
    && (forall r :: r in records ==> r.task in names[..m + 1])
    && forall j :: 0 <= j < m ==> Succeeding(records, names[j])
  }

  /** What holds of the stored records whenever the process may die. */
  ghost predicate Sound(records: seq<Record>, names: seq<string>) {
    records == [] || exists m :: Reached(records, names, m)
  }

  ghost predicate Neat(records: seq<Record>) {
    forall r :: r in records ==> Tidy(r)
  }

  ghost predicate AllSound(history: seq<seq<Record>>, names: seq<string>) {
    forall k :: 0 <= k < |history| ==> Sound(history[k], names) && Neat(history[k])
  }

  /** The first i tasks ran, each recorded as succeeded. */
  ghost predicate Going(records: seq<Record>, names: seq<string>, i: nat) {
    && i <= |names| && RanIn(records) == NameSet(names[..i]) && Neat(records)
    && (forall j :: 0 <= j < i ==> Succeeding(records, names[j]))
    && (if i == 0 then records == []
        else
          && Reached(records, names, i - 1)
          && Answered(records[|records| - 1]) && records[|records| - 1].state == Succeeded)
  }

  lemma SucceedingKept(before: seq<Record>, after: seq<Record>, name: string)
    requires before <= after && Succeeding(before, name)
    ensures Succeeding(after, name)
  {
    var r :| r in before && r.task == name && Answered(r) && r.state == Succeeded;
    assert r in after;
  }

  lemma AddedReaches(after: seq<Record>, before: seq<Record>, names: seq<string>, i: nat)
    requires i < |names| && Going(before, names, i) && AddsOnly(after, before, names[i]) && |after| > |before|
    ensures Reached(after, names, i) && Neat(after)
  {
    forall j | 0 <= j < i ensures Succeeding(after, names[j]) {
      SucceedingKept(before, after, names[j]);
    }
    assert names[..i + 1] == names[..i] + [names[i]];
    forall r | r in after ensures r.task in names[..i + 1] && Tidy(r) {
      var k :| 0 <= k < |after| && after[k] == r;
      if k < |before| {
        assert before[k] in before && before[k].task in RanIn(before);
      }
    }
  }

  lemma AddedIsSound(after: seq<Record>, before: seq<Record>, names: seq<string>, i: nat)
    requires i < |names| && Going(before, names, i) && AddsOnly(after, before, names[i])
    ensures Sound(after, names) && Neat(after)
  {
    if |after| > |before| {
      AddedReaches(after, before, names, i);
    } else {
      assert after == before;
    }
  }

  lemma GrownIsSound(
    history: seq<seq<Record>>, written: seq<seq<Record>>, before: seq<Record>, names: seq<string>, i: nat)
    requires i < |names| && Going(before, names, i) && AllSound(written, names)
    requires written <= history && Grows(history, |written|, before, names[i])
    ensures AllSound(history, names)
  {
    forall k | 0 <= k < |history| ensures Sound(history[k], names) && Neat(history[k]) {
      if k >= |written| { AddedIsSound(history[k], before, names, i); }
    }
  }

  lemma GoingOn(after: seq<Record>, before: seq<Record>, names: seq<string>, i: nat)
    requires i < |names| && Going(before, names, i) && AddsOnly(after, before, names[i]) && |after| > |before|
    requires Answered(after[|after| - 1]) && after[|after| - 1].state == Succeeded
    ensures Going(after, names, i + 1)
  {
    AddedReaches(after, before, names, i);
    assert after[|after| - 1] in after;
    assert names[..i + 1] == names[..i] + [names[i]];
    forall name | name in RanIn(after) ensures name in NameSet(names[..i + 1]) {
      var r :| r in after && r.task == name;
    }
    forall name | name in NameSet(names[..i + 1]) ensures name in RanIn(after) {
      if name in names[..i] {
        var r :| r in before && r.task == name;
        assert r in after;
      }
    }
  }

  /** After the i-th task: the verdict when it stopped the run, else a run that
      goes on. A task that ended in an error may have left no record. */
  lemma TaskEnds(history: seq<seq<Record>>, written: seq<seq<Record>>, after: seq<Record>, before: seq<Record>,
                 names: seq<string>, i: nat)
    requires i < |names| && Going(before, names, i) && AddsOnly(after, before, names[i])
    requires AllSound(written, names) && written <= history && Grows(history, |written|, before, names[i])
    ensures AllSound(history, names) && Sound(after, names) && Neat(after)
    ensures |after| == |before| || !LastAnswered(after) ==> Ended(|names|, after) == ExecutionStore.DispatchUnanswered
    ensures |after| > |before| && LastAnswered(after) ==>
      if after[|after| - 1].state == Succeeded then Going(after, names, i + 1)
      else Ended(|names|, after) == ExecutionStore.DispatchFailed
  {
    GrownIsSound(history, written, before, names, i);
    AddedIsSound(after, before, names, i);
    if |after| == |before| {
      assert after == before;
      NameSetBound(names[..i]);
    } else if LastAnswered(after) && after[|after| - 1].state == Succeeded {
      GoingOn(after, before, names, i);
    }
  }

  /** Then the run's own verdict is the one its records give, or it goes on. */
  lemma TaskJudged(history: seq<seq<Record>>, written: seq<seq<Record>>, after: seq<Record>, before: seq<Record>,
                   names: seq<string>, i: nat, done: seq<TaskOutcome>, result: Option<TaskOutcome>, err: Option<Error>)
    requires i < |names| && Going(before, names, i) && |done| == i && AllSucceeded(done)
    requires AllSound(written, names) && written <= history && Grows(history, |written|, before, names[i])
    requires TaskRan(before, after, names[i], result, err)
    ensures AllSound(history, names) && Sound(after, names) && Neat(after)
    ensures var outcome := JobOutcome(if result.Some? then done + [result.value] else done);
      if err.Some? || !TaskSucceeded(result.value)
      then Rebuilt(names, Ended(|names|, after), FinishState(outcome, err))
      else Going(after, names, i + 1) && AllSucceeded(outcome.tasks)
  {
    TaskEnds(history, written, after, before, names, i);
    if err.None? && !TaskSucceeded(result.value) {
      JobFails(JobOutcome(done + [result.value]), i);
    }
  }

  /** A run cut short before its i-th task is unanswered from its records. */
  lemma CutShort(records: seq<Record>, names: seq<string>, i: nat)
    requires i < |names| && Going(records, names, i)
    ensures Sound(records, names) && Ended(|names|, records) == ExecutionStore.DispatchUnanswered
    ensures Rebuilt(names, ExecutionStore.DispatchUnanswered, ExecutionStore.DispatchUnanswered)
  {
    NameSetBound(names[..i]);
  }

  lemma PassedVerdict(records: seq<Record>, names: seq<string>)
    requires Going(records, names, |names|)
    ensures names != [] ==>
      Ended(|names|, records)
      == if Distinct(names) then ExecutionStore.DispatchSucceeded else ExecutionStore.DispatchUnanswered
  {
    assert names[..|names|] == names;
    NameSetBound(names);
  }

  // ----- resuming after a crash

  /** What one unfinished execution's provider says when it is asked again. */
  datatype Inquiry = Inquiry(registered: bool, status: Option<State>, talk: Conversation)

  /** Where resuming leaves an unfinished execution: one the provider cannot account
      for failed before it was submitted, and is lost after. */
  function ResumedState(rec: Record, ask: Inquiry): State {
    if ask.registered && ask.status.Some? then LastState(ask.talk) else if rec.state == Pending then Failed else Lost
  }

  /** resume: follows one execution to its result; rec reads where it ended. */
  method ResumeOne(rec: Record, ask: Inquiry, now: int) returns (out: Record, answer: Answer)
    requires !Terminal(rec.state) && Plausible(ask.talk)
    ensures SameIdentity(out, rec)
    ensures !ask.registered || ask.status.None? ==> !Answered(out)
    ensures answer.result.Some? ==> Terminal(out.state) && out.result == answer.result
    ensures ask.registered && ask.status.Some? ==> answer == EndOf(ask.talk).0
    ensures out.state == ResumedState(rec, ask)
    ensures !ask.registered || ask.status.None? ==> out.state == if rec.state == Pending then Failed else Lost
    ensures ask.registered && ask.status.Some? && ask.talk.ending.PollFails? ==>
      out.state == if ask.talk.ending.cancelled then Cancelled else Lost
    ensures ask.registered && ask.status.Some? && ask.talk.ending.Ends? ==> out.state == ask.talk.ending.state
  {
    var c := Copies(rec, rec);
    if !ask.registered { c := FailedWith(c, Internal, now); return c.mine, NO_ANSWER; }
    if ask.status.None? { c := FailedWith(c, Infrastructure, now); return c.mine, NO_ANSWER; }
    if rec.state == Pending { c := MoveTo(c, Submitted, now); }
    var trail, err;
    c, trail, answer, err := Follow(c, ask.status.value, ask.talk, now);
    out := c.mine;
  }

  /** Follows every unfinished execution to its end, and leaves the rest alone. */
  method ResumeAll(found: seq<Record>, asks: seq<Inquiry>, now: int) returns (records: seq<Record>)
    requires |asks| == |found| && forall i :: 0 <= i < |asks| ==> Plausible(asks[i].talk)
    ensures |records| == |found|
    ensures forall i :: 0 <= i < |found| ==> SameIdentity(records[i], found[i])
    ensures forall i :: 0 <= i < |found| && Terminal(found[i].state) ==> records[i] == found[i]
    ensures forall i :: 0 <= i < |found| && !Terminal(found[i].state) ==>
      records[i].state == ResumedState(found[i], asks[i])
  {
    records := [];
    for i := 0 to |found|
      invariant |records| == i
      invariant forall j :: 0 <= j < i ==> SameIdentity(records[j], found[j])
      invariant forall j :: 0 <= j < i && Terminal(found[j].state) ==> records[j] == found[j]
      invariant forall j :: 0 <= j < i && !Terminal(found[j].state) ==>
        records[j].state == ResumedState(found[j], asks[j])
    {
      assert found[i] in found;
      if Terminal(found[i].state) {
        records := records + [found[i]];
      } else {
        var out, answer := ResumeOne(found[i], asks[i], now);
        records := records + [out];
      }
    }
  }

  /** Resume: every unfinished execution is followed to its end and the dispatch
      judged. Whatever write the run died after, it is declared succeeded only if
      every task is recorded as succeeded, and failed only if the task it had
      reached answered with failure, all before it having succeeded. */
  method Resume(found: seq<Record>, tasks: nat, asks: seq<Inquiry>, ghost names: seq<string>, now: int)
    returns (state: ExecutionStore.DispatchState, records: seq<Record>)
    requires |asks| == |found| && forall i :: 0 <= i < |asks| ==> Plausible(asks[i].talk)
    requires |names| == tasks && Distinct(names) && Sound(found, names)
    ensures |records| == |found|
    ensures forall i :: 0 <= i < |found| ==> SameIdentity(records[i], found[i])
    ensures forall i :: 0 <= i < |found| && Terminal(found[i].state) ==> records[i] == found[i]
    ensures state == Ended(tasks, records) && Sound(records, names)
    ensures state == ExecutionStore.DispatchSucceeded ==> forall j :: 0 <= j < tasks ==> Succeeding(records, names[j])
    ensures state == ExecutionStore.DispatchFailed ==>
      exists m ::
        Reached(records, names, m) && Answered(records[|records| - 1]) && records[|records| - 1].state == Failed
    // exactly: the last record's answer, success only with every task reached
    ensures state == ExecutionStore.DispatchSucceeded <==>
      && Ends(records, Lifecycle.Succeeded)
      && forall name :: name in names ==> exists r :: r in records && r.task == name
    ensures state == ExecutionStore.DispatchFailed <==> Ends(records, Lifecycle.Failed)
    ensures state != ExecutionStore.DispatchRunning
  {
    records := ResumeAll(found, asks, now);
    state := Ended(tasks, records);
    ResumedVerdict(found, records, names);
    EndedExactly(records, names);
  }

  /** The last record holds an answer of this state. */
  ghost predicate Ends(records: seq<Record>, state: State) {
    && records != [] && records[|records| - 1].state == state
    && records[|records| - 1].result.Some? && records[|records| - 1].failure == ""
  }

  /** The rebuilt verdict, over sound records: the last answer, and success only when
      every task has a record. */
  lemma EndedExactly(records: seq<Record>, names: seq<string>)
    requires Distinct(names) && Sound(records, names)
    ensures var state := Ended(|names|, records);
      && (state == ExecutionStore.DispatchSucceeded <==>
            && Ends(records, Lifecycle.Succeeded)
            && forall name :: name in names ==> exists r :: r in records && r.task == name)
      && (state == ExecutionStore.DispatchFailed <==> Ends(records, Lifecycle.Failed))
      && state != ExecutionStore.DispatchRunning
  {
    NameSetBound(names);
    if records != [] {
      var m: nat :| Reached(records, names, m);
      assert RanIn(records) <= NameSet(names) by {
        forall r | r in records ensures r.task in names { assert r.task in names[..m + 1]; }
      }
      SubsetBound(RanIn(records), NameSet(names));
      if |RanIn(records)| >= |names| {
        SameSize(RanIn(records), NameSet(names));
        forall name | name in names ensures exists r :: r in records && r.task == name {
          assert name in RanIn(records);
        }
      } else if forall name :: name in names ==> exists r :: r in records && r.task == name {
        assert NameSet(names) <= RanIn(records);
        SubsetBound(NameSet(names), RanIn(records));
      }
    }
  }

  lemma SameSize(a: set<string>, b: set<string>)
    requires a <= b && |a| >= |b|
    ensures a == b
  {
    assert |b - a| == |b| - |a|;
  }

  lemma ResumedVerdict(found: seq<Record>, records: seq<Record>, names: seq<string>)
    requires Distinct(names) && Sound(found, names) && |records| == |found|
    requires forall i :: 0 <= i < |found| ==> SameIdentity(records[i], found[i])
    requires forall i :: 0 <= i < |found| && Terminal(found[i].state) ==> records[i] == found[i]
    ensures Sound(records, names)
    ensures Ended(|names|, records) == ExecutionStore.DispatchSucceeded ==>
      forall j :: 0 <= j < |names| ==> Succeeding(records, names[j])
    ensures Ended(|names|, records) == ExecutionStore.DispatchFailed ==>
      exists m ::
        Reached(records, names, m) && Answered(records[|records| - 1]) && records[|records| - 1].state == Failed
  {
    if found != [] {
      var m: nat :| Reached(found, names, m);
      ResumedReaches(found, records, names, m);
      if Ended(|names|, records) == ExecutionStore.DispatchSucceeded {
        AllRan(records, names, m);
      }
    }
  }

  lemma ResumedReaches(found: seq<Record>, records: seq<Record>, names: seq<string>, m: nat)
    requires Reached(found, names, m) && |records| == |found|
    requires forall i :: 0 <= i < |found| ==> SameIdentity(records[i], found[i])
    requires forall i :: 0 <= i < |found| && Terminal(found[i].state) ==> records[i] == found[i]
    ensures Reached(records, names, m)
  {
    forall r | r in records ensures r.task in names[..m + 1] {
      var k :| 0 <= k < |records| && records[k] == r;
      assert found[k] in found;
    }
    forall j | 0 <= j < m ensures Succeeding(records, names[j]) {
      var r :| r in found && r.task == names[j] && Answered(r) && r.state == Succeeded;
      var k :| 0 <= k < |found| && found[k] == r;
      assert records[k] in records;
    }
  }

  /** When as many tasks ran as were declared, the one reached is the last. */
  lemma AllRan(records: seq<Record>, names: seq<string>, m: nat)
    requires Reached(records, names, m) && Distinct(names) && |RanIn(records)| >= |names|
    requires Answered(records[|records| - 1]) && records[|records| - 1].state == Succeeded
    ensures forall j :: 0 <= j < |names| ==> Succeeding(records, names[j])
  {
    var seen := names[..m + 1];
    assert RanIn(records) <= NameSet(seen);
    SubsetBound(RanIn(records), NameSet(seen));
    NameSetBound(seen);
    assert m + 1 == |names|;
    assert records[|records| - 1] in records;
  }

  lemma {:induction false} SubsetBound(a: set<string>, b: set<string>)
    requires a <= b
    ensures |a| <= |b|
  {
    if a != {} {
      var x :| x in a;
      SubsetBound(a - {x}, b - {x});
    }
  }
}
