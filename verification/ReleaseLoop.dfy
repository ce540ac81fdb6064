/** Releasing what executions left behind, and reconciling the lost ones on the way
    (internal/dispatch/release.go). Other writers may move the same record while a
    pass is at work: a pass holds a copy, the store holds the record. */
module ReleaseLoop {
  import opened Prelude
  import opened Lifecycle
  import opened ExecutionStore

  datatype StatusReply = Unknown | StatusFails | Reports(state: State)

  datatype ReleaseReply = Freed | AlreadyGone | ReleaseFails

  /** Everything a pass over one record meets: the provider's side, the ledger's
      answer (None when it cannot be read), what other writers do to the record
      between its listing and the pass and before each of the pass's own writes, and
      which store calls fail outright. */
  datatype Script = Script(
    movesBefore: seq<State>, registered: bool, releaser: bool,
    lostStatus: StatusReply, fetch: Option<Result>, movesBeforeUpdate: seq<State>, updateFails: bool,
    reserved: Option<bool>, status: StatusReply, movesBeforeRelease: seq<State>,
    release: ReleaseReply, markFails: bool)

  /** What a pass does beyond asking questions, with the stored record at the time. */
  datatype Effect =
    | Wrote(stored: Record)
    | AskedRelease(stored: Record)
    | Marked(stored: Record)

  /** Where a pass got to: the stored record, what it did, its own copy, and what it
      reports. */
  datatype Pass = Pass(stored: Record, effects: seq<Effect>, rec: Record, done: bool, failed: bool)

  /** Other writers' moves of a record, each through the state machine. */
  function Moved(stored: Record, moves: seq<State>, now: int): Record
    decreases |moves|
  {
    if moves == [] then stored
    else Moved(match To(stored, moves[0], now) { case None => stored case Some(moved) => moved }, moves[1..], now)
  }

  /** resolveLost: the write must land. */
  function Resolve(stored: Record, rec: Record, state: State, result: Option<Result>, s: Script, now: int): Pass {
    match To(rec.(result := result), state, now)
    case None => Pass(stored, [], rec, false, true)
    case Some(resolved) =>
      var met := Moved(stored, s.movesBeforeUpdate, now);
      if s.updateFails || met.state != Lost then Pass(met, [], rec, false, true)
      else
        var after := resolved.(released := met.released);
        Pass(after, [Wrote(after)], resolved, false, false)
  }

  /** reconcileLost: record what became of it, or fail it once nothing more can be
      learned. */
  function Reconcile(stored: Record, rec: Record, s: Script, now: int): Pass {
    if !s.registered || s.lostStatus.Unknown? then Resolve(stored, rec, Failed, None, s, now)
    else if s.lostStatus.Reports? && Terminal(s.lostStatus.state) && s.fetch.Some? then
      Resolve(stored, rec, s.lostStatus.state, s.fetch, s, now)
    else if LostExpired(rec, now) then Resolve(stored, rec, Failed, None, s, now)
    else Pass(stored, [], rec, false, s.lostStatus.StatusFails? || Terminal(s.lostStatus.state))
  }

  /** markReleased. */
  function Mark(stored: Record, rec: Record, effects: seq<Effect>, s: Script, now: int): Pass {
    if s.markFails then Pass(stored, effects, rec, true, true)
    else Pass(stored.(released := Some(now)), effects + [Marked(stored)], rec, true, false)
  }

  /** releaseLeftover, of an execution that is not lost. */
  function Free(stored: Record, rec: Record, s: Script, now: int): Pass {
    var met := Moved(stored, s.movesBeforeRelease, now);
    if s.reserved.None? then Pass(stored, [], rec, false, true)
    else if s.reserved.value then Pass(stored, [], rec, false, false)
    else if !s.registered || !s.releaser then Mark(met, rec, [], s, now)
    else if rec.result.None? && s.status.Unknown? then Mark(met, rec, [], s, now)
    else if rec.result.None? && s.status.StatusFails? then Pass(stored, [], rec, false, true)
    else if rec.result.None? && !Terminal(s.status.state) then Pass(stored, [], rec, false, false)
    else if s.release.ReleaseFails? then Pass(met, [AskedRelease(met)], rec, false, true)
    else Mark(met, rec, [AskedRelease(met)], s, now)
  }

  function Then(p: Pass, q: Pass): Pass { q.(effects := p.effects + q.effects) }

  /** releaseLeftover: a lost execution is reconciled first. */
  function Release(stored: Record, rec: Record, s: Script, now: int): Pass {
    if rec.state != Lost then Free(stored, rec, s, now)
    else
      var p := Reconcile(stored, rec, s, now);
      if p.failed || p.rec.state == Lost then p else Then(p, Free(p.stored, p.rec, s, now))
  }

  // ----- what other writers can and cannot do

  lemma {:induction false} MovedKeeps(stored: Record, moves: seq<State>, now: int)
    ensures var r := Moved(stored, moves, now);
      && r.id == stored.id && r.released == stored.released && r.result == stored.result
      && (Terminal(stored.state) ==> r == stored)
      && (stored.state == Lost ==> r == stored || Terminal(r.state))
    decreases |moves|
  {
    if moves != [] {
      RankRises(stored.state, moves[0]);
      MovedKeeps(match To(stored, moves[0], now) { case None => stored case Some(moved) => moved }, moves[1..], now);
    }
  }

  /** They may make any move the machine allows. */
  lemma MovedAny(stored: Record, next: State, now: int)
    requires CanTransition(stored.state, next)
    ensures Moved(stored, [next], now) == To(stored, next, now).value
  {
    assert [next][1..] == [];
  }

  /** The pass's copy was read before other writers made these moves. */
  ghost predicate CopyOf(stored: Record, rec: Record, moves: seq<State>, now: int) {
    stored == Moved(rec, moves, now)
  }

  // ----- reconciling

  lemma ResolveEnds(stored: Record, rec: Record, state: State, result: Option<Result>, s: Script, now: int)
    requires stored == rec || Terminal(stored.state)
    requires rec.state == Lost && Terminal(state)
    ensures var p, met := Resolve(stored, rec, state, result, s, now), Moved(stored, s.movesBeforeUpdate, now);
      && p.failed == (p.rec.state == Lost) && (p.rec.state != Lost <==> !s.updateFails && met.state == Lost)
      && (!s.updateFails ==> Terminal(p.stored.state))
      && (if p.rec.state == Lost then p.effects == [] else Terminal(p.stored.state) && p.effects == [Wrote(p.stored)])
  {
    MovedKeeps(stored, s.movesBeforeUpdate, now);
  }

  /** What becomes of a lost record when it is reconciled, and when it is resolved. */
  lemma ReconcileEnds(stored: Record, rec: Record, s: Script, now: int)
    requires rec.state == Lost && (stored == rec || Terminal(stored.state))
    ensures var p, met := Reconcile(stored, rec, s, now), Moved(stored, s.movesBeforeUpdate, now);
      && (LostExpired(rec, now) && !s.updateFails ==> Terminal(p.stored.state))
      && (if p.rec.state == Lost then p.effects == []
          else !p.failed && Terminal(p.stored.state) && p.effects == [Wrote(p.stored)])
      && (p.rec.state != Lost <==>
            && !s.updateFails && met.state == Lost
            && (|| !s.registered || s.lostStatus.Unknown? || LostExpired(rec, now)
                || (s.lostStatus.Reports? && Terminal(s.lostStatus.state) && s.fetch.Some?)))
  {
    ResolveEnds(stored, rec, Failed, None, s, now);
    if s.lostStatus.Reports? && Terminal(s.lostStatus.state) {
      ResolveEnds(stored, rec, s.lostStatus.state, s.fetch, s, now);
    }
  }

  lemma ReleaseReconciles(stored: Record, rec: Record, s: Script, now: int)
    requires rec.state == Lost
    ensures var p := Reconcile(stored, rec, s, now);
      && p.rec.id == rec.id
      && (if p.failed || p.rec.state == Lost then Release(stored, rec, s, now) == p && !p.done
          else Release(stored, rec, s, now) == Then(p, Free(p.stored, p.rec, s, now)))
  {
  }

  // ----- the safety of one pass

  ghost predicate Ends(e: Effect) { e.AskedRelease? || e.Marked? }

  /** Releasing or marking takes an answer that nothing is reserved. */
  lemma EndsUnreserved(stored: Record, rec: Record, s: Script, now: int)
    requires exists e :: e in Release(stored, rec, s, now).effects && Ends(e)
    ensures s.reserved == Some(false)
  {
  }

  lemma FreeIsOver(stored: Record, rec: Record, s: Script, now: int)
    requires Terminal(stored.state)
    ensures var p := Free(stored, rec, s, now);
      && (forall e :: e in p.effects ==> Terminal(e.stored.state) && e.stored.result == stored.result)
      && Terminal(p.stored.state) && p.stored.result == stored.result
  {
    MovedKeeps(stored, s.movesBeforeRelease, now);
  }

  /** Whatever other writers do, an execution read as lost is over in the store by
      the time it is released or marked: the pass got that far only because its
      own conditional write landed, and an ended record stays ended. */
  lemma NeverWhileLost(stored: Record, rec: Record, moves: seq<State>, s: Script, now: int)
    requires CopyOf(stored, rec, moves, now) && (rec.state == Lost || Terminal(rec.state))
    ensures forall e :: e in Release(stored, rec, s, now).effects ==> Terminal(e.stored.state)
  {
    MovedKeeps(rec, moves, now);
    if rec.state != Lost {
      FreeIsOver(stored, rec, s, now);
    } else {
      ReconcileEnds(stored, rec, s, now);
      var p := Reconcile(stored, rec, s, now);
      if p.rec.state != Lost { FreeIsOver(p.stored, p.rec, s, now); }
    }
  }

  /** It is different for a copy read as still going: another writer may lose the
      record in between, and a pass that finds its provider gone marks it all the same. */
  const LOST_MEANWHILE := Script(
    [], false, false, StatusFails, None, [], false, Some(false), StatusFails, [Submitted, Lost], Freed, false)

  lemma ReleasedWhileLost(rec: Record, now: int)
    requires rec.state != Lost && !Terminal(rec.state)
    ensures var met := Moved(rec, [Submitted, Lost], now);
      met.state == Lost && Release(rec, rec, LOST_MEANWHILE, now).effects == [Marked(met)]
  {
    var first := match To(rec, Submitted, now) { case None => rec case Some(moved) => moved };
    assert [Submitted, Lost][1..] == [Lost] && [Lost][1..] == [];
    assert Moved(rec, [Submitted, Lost], now) == Moved(first, [Lost], now);
    assert Moved(first, [Lost], now) == Moved(To(first, Lost, now).value, [], now);
  }

  /** A pass never releases or marks the record while it is lost, whatever it meets. */
  ghost predicate SafeFrom(rec: Record) {
    forall stored, moves, s, now, e ::
      CopyOf(stored, rec, moves, now) && e in Release(stored, rec, s, now).effects && Ends(e) ==>
        e.stored.state != Lost
  }

  /** Exactly the copies read as lost or as over are safe. */
  lemma NeverWhileLostExactly(rec: Record)
    ensures SafeFrom(rec) <==> rec.state == Lost || Terminal(rec.state)
  {
    if rec.state == Lost || Terminal(rec.state) {
      forall stored, moves, s, now, e |
        CopyOf(stored, rec, moves, now) && e in Release(stored, rec, s, now).effects && Ends(e)
        ensures e.stored.state != Lost
      {
        NeverWhileLost(stored, rec, moves, s, now);
      }
    } else {
      var met := Moved(rec, [Submitted, Lost], 0);
      ReleasedWhileLost(rec, 0);
      assert CopyOf(rec, rec, [], 0);
      assert Marked(met) in Release(rec, rec, LOST_MEANWHILE, 0).effects && Ends(Marked(met));
    }
  }

  /** A lost execution's fetched result is in the store before the provider is
      asked to let go of what it was read from. */
  lemma ResultBeforeRelease(stored: Record, rec: Record, moves: seq<State>, s: Script, now: int, i: nat)
    requires CopyOf(stored, rec, moves, now) && rec.state == Lost
    requires s.registered && s.lostStatus.Reports? && Terminal(s.lostStatus.state) && s.fetch.Some?
    requires var p := Release(stored, rec, s, now); i < |p.effects| && Ends(p.effects[i])
    ensures var p := Release(stored, rec, s, now);
      && i > 0 && p.effects[0].Wrote? && p.effects[0].stored.result == s.fetch
      && p.effects[0].stored.state == s.lostStatus.state
      && p.effects[i].stored.result == s.fetch && p.stored.result == s.fetch
  {
    var p := Resolve(stored, rec, s.lostStatus.state, s.fetch, s, now);
    assert Reconcile(stored, rec, s, now) == p && !p.failed;
    FreeIsOver(p.stored, p.rec, s, now);
    var q := Free(p.stored, p.rec, s, now);
    assert Release(stored, rec, s, now) == Then(p, q);
    assert i > 0 ==> (p.effects + q.effects)[i] == q.effects[i - 1] && q.effects[i - 1] in q.effects;
  }

  /** Past the grace period nothing stays lost: after any pass that the store does
      not fail, the stored record has ended, by this pass or by whoever beat it. */
  lemma GraceResolves(stored: Record, rec: Record, moves: seq<State>, s: Script, now: int)
    requires CopyOf(stored, rec, moves, now) && rec.state == Lost && !s.updateFails
    requires now - rec.updatedAt >= 24 * 60 * 60 * 1_000_000_000
    ensures Terminal(Release(stored, rec, s, now).stored.state)
  {
    MovedKeeps(rec, moves, now);
    ReconcileEnds(stored, rec, s, now);
    var p := Reconcile(stored, rec, s, now);
    if p.rec.state != Lost { FreeIsOver(p.stored, p.rec, s, now); }
  }

  /** Before then, a lost record is resolved exactly when something was learned, and
      nobody else resolved it first: the provider is gone, has no record of it, or
      gave its result. */
  lemma EarlyResolution(stored: Record, rec: Record, moves: seq<State>, s: Script, now: int)
    requires CopyOf(stored, rec, moves, now) && rec.state == Lost
    requires now - rec.updatedAt < 24 * 60 * 60 * 1_000_000_000
    ensures Release(stored, rec, s, now).rec.state != Lost <==>
      && !s.updateFails && Moved(stored, s.movesBeforeUpdate, now).state == Lost
      && (|| !s.registered || s.lostStatus.Unknown?
          || (s.lostStatus.Reports? && Terminal(s.lostStatus.state) && s.fetch.Some?))
  {
    MovedKeeps(rec, moves, now);
    ReconcileEnds(stored, rec, s, now);
  }

  /** The provider still holds something for the execution, and it is known to be over. */
  ghost predicate Releasable(rec: Record, s: Script) {
    s.registered && s.releaser && (rec.result.Some? || (s.status.Reports? && Terminal(s.status.state)))
  }

  /** No provider holds anything for the execution: it is not configured, leaves
      nothing behind, or has no record of it. */
  ghost predicate NothingHeld(rec: Record, s: Script) {
    !s.registered || !s.releaser || (rec.result.None? && s.status.Unknown?)
  }

  /** A pass is done exactly when it marked the record. It asks the provider to release
      exactly an unreserved execution that is known to be over, and marks exactly the
      unreserved ones whose provider holds nothing any more. */
  ghost predicate Honest(p: Pass, s: Script, now: int) {
    var free := p.rec.state != Lost && s.reserved == Some(false);
    && (p.done && !p.failed <==> exists e :: e in p.effects && e.Marked?)
    && (p.done && !p.failed ==> p.stored.released == Some(now))
    && ((exists e :: e in p.effects && e.AskedRelease?) <==> free && Releasable(p.rec, s))
    && ((exists e :: e in p.effects && e.Marked?) <==>
          && free && !s.markFails
          && (NothingHeld(p.rec, s) || (Releasable(p.rec, s) && !s.release.ReleaseFails?)))
  }

  lemma FreeMarks(stored: Record, rec: Record, s: Script, now: int)
    requires rec.state != Lost
    ensures Honest(Free(stored, rec, s, now), s, now)
  {
    var p := Free(stored, rec, s, now);
    assert p.effects != [] ==> p.effects[0] in p.effects && p.effects[|p.effects| - 1] in p.effects;
  }

  lemma HonestThen(p: Pass, q: Pass, s: Script, now: int)
    requires Honest(q, s, now) && p.effects == [Wrote(p.stored)]
    ensures Honest(Then(p, q), s, now)
  {
    var r := Then(p, q);
    assert forall e :: e in r.effects <==> e in p.effects || e in q.effects;
    if e :| e in q.effects && e.Marked? { assert e in r.effects; }
    if e :| e in r.effects && e.Marked? { assert e in q.effects; }
    if e :| e in r.effects && e.AskedRelease? { assert e in q.effects; }
    if e :| e in q.effects && e.AskedRelease? { assert e in r.effects; }
  }

  /** What any pass releases and marks, and that it reports as much. */
  lemma DoneIsMarked(stored: Record, rec: Record, moves: seq<State>, s: Script, now: int)
    requires CopyOf(stored, rec, moves, now)
    ensures Honest(Release(stored, rec, s, now), s, now)
  {
    MovedKeeps(rec, moves, now);
    if rec.state == Lost {
      ReconcileEnds(stored, rec, s, now);
      ReleaseReconciles(stored, rec, s, now);
      var p := Reconcile(stored, rec, s, now);
      if p.rec.state != Lost {
        FreeMarks(p.stored, p.rec, s, now);
        HonestThen(p, Free(p.stored, p.rec, s, now), s, now);
      }
    } else {
      FreeMarks(stored, rec, s, now);
    }
  }

  // ----- what a pass leaves, from what it met alone

  /** Something was learned of a lost execution: its provider reports it over, and
      its result was fetched. */
  ghost predicate Learned(s: Script) {
    s.registered && s.lostStatus.Reports? && Terminal(s.lostStatus.state) && s.fetch.Some?
  }

  /** e records the end of rec that was learned, or its failure when nothing was. */
  ghost predicate EndsAsLearned(e: Effect, rec: Record, s: Script, now: int) {
    var (state, result) := if Learned(s) then (s.lostStatus.state, s.fetch) else (Failed, None);
    e == Wrote(rec.(state := state, result := result, updatedAt := now, endedAt := Some(now)))
  }

  lemma ResolveWrites(stored: Record, rec: Record, state: State, result: Option<Result>, s: Script, now: int)
    requires rec.state == Lost && Terminal(state) && stored.released == rec.released
    ensures forall e :: e in Resolve(stored, rec, state, result, s, now).effects ==>
      e == Wrote(rec.(state := state, result := result, updatedAt := now, endedAt := Some(now)))
  {
    MovedKeeps(stored, s.movesBeforeUpdate, now);
  }

  lemma ReconcileWrites(stored: Record, rec: Record, s: Script, now: int)
    requires rec.state == Lost && stored.released == rec.released
    ensures forall e :: e in Reconcile(stored, rec, s, now).effects ==> EndsAsLearned(e, rec, s, now)
  {
    ResolveWrites(stored, rec, Failed, None, s, now);
    if Learned(s) { ResolveWrites(stored, rec, s.lostStatus.state, s.fetch, s, now); }
  }

  lemma FreeWritesNothing(stored: Record, rec: Record, s: Script, now: int)
    ensures forall e :: e in Free(stored, rec, s, now).effects ==> !e.Wrote?
  {
  }

  /** A lost execution is recorded in the end its provider reported only with the
      result fetched from it; whenever nothing was learned it is failed, without a
      result. Nothing else of it changes but the time, and no other pass writes. */
  lemma LostEndsAs(stored: Record, rec: Record, moves: seq<State>, s: Script, now: int)
    requires CopyOf(stored, rec, moves, now)
    ensures forall e :: e in Release(stored, rec, s, now).effects && e.Wrote? ==>
      rec.state == Lost && EndsAsLearned(e, rec, s, now)
  {
    MovedKeeps(rec, moves, now);
    if rec.state == Lost {
      var p := Reconcile(stored, rec, s, now);
      ReconcileWrites(stored, rec, s, now);
      ReleaseReconciles(stored, rec, s, now);
      FreeWritesNothing(p.stored, p.rec, s, now);
    } else {
      FreeWritesNothing(stored, rec, s, now);
    }
  }

  /** What a pass over an execution that is not lost reports as a failure: the ledger, the
      provider or the mark failed where it was needed. */
  ghost predicate FreeFailed(rec: Record, s: Script) {
    || s.reserved.None?
    || (&& s.reserved == Some(false)
        && (|| (s.registered && s.releaser && rec.result.None? && s.status.StatusFails?)
            || (Releasable(rec, s) && s.release.ReleaseFails?)
            || (s.markFails && (NothingHeld(rec, s) || (Releasable(rec, s) && !s.release.ReleaseFails?)))))
  }

  lemma FreeFails(stored: Record, rec: Record, s: Script, now: int)
    ensures Free(stored, rec, s, now).failed <==> FreeFailed(rec, s)
  {
  }

  /** A pass leaves a lost execution lost without a failure exactly while its provider
      says it goes on, within a day. On every other it fails as releasing it does. */
  lemma FailsExactly(stored: Record, rec: Record, moves: seq<State>, s: Script, now: int)
    requires CopyOf(stored, rec, moves, now)
    ensures var p := Release(stored, rec, s, now);
      p.failed <==>
        if p.rec.state == Lost
        then !(&& s.registered && s.lostStatus.Reports? && !Terminal(s.lostStatus.state)
               && now - rec.updatedAt < 24 * 60 * 60 * 1_000_000_000)
        else FreeFailed(p.rec, s)
  {
    if rec.state == Lost {
      MovedKeeps(rec, moves, now);
      LostFails(stored, rec, s, now);
      ReconcileEnds(stored, rec, s, now);
      ReleaseReconciles(stored, rec, s, now);
      var p := Reconcile(stored, rec, s, now);
      FreeFails(p.stored, p.rec, s, now);
    } else {
      FreeFails(stored, rec, s, now);
    }
  }

  lemma LostFails(stored: Record, rec: Record, s: Script, now: int)
    requires rec.state == Lost && (stored == rec || Terminal(stored.state))
    ensures var p := Reconcile(stored, rec, s, now);
      p.rec.state == Lost ==>
        (p.failed <==>
           !(&& s.registered && s.lostStatus.Reports? && !Terminal(s.lostStatus.state)
             && now - rec.updatedAt < 24 * 60 * 60 * 1_000_000_000))
  {
    ResolveEnds(stored, rec, Failed, None, s, now);
    if Learned(s) { ResolveEnds(stored, rec, s.lostStatus.state, s.fetch, s, now); }
  }

  // ----- the loop itself

  /** A pass left its own record as p has it, and no other changed. */
  ghost predicate Left(was: Records, did: seq<Effect>, id: Id, p: Pass, records: Records, effects: seq<Effect>) {
    id in was && records == was[id := p.stored] && effects == did + p.effects
  }

  lemma LeftThen(
    was: Records, did: seq<Effect>, id: Id, p: Pass, mid: Records, done: seq<Effect>, q: Pass,
    records: Records, effects: seq<Effect>)
    requires Left(was, did, id, p, mid, done) && Left(mid, done, id, q, records, effects)
    ensures Left(was, did, id, Then(p, q), records, effects)
  {
  }

  class Sweeper {
    var records: Records
    ghost var effects: seq<Effect>

    constructor (records: Records)
      ensures this.records == records && effects == []
    {
      this.records := records;
      effects := [];
    }

    /** Other writers at work on one record. */
    method Meanwhile(id: Id, moves: seq<State>, now: int)
      requires id in records
      modifies this`records
      ensures records == old(records)[id := Moved(old(records)[id], moves, now)]
    {
      ghost var met := Moved(records[id], moves, now);
      for i := 0 to |moves|
        invariant id in records && records == old(records)[id := records[id]]
        invariant Moved(records[id], moves[i..], now) == met
      {
        assert moves[i..][0] == moves[i] && moves[i..][1..] == moves[i + 1..];
        match To(records[id], moves[i], now) {
          case None =>
          case Some(moved) => records := records[id := moved];
        }
      }
    }

    method ResolveLost(rec: Record, state: State, result: Option<Result>, s: Script, now: int)
      returns (out: Record, failed: bool)
      requires Stores(records, rec)
      modifies this
      ensures var p := Resolve(old(records)[rec.id], rec, state, result, s, now);
        Left(old(records), old(effects), rec.id, p, records, effects) && out == p.rec && failed == p.failed
    {
      match To(rec.(result := result), state, now) {
        case None => return rec, true;
        case Some(resolved) =>
          Meanwhile(rec.id, s.movesBeforeUpdate, now);
          if s.updateFails { return rec, true; }
          var (after, outcome) := UpdateRecord(records, resolved, Lost);
          if outcome != Done { return rec, true; }
          records := after;
          effects := effects + [Wrote(records[rec.id])];
          return resolved, false;
      }
    }

    method ReconcileLost(rec: Record, s: Script, now: int) returns (out: Record, failed: bool)
      requires Stores(records, rec)
      modifies this
      ensures var p := Reconcile(old(records)[rec.id], rec, s, now);
        Left(old(records), old(effects), rec.id, p, records, effects) && out == p.rec && failed == p.failed
    {
      if !s.registered {
        out, failed := ResolveLost(rec, Failed, None, s, now);
        return;
      }
      failed := false;
      match s.lostStatus {
        case Unknown =>
          out, failed := ResolveLost(rec, Failed, None, s, now);
          return;
        case StatusFails => failed := true;
        case Reports(state) =>
          if Terminal(state) {
            if s.fetch.Some? {
              out, failed := ResolveLost(rec, state, s.fetch, s, now);
              return;
            }
            failed := true;
          }
      }
      if LostExpired(rec, now) {
        out, failed := ResolveLost(rec, Failed, None, s, now);
        return;
      }
      out := rec;
    }

    method MarkAsReleased(rec: Record, s: Script, now: int) returns (failed: bool)
      requires rec.id in records
      modifies this
      ensures var p := Mark(old(records)[rec.id], rec, [], s, now);
        Left(old(records), old(effects), rec.id, p, records, effects) && failed == p.failed
    {
      if s.markFails { return true; }
      effects := effects + [Marked(records[rec.id])];
      records := MarkReleased(records, rec.id, now).0;
      failed := false;
    }

    /** Releases what is left of an execution that is not lost. */
    method FreeLeftover(rec: Record, s: Script, now: int) returns (done: bool, failed: bool)
      requires rec.id in records
      modifies this
      ensures var p := Free(old(records)[rec.id], rec, s, now);
        Left(old(records), old(effects), rec.id, p, records, effects) && done == p.done && failed == p.failed
    {
      if s.reserved.None? { return false, true; }
      if s.reserved.value { return false, false; }
      if !s.registered || !s.releaser {
        Meanwhile(rec.id, s.movesBeforeRelease, now);
        failed := MarkAsReleased(rec, s, now);
        return true, failed;
      }
      if rec.result.None? {
        match s.status {
          case Unknown =>
            Meanwhile(rec.id, s.movesBeforeRelease, now);
            failed := MarkAsReleased(rec, s, now);
            return true, failed;
          case StatusFails => return false, true;
          case Reports(state) => if !Terminal(state) { return false, false; }
        }
      }
      Meanwhile(rec.id, s.movesBeforeRelease, now);
      effects := effects + [AskedRelease(records[rec.id])];
      if s.release.ReleaseFails? { return false, true; }
      failed := MarkAsReleased(rec, s, now);
      done := true;
    }

    /** Releases one execution's leftovers if it is over, and says whether it did. */
    method ReleaseLeftover(found: Record, s: Script, now: int) returns (done: bool, failed: bool)
      requires Stores(records, found)
      modifies this
      ensures var p := Release(old(records)[found.id], found, s, now);
        Left(old(records), old(effects), found.id, p, records, effects) && done == p.done && failed == p.failed
    {
      if found.state != Lost {
        done, failed := FreeLeftover(found, s, now);
        return;
      }
      var rec;
      rec, failed := ReconcileLost(found, s, now);
      ghost var p := Reconcile(old(records)[found.id], found, s, now);
      ReleaseReconciles(old(records)[found.id], found, s, now);
      if failed || rec.state == Lost { return false, failed; }
      ghost var mid, soFar := records, effects;
      done, failed := FreeLeftover(rec, s, now);
      LeftThen(old(records), old(effects), found.id, p, mid, soFar, Free(p.stored, p.rec, s, now), records, effects);
    }

    /** One pass over every leftover listed: a failure on one leaves the others to
        their turn. */
    method ReleaseLeftovers(found: seq<Record>, scripts: seq<Script>, now: int) returns (released: nat)
      requires |scripts| == |found| && Listed(records, found)
      modifies this
      ensures (records, released) == Swept(old(records), found, scripts, now, |found|)
    {
      released := 0;
      ghost var before := records;
      for i := 0 to |found|
        invariant (records, released) == Swept(before, found, scripts, now, i)
      {
        SweptNext(before, found, scripts, now, i);
        ghost var soFar := records;
        Meanwhile(found[i].id, scripts[i].movesBefore, now);
        MovedKeeps(found[i], scripts[i].movesBefore, now);
        var done, failed := ReleaseLeftover(found[i], scripts[i], now);
        assert records == soFar[found[i].id := PassOver(found[i], scripts[i], now).stored];
        if done && !failed { released := released + 1; }
      }
    }
  }

  /** What the first n passes make of the store, and how many of them released
      something. */
  function Swept(records: Records, found: seq<Record>, scripts: seq<Script>, now: int, n: nat): (Records, nat)
    requires n <= |found| == |scripts|
  {
    if n == 0 then (records, 0)
    else
      var (before, released) := Swept(records, found, scripts, now, n - 1);
      var rec := found[n - 1];
      if rec.id !in before then (before, released)
      else
        var p := Release(Moved(before[rec.id], scripts[n - 1].movesBefore, now), rec, scripts[n - 1], now);
        (before[rec.id := p.stored], if p.done && !p.failed then released + 1 else released)
  }

  /** A pass over one record that other writers may have moved since it was listed. */
  function PassOver(listed: Record, s: Script, now: int): Pass {
    Release(Moved(listed, s.movesBefore, now), listed, s, now)
  }

  /** Afterwards each listed record is as a pass over it alone would leave it,
      whatever became of the others. */
  lemma {:induction false} SweptAt(records: Records, found: seq<Record>, scripts: seq<Script>, now: int, n: nat, i: nat)
    requires n <= |found| == |scripts| && i < |found| && Listed(records, found)
    ensures var after := Swept(records, found, scripts, now, n).0;
      && found[i].id in after
      && after[found[i].id] == if i < n then PassOver(found[i], scripts[i], now).stored else found[i]
  {
    if n > 0 {
      SweptAt(records, found, scripts, now, n - 1, i);
      SweptAt(records, found, scripts, now, n - 1, n - 1);
      assert i != n - 1 ==> found[i].id != found[n - 1].id;
    }
  }

  /** The pass marked its execution released. */
  ghost predicate Done(listed: Record, s: Script, now: int) {
    exists e :: e in PassOver(listed, s, now).effects && e.Marked?
  }

  lemma DoneReports(listed: Record, s: Script, now: int)
    ensures var p := PassOver(listed, s, now); p.done && !p.failed <==> Done(listed, s, now)
  {
    DoneIsMarked(Moved(listed, s.movesBefore, now), listed, s.movesBefore, s, now);
  }

  /** How many of the first n passes did. */
  ghost function CountDone(found: seq<Record>, scripts: seq<Script>, now: int, n: nat): nat
    requires n <= |found| == |scripts|
  {
    if n == 0 then 0
    else CountDone(found, scripts, now, n - 1) + if Done(found[n - 1], scripts[n - 1], now) then 1 else 0
  }

  lemma SweptCountsNext(records: Records, found: seq<Record>, scripts: seq<Script>, now: int, n: nat)
    requires n < |found| == |scripts| && Listed(records, found)
    ensures Swept(records, found, scripts, now, n + 1).1
         == Swept(records, found, scripts, now, n).1 + if Done(found[n], scripts[n], now) then 1 else 0
  {
    SweptNext(records, found, scripts, now, n);
    DoneReports(found[n], scripts[n], now);
  }

  /** The count is of the passes that marked their execution released. */
  lemma {:induction false} SweptCounts(
    records: Records, found: seq<Record>, scripts: seq<Script>, now: int, n: nat)
    requires n <= |found| == |scripts| && Listed(records, found)
    ensures Swept(records, found, scripts, now, n).1 == CountDone(found, scripts, now, n)
  {
    if n > 0 {
      SweptCounts(records, found, scripts, now, n - 1);
      SweptCountsNext(records, found, scripts, now, n - 1);
    }
  }

  lemma SweptNext(records: Records, found: seq<Record>, scripts: seq<Script>, now: int, n: nat)
    requires n < |found| == |scripts| && Listed(records, found)
    ensures var (before, released) := Swept(records, found, scripts, now, n);
      var p := PassOver(found[n], scripts[n], now);
      && found[n].id in before && before[found[n].id] == found[n]
      && Swept(records, found, scripts, now, n + 1)
         == (before[found[n].id := p.stored], if p.done && !p.failed then released + 1 else released)
  {
    SweptAt(records, found, scripts, now, n, n);
  }

  /** No record that was not listed changes, and none appears or goes. */
  lemma {:induction false} SweptElsewhere(
    records: Records, found: seq<Record>, scripts: seq<Script>, now: int, n: nat, id: Id)
    requires n <= |found| == |scripts| && forall i :: 0 <= i < |found| ==> found[i].id != id
    ensures var after := Swept(records, found, scripts, now, n).0;
      (id in after <==> id in records) && (id in records ==> after[id] == records[id])
  {
    if n > 0 { SweptElsewhere(records, found, scripts, now, n - 1, id); }
  }

  /** And none that outstayed the grace period is lost, where the store did not fail. */
  lemma NoneOutstays(records: Records, found: seq<Record>, scripts: seq<Script>, now: int, i: nat)
    requires |found| == |scripts| && i < |found| && Listed(records, found)
    requires found[i].state == Lost && now - found[i].updatedAt >= 24 * 60 * 60 * 1_000_000_000
    requires !scripts[i].updateFails
    ensures var after := Swept(records, found, scripts, now, |found|).0;
      found[i].id in after && Terminal(after[found[i].id].state)
  {
    SweptAt(records, found, scripts, now, |found|, i);
    GraceResolves(Moved(found[i], scripts[i].movesBefore, now), found[i], scripts[i].movesBefore, scripts[i], now);
  }

  ghost predicate Stores(records: Records, rec: Record) {
    rec.id in records && records[rec.id].id == rec.id
  }

  /** What Unreleased hands out: copies of distinct stored records. */
  ghost predicate Listed(records: Records, found: seq<Record>) {
    && (forall i :: 0 <= i < |found| ==> found[i].id in records && records[found[i].id] == found[i])
    && (forall i, j :: 0 <= i < j < |found| ==> found[i].id != found[j].id)
  }
}
