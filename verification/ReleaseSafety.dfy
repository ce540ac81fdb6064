/** The release loop beside the ledger it asks (internal/dispatch/release.go,
    internal/ledger/memory.go). */
module ReleaseSafety {
  import opened Prelude
  import opened Quota
  import opened Lifecycle
  import opened QuotaSafety
  import opened ReleaseLoop
  import Settlement

  /** The loop's question to the ledger, put to the store as it is at that moment. */
  ghost predicate Asked(run: Run, id: Id, s: Script) {
    s.reserved.Some? ==> s.reserved.value == (id in run.store.held)
  }

  /** Whatever reservations, settlements and reaps happen meanwhile, no reservation of
      an execution stands when the loop releases or marks it, nor at any time later:
      the i-th event after the ledger's answer is as far off as one likes. */
  lemma NeverWhileReserved(
    b: Budgets, created: Run, asked: seq<Event>, later: seq<Event>, i: nat,
    stored: Record, rec: Record, s: Script, now: int)
    requires Legal(b, created, asked) && rec.id in created.minted
    requires Legal(b, After(b, created, asked), later) && i <= |later|
    requires Asked(After(b, created, asked), rec.id, s)
    requires exists e :: e in Release(stored, rec, s, now).effects && Ends(e)
    ensures Legal(b, After(b, created, asked), later[..i])
    ensures rec.id !in After(b, After(b, created, asked), later[..i]).store.held
  {
    var asking := After(b, created, asked);
    EndsUnreserved(stored, rec, s, now);
    Settlement.MintedStays(b, created, asked, rec.id);
    Settlement.LegalPrefix(b, asking, later, i);
    Settlement.StaysOut(b, asking, later[..i], rec.id);
  }

  /** So no settlement of a released execution can ever be asked of its provider. */
  lemma NothingLeftToSettle(
    b: Budgets, created: Run, asked: seq<Event>, later: seq<Event>,
    stored: Record, rec: Record, s: Script, now: int)
    requires Legal(b, created, asked) && rec.id in created.minted
    requires Legal(b, After(b, created, asked), later)
    requires Asked(After(b, created, asked), rec.id, s)
    requires exists e :: e in Release(stored, rec, s, now).effects && Ends(e)
    ensures Settlement.Settlements(b, After(b, created, asked), later, rec.id) == 0
  {
    EndsUnreserved(stored, rec, s, now);
    Settlement.MintedStays(b, created, asked, rec.id);
    Settlement.StaysOut(b, After(b, created, asked), later, rec.id);
  }
}
