/** The local store: one object whose rows the statements below rewrite in place. */
module LocalStore {
  import opened Wrappers
  import opened States
  import opened Paths
  import opened Records
  import opened Protocol

  lemma ObserveNone(db: Db, id: Identity, status: Status)
    ensures ObserveDb(db, {}, id, status) == db
  {
    assert db.ledger + Observations({}, id, status) == db.ledger;
  }

  lemma ObserveMore(db: Db, done: set<SnapId>, s: SnapId, id: Identity, status: Status)
    ensures ObserveDb(ObserveDb(db, done, id, status), {s}, id, status) == ObserveDb(db, done + {s}, id, status)
    ensures s !in done ==>
              var led := ObserveDb(db, done, id, status).ledger;
              (s in led <==> s in db.ledger) && (s in led ==> led[s] == db.ledger[s])
  {
    assert db.ledger + Observations(done, id, status) + Observations({s}, id, status)
        == db.ledger + Observations(done + {s}, id, status);
  }

  class Store {
    const id: StoreId
    var seqno: nat
    var frontier: nat
    const lineage: map<StoreId, nat>
    var occs: map<Id, Occ>
    var attempts: map<Id, Attempt>
    var ledger: map<SnapId, Ledgered>
    var intents: map<Id, Intent>

    /** All rows, as `connection.backup` copies them into a catalog export. */
    function Rows(): Db
      reads this
    {
      Db(id, seqno, frontier, lineage, occs, attempts, ledger, intents)
    }

    constructor (db: Db)
      ensures Rows() == db
    {
      id, seqno, frontier, lineage := db.store, db.seqno, db.frontier, db.lineage;
      occs, attempts, ledger, intents := db.occs, db.attempts, db.ledger, db.intents;
    }

    // ---- dropin/store/records.py -------------------------------------------------

    method RecordOccurrence(o: Id, row: Occ)
      modifies this`occs
      ensures Rows() == RecordDb(old(Rows()), o, row)
    {
      occs := occs[o := row];
    }

    method SetOccurrenceState(o: Id, s: State)
      requires o in occs
      modifies this`occs
      ensures Rows() == SetState(old(Rows()), o, s)
    {
      occs := occs[o := occs[o].(state := s)];
    }

    method StartAttemptRow(a: Id, o: Id)
      modifies this`seqno, this`attempts
      ensures Rows() == StartDb(old(Rows()), a, o)
    {
      seqno := seqno + 1;
      attempts := attempts[a := Attempt(id, o, seqno, None, None, Pending, 0)];
    }

    method SetExportDigest(a: Id, digest: Digest)
      requires a in attempts
      modifies this`attempts
      ensures Rows() == old(Rows()).(attempts := old(attempts)[a := old(attempts)[a].(digest := Some(digest))])
    {
      attempts := attempts[a := attempts[a].(digest := Some(digest))];
    }

    method SetAttemptSnapshot(a: Id, s: SnapId)
      requires a in attempts
      modifies this`attempts
      ensures Rows() == BindDb(old(Rows()), a, s)
    {
      attempts := attempts[a := attempts[a].(snapshot := Some(s))];
    }

    method FinishAttemptRow(a: Id, outcome: Outcome, at: int)
      requires a in attempts
      modifies this`attempts
      ensures Rows() == FinishAttempt(old(Rows()), a, outcome, at)
    {
      attempts := attempts[a := attempts[a].(outcome := outcome, finished := at)];
    }

    method SetSnapshotStatus(s: Option<SnapId>, status: Status)
      modifies this`ledger
      ensures Rows() == SetStatus(old(Rows()), s, status)
    {
      if s.Some? && s.value in ledger {
        ledger := ledger[s.value := ledger[s.value].(status := status)];
      }
    }

    /** False is `IdentityCollision`: the row was observed under different tags. */
    method ObserveSnapshot(s: SnapId, identity: Identity, status: Status) returns (ok: bool)
      modifies this`ledger
      ensures ok <==> (s in old(ledger) ==> old(ledger)[s].identity == identity)
      ensures Rows() == if ok then ObserveDb(old(Rows()), {s}, identity, status) else old(Rows())
    {
      if s in ledger && ledger[s].identity != identity { return false; }
      ledger := ledger[s := Ledgered(identity, status)];
      assert ledger == old(ledger) + Observations({s}, identity, status);
      return true;
    }

    method AdvanceFrontier(n: nat)
      modifies this`frontier
      ensures frontier == if old(frontier) < n then n else old(frontier)
    {
      if frontier < n { frontier := n; }
    }

    // ---- dropin/pipeline/attempts.py: one transaction each --------------------------

    /** `adopt`: bind a published snapshot to its attempt and ledger the observation. */
    method Adopt(a: Id, s: SnapId) returns (ok: bool)
      requires OwnAttempt(Rows(), a) && attempts[a].digest.Some?
      requires s in ledger ==> ledger[s].identity == OwnIdentity(Rows(), a)
      modifies this`attempts, this`ledger
      ensures ok && Rows() == AdoptDb(old(Rows()), a, s)
    {
      var identity := OwnIdentity(Rows(), a);
      SetAttemptSnapshot(a, s);
      ok := ObserveSnapshot(s, identity, SnapPending);
    }

    /** `fail`, and the pre-confirmation half of `abandon_source_changed`. */
    method Fail(a: Id, at: int, to: State)
      requires OwnAttempt(Rows(), a)
      modifies this`attempts, this`ledger, this`occs
      ensures Rows() == FailDb(old(Rows()), a, at, to)
    {
      var att := attempts[a];
      FinishAttemptRow(a, Failed, at);
      SetSnapshotStatus(att.snapshot, SnapOrphaned);
      SetOccurrenceState(att.occ, to);
    }

    /** The duplicate branch of `resume`: every candidate orphaned, the attempt failed. */
    method FailDuplicates(a: Id, snaps: set<SnapId>, at: int) returns (ok: bool)
      requires OwnAttempt(Rows(), a) && attempts[a].digest.Some?
      requires forall s | s in snaps && s in ledger :: ledger[s].identity == OwnIdentity(Rows(), a)
      modifies this`attempts, this`ledger, this`occs
      ensures ok && Rows() == DuplicateDb(old(Rows()), a, snaps, at)
    {
      var identity := OwnIdentity(Rows(), a);
      ok := ObserveAll(snaps, identity, SnapOrphaned);
      FinishAttemptRow(a, Failed, at);
      SetOccurrenceState(attempts[a].occ, Recorded);
    }

    /** The loop over `observe_snapshot` inside one transaction. */
    method ObserveAll(snaps: set<SnapId>, identity: Identity, status: Status) returns (ok: bool)
      requires forall s | s in snaps && s in ledger :: ledger[s].identity == identity
      modifies this`ledger
      ensures ok && Rows() == ObserveDb(old(Rows()), snaps, identity, status)
    {
      hide *;
      var rest, done := snaps, {};
      ok := true;
      ObserveNone(Rows(), identity, status);
      while rest != {}
        invariant ok && rest !! done && rest + done == snaps
        invariant Rows() == ObserveDb(old(Rows()), done, identity, status)
        decreases rest
      {
        var s :| s in rest;
        ObserveMore(old(Rows()), done, s, identity, status);
        RowsLedger();
        ok := ObserveSnapshot(s, identity, status);
        rest, done := rest - {s}, done + {s};
      }
      assert done == snaps;
    }

    twostate lemma RowsLedger()
      ensures Rows().ledger == ledger && old(Rows()).ledger == old(ledger)
    {}

    method ConfirmAttempt(a: Id, at: int)
      requires OwnAttempt(Rows(), a) && attempts[a].snapshot.Some?
      modifies this`attempts, this`ledger, this`occs, this`frontier
      ensures Rows() == ConfirmDb(old(Rows()), a, at)
    {
      var att := attempts[a];
      FinishAttemptRow(a, Confirmed, at);
      SetSnapshotStatus(att.snapshot, SnapConfirmed);
      occs := occs[att.occ := occs[att.occ].(state := Recoverable, confirmed := Some(a))];
      AdvanceFrontier(att.seqno);
    }

    // ---- dropin/pipeline/evict.py -----------------------------------------------------

    method WriteIntent(o: Id)
      requires o in occs
      modifies this`occs, this`intents
      ensures Rows() == BeginDb(old(Rows()), o)
    {
      intents := intents[o := Intent(occs[o].prints, false)];
      SetOccurrenceState(o, Evicting);
    }

    method FinishEviction(o: Id)
      requires o in occs
      modifies this`occs, this`intents
      ensures Rows() == FinishDb(old(Rows()), o)
    {
      intents := intents - {o};
      SetOccurrenceState(o, Evicted);
    }
  }
}
