/** What every step of the protocol keeps, and what that gives over whole runs. */
module Invariant {
  import opened Wrappers
  import opened States
  import opened Paths
  import opened Records
  import opened Protocol

  /** Attempts are own, numbered apart, and bound only to their own snapshot. */
  ghost predicate AttemptsOk(w: World) {
    var db := w.db;
    && (forall o | o in db.occs :: o.store == db.store && db.occs[o].origin == db.store)
    && (forall a | a in db.attempts ::
          && a.store == db.store && db.attempts[a].origin == db.store
          && db.attempts[a].occ in db.occs
          && 1 <= db.attempts[a].seqno <= db.seqno)
    && (forall a, b | a in db.attempts && b in db.attempts ::
          db.attempts[a].seqno == db.attempts[b].seqno ==> a == b)
  }

  ghost predicate BindingOk(w: World, a: Id) {
    a in w.db.attempts && w.db.attempts[a].snapshot.Some? ==>
      && Bears(w, {w.db.attempts[a].snapshot.value}, a)
      && w.db.attempts[a].snapshot.value in w.db.ledger
  }

  ghost predicate BindingsOk(w: World) {
    forall a {:trigger BindingOk(w, a)} :: BindingOk(w, a)
  }

  /** Each occurrence's state says how its attempts stand. */
  ghost predicate SettledAs(db: Db, o: Id)
    requires o in db.occs
  {
    match db.occs[o].state
    case Recorded => AtMostOnePending(db, o) && NoneConfirmed(db, o)
    case Transferred => OneBoundPending(db, o) && NoneConfirmed(db, o)
    case Verified => OneBoundPending(db, o) && NoneConfirmed(db, o)
    case Recoverable => OneConfirmed(db, o)
    case Evicting => OneConfirmed(db, o)
    case Evicted => OneConfirmed(db, o)
    case Abandoned =>
      !HasPending(db, o) && (NoneConfirmed(db, o) || OneConfirmed(db, o))
  }

  ghost predicate AtMostOnePending(db: Db, o: Id) {
    forall a, b | a in db.attempts && b in db.attempts
                  && db.attempts[a].occ == o && db.attempts[b].occ == o ::
      db.attempts[a].outcome == Pending && db.attempts[b].outcome == Pending ==> a == b
  }

  ghost predicate OneBoundPending(db: Db, o: Id) {
    && AtMostOnePending(db, o)
    && exists a | a in db.attempts :: BoundPending(db, a, o)
  }

  ghost predicate BoundPending(db: Db, a: Id, o: Id)
    requires a in db.attempts
  {
    db.attempts[a].occ == o && db.attempts[a].outcome == Pending && db.attempts[a].snapshot.Some?
  }

  ghost predicate NoneConfirmed(db: Db, o: Id)
    requires o in db.occs
  {
    && db.occs[o].confirmed == None
    && forall a | a in db.attempts :: db.attempts[a].occ == o ==> db.attempts[a].outcome != Confirmed
  }

  /** Exactly one confirmed attempt, named by the row, ledgered so; nothing pending. */
  ghost predicate OneConfirmed(db: Db, o: Id)
    requires o in db.occs
  {
    && db.occs[o].confirmed.Some?
    && var c := db.occs[o].confirmed.value;
    && c in db.attempts && db.attempts[c].occ == o && db.attempts[c].outcome == Confirmed
    && db.attempts[c].snapshot.Some?
    && db.attempts[c].snapshot.value in db.ledger
    && db.ledger[db.attempts[c].snapshot.value].status == SnapConfirmed
    && forall a | a in db.attempts :: db.attempts[a].occ == o && a != c ==> db.attempts[a].outcome == Failed
  }

  ghost predicate Settled(w: World) {
    forall o {:trigger SettledAs(w.db, o)} | o in w.db.occs :: SettledAs(w.db, o)
  }

  /** Every own snapshot is known by its attempt row; the ledger repeats exact tags. */
  ghost predicate OwnSnapshotsKnown(w: World) {
    forall s {:trigger KnownSnap(w, s)} {:trigger LedgeredAsTagged(w, s)} ::
      KnownSnap(w, s) && LedgeredAsTagged(w, s)
  }

  ghost predicate KnownSnap(w: World, s: SnapId) {
    s in w.repo ==>
      ForeignTags(w.repo[s].tags, w.db.store) || Bears(w, {s}, w.repo[s].tags.id.attempt)
  }

  ghost predicate LedgeredAsTagged(w: World, s: SnapId) {
    s in w.db.ledger ==>
      && s in w.repo && w.repo[s].tags == Canonical(w.db.ledger[s].identity)
      && w.db.ledger[s].identity.store == w.db.store
  }

  /** Verified payloads stay proven, confirmed publications carry their catalog. */
  ghost predicate ProofsHold(w: World) {
    forall a {:trigger ProofHolds(w, a)} :: ProofHolds(w, a)
  }

  ghost predicate ProofHolds(w: World, a: Id) {
    a in w.db.attempts ==>
      && (w.db.attempts[a].outcome == Confirmed ==> PayloadProven(w, a) && RemoteCatalogProven(w, a))
      && (IsPending(w.db, a) && StateOf(w.db, a) == Verified ==> PayloadProven(w, a))
  }

  ghost predicate ManifestsSound(w: World) {
    && (forall p | p in w.disk :: w.disk[p].ctime <= w.clock)
    && InodesAgree(w.disk) && InDrop(w.disk, w.drop)
    && forall o {:trigger ManifestSound(w, o)} :: ManifestSound(w, o)
  }

  ghost predicate ManifestSound(w: World, o: Id) {
    o in w.db.occs ==> ItemShape(w.db.occs[o]) && Captured(w.db.occs[o], w.disk, w.clock)
  }

  /** An intent is held exactly while evicting, and repeats the fingerprint. */
  ghost predicate IntentsOk(w: World) {
    && (forall o | o in w.db.occs :: w.db.occs[o].state == Evicting <==> o in w.db.intents)
    && (forall o | o in w.db.intents ::
          && o in w.db.occs && !w.db.intents[o].recovered
          && w.db.intents[o].prints == w.db.occs[o].prints)
  }

  /** Items sit directly in the drop folder, and a path has one active occurrence. */
  ghost predicate SpoolsOk(w: World) {
    && (forall o | o in w.db.occs :: Parent(w.db.occs[o].spool) == w.drop)
    && (forall x, y | x in w.db.occs && y in w.db.occs ::
          (Active(w.db.occs[x].state) && Active(w.db.occs[y].state)
           && w.db.occs[x].spool == w.db.occs[y].spool) ==> x == y)
  }

  ghost predicate Inv(w: World) {
    && SpoolsOk(w) && AttemptsOk(w) && BindingsOk(w) && Settled(w) && OwnSnapshotsKnown(w)
    && ProofsHold(w) && ManifestsSound(w) && IntentsOk(w)
  }

  // ---- evidence only accumulates --------------------------------------------------

  ghost predicate SameItem(x: Occ, y: Occ) {
    y == x.(state := y.state, confirmed := y.confirmed)
  }

  /** An attempt row gains a digest, a snapshot and an outcome, each at most once, and no more once settled. */
  ghost predicate SameAttempt(x: Attempt, y: Attempt) {
    && y.occ == x.occ && y.origin == x.origin && y.seqno == x.seqno
    && (x.digest.Some? ==> y.digest == x.digest)
    && (x.snapshot.Some? ==> y.snapshot == x.snapshot)
    && (x.outcome != Pending ==> y == x)
  }

  /** No row, ledger identity or snapshot is lost or rewritten. */
  ghost predicate Evolves(w: World, w': World) {
    && w'.db.store == w.db.store && w'.budget == w.budget && w'.drop == w.drop
    && w.db.seqno <= w'.db.seqno && w.db.frontier <= w'.db.frontier
    && (forall o | o in w.db.occs :: o in w'.db.occs && SameItem(w.db.occs[o], w'.db.occs[o]))
    && (forall a | a in w.db.attempts ::
          a in w'.db.attempts && SameAttempt(w.db.attempts[a], w'.db.attempts[a]))
    && (forall s | s in w.db.ledger ::
          s in w'.db.ledger && w'.db.ledger[s].identity == w.db.ledger[s].identity)
    && (forall s | s in w.repo :: s in w'.repo && w'.repo[s] == w.repo[s])
  }

  lemma BearsStable(w: World, w': World, snaps: set<SnapId>, a: Id)
    requires Evolves(w, w') && Bears(w, snaps, a)
    ensures Bears(w', snaps, a)
  {
    assert SameAttempt(w.db.attempts[a], w'.db.attempts[a]);
    assert SameItem(w.db.occs[w.db.attempts[a].occ], w'.db.occs[w.db.attempts[a].occ]);
    assert OwnIdentity(w.db, a) == OwnIdentity(w'.db, a);
  }

  lemma PayloadStable(w: World, w': World, a: Id)
    requires Evolves(w, w') && PayloadProven(w, a)
    ensures PayloadProven(w', a)
  {
    assert SameAttempt(w.db.attempts[a], w'.db.attempts[a]);
    assert SameItem(w.db.occs[w.db.attempts[a].occ], w'.db.occs[w.db.attempts[a].occ]);
  }

  lemma CatalogStable(w: World, w': World, a: Id)
    requires Evolves(w, w') && RemoteCatalogProven(w, a) && w.db.attempts[a].digest.Some?
    ensures RemoteCatalogProven(w', a)
  {
    assert SameAttempt(w.db.attempts[a], w'.db.attempts[a]);
    assert SameItem(w.db.occs[w.db.attempts[a].occ], w'.db.occs[w.db.attempts[a].occ]);
  }

  lemma BindingsFrom(w: World, w': World)
    requires BindingsOk(w) && Evolves(w, w')
    requires forall a :: BindingEarned(w, w', a)
    ensures BindingsOk(w')
  {
    forall a ensures BindingOk(w', a) {
      assert BindingOk(w, a) && BindingEarned(w, w', a);
      if a in w.db.attempts && w.db.attempts[a].snapshot.Some? {
        assert SameAttempt(w.db.attempts[a], w'.db.attempts[a]);
        BearsStable(w, w', {w.db.attempts[a].snapshot.value}, a);
      }
    }
  }

  lemma KnownFrom(w: World, w': World)
    requires OwnSnapshotsKnown(w) && Evolves(w, w')
    requires forall s :: SnapEarned(w, w', s)
    ensures OwnSnapshotsKnown(w')
  {
    forall s ensures KnownSnap(w', s) && LedgeredAsTagged(w', s) {
      assert KnownSnap(w, s) && LedgeredAsTagged(w, s) && SnapEarned(w, w', s);
      if s in w.repo && !ForeignTags(w.repo[s].tags, w.db.store) {
        BearsStable(w, w', {s}, w.repo[s].tags.id.attempt);
      }
    }
  }

  lemma ProofsFrom(w: World, w': World)
    requires ProofsHold(w) && BindingsOk(w) && Evolves(w, w')
    requires forall a :: ProofEarned(w, w', a)
    ensures ProofsHold(w')
  {
    forall a ensures ProofHolds(w', a) {
      assert ProofHolds(w, a) && ProofEarned(w, w', a) && BindingOk(w, a);
      if a in w.db.attempts && w.db.attempts[a].outcome == Confirmed {
        PayloadStable(w, w', a);
        CatalogStable(w, w', a);
      } else if a in w.db.attempts && IsPending(w.db, a) && StateOf(w.db, a) == Verified {
        PayloadStable(w, w', a);
      }
    }
  }

  lemma ManifestsFrom(w: World, w': World)
    requires ManifestsSound(w) && Evolves(w, w') && w'.disk == w.disk && w'.clock == w.clock
    requires w'.db.occs.Keys == w.db.occs.Keys
    ensures ManifestsSound(w')
  {
    forall o ensures ManifestSound(w', o) {
      assert ManifestSound(w, o);
      if o in w.db.occs { SameShape(w.db.occs[o], w'.db.occs[o]); }
    }
  }

  lemma SameShape(x: Occ, y: Occ)
    requires SameItem(x, y) && ItemShape(x)
    ensures ItemShape(y)
  {
    forall rel | rel in y.entries ensures RowShape(y, rel) {
      assert RowShape(x, rel);
    }
  }

  /** A transaction about one occurrence leaves every other one settled as it was. */
  lemma SettledElsewhere(w: World, w': World, o: Id)
    requires Settled(w) && BindingsOk(w) && OwnSnapshotsKnown(w) && Evolves(w, w')
    requires forall x | x in w'.db.occs && x != o ::
               && x in w.db.occs && w'.db.occs[x] == w.db.occs[x]
    requires forall a | a in w'.db.attempts && w'.db.attempts[a].occ != o ::
               && a in w.db.attempts && w'.db.attempts[a].outcome == w.db.attempts[a].outcome
               && w'.db.attempts[a].snapshot == w.db.attempts[a].snapshot
    requires forall s | s in w.db.ledger ::
               || w'.db.ledger[s].status == w.db.ledger[s].status
               || w.db.ledger[s].identity.occ == o
    ensures forall x | x in w'.db.occs && x != o :: SettledAs(w'.db, x)
  {
    forall x | x in w'.db.occs && x != o ensures SettledAs(w'.db, x) {
      assert SettledAs(w.db, x);
      var db, db' := w.db, w'.db;
      assert OneConfirmed(db, x) ==> OneConfirmed(db', x) by {
        if OneConfirmed(db, x) {
          var c := db.occs[x].confirmed.value;
          assert SameAttempt(db.attempts[c], db'.attempts[c]);
          assert BindingOk(w, c);
          LedgeredIdentity(w, db.attempts[c].snapshot.value, c);
        }
      }
      if OneBoundPending(db, x) {
        var a :| a in db.attempts && BoundPending(db, a, x);
        assert SameAttempt(db.attempts[a], db'.attempts[a]);
        assert BoundPending(db', a, x);
      }
    }
  }

  lemma AttemptsFrom(w: World, w': World)
    requires AttemptsOk(w) && Evolves(w, w')
    requires w'.db.occs.Keys == w.db.occs.Keys && w'.db.attempts.Keys == w.db.attempts.Keys
    ensures AttemptsOk(w')
  {
    forall o | o in w'.db.occs ensures o.store == w'.db.store && w'.db.occs[o].origin == w'.db.store {
      assert SameItem(w.db.occs[o], w'.db.occs[o]);
    }
    forall a | a in w'.db.attempts
      ensures a.store == w'.db.store && w'.db.attempts[a].origin == w'.db.store
      ensures w'.db.attempts[a].occ in w'.db.occs && 1 <= w'.db.attempts[a].seqno <= w'.db.seqno
    {
      assert SameAttempt(w.db.attempts[a], w'.db.attempts[a]);
    }
    forall a, b | a in w'.db.attempts && b in w'.db.attempts && w'.db.attempts[a].seqno == w'.db.attempts[b].seqno
      ensures a == b
    {
      assert SameAttempt(w.db.attempts[a], w'.db.attempts[a]);
      assert SameAttempt(w.db.attempts[b], w'.db.attempts[b]);
    }
  }

  ghost predicate IntentFor(db: Db, o: Id)
    requires o in db.occs
  {
    && (db.occs[o].state == Evicting <==> o in db.intents)
    && (o in db.intents ==> !db.intents[o].recovered && db.intents[o].prints == db.occs[o].prints)
  }

  /** A transaction of the store that concerns the one occurrence `o`. */
  ghost predicate Concerns(w: World, w': World, o: Id) {
    && w' == w.(db := w'.db) && o in w.db.occs && w'.db.occs.Keys == w.db.occs.Keys
    && (forall x | x in w'.db.occs && x != o :: w'.db.occs[x] == w.db.occs[x])
    && (forall a | a in w'.db.attempts && w'.db.attempts[a].occ != o ::
          a in w.db.attempts && w'.db.attempts[a] == w.db.attempts[a])
    && (forall s | s in w.db.ledger ::
          s in w'.db.ledger
          && (w'.db.ledger[s].status == w.db.ledger[s].status || w.db.ledger[s].identity.occ == o))
    && (forall x | x != o :: x in w'.db.intents <==> x in w.db.intents)
    && (forall x | x in w'.db.intents && x != o :: w'.db.intents[x] == w.db.intents[x])
  }

  // What a step adds must be earned by the step itself.

  ghost predicate BindingEarned(w: World, w': World, a: Id) {
    a in w'.db.attempts && w'.db.attempts[a].snapshot.Some? ==>
      || (a in w.db.attempts && w.db.attempts[a].snapshot.Some?)
      || (Bears(w', {w'.db.attempts[a].snapshot.value}, a)
          && w'.db.attempts[a].snapshot.value in w'.db.ledger)
  }

  ghost predicate SnapEarned(w: World, w': World, s: SnapId) {
    && (s in w'.repo ==>
          || s in w.repo || ForeignTags(w'.repo[s].tags, w.db.store)
          || Bears(w', {s}, w'.repo[s].tags.id.attempt))
    && (s in w'.db.ledger ==>
          || s in w.db.ledger
          || (&& s in w'.repo && w'.repo[s].tags == Canonical(w'.db.ledger[s].identity)
              && w'.db.ledger[s].identity.store == w.db.store))
  }

  ghost predicate ProofEarned(w: World, w': World, a: Id) {
    a in w'.db.attempts ==>
      && (w'.db.attempts[a].outcome == Confirmed ==>
            || (a in w.db.attempts && w.db.attempts[a].outcome == Confirmed)
            || (PayloadProven(w', a) && RemoteCatalogProven(w', a)))
      && (IsPending(w'.db, a) && StateOf(w'.db, a) == Verified ==>
            || (a in w.db.attempts && IsPending(w.db, a) && StateOf(w.db, a) == Verified)
            || PayloadProven(w', a))
  }

  ghost predicate Earned(w: World, w': World) {
    && (forall a {:trigger BindingEarned(w, w', a)} :: BindingEarned(w, w', a))
    && (forall s {:trigger SnapEarned(w, w', s)} :: SnapEarned(w, w', s))
    && (forall a {:trigger ProofEarned(w, w', a)} :: ProofEarned(w, w', a))
  }

  ghost predicate Stands(db: Db, db': Db, o: Id) {
    && o in db.occs && o in db'.occs && SettledAs(db', o) && IntentFor(db', o)
    && (Active(db'.occs[o].state) ==> Active(db.occs[o].state))
  }

  lemma InvFrom(w: World, w': World, o: Id)
    requires Inv(w) && Updates(w, w', o) && Earned(w, w')
    requires w'.db.attempts.Keys == w.db.attempts.Keys || AttemptsOk(w')
    requires Stands(w.db, w'.db, o)
    ensures Inv(w') && Evolves(w, w')
  {
    hide SpoolsOk, AttemptsOk, BindingsOk, OwnSnapshotsKnown, ProofsHold, ManifestsSound, IntentsOk,
         Evolves, SettledAs, BindingEarned, SnapEarned, ProofEarned, IntentFor;
    if w'.db.attempts.Keys == w.db.attempts.Keys { AttemptsFrom(w, w'); }
    BindingsFrom(w, w');
    KnownFrom(w, w');
    ProofsFrom(w, w');
    ManifestsFrom(w, w');
    SettledElsewhere(w, w', o);
    IntentsFrom(w, w', o);
    SpoolsFrom(w, w', o);
  }

  lemma FactsOf(w: World, a: Id)
    requires Inv(w) && a in w.db.attempts
    ensures OwnAttempt(w.db, a) && SettledAs(w.db, w.db.attempts[a].occ) && IntentFor(w.db, w.db.attempts[a].occ)
    ensures AttemptsOk(w) && BindingsOk(w) && OwnSnapshotsKnown(w)
  {}

  lemma SpoolsFrom(w: World, w': World, o: Id)
    requires SpoolsOk(w) && Updates(w, w', o) && Stands(w.db, w'.db, o)
    ensures SpoolsOk(w')
  {
    forall x | x in w'.db.occs
      ensures w'.db.occs[x].spool == w.db.occs[x].spool
      ensures Active(w'.db.occs[x].state) ==> Active(w.db.occs[x].state)
    {
      assert SameItem(w.db.occs[x], w'.db.occs[x]);
    }
  }

  lemma IntentsFrom(w: World, w': World, o: Id)
    requires IntentsOk(w) && Evolves(w, w') && Concerns(w, w', o) && IntentFor(w'.db, o)
    ensures IntentsOk(w')
  {}

  // ---- the statements transactions are made of -------------------------------------

  /** Reachable by statements about `o` alone, without losing evidence. */
  ghost predicate Updates(w: World, w': World, o: Id) {
    Evolves(w, w') && Concerns(w, w', o)
  }

  lemma Composed(w: World, w1: World, w2: World, o: Id)
    requires Updates(w, w1, o) && Updates(w1, w2, o)
    ensures Updates(w, w2, o)
  {
    EvolvesTransitive(w, w1, w2);
  }

  lemma EvolvesTransitive(w: World, w1: World, w2: World)
    requires Evolves(w, w1) && Evolves(w1, w2)
    ensures Evolves(w, w2)
  {
    forall a | a in w.db.attempts
      ensures a in w2.db.attempts && SameAttempt(w.db.attempts[a], w2.db.attempts[a])
    {
      assert SameAttempt(w.db.attempts[a], w1.db.attempts[a]);
    }
    forall o | o in w.db.occs ensures o in w2.db.occs && SameItem(w.db.occs[o], w2.db.occs[o]) {
      assert SameItem(w.db.occs[o], w1.db.occs[o]);
    }
  }

  lemma StateDbUpdates(w: World, o: Id, s: State)
    requires o in w.db.occs
    ensures Updates(w, w.(db := SetState(w.db, o, s)), o)
  {}

  lemma OutcomeUpdates(w: World, a: Id, outcome: Outcome, at: int)
    requires IsPending(w.db, a)
    ensures Updates(w, w.(db := FinishAttempt(w.db, a, outcome, at)), w.db.attempts[a].occ)
  {}

  lemma StatusUpdates(w: World, s: Option<SnapId>, status: Status, o: Id)
    requires o in w.db.occs
    requires s.Some? && s.value in w.db.ledger ==> w.db.ledger[s.value].identity.occ == o
    ensures Updates(w, w.(db := SetStatus(w.db, s, status)), o)
  {}

  lemma ObserveDbUpdates(w: World, snaps: set<SnapId>, id: Identity, status: Status)
    requires id.occ in w.db.occs
    requires forall s | s in snaps && s in w.db.ledger :: w.db.ledger[s].identity == id
    ensures Updates(w, w.(db := ObserveDb(w.db, snaps, id, status)), id.occ)
  {}

  /** A snapshot the ledger holds was ledgered under the tags it carries. */
  lemma LedgeredIdentity(w: World, s: SnapId, a: Id)
    requires OwnSnapshotsKnown(w) && Bears(w, {s}, a) && s in w.db.ledger
    ensures w.db.ledger[s].identity == OwnIdentity(w.db, a)
  {
    assert LedgeredAsTagged(w, s);
  }

  // ---- each step keeps the invariant -------------------------------------------

  lemma FailKeeps(w: World, a: Id, at: int, to: State)
    requires Inv(w) && IsPending(w.db, a) && to in {Recorded, Abandoned}
    ensures var w' := w.(db := FailDb(w.db, a, at, to)); Evolves(w, w') && Inv(w')
  {
    var o := w.db.attempts[a].occ;
    var w' := w.(db := FailDb(w.db, a, at, to));
    assert w'.db.attempts.Keys == w.db.attempts.Keys;
    hide *;
    FactsOf(w, a);
    FailUpdates(w, a, at, to);
    FailSettles(w, a, at, to);
    FailEarns(w, a, at, to);
    InvFrom(w, w', o);
  }

  lemma FailUpdates(w: World, a: Id, at: int, to: State)
    requires OwnSnapshotsKnown(w) && BindingsOk(w) && IsPending(w.db, a)
    ensures Updates(w, w.(db := FailDb(w.db, a, at, to)), w.db.attempts[a].occ)
  {
    var att := w.db.attempts[a];
    var w1 := w.(db := FinishAttempt(w.db, a, Failed, at));
    var w2 := w1.(db := SetStatus(w1.db, att.snapshot, SnapOrphaned));
    var w3 := w2.(db := SetState(w2.db, att.occ, to));
    assert Updates(w, w1, att.occ) by { OutcomeUpdates(w, a, Failed, at); }
    assert Updates(w1, w2, att.occ) by {
      if att.snapshot.Some? { BoundLedger(w, a); }
      StatusUpdates(w1, att.snapshot, SnapOrphaned, att.occ);
    }
    assert Updates(w2, w3, att.occ) by { StateDbUpdates(w2, att.occ, to); }
    hide *;
    Composed(w, w1, w2, att.occ);
    Composed(w, w2, w3, att.occ);
  }

  lemma BoundLedger(w: World, a: Id)
    requires OwnSnapshotsKnown(w) && BindingsOk(w) && a in w.db.attempts && w.db.attempts[a].snapshot.Some?
    ensures var s := w.db.attempts[a].snapshot.value;
            s in w.db.ledger && w.db.ledger[s].identity.occ == w.db.attempts[a].occ
  {
    assert BindingOk(w, a);
    LedgeredIdentity(w, w.db.attempts[a].snapshot.value, a);
  }

  lemma FailEarns(w: World, a: Id, at: int, to: State)
    requires IsPending(w.db, a) && to in {Recorded, Abandoned}
    ensures Earned(w, w.(db := FailDb(w.db, a, at, to)))
  {}

  lemma FailSettles(w: World, a: Id, at: int, to: State)
    requires IsPending(w.db, a) && to in {Recorded, Abandoned} && SettledAs(w.db, w.db.attempts[a].occ)
    requires IntentFor(w.db, w.db.attempts[a].occ)
    ensures Stands(w.db, FailDb(w.db, a, at, to), w.db.attempts[a].occ)
  {}

  /** What a transaction about `o` must show to keep the invariant. */
  ghost predicate Advances(w: World, w': World, o: Id) {
    && Updates(w, w', o) && Earned(w, w')
    && Stands(w.db, w'.db, o)
    && (w'.db.attempts.Keys == w.db.attempts.Keys || AttemptsOk(w'))
  }

  ghost predicate Facts(w: World, o: Id) {
    o in w.db.occs && SettledAs(w.db, o) && IntentFor(w.db, o)
  }

  lemma AdvanceKeeps(w: World, w': World, o: Id)
    requires Inv(w) && Advances(w, w', o)
    ensures Inv(w') && Evolves(w, w')
  {
    hide Updates, Earned, Stands, AttemptsOk, Inv;
    InvFrom(w, w', o);
  }

  lemma FactsAbout(w: World, o: Id)
    requires Inv(w) && o in w.db.occs
    ensures Facts(w, o) && AttemptsOk(w)
  {}

  lemma FactsFor(w: World, a: Id)
    requires Inv(w) && a in w.db.attempts
    ensures OwnAttempt(w.db, a) && Facts(w, w.db.attempts[a].occ) && AttemptsOk(w)
  {
    FactsOf(w, a);
  }

  lemma Advance(w: World, w': World, o: Id)
    requires Updates(w, w', o) && Earned(w, w')
    requires Stands(w.db, w'.db, o)
    requires w'.db.attempts.Keys == w.db.attempts.Keys || AttemptsOk(w')
    ensures Advances(w, w', o)
  {
    hide Updates, Earned, Stands, AttemptsOk;
  }

  lemma StartAdvances(w: World, a: Id, o: Id, exhausted: bool)
    requires CanStart(w, a, o, exhausted) && Facts(w, o) && AttemptsOk(w)
    ensures Advances(w, w.(db := StartDb(w.db, a, o)), o)
  {
    var w' := w.(db := StartDb(w.db, a, o));
    hide *;
    StartUpdates(w, a, o, exhausted);
    StartEarns(w, a, o, exhausted);
    StartSettles(w, a, o, exhausted);
    StartNumbers(w, a, o, exhausted);
    Advance(w, w', o);
  }

  lemma StartUpdates(w: World, a: Id, o: Id, exhausted: bool)
    requires CanStart(w, a, o, exhausted) && Facts(w, o)
    ensures Updates(w, w.(db := StartDb(w.db, a, o)), o)
  {}

  lemma StartEarns(w: World, a: Id, o: Id, exhausted: bool)
    requires CanStart(w, a, o, exhausted) && Facts(w, o)
    ensures Earned(w, w.(db := StartDb(w.db, a, o)))
  {}

  lemma StartSettles(w: World, a: Id, o: Id, exhausted: bool)
    requires CanStart(w, a, o, exhausted) && Facts(w, o)
    ensures var db' := StartDb(w.db, a, o);
            Stands(w.db, db', o)
  {
    forall x | x in w.db.attempts && w.db.attempts[x].occ == o ensures w.db.attempts[x].outcome == Failed {
      assert x in AttemptsOf(w.db, o);
    }
  }

  lemma StartNumbers(w: World, a: Id, o: Id, exhausted: bool)
    requires AttemptsOk(w) && CanStart(w, a, o, exhausted)
    ensures AttemptsOk(w.(db := StartDb(w.db, a, o)))
  {}

  lemma DigestAdvances(w: World, a: Id)
    requires CanDigest(w, a) && Facts(w, w.db.attempts[a].occ)
    ensures Advances(w, w.(db := DigestDb(w.db, a)), w.db.attempts[a].occ)
  {
    var w' := w.(db := DigestDb(w.db, a));
    var o := w.db.attempts[a].occ;
    hide *;
    DigestUpdates(w, a);
    DigestEarns(w, a);
    DigestSettles(w, a);
    Advance(w, w', o);
  }

  lemma DigestUpdates(w: World, a: Id)
    requires CanDigest(w, a) && Facts(w, w.db.attempts[a].occ)
    ensures Updates(w, w.(db := DigestDb(w.db, a)), w.db.attempts[a].occ)
    ensures DigestDb(w.db, a).attempts.Keys == w.db.attempts.Keys
  {}

  lemma DigestEarns(w: World, a: Id)
    requires CanDigest(w, a) && Facts(w, w.db.attempts[a].occ)
    ensures Earned(w, w.(db := DigestDb(w.db, a)))
  {}

  lemma DigestSettles(w: World, a: Id)
    requires CanDigest(w, a) && Facts(w, w.db.attempts[a].occ)
    ensures var db' := DigestDb(w.db, a);
            Stands(w.db, db', w.db.attempts[a].occ)
  {
    var db, db' := w.db, DigestDb(w.db, a);
    assert forall x | x in db.attempts && BoundPending(db, x, db.attempts[a].occ) ::
             BoundPending(db', x, db.attempts[a].occ);
  }

  lemma AdoptAdvances(w: World, a: Id, s: SnapId)
    requires CanBind(w, {s}, a) && Facts(w, w.db.attempts[a].occ)
    requires w.db.attempts[a].origin == w.db.store
    requires s in w.db.ledger ==> w.db.ledger[s].identity == OwnIdentity(w.db, a)
    ensures Advances(w, w.(db := AdoptDb(w.db, a, s)), w.db.attempts[a].occ)
  {
    var w' := w.(db := AdoptDb(w.db, a, s));
    var o := w.db.attempts[a].occ;
    hide *;
    AdoptUpdates(w, a, s);
    AdoptEarns(w, a, s);
    AdoptSettles(w, a, s);
    Advance(w, w', o);
  }

  lemma AdoptUpdates(w: World, a: Id, s: SnapId)
    requires CanBind(w, {s}, a) && Facts(w, w.db.attempts[a].occ)
    requires w.db.attempts[a].origin == w.db.store
    requires s in w.db.ledger ==> w.db.ledger[s].identity == OwnIdentity(w.db, a)
    ensures Updates(w, w.(db := AdoptDb(w.db, a, s)), w.db.attempts[a].occ)
    ensures AdoptDb(w.db, a, s).attempts.Keys == w.db.attempts.Keys
  {
    hide Updates;
    var w' := w.(db := AdoptDb(w.db, a, s));
    var o := w.db.attempts[a].occ;
    var w1 := w.(db := BindDb(w.db, a, s));
    BindUpdates(w, a, s);
    ObserveDbUpdates(w1, {s}, OwnIdentity(w.db, a), SnapPending);
    Composed(w, w1, w', o);
  }

  lemma AdoptEarns(w: World, a: Id, s: SnapId)
    requires CanBind(w, {s}, a) && Facts(w, w.db.attempts[a].occ)
    requires w.db.attempts[a].origin == w.db.store
    requires s in w.db.ledger ==> w.db.ledger[s].identity == OwnIdentity(w.db, a)
    ensures Earned(w, w.(db := AdoptDb(w.db, a, s)))
  {
    var w' := w.(db := AdoptDb(w.db, a, s));
    assert OwnIdentity(w'.db, a) == OwnIdentity(w.db, a);
  }

  lemma AdoptSettles(w: World, a: Id, s: SnapId)
    requires CanBind(w, {s}, a) && Facts(w, w.db.attempts[a].occ)
    requires w.db.attempts[a].origin == w.db.store
    requires s in w.db.ledger ==> w.db.ledger[s].identity == OwnIdentity(w.db, a)
    ensures var db' := AdoptDb(w.db, a, s);
            Stands(w.db, db', w.db.attempts[a].occ)
  {}

  lemma BindUpdates(w: World, a: Id, s: SnapId)
    requires IsPending(w.db, a) && w.db.attempts[a].snapshot == None
    ensures Updates(w, w.(db := BindDb(w.db, a, s)), w.db.attempts[a].occ)
  {}

  lemma DuplicateAdvances(w: World, a: Id, snaps: set<SnapId>, at: int)
    requires CanBind(w, snaps, a) && Facts(w, w.db.attempts[a].occ)
    requires w.db.attempts[a].origin == w.db.store
    requires forall s | s in snaps && s in w.db.ledger :: w.db.ledger[s].identity == OwnIdentity(w.db, a)
    ensures Advances(w, w.(db := DuplicateDb(w.db, a, snaps, at)), w.db.attempts[a].occ)
  {
    var w' := w.(db := DuplicateDb(w.db, a, snaps, at));
    var o := w.db.attempts[a].occ;
    hide *;
    DuplicateUpdates(w, a, snaps, at);
    DuplicateEarns(w, a, snaps, at);
    DuplicateSettles(w, a, snaps, at);
    Advance(w, w', o);
  }

  lemma DuplicateUpdates(w: World, a: Id, snaps: set<SnapId>, at: int)
    requires CanBind(w, snaps, a) && Facts(w, w.db.attempts[a].occ)
    requires w.db.attempts[a].origin == w.db.store
    requires forall s | s in snaps && s in w.db.ledger :: w.db.ledger[s].identity == OwnIdentity(w.db, a)
    ensures Updates(w, w.(db := DuplicateDb(w.db, a, snaps, at)), w.db.attempts[a].occ)
    ensures DuplicateDb(w.db, a, snaps, at).attempts.Keys == w.db.attempts.Keys
  {
    var w3 := w.(db := DuplicateDb(w.db, a, snaps, at));
    var o := w.db.attempts[a].occ;
    var w1 := w.(db := ObserveDb(w.db, snaps, OwnIdentity(w.db, a), SnapOrphaned));
    var w2 := w1.(db := FinishAttempt(w1.db, a, Failed, at));
    assert Updates(w, w1, o) by { ObserveDbUpdates(w, snaps, OwnIdentity(w.db, a), SnapOrphaned); }
    assert Updates(w1, w2, o) by { OutcomeUpdates(w1, a, Failed, at); }
    assert Updates(w2, w3, o) by { StateDbUpdates(w2, o, Recorded); }
    hide Updates;
    Composed(w, w1, w2, o);
    Composed(w, w2, w3, o);
  }

  lemma DuplicateEarns(w: World, a: Id, snaps: set<SnapId>, at: int)
    requires CanBind(w, snaps, a) && Facts(w, w.db.attempts[a].occ)
    requires w.db.attempts[a].origin == w.db.store
    requires forall s | s in snaps && s in w.db.ledger :: w.db.ledger[s].identity == OwnIdentity(w.db, a)
    ensures Earned(w, w.(db := DuplicateDb(w.db, a, snaps, at)))
  {}

  lemma DuplicateSettles(w: World, a: Id, snaps: set<SnapId>, at: int)
    requires CanBind(w, snaps, a) && Facts(w, w.db.attempts[a].occ)
    requires w.db.attempts[a].origin == w.db.store
    requires forall s | s in snaps && s in w.db.ledger :: w.db.ledger[s].identity == OwnIdentity(w.db, a)
    ensures var db' := DuplicateDb(w.db, a, snaps, at);
            Stands(w.db, db', w.db.attempts[a].occ)
  {}

  lemma ObserveAdvances(w: World, o: Id, snaps: set<SnapId>, id: Identity)
    requires id.occ == o && Facts(w, o)
    requires id.store == w.db.store && forall s | s in snaps :: s in w.repo && w.repo[s].tags == Canonical(id)
    requires forall s | s in snaps && s in w.db.ledger :: w.db.ledger[s].identity == id
    requires HasPending(w.db, o) || snaps !! w.db.ledger.Keys
    ensures Advances(w, w.(db := ObserveDb(w.db, snaps, id, SnapPending)), o)
  {
    var w' := w.(db := ObserveDb(w.db, snaps, id, SnapPending));
    hide *;
    ObserveUpdates(w, o, snaps, id);
    ObserveEarns(w, o, snaps, id);
    ObserveSettles(w, o, snaps, id);
    Advance(w, w', o);
  }

  lemma ObserveUpdates(w: World, o: Id, snaps: set<SnapId>, id: Identity)
    requires id.occ == o && Facts(w, o)
    requires id.store == w.db.store && forall s | s in snaps :: s in w.repo && w.repo[s].tags == Canonical(id)
    requires forall s | s in snaps && s in w.db.ledger :: w.db.ledger[s].identity == id
    requires HasPending(w.db, o) || snaps !! w.db.ledger.Keys
    ensures Updates(w, w.(db := ObserveDb(w.db, snaps, id, SnapPending)), o)
    ensures ObserveDb(w.db, snaps, id, SnapPending).attempts.Keys == w.db.attempts.Keys
  {
    ObserveDbUpdates(w, snaps, id, SnapPending);
  }

  lemma ObserveEarns(w: World, o: Id, snaps: set<SnapId>, id: Identity)
    requires id.occ == o && Facts(w, o)
    requires id.store == w.db.store && forall s | s in snaps :: s in w.repo && w.repo[s].tags == Canonical(id)
    requires forall s | s in snaps && s in w.db.ledger :: w.db.ledger[s].identity == id
    requires HasPending(w.db, o) || snaps !! w.db.ledger.Keys
    ensures Earned(w, w.(db := ObserveDb(w.db, snaps, id, SnapPending)))
  {}

  lemma ObserveSettles(w: World, o: Id, snaps: set<SnapId>, id: Identity)
    requires id.occ == o && Facts(w, o)
    requires id.store == w.db.store && forall s | s in snaps :: s in w.repo && w.repo[s].tags == Canonical(id)
    requires forall s | s in snaps && s in w.db.ledger :: w.db.ledger[s].identity == id
    requires HasPending(w.db, o) || snaps !! w.db.ledger.Keys
    ensures var db' := ObserveDb(w.db, snaps, id, SnapPending);
            Stands(w.db, db', o)
  {}

  lemma StateAdvances(w: World, o: Id, s: State)
    requires s != Evicting && Facts(w, o) && (Active(s) ==> Active(w.db.occs[o].state))
    requires w.db.occs[o].state != Evicting && SettledAs(SetState(w.db, o, s), o)
    requires s == Verified ==> forall a :: IsPending(w.db, a) && w.db.attempts[a].occ == o ==> PayloadProven(w, a)
    ensures Advances(w, w.(db := SetState(w.db, o, s)), o)
  {
    var w' := w.(db := SetState(w.db, o, s));
    hide *;
    StateUpdates(w, o, s);
    StateEarns(w, o, s);
    StateSettles(w, o, s);
    Advance(w, w', o);
  }

  lemma StateUpdates(w: World, o: Id, s: State)
    requires s != Evicting && Facts(w, o) && (Active(s) ==> Active(w.db.occs[o].state))
    requires w.db.occs[o].state != Evicting && SettledAs(SetState(w.db, o, s), o)
    requires s == Verified ==> forall a :: IsPending(w.db, a) && w.db.attempts[a].occ == o ==> PayloadProven(w, a)
    ensures Updates(w, w.(db := SetState(w.db, o, s)), o)
    ensures SetState(w.db, o, s).attempts.Keys == w.db.attempts.Keys
  {
    StateDbUpdates(w, o, s);
  }

  lemma StateEarns(w: World, o: Id, s: State)
    requires s != Evicting && Facts(w, o) && (Active(s) ==> Active(w.db.occs[o].state))
    requires w.db.occs[o].state != Evicting && SettledAs(SetState(w.db, o, s), o)
    requires s == Verified ==> forall a :: IsPending(w.db, a) && w.db.attempts[a].occ == o ==> PayloadProven(w, a)
    ensures Earned(w, w.(db := SetState(w.db, o, s)))
  {
    var w' := w.(db := SetState(w.db, o, s));
    if s == Verified {
      StateDbUpdates(w, o, s);
      forall a | IsPending(w.db, a) && w.db.attempts[a].occ == o ensures PayloadProven(w', a) {
        PayloadStable(w, w', a);
      }
    }
  }

  lemma StateSettles(w: World, o: Id, s: State)
    requires s != Evicting && Facts(w, o) && (Active(s) ==> Active(w.db.occs[o].state))
    requires w.db.occs[o].state != Evicting && SettledAs(SetState(w.db, o, s), o)
    requires s == Verified ==> forall a :: IsPending(w.db, a) && w.db.attempts[a].occ == o ==> PayloadProven(w, a)
    ensures var db' := SetState(w.db, o, s);
            Stands(w.db, db', o)
  {}

  lemma ConfirmAdvances(w: World, a: Id, at: int)
    requires CanConfirm(w, a) && Facts(w, w.db.attempts[a].occ)
    requires PayloadProven(w, a) && w.db.attempts[a].digest.Some?
    requires var s := w.db.attempts[a].snapshot.value;
             s in w.db.ledger && w.db.ledger[s].identity.occ == w.db.attempts[a].occ
    ensures Advances(w, w.(db := ConfirmDb(w.db, a, at)), w.db.attempts[a].occ)
  {
    var w' := w.(db := ConfirmDb(w.db, a, at));
    var o := w.db.attempts[a].occ;
    hide *;
    ConfirmUpdates(w, a, at);
    ConfirmEarns(w, a, at);
    ConfirmSettles(w, a, at);
    Advance(w, w', o);
  }

  lemma ConfirmUpdates(w: World, a: Id, at: int)
    requires CanConfirm(w, a) && Facts(w, w.db.attempts[a].occ)
    requires PayloadProven(w, a) && w.db.attempts[a].digest.Some?
    requires var s := w.db.attempts[a].snapshot.value;
             s in w.db.ledger && w.db.ledger[s].identity.occ == w.db.attempts[a].occ
    ensures Updates(w, w.(db := ConfirmDb(w.db, a, at)), w.db.attempts[a].occ)
    ensures ConfirmDb(w.db, a, at).attempts.Keys == w.db.attempts.Keys
  {
    hide Updates;
    var att := w.db.attempts[a];
    var w1 := w.(db := FinishAttempt(w.db, a, Confirmed, at));
    var w2 := w1.(db := SetStatus(w1.db, att.snapshot, SnapConfirmed));
    var w3 := w.(db := ConfirmDb(w.db, a, at));
    assert Updates(w, w1, att.occ) by { OutcomeUpdates(w, a, Confirmed, at); }
    assert Updates(w1, w2, att.occ) by { StatusUpdates(w1, att.snapshot, SnapConfirmed, att.occ); }
    assert Updates(w2, w3, att.occ) by { PublishedUpdates(w2, att.occ, a, att.seqno); }
    Composed(w, w1, w2, att.occ);
    Composed(w, w2, w3, att.occ);
  }

  lemma ConfirmEarns(w: World, a: Id, at: int)
    requires CanConfirm(w, a) && Facts(w, w.db.attempts[a].occ)
    requires PayloadProven(w, a) && w.db.attempts[a].digest.Some?
    requires var s := w.db.attempts[a].snapshot.value;
             s in w.db.ledger && w.db.ledger[s].identity.occ == w.db.attempts[a].occ
    ensures Earned(w, w.(db := ConfirmDb(w.db, a, at)))
  {
    var w' := w.(db := ConfirmDb(w.db, a, at));
    ConfirmUpdates(w, a, at);
    PayloadStable(w, w', a);
    CatalogStable(w, w', a);
    hide Updates;
    ConfirmProves(w, a, at);
    ConfirmBinds(w, a, at);
    hide BindingEarned, SnapEarned, ProofEarned, ConfirmDb, CanConfirm;
  }

  lemma ConfirmProves(w: World, a: Id, at: int)
    requires CanConfirm(w, a)
    requires var w' := w.(db := ConfirmDb(w.db, a, at)); PayloadProven(w', a) && RemoteCatalogProven(w', a)
    ensures forall b {:trigger ProofEarned(w, w.(db := ConfirmDb(w.db, a, at)), b)} ::
              ProofEarned(w, w.(db := ConfirmDb(w.db, a, at)), b)
  {
    hide PayloadProven, RemoteCatalogProven;
  }

  lemma ConfirmBinds(w: World, a: Id, at: int)
    requires CanConfirm(w, a)
    ensures forall b {:trigger BindingEarned(w, w.(db := ConfirmDb(w.db, a, at)), b)} ::
              BindingEarned(w, w.(db := ConfirmDb(w.db, a, at)), b)
    ensures forall s {:trigger SnapEarned(w, w.(db := ConfirmDb(w.db, a, at)), s)} ::
              SnapEarned(w, w.(db := ConfirmDb(w.db, a, at)), s)
  {
    hide PayloadProven, RemoteCatalogProven;
  }

  lemma ConfirmSettles(w: World, a: Id, at: int)
    requires CanConfirm(w, a) && Facts(w, w.db.attempts[a].occ)
    requires PayloadProven(w, a) && w.db.attempts[a].digest.Some?
    requires var s := w.db.attempts[a].snapshot.value;
             s in w.db.ledger && w.db.ledger[s].identity.occ == w.db.attempts[a].occ
    ensures var db' := ConfirmDb(w.db, a, at);
            Stands(w.db, db', w.db.attempts[a].occ)
  {}

  lemma PublishedUpdates(w: World, o: Id, a: Id, seqno: nat)
    requires o in w.db.occs
    ensures Updates(w, w.(db := PublishedDb(w.db, o, a, seqno)), o)
  {}

  lemma BeginAdvances(w: World, o: Id)
    requires IsIn(w, o, Recoverable) && Facts(w, o)
    ensures Advances(w, w.(db := BeginDb(w.db, o)), o)
  {
    var w' := w.(db := BeginDb(w.db, o));
    hide *;
    BeginUpdates(w, o);
    BeginEarns(w, o);
    BeginSettles(w, o);
    Advance(w, w', o);
  }

  lemma BeginUpdates(w: World, o: Id)
    requires IsIn(w, o, Recoverable) && Facts(w, o)
    ensures Updates(w, w.(db := BeginDb(w.db, o)), o)
    ensures BeginDb(w.db, o).attempts.Keys == w.db.attempts.Keys
  {}

  lemma BeginEarns(w: World, o: Id)
    requires IsIn(w, o, Recoverable) && Facts(w, o)
    ensures Earned(w, w.(db := BeginDb(w.db, o)))
  {}

  lemma BeginSettles(w: World, o: Id)
    requires IsIn(w, o, Recoverable) && Facts(w, o)
    ensures var db' := BeginDb(w.db, o);
            Stands(w.db, db', o)
  {}

  lemma FinishAdvances(w: World, o: Id)
    requires CanFinish(w, o) && Facts(w, o)
    ensures Advances(w, w.(db := FinishDb(w.db, o)), o)
  {
    var w' := w.(db := FinishDb(w.db, o));
    hide *;
    FinishUpdates(w, o);
    FinishEarns(w, o);
    FinishSettles(w, o);
    Advance(w, w', o);
  }

  lemma FinishUpdates(w: World, o: Id)
    requires CanFinish(w, o) && Facts(w, o)
    ensures Updates(w, w.(db := FinishDb(w.db, o)), o)
    ensures FinishDb(w.db, o).attempts.Keys == w.db.attempts.Keys
  {}

  lemma FinishEarns(w: World, o: Id)
    requires CanFinish(w, o) && Facts(w, o)
    ensures Earned(w, w.(db := FinishDb(w.db, o)))
  {}

  lemma FinishSettles(w: World, o: Id)
    requires CanFinish(w, o) && Facts(w, o)
    ensures var db' := FinishDb(w.db, o);
            Stands(w.db, db', o)
  {}

  // ---- steps that leave the store alone, and captures ------------------------------

  lemma OutsideKeeps(w: World, w': World)
    requires Inv(w) && Evolves(w, w') && w'.db == w.db && Earned(w, w') && ManifestsSound(w')
    ensures Inv(w')
  {
    BindingsFrom(w, w');
    KnownFrom(w, w');
    ProofsFrom(w, w');
    hide BindingsOk, OwnSnapshotsKnown, ProofsHold, ManifestsSound, Evolves, Earned;
  }

  lemma PublishedKeeps(w: World, s: SnapId, content: Snap)
    requires Inv(w) && s !in w.repo
    requires ForeignTags(content.tags, w.db.store) || Bears(WithSnap(w, s, content), {s}, content.tags.id.attempt)
    ensures Evolves(w, WithSnap(w, s, content)) && Inv(WithSnap(w, s, content))
  {
    var w' := WithSnap(w, s, content);
    assert Evolves(w, w');
    assert Earned(w, w') by { PublishedEarns(w, s, content); }
    assert ManifestsSound(w') by {
      forall o ensures ManifestSound(w', o) { assert ManifestSound(w, o); }
    }
    hide Inv, Evolves, Earned, ManifestsSound;
    OutsideKeeps(w, w');
  }

  lemma PublishedEarns(w: World, s: SnapId, content: Snap)
    requires s !in w.repo
    requires ForeignTags(content.tags, w.db.store) || Bears(WithSnap(w, s, content), {s}, content.tags.id.attempt)
    ensures Earned(w, WithSnap(w, s, content))
  {}

  lemma DiskKeeps(w: World, disk: Disk, clock: int)
    requires Inv(w) && CanEdit(w, disk, clock)
    ensures var w' := w.(disk := disk, clock := clock); Evolves(w, w') && Inv(w')
  {
    hide *;
    InvParts(w);
    ManifestsStaySound(w, disk, clock);
    RowsAreTheSame(w, disk, clock);
    OutsideKeeps(w, w.(disk := disk, clock := clock));
  }

  lemma ManifestsStaySound(w: World, disk: Disk, clock: int)
    requires ManifestsSound(w) && CanEdit(w, disk, clock)
    ensures ManifestsSound(w.(disk := disk, clock := clock))
  {
    hide Captured, InodesAgree, InDrop, ItemShape;
    var w' := w.(disk := disk, clock := clock);
    forall o ensures ManifestSound(w', o) {
      assert ManifestSound(w, o);
      if o in w.db.occs { CapturedStable(w.db.occs[o], w.disk, w.clock, disk, clock); }
    }
  }

  lemma RowsAreTheSame(w: World, disk: Disk, clock: int)
    requires CanEdit(w, disk, clock)
    ensures var w' := w.(disk := disk, clock := clock); Evolves(w, w') && Earned(w, w')
  {}

  /** What the hash was taken of stays what the stamp denotes, whatever is edited. */
  lemma CapturedStable(row: Occ, disk: Disk, clock: int, disk': Disk, clock': int)
    requires Captured(row, disk, clock) && LegalEdit(disk, clock, disk', clock')
    ensures Captured(row, disk', clock')
  {
    forall rel, q | rel in row.prints && q in disk' && SameStamp(disk'[q], row.prints[rel])
                    && disk'[q].body.FileBody? && row.entries[rel].etype == FileEntry
      ensures row.entries[rel].sha == Some(Sha256(disk'[q].body.content))
    {
      assert disk'[q] in disk.Values;
      var q0 :| q0 in disk && disk[q0] == disk'[q];
    }
  }

  /** Unlinking is one more edit: what it touches gets a fresh change time. */
  lemma UnlinkIsAnEdit(w: World, p: string)
    requires p in w.disk && InodesAgree(w.disk) && InDrop(w.disk, w.drop)
    requires w.disk[p].body.DirBody? ==> Empty(w.disk, p)
    requires forall q | q in w.disk :: w.disk[q].ctime <= w.clock
    ensures CanEdit(w, Unlinked(w, p).disk, Unlinked(w, p).clock)
  {
    UnlinkKeepsPlaces(w.disk, w.clock, w.drop, p);
    hide InDrop, Empty;
  }

  lemma UnlinkKeepsPlaces(disk: Disk, clock: int, drop: string, p: string)
    requires p in disk && InDrop(disk, drop) && (disk[p].body.DirBody? ==> Empty(disk, p))
    ensures InDrop(Without(disk, clock, p), drop)
  {
    forall q | q in disk && q != p ensures Placed(Without(disk, clock, p), drop, q) {
      assert Placed(disk, drop, q) && Placed(disk, drop, p);
      if Parent(q) == p { PlainEnd(q[1..]); ParentIsAbove(q); }
    }
  }

  lemma RecordKeeps(w: World, o: Id, row: Occ)
    requires Inv(w) && CanRecord(w, o, row)
    ensures var w' := w.(db := RecordDb(w.db, o, row)); Evolves(w, w') && Inv(w')
  {
    var w' := w.(db := RecordDb(w.db, o, row));
    InvParts(w);
    hide *;
    RecordSettles(w, o, row);
    RecordEvolves(w, o, row);
    RecordEarns(w, o, row);
    RecordsRow(w, o, row);
    BindingsFrom2(w, w');
    InvFromParts(w');
  }

  lemma InvParts(w: World)
    requires Inv(w)
    ensures SpoolsOk(w) && AttemptsOk(w) && BindingsOk(w) && Settled(w) && OwnSnapshotsKnown(w)
    ensures ProofsHold(w) && ManifestsSound(w) && IntentsOk(w)
  {
    hide SpoolsOk, AttemptsOk, BindingsOk, Settled, OwnSnapshotsKnown, ProofsHold, ManifestsSound, IntentsOk;
  }

  lemma InvFromParts(w: World)
    requires SpoolsOk(w) && AttemptsOk(w) && BindingsOk(w) && Settled(w) && OwnSnapshotsKnown(w)
    requires ProofsHold(w) && ManifestsSound(w) && IntentsOk(w)
    ensures Inv(w)
  {
    hide SpoolsOk, AttemptsOk, BindingsOk, Settled, OwnSnapshotsKnown, ProofsHold, ManifestsSound, IntentsOk;
  }

  lemma BindingsFrom2(w: World, w': World)
    requires BindingsOk(w) && OwnSnapshotsKnown(w) && ProofsHold(w) && Evolves(w, w') && Earned(w, w')
    ensures BindingsOk(w') && OwnSnapshotsKnown(w') && ProofsHold(w')
  {
    BindingsFrom(w, w');
    KnownFrom(w, w');
    ProofsFrom(w, w');
  }

  lemma RecordEvolves(w: World, o: Id, row: Occ)
    requires CanRecord(w, o, row)
    ensures Evolves(w, w.(db := RecordDb(w.db, o, row)))
  {}

  lemma RecordEarns(w: World, o: Id, row: Occ)
    requires CanRecord(w, o, row) && AttemptsOk(w)
    ensures Earned(w, w.(db := RecordDb(w.db, o, row)))
  {}

  lemma RecordsRow(w: World, o: Id, row: Occ)
    requires CanRecord(w, o, row) && SpoolsOk(w) && AttemptsOk(w) && ManifestsSound(w) && IntentsOk(w)
    ensures var w' := w.(db := RecordDb(w.db, o, row));
            SpoolsOk(w') && AttemptsOk(w') && ManifestsSound(w') && IntentsOk(w')
  {
    hide *;
    RecordsSpool(w, o, row);
    RecordsOwn(w, o, row);
    RecordsManifest(w, o, row);
    RecordsNoIntent(w, o, row);
  }

  lemma RecordsSpool(w: World, o: Id, row: Occ)
    requires CanRecord(w, o, row) && SpoolsOk(w)
    ensures SpoolsOk(w.(db := RecordDb(w.db, o, row)))
  {
    hide ItemShape, Captured, Parent;
  }

  lemma RecordsOwn(w: World, o: Id, row: Occ)
    requires CanRecord(w, o, row) && AttemptsOk(w)
    ensures AttemptsOk(w.(db := RecordDb(w.db, o, row)))
  {
    hide ItemShape, Captured, Parent;
  }

  lemma RecordsManifest(w: World, o: Id, row: Occ)
    requires CanRecord(w, o, row) && ManifestsSound(w)
    ensures ManifestsSound(w.(db := RecordDb(w.db, o, row)))
  {
    var w' := w.(db := RecordDb(w.db, o, row));
    hide ItemShape, Captured, Parent;
    forall x ensures ManifestSound(w', x) { assert ManifestSound(w, x); }
  }

  lemma RecordsNoIntent(w: World, o: Id, row: Occ)
    requires CanRecord(w, o, row) && IntentsOk(w)
    ensures IntentsOk(w.(db := RecordDb(w.db, o, row)))
  {
    hide ItemShape, Captured, Parent;
  }

  lemma RecordSettles(w: World, o: Id, row: Occ)
    requires Settled(w) && AttemptsOk(w) && CanRecord(w, o, row)
    ensures Settled(w.(db := RecordDb(w.db, o, row)))
  {
    var db, db' := w.db, RecordDb(w.db, o, row);
    forall x | x in db'.occs ensures SettledAs(db', x) {
      if x in db.occs {
        SettledBeside(db, o, row, x);
      } else {
        assert forall a | a in db.attempts :: db.attempts[a].occ != o;
      }
    }
  }

  lemma SettledBeside(db: Db, o: Id, row: Occ, x: Id)
    requires x in db.occs && x != o && SettledAs(db, x)
    ensures SettledAs(RecordDb(db, o, row), x)
  {
    var db' := RecordDb(db, o, row);
    if OneBoundPending(db, x) {
      var a :| a in db.attempts && BoundPending(db, a, x);
      assert BoundPending(db', a, x);
    }
  }

  // ---- main results -----------------------------------------------------------------

  lemma AttemptStepKeeps(w: World, step: Step)
    requires Inv(w) && Enabled(w, step)
    requires step.StartAttempt? || step.SetDigest? || step.Adopt? || step.Fail? || step.Duplicate? || step.Abandon?
    ensures Evolves(w, Do(w, step)) && Inv(Do(w, step))
  {
    hide Inv, Evolves, CanStart, CanDigest, CanBind, Advances, Facts;
    match step
    case StartAttempt(a, o, exhausted) =>
      StartIn(w, a, o, exhausted);
    case SetDigest(a) =>
      DigestIn(w, a);
    case Adopt(a, s) =>
      AdoptIn(w, a, s);
    case Fail(a, at) => FailKeeps(w, a, at, Recorded);
    case Duplicate(a, snaps, at) => DuplicateIn(w, a, snaps, at);
    case Abandon(a, at) => FailKeeps(w, a, at, Abandoned);
  }

  lemma StartIn(w: World, a: Id, o: Id, exhausted: bool)
    requires Inv(w) && CanStart(w, a, o, exhausted)
    ensures var w' := w.(db := StartDb(w.db, a, o)); Evolves(w, w') && Inv(w')
  {
    assert o in w.db.occs;
    hide *;
    FactsAbout(w, o);
    StartAdvances(w, a, o, exhausted);
    AdvanceKeeps(w, w.(db := StartDb(w.db, a, o)), o);
  }

  lemma DigestIn(w: World, a: Id)
    requires Inv(w) && CanDigest(w, a)
    ensures var w' := w.(db := DigestDb(w.db, a)); Evolves(w, w') && Inv(w')
  {
    var o, w' := w.db.attempts[a].occ, w.(db := DigestDb(w.db, a));
    hide *;
    FactsFor(w, a);
    DigestAdvances(w, a);
    AdvanceKeeps(w, w', o);
  }

  lemma OwnLedger(w: World, snaps: set<SnapId>, a: Id)
    requires Inv(w) && Bears(w, snaps, a)
    ensures w.db.attempts[a].origin == w.db.store
    ensures forall s | s in snaps && s in w.db.ledger :: w.db.ledger[s].identity == OwnIdentity(w.db, a)
  {
    forall s | s in snaps && s in w.db.ledger ensures w.db.ledger[s].identity == OwnIdentity(w.db, a) {
      LedgeredIdentity(w, s, a);
    }
  }

  lemma AdoptIn(w: World, a: Id, s: SnapId)
    requires Inv(w) && CanBind(w, {s}, a)
    ensures var w' := w.(db := AdoptDb(w.db, a, s)); Evolves(w, w') && Inv(w')
  {
    var o, w' := w.db.attempts[a].occ, w.(db := AdoptDb(w.db, a, s));
    OwnLedger(w, {s}, a);
    hide *;
    FactsFor(w, a);
    AdoptAdvances(w, a, s);
    AdvanceKeeps(w, w', o);
  }

  lemma DuplicateIn(w: World, a: Id, snaps: set<SnapId>, at: int)
    requires Inv(w) && CanBind(w, snaps, a)
    ensures var w' := w.(db := DuplicateDb(w.db, a, snaps, at)); Evolves(w, w') && Inv(w')
  {
    var o, w' := w.db.attempts[a].occ, w.(db := DuplicateDb(w.db, a, snaps, at));
    OwnLedger(w, snaps, a);
    hide *;
    FactsFor(w, a);
    DuplicateAdvances(w, a, snaps, at);
    AdvanceKeeps(w, w', o);
  }

  lemma StateIn(w: World, a: Id, s: State)
    requires Inv(w)
    requires || (s == Transferred && CanTransfer(w, a))
             || (s == Verified && CanVerify(w, a))
    ensures var w' := w.(db := SetState(w.db, w.db.attempts[a].occ, s)); Evolves(w, w') && Inv(w')
  {
    var o := w.db.attempts[a].occ;
    var w' := w.(db := SetState(w.db, o, s));
    FactsFor(w, a);
    PendingSettles(w, a, s);
    hide *;
    StateAdvances(w, o, s);
    AdvanceKeeps(w, w', o);
  }

  lemma PendingSettles(w: World, a: Id, s: State)
    requires IsPending(w.db, a) && w.db.attempts[a].snapshot.Some? && Facts(w, w.db.attempts[a].occ)
    requires s == Transferred || (s == Verified && PayloadProven(w, a))
    ensures var o := w.db.attempts[a].occ;
            && w.db.occs[o].state != Evicting && Active(w.db.occs[o].state)
            && SettledAs(SetState(w.db, o, s), o)
            && (s == Verified ==>
                  forall b :: IsPending(w.db, b) && w.db.attempts[b].occ == o ==> PayloadProven(w, b))
  {
    assert BoundPending(SetState(w.db, w.db.attempts[a].occ, s), a, w.db.attempts[a].occ);
  }

  lemma DropIn(w: World, o: Id)
    requires Inv(w) && IsIn(w, o, Recoverable)
    ensures var w' := w.(db := SetState(w.db, o, Abandoned)); Evolves(w, w') && Inv(w')
  {
    hide *;
    DropInFacts(w, o);
    var w' := w.(db := SetState(w.db, o, Abandoned));
    StateAdvances(w, o, Abandoned);
    AdvanceKeeps(w, w', o);
  }

  lemma DropInFacts(w: World, o: Id)
    requires Inv(w) && IsIn(w, o, Recoverable)
    ensures o in w.db.occs && w.db.occs[o].state == Recoverable && Facts(w, o)
    ensures !Active(Abandoned) && SettledAs(SetState(w.db, o, Abandoned), o)
  {
    hide Inv, Facts, AttemptsOk, OneConfirmed, SettledAs, SetState, Active;
    FactsAbout(w, o);
    RecoverableRow(w, o);
    AbandonedSettles(w.db, o);
  }

  lemma RecoverableRow(w: World, o: Id)
    requires IsIn(w, o, Recoverable) && Facts(w, o)
    ensures o in w.db.occs && w.db.occs[o].state == Recoverable && OneConfirmed(w.db, o) && !Active(Abandoned)
  {}

  lemma AbandonedSettles(db: Db, o: Id)
    requires o in db.occs && db.occs[o].state == Recoverable && OneConfirmed(db, o)
    ensures SettledAs(SetState(db, o, Abandoned), o)
  {
    assert OneConfirmed(SetState(db, o, Abandoned), o);
  }

  lemma ConfirmIn(w: World, a: Id, at: int)
    requires Inv(w) && CanConfirm(w, a)
    ensures var w' := w.(db := ConfirmDb(w.db, a, at)); Evolves(w, w') && Inv(w')
  {
    var o, w' := w.db.attempts[a].occ, w.(db := ConfirmDb(w.db, a, at));
    assert PayloadProven(w, a) && w.db.attempts[a].digest.Some? by {
      assert ProofHolds(w, a) && BindingOk(w, a);
    }
    BoundLedger(w, a);
    FactsFor(w, a);
    hide *;
    ConfirmAdvances(w, a, at);
    AdvanceKeeps(w, w', o);
  }

  lemma ObserveIn(w: World, s: SnapId)
    requires Inv(w) && CanObserve(w, s)
    ensures var w' := w.(db := ObserveDb(w.db, {s}, w.repo[s].tags.id, SnapPending)); Evolves(w, w') && Inv(w')
  {
    var id := w.repo[s].tags.id;
    var w' := w.(db := ObserveDb(w.db, {s}, id, SnapPending));
    FactsAbout(w, id.occ);
    hide Inv, Facts, Advances, Evolves, MatchingAttempt, AttemptsOk;
    ObserveAdvances(w, id.occ, {s}, id);
    AdvanceKeeps(w, w', id.occ);
  }

  lemma ReobserveIn(w: World, a: Id, snaps: set<SnapId>)
    requires Inv(w) && CanReobserve(w, a, snaps)
    ensures var w' := w.(db := ObserveDb(w.db, snaps, OwnIdentity(w.db, a), SnapPending)); Evolves(w, w') && Inv(w')
  {
    var id, o := OwnIdentity(w.db, a), w.db.attempts[a].occ;
    var w' := w.(db := ObserveDb(w.db, snaps, id, SnapPending));
    OwnLedger(w, snaps, a);
    FactsFor(w, a);
    hide Inv, Facts, Advances, Evolves, AttemptsOk;
    ObserveAdvances(w, o, snaps, id);
    AdvanceKeeps(w, w', o);
  }

  lemma BeginIn(w: World, o: Id)
    requires Inv(w) && IsIn(w, o, Recoverable)
    ensures var w' := w.(db := BeginDb(w.db, o)); Evolves(w, w') && Inv(w')
  {
    var w' := w.(db := BeginDb(w.db, o));
    FactsAbout(w, o);
    hide *;
    BeginAdvances(w, o);
    AdvanceKeeps(w, w', o);
  }

  lemma FinishIn(w: World, o: Id)
    requires Inv(w) && CanFinish(w, o)
    ensures var w' := w.(db := FinishDb(w.db, o)); Evolves(w, w') && Inv(w')
  {
    var w' := w.(db := FinishDb(w.db, o));
    FactsAbout(w, o);
    hide *;
    FinishAdvances(w, o);
    AdvanceKeeps(w, w', o);
  }

  lemma UnlinkIn(w: World, o: Id, rel: string)
    requires Inv(w) && CanUnlink(w, o, rel)
    ensures var w' := Unlinked(w, Abs(w.db.occs[o].spool, rel)); Evolves(w, w') && Inv(w')
  {
    var p := Abs(w.db.occs[o].spool, rel);
    UnlinkIsAnEdit(w, p);
    DiskKeeps(w, Unlinked(w, p).disk, Unlinked(w, p).clock);
  }

  /** Every step of the protocol keeps the invariant and loses no evidence. */
  lemma StepKeeps(w: World, step: Step)
    requires Inv(w) && Enabled(w, step)
    ensures Evolves(w, Do(w, step)) && Inv(Do(w, step))
  {
    if step.StartAttempt? || step.SetDigest? || step.Adopt? || step.Fail? || step.Duplicate? || step.Abandon? {
      AttemptStepKeeps(w, step);
    } else {
      OtherStepKeeps(w, step);
    }
  }

  lemma OtherStepKeeps(w: World, step: Step)
    requires Inv(w) && Enabled(w, step)
    requires !(step.StartAttempt? || step.SetDigest? || step.Adopt? || step.Fail? || step.Duplicate? || step.Abandon?)
    ensures Evolves(w, Do(w, step)) && Inv(Do(w, step))
  {
    hide Inv, Evolves, CanRecord, CanTransfer, CanVerify, CanConfirm, CanObserve, CanReobserve, CanUnlink, CanFinish;
    hide CanEdit, IsIn, RecordDb, SetState, ConfirmDb, ObserveDb, BeginDb, FinishDb, Unlinked, WithSnap;
    match step
    case Begin(_) => NothingEvolves(w);
    case Call(_) => NothingEvolves(w);
    case Record(o, row) => RecordKeeps(w, o, row);
    case Transfer(a) => StateIn(w, a, Transferred);
    case Verify(a) => StateIn(w, a, Verified);
    case Confirm(a, at) => ConfirmIn(w, a, at);
    case AbandonConfirmed(o) => DropIn(w, o);
    case Observe(s) => ObserveIn(w, s);
    case Reobserve(a, snaps) => ReobserveIn(w, a, snaps);
    case BeginEviction(o) => BeginIn(w, o);
    case Unlink(o, rel) => UnlinkIn(w, o, rel);
    case Finish(o) => FinishIn(w, o);
    case Publish(s, a, time, tree, catalog) => PublishIn(w, s, a, time, tree, catalog);
    case Foreign(s, content) => PublishedKeeps(w, s, content);
    case Edit(disk', clock') => DiskKeeps(w, disk', clock');
  }

  lemma NothingEvolves(w: World)
    ensures Evolves(w, w)
  {}

  lemma PublishIn(w: World, s: SnapId, a: Id, time: int, tree: map<string, Source>, catalog: Option<Export>)
    requires Inv(w) && CanPublish(w, s, a)
    ensures var w' := WithSnap(w, s, Snap(Canonical(OwnIdentity(w.db, a)), time, tree, catalog));
            Evolves(w, w') && Inv(w')
  {
    var content := Snap(Canonical(OwnIdentity(w.db, a)), time, tree, catalog);
    assert Bears(WithSnap(w, s, content), {s}, a);
    PublishedKeeps(w, s, content);
  }
}
