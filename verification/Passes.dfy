/** One whole drain: the gate, the three passes, and what two quiet drains achieve. */
module Passes {
  import opened Wrappers
  import opened States
  import opened Paths
  import opened Records
  import opened Order
  import opened Protocol
  import opened Invariant
  import opened Safety
  import opened LocalStore
  import opened Capture
  import opened Eviction
  import opened Drain

  // ---- the occurrences a stretch of work leaves alone -----------------------------------

  /** The attempt rows of one occurrence. */
  function RowsOf(db: Db, x: Id): map<Id, Attempt> {
    map a | a in db.attempts && db.attempts[a].occ == x :: db.attempts[a]
  }

  ghost predicate SameRows(db: Db, db': Db, x: Id) {
    x in db.occs ==> x in db'.occs && db'.occs[x] == db.occs[x] && RowsOf(db', x) == RowsOf(db, x)
  }

  /** Nothing of `x` changed: neither its rows nor how its entries stand. */
  ghost predicate Kept(w: World, w': World, x: Id) {
    SameRows(w.db, w'.db, x) && (Steady(w, x) ==> Steady(w', x)) && (Gone(w, x) ==> Gone(w', x))
  }

  lemma KeptOn(w: World, w1: World, w2: World, x: Id)
    requires Kept(w, w1, x) && Kept(w1, w2, x)
    ensures Kept(w, w2, x)
  {
    hide RowsOf, Isolated, Unchanged, Clean;
  }

  lemma FailSpares(db: Db, a: Id, at: int, to: State, x: Id)
    requires OwnAttempt(db, a) && db.attempts[a].occ != x
    ensures SameRows(db, FailDb(db, a, at, to), x)
  {}

  lemma DuplicateSpares(db: Db, a: Id, snaps: set<SnapId>, at: int, x: Id)
    requires OwnAttempt(db, a) && db.attempts[a].digest.Some? && db.attempts[a].occ != x
    ensures SameRows(db, DuplicateDb(db, a, snaps, at), x)
  {}

  lemma AdoptSpares(db: Db, a: Id, s: SnapId, x: Id)
    requires OwnAttempt(db, a) && db.attempts[a].digest.Some? && db.attempts[a].occ != x
    ensures SameRows(db, AdoptDb(db, a, s), x)
  {}

  lemma ConfirmSpares(db: Db, a: Id, at: int, x: Id)
    requires OwnAttempt(db, a) && db.attempts[a].snapshot.Some? && db.attempts[a].occ != x
    ensures SameRows(db, ConfirmDb(db, a, at), x)
  {}

  lemma StateSpares(db: Db, o: Id, s: State, x: Id)
    requires o in db.occs && x != o
    ensures SameRows(db, SetState(db, o, s), x) && SameRows(db, BeginDb(db, o), x) && SameRows(db, FinishDb(db, o), x)
  {}

  lemma StartSpares(db: Db, a: Id, o: Id, x: Id)
    requires a !in db.attempts && x != o
    ensures SameRows(db, StartDb(db, a, o), x)
  {}

  lemma DigestSpares(db: Db, a: Id, x: Id)
    requires a in db.attempts && db.attempts[a].occ != x
    ensures SameRows(db, DigestDb(db, a), x)
  {}

  lemma ObserveSpares(db: Db, snaps: set<SnapId>, id: Identity, x: Id)
    ensures SameRows(db, ObserveDb(db, snaps, id, SnapPending), x)
  {}

  lemma RecordSpares(db: Db, o: Id, row: Occ, x: Id)
    requires x != o
    ensures SameRows(db, RecordDb(db, o, row), x)
  {}

  lemma NothingSpares(db: Db, x: Id)
    ensures SameRows(db, db, x)
  {}

  lemma StepSparesRows(w: World, step: Step, o: Id, calm: bool, x: Id)
    requires Enabled(w, step) && About(w, step, o, calm) && x != o
    ensures SameRows(w.db, Do(w, step).db, x)
  {
    hide SameRows, SetState, BeginDb, FinishDb, StartDb, DigestDb, ObserveDb, RecordDb, AdoptDb, FailDb,
         DuplicateDb, ConfirmDb, ItemShape, Captured, CanEdit, CanUnlink, PayloadProven, CatalogProven,
         MatchingAttempt, Unlinked;
    match step
    case Call(_) => NothingSpares(w.db, x);
    case Record(y, row) => RecordSpares(w.db, y, row, x);
    case StartAttempt(a, y, _) => StartSpares(w.db, a, y, x);
    case SetDigest(a) => DigestSpares(w.db, a, x);
    case Adopt(a, s) => AdoptSpares(w.db, a, s, x);
    case Fail(a, at) => FailSpares(w.db, a, at, Recorded, x);
    case Duplicate(a, snaps, at) => DuplicateSpares(w.db, a, snaps, at, x);
    case Transfer(a) => StateSpares(w.db, o, Transferred, x);
    case Verify(a) => StateSpares(w.db, o, Verified, x);
    case Confirm(a, at) => ConfirmSpares(w.db, a, at, x);
    case Abandon(a, at) => FailSpares(w.db, a, at, Abandoned, x);
    case AbandonConfirmed(y) => StateSpares(w.db, y, Abandoned, x);
    case Observe(s) => ObserveSpares(w.db, {s}, w.repo[s].tags.id, x);
    case Reobserve(a, snaps) => ObserveSpares(w.db, snaps, OwnIdentity(w.db, a), x);
    case BeginEviction(y) => StateSpares(w.db, y, Evicting, x);
    case Finish(y) => StateSpares(w.db, y, Evicted, x);
    case Unlink(y, rel) => UnlinkKeepsRows(w, y, rel, x);
    case Publish(_, _, _, _, _) => NothingSpares(w.db, x);
    case Foreign(_, _) => NothingSpares(w.db, x);
    case Edit(_, _) => NothingSpares(w.db, x);
  }

  lemma UnlinkKeepsRows(w: World, o: Id, rel: string, x: Id)
    requires CanUnlink(w, o, rel)
    ensures Unlinked(w, Abs(w.db.occs[o].spool, rel)).db == w.db && SameRows(w.db, w.db, x)
  {}

  lemma UntouchedStaysSteady(w: World, w': World, x: Id)
    requires x in w.db.occs && SameRows(w.db, w'.db, x)
    requires Untouched(w.disk, w'.disk, w.db.occs[x].spool)
    requires Isolated(w.disk, w.db.occs[x].spool) ==> Isolated(w'.disk, w.db.occs[x].spool)
    ensures Kept(w, w', x)
  {
    var spool, prints := w.db.occs[x].spool, w.db.occs[x].prints;
    UntouchedStaysUnchanged(w.disk, w'.disk, spool, prints);
    UntouchedStaysClean(w.disk, w'.disk, spool, prints);
    hide Unchanged, Isolated, Clean;
  }

  lemma UntouchedStaysUnchanged(disk: Disk, disk': Disk, spool: string, prints: map<string, Print>)
    requires Untouched(disk, disk', spool)
    ensures Unchanged(disk, spool, prints) ==> Unchanged(disk', spool, prints)
  {
    if Unchanged(disk, spool, prints) {
      forall rel | rel in prints ensures Live(disk', spool, prints, rel) {
        assert Live(disk, spool, prints, rel);
        AbsIsWithin(spool, rel);
      }
      forall p | p in disk' ensures Named(prints, spool, p) {
        if Within(p, spool) { assert Named(prints, spool, p); }
      }
    }
  }

  lemma UntouchedStaysClean(disk: Disk, disk': Disk, spool: string, prints: map<string, Print>)
    requires Untouched(disk, disk', spool)
    ensures Clean(disk, spool, prints) ==> Clean(disk', spool, prints)
  {
    if Clean(disk, spool, prints) {
      forall p | p in disk' && Within(p, spool) ensures Fit(disk', spool, prints, p) {
        assert Fit(disk, spool, prints, p);
      }
      forall p, q | p in disk' && q in disk' ensures !Linked(disk', spool, p, q) {
        if Within(p, spool) && Within(q, spool) { assert !Linked(disk, spool, p, q); }
      }
    }
  }

  lemma UnlinkSpares(w: World, o: Id, rel: string, x: Id)
    requires Inv(w) && CanUnlink(w, o, rel) && x != o && x in w.db.occs
    ensures Kept(w, Unlinked(w, Abs(w.db.occs[o].spool, rel)), x)
  {
    var p := Abs(w.db.occs[o].spool, rel);
    hide *;
    UnlinkKeepsRows(w, o, rel, x);
    if Steady(w, x) { UnlinkSparesSteady(w, o, rel, x); } else { UnlinkSparesGone(w, p, x); }
  }

  lemma UnlinkSparesGone(w: World, p: string, x: Id)
    requires p in w.disk && !Steady(w, x) && SameRows(w.db, w.db, x)
    ensures Kept(w, Unlinked(w, p), x)
  {
    if Gone(w, x) { UnlinkKeepsGone(w, p, x); }
    hide Steady, Gone, SameRows;
  }

  lemma UnlinkSparesSteady(w: World, o: Id, rel: string, x: Id)
    requires Inv(w) && CanUnlink(w, o, rel) && x != o && x in w.db.occs && Steady(w, x)
    ensures Kept(w, Unlinked(w, Abs(w.db.occs[o].spool, rel)), x)
  {
    hide *;
    UnlinkIsOf(w, o, rel);
    var p, spool, other := Abs(w.db.occs[o].spool, rel), w.db.occs[o].spool, w.db.occs[x].spool;
    InvParts(w);
    UnlinkKeepsRows(w, o, rel, x);
    PlacesOf(w, o);
    PlacesOf(w, x);
    ApartWhileActive(w, o, x);
    AbsIsWithin(spool, rel);
    RemovalSparesOthers(w.disk, w.clock, w.drop, spool, other, p);
    UnlinkedStaysSteady(w, p, x);
  }

  lemma UnlinkIsOf(w: World, o: Id, rel: string)
    requires CanUnlink(w, o, rel)
    ensures IsIn(w, o, Evicting) && o in w.db.occs && Abs(w.db.occs[o].spool, rel) in w.disk
  {}

  lemma UnlinkedStaysSteady(w: World, p: string, x: Id)
    requires x in w.db.occs && p in w.disk && SameRows(w.db, w.db, x)
    requires var disk' := Without(w.disk, w.clock, p);
             Untouched(w.disk, disk', w.db.occs[x].spool) && Isolated(disk', w.db.occs[x].spool)
    ensures Kept(w, Unlinked(w, p), x)
  {
    hide Untouched, Isolated, Kept, SameRows, Without;
    UntouchedStaysSteady(w, Unlinked(w, p), x);
  }

  lemma ApartWhileActive(w: World, o: Id, x: Id)
    requires SpoolsOk(w) && IsIn(w, o, Evicting) && x != o && Steady(w, x)
    ensures w.db.occs[o].spool != w.db.occs[x].spool && Isolated(w.disk, w.db.occs[x].spool)
  {
    hide Isolated, Clean, Unchanged;
  }

  lemma UnlinkKeepsGone(w: World, p: string, x: Id)
    requires p in w.disk && Gone(w, x)
    ensures Gone(Unlinked(w, p), x)
  {}

  lemma PlacesOf(w: World, o: Id)
    requires Inv(w) && o in w.db.occs
    ensures InDrop(w.disk, w.drop) && Parent(w.db.occs[o].spool) == w.drop
    ensures Below(w.db.occs[o].spool, w.drop) && w.db.occs[o].spool[|w.db.occs[o].spool| - 1] != '/'
  {
    assert ManifestSound(w, o);
    AbsoluteIsBelow(w.db.occs[o].spool);
  }

  lemma StepSpares(w: World, step: Step, o: Id, x: Id)
    requires Inv(w) && Enabled(w, step) && About(w, step, o, true) && x != o && x in w.db.occs
    ensures Kept(w, Do(w, step), x)
  {
    if step.Unlink? {
      hide Inv, CanUnlink, Kept, Unlinked, Abs;
      UnlinkSpares(w, o, step.rel, x);
    } else {
      hide Enabled, Do, Inv, About;
      StepSparesRows(w, step, o, true, x);
      OnlyUnlinksMoveEntries(w, step, o);
      UntouchedStaysSteady(w, Do(w, step), x);
    }
  }

  lemma OnlyUnlinksMoveEntries(w: World, step: Step, o: Id)
    requires Enabled(w, step) && About(w, step, o, true) && !step.Unlink?
    ensures Do(w, step).disk == w.disk
  {
    hide Bears, ItemShape, Captured, CanEdit, MatchingAttempt, PayloadProven, RemoteCatalogProven;
    hide AdoptDb, FailDb, DuplicateDb, ConfirmDb;
  }

  /** Work on one item of a quiet folder leaves every other item as it was. */
  lemma {:induction false} WorkSpares(p: History, h: History, o: Id, x: Id)
    requires Legal(h) && Went(p, h, o, true) && x != o
    ensures Legal(p) && (x in Now(p).db.occs ==> Kept(Now(p), Now(h), x))
  {
    if p == h {
      hide Now, Steady, Gone, RowsOf;
      assert Kept(Now(h), Now(h), x);
    } else {
      WorkSpares(p, h.past, o, x);
      EveryRunIsSound(h.past);
      hide Inv, Enabled, About, Kept, Do;
      if x in Now(p).db.occs {
        KeptIsThere(Now(p), Now(h.past), x);
        StepSpares(Now(h.past), h.step, o, x);
        KeptOn(Now(p), Now(h.past), Now(h), x);
      }
    }
  }

  /** The entries at `q` stay what they are, if they share no inode. */
  ghost predicate Spared(w: World, w': World, q: string) {
    q in w.disk && Parent(q) == w.drop && Isolated(w.disk, q) ==>
      q in w'.disk && w'.drop == w.drop && Untouched(w.disk, w'.disk, q) && Isolated(w'.disk, q)
  }

  /** Nothing of any other occurrence changed, and no other item's entries. */
  ghost predicate OnlyOn(w: World, w': World, o: Id) {
    && (forall x | x in w.db.occs && x != o :: Kept(w, w', x))
    && (o in w.db.occs ==> forall q | q != w.db.occs[o].spool :: Spared(w, w', q))
  }

  lemma SparedOn(w: World, w1: World, w2: World, q: string)
    requires Spared(w, w1, q) && Spared(w1, w2, q)
    ensures Spared(w, w2, q)
  {
    hide Isolated;
  }

  lemma StepSparesEntries(w: World, step: Step, o: Id, q: string)
    requires Inv(w) && Enabled(w, step) && About(w, step, o, true) && (o in w.db.occs ==> w.db.occs[o].spool != q)
    ensures Spared(w, Do(w, step), q)
  {
    if step.Unlink? {
      hide Inv, CanUnlink, Unlinked, Abs, Isolated, Untouched;
      UnlinkIsOf(w, o, step.rel);
      PlacesOf(w, o);
      AbsIsWithin(w.db.occs[o].spool, step.rel);
      if q in w.disk && Parent(q) == w.drop && Isolated(w.disk, q) {
        TopIsBelow(w, q);
        RemovalSparesOthers(w.disk, w.clock, w.drop, w.db.occs[o].spool, q, Abs(w.db.occs[o].spool, step.rel));
        UnlinkedDisk(w, Abs(w.db.occs[o].spool, step.rel), q);
      }
    } else {
      hide Enabled, Do, Inv, About, Isolated;
      OnlyUnlinksMoveEntries(w, step, o);
      StaysInTheFolder(w, step);
    }
  }

  lemma UnlinkedDisk(w: World, p: string, q: string)
    requires p in w.disk && q in w.disk && Untouched(w.disk, Without(w.disk, w.clock, p), q)
    ensures Unlinked(w, p).disk == Without(w.disk, w.clock, p) && Unlinked(w, p).drop == w.drop
    ensures q in Unlinked(w, p).disk
  {
    hide Without;
    assert Within(q, q);
  }

  lemma TopIsBelow(w: World, q: string)
    requires Inv(w) && q in w.disk
    ensures InDrop(w.disk, w.drop) && Below(q, w.drop)
  {
    assert Placed(w.disk, w.drop, q);
  }

  lemma StaysInTheFolder(w: World, step: Step)
    requires Inv(w) && Enabled(w, step)
    ensures Do(w, step).drop == w.drop
  {
    hide Inv, Enabled, Do;
    StepKeeps(w, step);
    SameFolder(w, Do(w, step));
  }

  lemma SameFolder(w: World, w': World)
    requires Evolves(w, w')
    ensures w'.drop == w.drop
  {}

  lemma SpoolStays(w: World, w': World, o: Id)
    requires Evolves(w, w') && o in w.db.occs
    ensures o in w'.db.occs && w'.db.occs[o].spool == w.db.occs[o].spool
  {
    assert SameItem(w.db.occs[o], w'.db.occs[o]);
  }

  lemma SparedItself(w: World, q: string)
    ensures Spared(w, w, q)
  {
    hide Isolated;
  }

  lemma {:induction false} WorkSparesEntries(p: History, h: History, o: Id, q: string)
    requires Legal(h) && Went(p, h, o, true) && (o in Now(h).db.occs ==> Now(h).db.occs[o].spool != q)
    ensures Legal(p) && Spared(Now(p), Now(h), q)
  {
    if p == h {
      hide Now, Spared;
      SparedItself(Now(h), q);
    } else {
      EveryRunIsSound(h.past);
      StepKeeps(Now(h.past), h.step);
      hide Inv, Enabled, About, Spared, Do, Evolves;
      if o in Now(h.past).db.occs { SpoolStays(Now(h.past), Now(h), o); }
      WorkSparesEntries(p, h.past, o, q);
      StepSparesEntries(Now(h.past), h.step, o, q);
      SparedOn(Now(p), Now(h.past), Now(h), q);
    }
  }

  /** Work on a known occurrence records no other. */
  lemma {:induction false} WorkRecordsNothing(p: History, h: History, o: Id, calm: bool)
    requires Legal(h) && Legal(p) && Went(p, h, o, calm) && o in Now(p).db.occs
    ensures Now(h).db.occs.Keys == Now(p).db.occs.Keys
  {
    if p != h {
      WorkRecordsNothing(p, h.past, o, calm);
      hide Enabled, About, Do;
      OnlyRecordsAdd(Now(h.past), h.step, o, calm);
    }
  }

  lemma OnlyRecordsAdd(w: World, step: Step, o: Id, calm: bool)
    requires Enabled(w, step) && About(w, step, o, calm) && o in w.db.occs
    ensures Do(w, step).db.occs.Keys == w.db.occs.Keys
  {
    hide Bears, ItemShape, Captured, CanEdit, MatchingAttempt, PayloadProven, RemoteCatalogProven, StillTheEntry, Empty,
         Without;
  }

  /** Undisturbed work on one known item leaves all others, rows and entries, as they were. */
  lemma WorkIsLocal(p: History, h: History, o: Id)
    requires Legal(h) && Legal(p) && Went(p, h, o, true) && o in Now(p).db.occs
    ensures OnlyOn(Now(p), Now(h), o)
  {
    hide *;
    WentIsPrefix(p, h, o, true);
    EvidenceAccumulates(p, h);
    SpoolStays(Now(p), Now(h), o);
    forall x | x in Now(p).db.occs && x != o ensures Kept(Now(p), Now(h), x) { WorkSpares(p, h, o, x); }
    forall q | q != Now(p).db.occs[o].spool ensures Spared(Now(p), Now(h), q) { WorkSparesEntries(p, h, o, q); }
    OnlyOnIs(Now(p), Now(h), o);
  }

  lemma OnlyOnIs(w: World, w': World, o: Id)
    requires o in w.db.occs
    requires (forall x | x in w.db.occs && x != o :: Kept(w, w', x))
    requires forall q | q != w.db.occs[o].spool :: Spared(w, w', q)
    ensures OnlyOn(w, w', o)
  {}

  lemma KeptIsThere(w: World, w': World, x: Id)
    requires Kept(w, w', x) && x in w.db.occs
    ensures x in w'.db.occs
  {}

  lemma KeptIsIdle(w: World, w': World, x: Id, spent: set<Id>)
    requires Kept(w, w', x) && Idle(w, x, spent)
    ensures Idle(w', x, spent)
  {
    SameRowsSameAttempts(w.db, w'.db, x);
    hide Steady, Gone, RowsOf;
  }

  lemma SameRowsSameAttempts(db: Db, db': Db, x: Id)
    requires x in db.occs && SameRows(db, db', x)
    ensures HasPending(db', x) <==> HasPending(db, x)
    ensures AttemptsOf(db', x) == AttemptsOf(db, x) && FailuresOf(db', x) == FailuresOf(db, x)
    ensures forall a | a in FailuresOf(db, x) :: db'.attempts[a].finished == db.attempts[a].finished
    ensures forall a | a in db.attempts && db.attempts[a].occ == x ::
              a in db'.attempts && db'.attempts[a] == db.attempts[a]
    ensures forall a | a in db'.attempts && db'.attempts[a].occ == x ::
              a in db.attempts && db'.attempts[a] == db.attempts[a]
  {
    forall a
      ensures (a in db.attempts && db.attempts[a].occ == x) <==> (a in db'.attempts && db'.attempts[a].occ == x)
    {
      assert a in RowsOf(db, x) <==> a in RowsOf(db', x);
    }
    forall a | a in db.attempts && db.attempts[a].occ == x ensures db'.attempts[a] == db.attempts[a] {
      assert RowsOf(db, x)[a] == RowsOf(db', x)[a];
    }
  }

  // ---- the frontier gate -----------------------------------------------------------------------

  lemma SameRuling(db: Db, db': Db, s: SnapId, tags: SnapTags)
    requires db'.store == db.store && db'.lineage == db.lineage && db'.occs == db.occs && db'.attempts == db.attempts
    requires (s in db'.ledger <==> s in db.ledger)
             && (s in db.ledger ==> db'.ledger[s].identity == db.ledger[s].identity)
    ensures Ruling(db', s, tags) == Ruling(db, s, tags)
  {}

  ghost predicate PassesAll(db: Db, repo: map<SnapId, Snap>) {
    forall s | s in repo :: Ruling(db, s, repo[s].tags) == Passes
  }

  ghost predicate OwnLedgered(db: Db, repo: map<SnapId, Snap>) {
    forall s | s in repo && repo[s].tags.Canonical? && repo[s].tags.id.store == db.store ::
      s in db.ledger && db.ledger[s].identity == repo[s].tags.id
  }

  /**
   * `check_frontier`: passes exactly when every snapshot listed is known or
   * merged, and then leaves every own one ledgered under its exact tags. `None`
   * is an engine error; `seen` is what the repository listed. One snapshot of
   * another store that was never merged is enough for a refusal.
   */
  method CheckFrontier(run: Run) returns (verdict: Option<Verdict>, ghost seen: map<SnapId, Snap>)
    requires run.Valid()
    modifies run`repo, run`disk, run`clock, run`now, run`history, run.store
    ensures run.Valid() && run.Meanwhile() && run.now >= old(run.now)
    ensures forall s | s in old(run.repo) :: s in seen && seen[s] == old(run.repo)[s]
    ensures run.calm ==> verdict.Some? && seen == run.repo
    ensures verdict.Some? ==> (verdict == Some(Passes) <==> PassesAll(old(run.store.Rows()), seen))
    ensures verdict == Some(Passes) ==> OwnLedgered(run.store.Rows(), seen)
    ensures verdict.Some? ==> (verdict == Some(Passes) <==> AllFamiliar(old(run.store.Rows()), seen))
    ensures verdict == Some(RefusedLineage) ==> exists s | s in seen :: Unmerged(old(run.store.Rows()), seen[s].tags)
    ensures run.store.occs == old(run.store.occs) && run.store.attempts == old(run.store.attempts)
    ensures run.store.intents == old(run.store.intents)
  {
    hide Legal, Now, Went, Ruling, MatchingAttempt, OwnLedgered, PassesAll, BackedUp, AllFamiliar, Unmerged;
    run.Interfere();
    seen := run.repo;
    ghost var db := run.store.Rows();
    var unreachable: bool := *;
    if unreachable && !run.calm { return None, seen; }
    var rest := run.repo.Keys;
    while rest != {}
      invariant run.Valid() && run.Meanwhile() && run.now >= old(run.now)
      invariant rest <= run.repo.Keys && run.repo == seen
      invariant run.store.occs == db.occs && run.store.attempts == db.attempts && run.store.intents == db.intents
      invariant forall s | s in rest :: (s in run.store.ledger <==> s in db.ledger)
                                        && (s in db.ledger ==> run.store.ledger[s].identity == db.ledger[s].identity)
      invariant forall s | s in run.repo && s !in rest :: Ruling(db, s, run.repo[s].tags) == Passes
      invariant forall s | s in run.repo && s !in rest && run.repo[s].tags.Canonical?
                           && run.repo[s].tags.id.store == run.store.id ::
                  s in run.store.ledger && run.store.ledger[s].identity == run.repo[s].tags.id
      decreases rest
    {
      var s :| s in rest;
      SameRuling(db, run.store.Rows(), s, run.repo[s].tags);
      var ruling := CheckOne(run, s);
      if ruling != Passes {
        OneIsRefused(db, seen, s);
        RulingMeans(db, s, seen[s].tags);
        FamiliarIsPassed(db, seen);
        return Some(ruling), seen;
      }
      rest := rest - {s};
    }
    AllPassed(db, run.store.Rows(), seen);
    FamiliarIsPassed(db, seen);
    return Some(Passes), seen;
  }

  /** One snapshot: ruled on, and ledgered if it is own and known only by its attempt. */
  method CheckOne(run: Run, s: SnapId) returns (ruling: Verdict)
    requires run.Valid() && s in run.repo
    modifies run`history, run.store
    ensures run.Valid() && ruling == Ruling(old(run.store.Rows()), s, run.repo[s].tags)
    ensures run.store.occs == old(run.store.occs) && run.store.attempts == old(run.store.attempts)
    ensures run.store.intents == old(run.store.intents)
    ensures old(run.store.ledger).Keys <= run.store.ledger.Keys <= old(run.store.ledger).Keys + {s}
    ensures forall t | t in old(run.store.ledger) :: run.store.ledger[t] == old(run.store.ledger)[t]
    ensures ruling == Passes ==> run.repo[s].tags.Canonical?
    ensures ruling == Passes && run.repo[s].tags.id.store == run.store.id ==>
              s in run.store.ledger && run.store.ledger[s].identity == run.repo[s].tags.id
  {
    hide Legal, Now, Went, Ruling, MatchingAttempt, BackedUp;
    ruling := Ruling(run.store.Rows(), s, run.repo[s].tags);
    if ruling != Passes { return; }
    PassedHow(run.store.Rows(), s, run.repo[s].tags);
    if run.repo[s].tags.id.store == run.store.id && s !in run.store.ledger { LedgerOne(run, s); }
  }

  /** Every snapshot is a known own one, or another store's that was merged. */
  ghost predicate AllFamiliar(db: Db, repo: map<SnapId, Snap>) {
    forall s | s in repo ::
      || KnownOwn(db, s, repo[s].tags)
      || (repo[s].tags.Canonical? && repo[s].tags.id.store != db.store && !Unmerged(db, repo[s].tags))
  }

  lemma FamiliarIsPassed(db: Db, repo: map<SnapId, Snap>)
    ensures AllFamiliar(db, repo) <==> PassesAll(db, repo)
  {
    hide Ruling, MatchingAttempt;
    forall s | s in repo {
      RulingMeans(db, s, repo[s].tags);
    }
  }

  /** The gate refuses while a snapshot of another store is unmerged, whatever is listed beside it. */
  lemma UnmergedIsRefused(db: Db, repo: map<SnapId, Snap>, seen: map<SnapId, Snap>, s: SnapId)
    requires s in repo && Unmerged(db, repo[s].tags) && (forall t | t in repo :: t in seen && seen[t] == repo[t])
    ensures !PassesAll(db, seen)
  {
    hide MatchingAttempt;
    assert s in seen && Ruling(db, s, seen[s].tags) == RefusedLineage;
  }

  lemma OneIsRefused(db: Db, repo: map<SnapId, Snap>, s: SnapId)
    requires s in repo && Ruling(db, s, repo[s].tags) != Passes
    ensures !PassesAll(db, repo)
  {
    hide Ruling;
  }

  lemma AllPassed(db: Db, db': Db, repo: map<SnapId, Snap>)
    requires forall s | s in repo :: Ruling(db, s, repo[s].tags) == Passes
    requires forall s | s in repo && repo[s].tags.Canonical? && repo[s].tags.id.store == db'.store ::
               s in db'.ledger && db'.ledger[s].identity == repo[s].tags.id
    ensures PassesAll(db, repo) && OwnLedgered(db', repo)
  {
    hide Ruling;
  }

  lemma PassedHow(db: Db, s: SnapId, tags: SnapTags)
    requires Ruling(db, s, tags) == Passes
    ensures tags.Canonical?
    ensures tags.id.store == db.store && s in db.ledger ==> db.ledger[s].identity == tags.id
    ensures tags.id.store == db.store && s !in db.ledger ==> MatchingAttempt(db, tags.id)
  {}

  method LedgerOne(run: Run, s: SnapId)
    requires run.Valid() && CanObserve(run.Current(), s)
    modifies run`history, run.store
    ensures run.Valid()
    ensures run.store.Rows() == ObserveDb(old(run.store.Rows()), {s}, run.repo[s].tags.id, SnapPending)
  {
    ghost var w := run.Current();
    var ok := run.store.ObserveSnapshot(s, run.repo[s].tags.id, SnapPending);
    hide Legal, Now, Went, CanObserve, ObserveDb;
    run.Log(w, Step.Observe(s));
  }

  // ---- pass 1: the spool scan ------------------------------------------------------------------

  /** `_active_occurrence`: at most one is ever active for a path. */
  method ActiveOccurrence(run: Run, path: string) returns (o: Option<Id>)
    ensures o.Some? ==> o.value in run.store.occs && run.store.occs[o.value].spool == path
                        && Active(run.store.occs[o.value].state)
    ensures o == None ==> forall x | x in run.store.occs ::
              Active(run.store.occs[x].state) ==> run.store.occs[x].spool != path
  {
    if x :| x in run.store.occs && run.store.occs[x].spool == path && Active(run.store.occs[x].state) {
      return Some(x);
    }
    return None;
  }

  /** Others at work while the item's entries are followed. */
  method Follow(run: Run, ghost first: Disk, ghost clock0: int, spool: string, ghost lost: set<string>)
    returns (ghost lost': set<string>)
    requires run.Valid() && InDrop(first, run.drop) && Parent(spool) == run.drop
    requires forall p | p in first :: first[p].ctime <= clock0
    requires Tracked(first, clock0, spool, lost, run.disk, run.clock)
    modifies run`disk, run`clock, run`history
    ensures run.Valid() && run.Meanwhile()
    ensures lost <= lost' && Tracked(first, clock0, spool, lost', run.disk, run.clock)
  {
    lost' := lost;
    if run.calm { return; }
    hide Legal, Now, Went, Tracked, InDrop, LegalEdit;
    var n: int := *;
    while n > 0
      invariant run.Valid() && run.Meanwhile() && lost <= lost'
      invariant Tracked(first, clock0, spool, lost', run.disk, run.clock)
      decreases n
    {
      n := n - 1;
      ghost var disk, clock := run.disk, run.clock;
      run.SomebodyEdits();
      if run.disk != disk || run.clock != clock {
        EditIsTracked(first, clock0, run.drop, spool, lost', disk, clock, run.disk, run.clock);
        lost' := Lost(first, spool, lost', run.disk);
      }
    }
  }

  /** Others at work between the second sample and the record. */
  method Linger(run: Run, ghost row: Occ)
    requires run.Valid() && Captured(row, run.disk, run.clock)
    modifies run`disk, run`clock, run`history
    ensures run.Valid() && run.Meanwhile() && Captured(row, run.disk, run.clock)
  {
    if run.calm { return; }
    hide Legal, Now, Went, InDrop, LegalEdit, Captured;
    var n: int := *;
    while n > 0
      invariant run.Valid() && run.Meanwhile() && Captured(row, run.disk, run.clock)
      decreases n
    {
      n := n - 1;
      ghost var disk, clock := run.disk, run.clock;
      run.SomebodyEdits();
      if run.disk != disk || run.clock != clock { CapturedStable(row, disk, clock, run.disk, run.clock); }
    }
  }

  /** The hash loop: each file as it is when its turn comes; `None` when one cannot be read. */
  method HashFiles(run: Run, ghost first: Disk, ghost clock0: int, spool: string, files: set<string>)
    returns (hashes: Option<map<string, Sha>>, ghost lost: set<string>)
    requires run.Valid() && InDrop(first, run.drop) && Parent(spool) == run.drop
    requires forall p | p in first :: first[p].ctime <= clock0
    requires first == run.disk && clock0 == run.clock
    requires forall rel | rel in files :: Abs(spool, rel) in first && first[Abs(spool, rel)].body.FileBody?
    modifies run`disk, run`clock, run`history
    ensures run.Valid() && run.Meanwhile()
    ensures Tracked(first, clock0, spool, lost, run.disk, run.clock)
    ensures run.calm ==> hashes.Some?
    ensures hashes == None ==> FileGone(run.disk, spool, files)
    ensures hashes.Some? ==> hashes.value.Keys == files
                             && forall rel | rel in files && Abs(spool, rel) !in lost ::
                                  hashes.value[rel] == Sha256(first[Abs(spool, rel)].body.content)
  {
    hide Legal, Now, Went, InDrop;
    lost := {};
    var done: map<string, Sha>, rest := map[], files;
    while rest != {}
      invariant run.Valid() && run.Meanwhile() && rest <= files && done.Keys == files - rest
      invariant Tracked(first, clock0, spool, lost, run.disk, run.clock)
      invariant forall rel | rel in done && Abs(spool, rel) !in lost ::
                  done[rel] == Sha256(first[Abs(spool, rel)].body.content)
      decreases rest
    {
      lost := Follow(run, first, clock0, spool, lost);
      var rel :| rel in rest;
      var p := Abs(spool, rel);
      if p !in run.disk || !run.disk[p].body.FileBody? { return None, lost; }
      AbsIsWithin(spool, rel);
      done := done[rel := Sha256(run.disk[p].body.content)];
      rest := rest - {rel};
    }
    return Some(done), lost;
  }

  /** Some of the files is no longer a file. */
  predicate FileGone(disk: Disk, spool: string, files: set<string>) {
    exists rel | rel in files :: Abs(spool, rel) !in disk || !disk[Abs(spool, rel)].body.FileBody?
  }

  function FilesOf(prints: map<string, Print>): set<string> {
    set rel | rel in prints && prints[rel].etype == FileEntry
  }

  lemma FilesAreFiles(disk: Disk, spool: string)
    requires Walkable(disk, spool)
    ensures forall rel | rel in FilesOf(Sample(disk, spool)) ::
              Abs(spool, rel) in disk && disk[Abs(spool, rel)].body.FileBody?
  {}

  lemma AllHashed(disk: Disk, spool: string, hashes: map<string, Sha>)
    requires Walkable(disk, spool) && hashes.Keys == FilesOf(Sample(disk, spool))
    requires forall rel | rel in hashes :: Abs(spool, rel) in disk && disk[Abs(spool, rel)].body.FileBody?
                                           && hashes[rel] == Sha256(disk[Abs(spool, rel)].body.content)
    ensures Hashed(disk, spool, hashes)
  {
    forall p | p in disk && Within(p, spool) && disk[p].body.FileBody? ensures Rel(p, spool) in hashes {
      AbsOfRel(p, spool);
      assert Rel(p, spool) in RelPaths(disk, spool);
    }
  }

  /**
   * Why what was admitted and walked is not recorded: refused when a file is gone by
   * the time it is hashed or the second walk cannot be made, deferred when that walk
   * gives another sample.
   */
  predicate GivenUp(ending: Ending, first: Disk, disk: Disk, path: string)
    requires Walkable(first, path)
  {
    match ending
    case ReportRefused => FileGone(disk, path, FilesOf(Sample(first, path))) || !Walkable(disk, path)
    case ReportDeferred => Walkable(disk, path) && Sample(disk, path) != Sample(first, path)
    case _ => false
  }

  /** `admit`, whose answer is free; what is turned away is reported, as are entries no walk can take. */
  method Admit(run: Run, path: string) returns (ready: bool)
    modifies run`report, run`admitted
    ensures old(run.admitted) <= run.admitted <= old(run.admitted) + {path}
    ensures ready ==> path in run.admitted && Walkable(run.disk, path) && run.report == old(run.report)
    ensures !ready ==> && run.report == old(run.report) +
                          [Event(None, if Walkable(run.disk, path) then ReportDeferred else ReportRefused)]
                       && (path !in old(run.admitted) && path in run.admitted ==> !Walkable(run.disk, path))
  {
    hide Walkable;
    var quiet: bool := *;
    if quiet { run.admitted := run.admitted + {path}; }
    ready := quiet && Walkable(run.disk, path);
    if !ready {
      run.report := run.report + [Event(None, if Walkable(run.disk, path) then ReportDeferred else ReportRefused)];
    }
  }

  /** What is reported of an item that is not recorded, and why. */
  predicate TurnedAway(ending: Ending, seen: Disk, disk: Disk, path: string, admitted: bool) {
    if !Walkable(seen, path) then ending == ReportRefused
    else if admitted then GivenUp(ending, seen, disk, path)
    else ending in {ReportRefused, ReportDeferred}
  }

  lemma NotTaken(seen: Disk, path: string)
    ensures TurnedAway(if Walkable(seen, path) then ReportDeferred else ReportRefused, seen, seen, path, false)
    ensures !Walkable(seen, path) ==> TurnedAway(ReportRefused, seen, seen, path, true)
  {}

  lemma GivenUpIsTurnedAway(ending: Ending, seen: Disk, disk: Disk, path: string)
    requires Walkable(seen, path) && GivenUp(ending, seen, disk, path)
    ensures forall admitted :: TurnedAway(ending, seen, disk, path, admitted)
    ensures ending == ReportRefused || ending == ReportDeferred
  {}

  /**
   * `_capture`: admission, then sample, hash, sample again. Only if both samples
   * agree is anything recorded - and then the row is what the first sample showed,
   * and every recorded hash of the bytes the recorded fingerprint denotes, whoever
   * edited the folder meanwhile. `seen` is the folder as first sampled. In a quiet
   * folder what is admitted and can be walked is recorded.
   */
  method CaptureItem(run: Run, path: string) returns (o: Option<Id>, ghost seen: Disk)
    requires run.Valid() && Parent(path) == run.drop
    requires forall x | x in run.store.occs :: Active(run.store.occs[x].state) ==> run.store.occs[x].spool != path
    modifies run`repo, run`disk, run`clock, run`now, run`history, run`item, run`base, run`report, run`admitted
    modifies run.store
    ensures run.Valid() && run.Meanwhile() && run.now >= old(run.now) && run.base == old(run.history)
    ensures run.store.attempts == old(run.store.attempts)
    ensures if o.Some? then
              && o.value !in old(run.store.occs) && run.item == o.value && run.report == old(run.report)
              && run.store.occs.Keys == old(run.store.occs).Keys + {o.value}
              && (forall x | x in old(run.store.occs) :: run.store.occs[x] == old(run.store.occs)[x])
              && run.store.occs[o.value].state == Recorded && Depicts(run.store.occs[o.value], seen, path)
            else
              && run.store.Rows() == old(run.store.Rows()) && OneUnnamed(old(run.report), run.report)
              && run.item !in run.store.occs
    ensures old(run.admitted) <= run.admitted <= old(run.admitted) + {path}
    ensures o.Some? ==> path in run.admitted
    ensures run.calm ==> seen == old(run.disk)
    ensures run.calm && path !in old(run.admitted) ==>
              (o.Some? <==> path in run.admitted && Walkable(run.disk, path))
    ensures o == None ==> TurnedAway(run.report[|old(run.report)|].ending, seen, run.disk, path,
                                     path in run.admitted - old(run.admitted))
    ensures run.calm && o == None ==>
              run.report[|old(run.report)|].ending ==
              if Walkable(run.disk, path) then ReportDeferred else ReportRefused
  {
    hide Legal, Now, Went, InDrop, ItemShape, Captured, Walkable, Depicts, Sample, BackedUp, Run.Recalls, Active,
         GivenUp, TurnedAway;
    var id := run.FreshId();
    StayedPut(run.history, id, run.calm);
    run.item, run.base := id, run.history;
    run.Interfere();
    seen := run.disk;
    var ready := Admit(run, path);
    if !ready {
      NotTaken(seen, path);
      return None, seen;
    }
    var outcome := SampleHashSample(run, id, path);
    if outcome.Some? {
      GivenUpIsTurnedAway(outcome.value, seen, run.disk, path);
      run.report := run.report + [Event(None, outcome.value)];
      return None, seen;
    }
    return Some(id), seen;
  }

  /** `capture_item` and the record; `Some` is the ending to report instead. */
  method SampleHashSample(run: Run, id: Id, path: string) returns (outcome: Option<Ending>)
    requires run.Valid() && run.item == id && id !in run.store.occs && id.store == run.store.id
    requires Parent(path) == run.drop && Walkable(run.disk, path)
    requires forall x | x in run.store.occs :: Active(run.store.occs[x].state) ==> run.store.occs[x].spool != path
    modifies run`disk, run`clock, run`history, run.store
    ensures run.Valid() && run.Meanwhile() && run.store.attempts == old(run.store.attempts)
    ensures if outcome.Some? then run.store.Rows() == old(run.store.Rows())
            else && run.store.occs.Keys == old(run.store.occs).Keys + {id}
                 && (forall x | x in old(run.store.occs) :: run.store.occs[x] == old(run.store.occs)[x])
                 && run.store.occs[id].state == Recorded && Depicts(run.store.occs[id], old(run.disk), path)
    ensures outcome.Some? ==> GivenUp(outcome.value, old(run.disk), run.disk, path)
    ensures run.calm ==> outcome == None
  {
    hide Legal, Now, Went, InDrop, Walkable, Tracked, Hashed, Unchanged, Within, Rel, Abs, LegalEdit, Sample, Depicts;
    FolderFacts(run.history);
    FilesAreFiles(run.disk, path);
    var first, prints := run.disk, Sample(run.disk, path);
    ghost var clock0 := run.clock;
    ghost var lost;
    var hashes;
    hashes, lost := HashFiles(run, first, clock0, path, FilesOf(prints));
    if hashes == None { return Some(ReportRefused); }
    lost := Follow(run, first, clock0, path, lost);
    if !Walkable(run.disk, path) { return Some(ReportRefused); }
    if Sample(run.disk, path) != prints { return Some(ReportDeferred); }
    EqualSamplesPin(first, clock0, path, lost, run.disk, run.clock);
    AllHashed(first, path, hashes.value);
    TrackedClock(first, clock0, path, lost, run.disk, run.clock);
    var bundle: bool := *;
    RecordItem(run, id, path, first, bundle, hashes.value, clock0);
    return None;
  }

  lemma TrackedClock(first: Disk, clock0: int, spool: string, lost: set<string>, disk: Disk, clock: int)
    requires Tracked(first, clock0, spool, lost, disk, clock)
    ensures clock0 <= clock
  {}

  predicate OneUnnamed(was: seq<Event>, report: seq<Event>) {
    |report| == |was| + 1 && was <= report && report[|was|].occ == None
  }

  lemma FolderFacts(h: History)
    requires Legal(h)
    ensures InDrop(Now(h).disk, Now(h).drop) && InodesAgree(Now(h).disk)
    ensures forall p | p in Now(h).disk :: Now(h).disk[p].ctime <= Now(h).clock
  {
    EveryRunIsSound(h);
  }

  /** `record_occurrence`, with the rows the two samples vouch for. */
  method RecordItem(run: Run, id: Id, path: string, taken: Disk, bundle: bool, hashes: map<string, Sha>,
                    ghost clock0: int)
    requires run.Valid() && run.item == id && id !in run.store.occs && id.store == run.store.id
    requires Parent(path) == run.drop && InDrop(taken, run.drop) && Walkable(taken, path)
    requires forall x | x in run.store.occs :: Active(run.store.occs[x].state) ==> run.store.occs[x].spool != path
    requires Hashed(taken, path, hashes) && clock0 <= run.clock && (forall p | p in taken :: taken[p].ctime <= clock0)
    requires forall p | p in taken && Within(p, path) :: p in run.disk && run.disk[p] == taken[p]
    modifies run`disk, run`clock, run`history, run.store
    ensures run.Valid() && run.Meanwhile() && run.store.attempts == old(run.store.attempts)
    ensures run.store.occs.Keys == old(run.store.occs).Keys + {id}
    ensures forall x | x in old(run.store.occs) :: run.store.occs[x] == old(run.store.occs)[x]
    ensures run.store.occs[id].state == Recorded && Depicts(run.store.occs[id], taken, path)
  {
    hide Legal, Now, Went, ItemShape, Captured, InDrop, InodesAgree, Walkable, Hashed, ItemOf, Parent, Within, Depicts;
    var name := if |path| > |run.drop| then path[|run.drop| + 1..] else path;
    var archive := id.store + "." + id.ulid + "/" + name;
    var row := ItemOf(run.store.id, name, archive, taken, path, bundle, hashes);
    FolderFacts(run.history);
    ItemIsSound(run.store.id, name, archive, taken, clock0, run.drop, path, bundle, hashes, run.disk, run.clock);
    ItemIsDepicted(run.store.id, name, archive, taken, path, bundle, hashes);
    WriteRow(run, id, row);
  }

  method WriteRow(run: Run, id: Id, row: Occ)
    requires run.Valid() && run.item == id && id !in run.store.occs && id.store == run.store.id
    requires ItemShape(row) && Captured(row, run.disk, run.clock) && Parent(row.spool) == run.drop
    requires row.origin == run.store.id && row.state == Recorded && row.confirmed == None
    requires forall x | x in run.store.occs :: Active(run.store.occs[x].state) ==> run.store.occs[x].spool != row.spool
    modifies run`disk, run`clock, run`history, run.store
    ensures run.Valid() && run.Meanwhile() && run.store.Rows() == RecordDb(old(run.store.Rows()), id, row)
  {
    hide Legal, Now, Went, ItemShape, Captured, Parent;
    Linger(run, row);
    ghost var w := run.Current();
    assert CanRecord(w, id, row);
    run.store.RecordOccurrence(id, row);
    hide CanRecord;
    run.Log(w, Record(id, row));
  }

  lemma ItemIsSound(store: StoreId, item: string, archive: string, first: Disk, clock0: int, drop: string,
                    spool: string, bundle: bool, hashes: map<string, Sha>, disk: Disk, clock: int)
    requires Walkable(first, spool) && InDrop(first, drop) && Parent(spool) == drop && Hashed(first, spool, hashes)
    requires clock0 <= clock && InodesAgree(disk) && forall p | p in first :: first[p].ctime <= clock0
    requires forall p | p in first && Within(p, spool) :: p in disk && disk[p] == first[p]
    ensures var row := ItemOf(store, item, archive, first, spool, bundle, hashes);
            && ItemShape(row) && Captured(row, disk, clock)
            && row.spool == spool && row.origin == store && row.state == Recorded && row.confirmed == None
  {
    CapturedShape(store, item, archive, first, drop, spool, bundle, hashes);
    ItemIsTaken(store, item, archive, first, spool, bundle, hashes);
    CapturedBytes(ItemOf(store, item, archive, first, spool, bundle, hashes), first, clock0, hashes, disk, clock);
    hide ItemShape, Captured, Walkable, InDrop, Hashed, Taken;
  }

  // ---- runs continue runs ---------------------------------------------------------------------------

  /** `h` goes on where `p` stopped, in the same process; in a calm run without anybody else's doing. */
  ghost predicate Continues(p: History, h: History, calm: bool) {
    p == h || (h.Then? && Continues(p, h.past, calm) && !h.step.Begin? && (calm ==> !h.step.Foreign? && !h.step.Edit?))
  }

  lemma ContinuesItself(h: History, calm: bool)
    ensures Continues(h, h, calm)
  {}

  lemma {:induction false} ContinuesOn(p: History, q: History, h: History, calm: bool)
    requires Continues(p, q, calm) && Continues(q, h, calm)
    ensures Continues(p, h, calm)
  {
    if q != h { ContinuesOn(p, q, h.past, calm); }
  }

  lemma {:induction false} ContinuesIsPrefix(p: History, h: History, calm: bool)
    requires Continues(p, h, calm)
    ensures Prefix(p, h)
  {
    if p != h { ContinuesIsPrefix(p, h.past, calm); }
  }

  lemma {:induction false} ContinuesInProcess(p: History, h: History, calm: bool)
    requires Continues(p, h, calm)
    ensures SameProcess(p, h) && Insisting(h) == Insisting(p)
  {
    if p != h { ContinuesInProcess(p, h.past, calm); }
  }

  lemma {:induction false} WentContinues(p: History, h: History, o: Id, calm: bool)
    requires Legal(h) && Went(p, h, o, calm)
    ensures Continues(p, h, calm)
  {
    if p != h { WentContinues(p, h.past, o, calm); }
  }

  // ---- the books of one run ------------------------------------------------------------------------

  ghost predicate Distinct<T(!new)>(s: seq<T>) {
    forall i, j | 0 <= i < j < |s| :: s[i] != s[j]
  }

  /** One event per visited occurrence, one backup per attempt. */
  ghost predicate Tidy(run: Run)
    reads run, run.store
  {
    && run.visited <= run.store.occs.Keys
    && run.trace.started <= run.visited
    && Distinct(run.backups) && AllNew(run.backups, run.born) && run.born <= run.store.attempts.Keys
    && ReportsOnce(run.report, run.visited)
  }

  /** No attempt the run found is backed up again. */
  ghost predicate AllNew(backups: seq<Id>, born: set<Id>) {
    forall b | b in backups :: b !in born
  }

  lemma OneMoreIsNew(was: seq<Id>, backups: seq<Id>, attempts: map<Id, Attempt>, born: set<Id>)
    requires AllNew(was, born) && OneMore(was, backups, attempts) && born <= attempts.Keys
    ensures AllNew(backups, born)
  {
    if backups != was {
      assert backups == was + [backups[|was|]];
    }
  }

  ghost predicate ReportsOnce(report: seq<Event>, visited: set<Id>) {
    && (forall i | 0 <= i < |report| && report[i].occ.Some? :: report[i].occ.value in visited)
    && (forall v | v in visited :: exists i | 0 <= i < |report| :: report[i].occ == Some(v))
    && (forall i, j | 0 <= i < j < |report| && report[i].occ.Some? :: report[i].occ != report[j].occ)
  }

  lemma ReportedOnce(report: seq<Event>, visited: set<Id>, report': seq<Event>, o: Id)
    requires ReportsOnce(report, visited) && o !in visited
    requires |report'| == |report| + 1 && report <= report' && report'[|report|].occ == Some(o)
    ensures ReportsOnce(report', visited + {o})
  {
    forall v | v in visited + {o} ensures exists i | 0 <= i < |report'| :: report'[i].occ == Some(v) {
      if v == o {
        assert report'[|report|].occ == Some(o);
      } else {
        var i :| 0 <= i < |report| && report[i].occ == Some(v);
        assert report'[i].occ == Some(v);
      }
    }
  }

  lemma UnnamedIsFine(report: seq<Event>, visited: set<Id>, report': seq<Event>)
    requires ReportsOnce(report, visited) && OneUnnamed(report, report')
    ensures ReportsOnce(report', visited)
  {
    forall v | v in visited ensures exists i | 0 <= i < |report'| :: report'[i].occ == Some(v) {
      var i :| 0 <= i < |report| && report[i].occ == Some(v);
      assert report'[i].occ == Some(v);
    }
  }

  lemma OneMoreIsDistinct(was: seq<Id>, backups: seq<Id>, attempts: map<Id, Attempt>)
    requires Distinct(was) && OneMore(was, backups, attempts)
    ensures Distinct(backups)
  {
    assert forall i | 0 <= i < |was| :: was[i] in was;
  }

  /** What the store never forgets over a stretch of a run. */
  ghost predicate Remembers(w: World, w': World) {
    && w.db.occs.Keys <= w'.db.occs.Keys && w.db.attempts.Keys <= w'.db.attempts.Keys
    && forall o | o in w.db.occs :: SameItem(w.db.occs[o], w'.db.occs[o])
  }

  lemma PastIsRemembered(p: History, h: History, calm: bool)
    requires Legal(h) && Continues(p, h, calm)
    ensures Legal(p) && Remembers(Now(p), Now(h))
  {
    ContinuesIsPrefix(p, h, calm);
    EvidenceAccumulates(p, h);
    hide *;
    EvolvedRemembers(Now(p), Now(h));
  }

  lemma EvolvedRemembers(w: World, w': World)
    requires Evolves(w, w')
    ensures Remembers(w, w')
  {}

  /** How an occurrence stands once a quiet run dealt with it. */
  ghost predicate DealtWith(w: World, x: Id, spent: set<Id>, fit: bool) {
    (Gone(w, x) || Idle(w, x, spent)) && (fit ==> Gone(w, x))
  }

  lemma KeptIsDealtWith(w: World, w': World, x: Id, spent: set<Id>, fit: bool)
    requires Kept(w, w', x) && DealtWith(w, x, spent, fit)
    ensures DealtWith(w', x, spent, fit)
  {
    if Idle(w, x, spent) { KeptIsIdle(w, w', x, spent); }
    hide Gone, Steady, Idle, SameRows;
  }

  /** `_advance` as the passes call it. */
  method Visit(run: Run, o: Id)
    requires run.Valid() && Tidy(run) && o in run.store.occs && o !in run.visited
    modifies run, run.store
    ensures run.Valid() && Tidy(run) && run.now >= old(run.now) && run.admitted == old(run.admitted)
    ensures run.visited == old(run.visited) + {o} && |run.report| == |old(run.report)| + 1
    ensures run.store.occs.Keys == old(run.store.occs).Keys
    ensures Continues(old(run.history), run.history, run.calm) && Remembers(old(run.Current()), run.Current())
    ensures run.calm ==> OnlyOn(old(run.Current()), run.Current(), o)
    ensures run.calm && Steady(old(run.Current()), o) ==>
              DealtWith(run.Current(), o, AttemptsOf(old(run.store.Rows()), o),
                        run.Fits(old(run.store.Rows()), o, old(run.now)))
  {
    hide Legal, Now, Went, Steady, Gone, Idle, Kept, Distinct, AllNew, ReportsOnce, AttemptsOf, OneMore, OnlyOn;
    run.visited := run.visited + {o};
    run.Advance(o);
    WentContinues(run.base, run.history, o, run.calm);
    PastIsRemembered(run.base, run.history, run.calm);
    ReportedOnce(old(run.report), old(run.visited), run.report, o);
    OneMoreIsDistinct(old(run.backups), run.backups, old(run.store.attempts));
    OneMoreIsNew(old(run.backups), run.backups, old(run.store.attempts), run.born);
    WorkRecordsNothing(run.base, run.history, o, run.calm);
    if run.calm { WorkIsLocal(run.base, run.history, o); }
  }

  // ---- an item seen for the first time ----------------------------------------------------------

  /** An item nobody works on: admissible by the scan, whole, and sharing no inode. */
  ghost predicate FreshItem(w: World, q: string) {
    && q in w.disk && Selected(q, w.drop) && Walkable(w.disk, q) && Isolated(w.disk, q) && NoneActive(w.db, q)
  }

  ghost predicate NoneActive(db: Db, q: string) {
    forall x | x in db.occs :: Active(db.occs[x].state) ==> db.occs[x].spool != q
  }

  /**
   * The item was recorded as what stood there, and dealt with like any other: if
   * it shares no inode and is no bare link it is evicted, provided one attempt is
   * allowed.
   */
  ghost predicate TakenUp(run: Run, w: World, visited: set<Id>, known: set<Id>, disk: Disk, q: string) {
    exists id :: TakenUpAs(run, w, visited, known, disk, q, id)
  }

  ghost predicate TakenUpAs(run: Run, w: World, visited: set<Id>, known: set<Id>, disk: Disk, q: string, id: Id) {
    && id in w.db.occs && id !in known && id in visited && Depicts(w.db.occs[id], disk, q)
    && (Isolated(disk, q) && !disk[q].body.LinkBody? ==> DealtWith(w, id, {}, 0 < run.budget || run.insist))
  }

  lemma DepictsOn(x: Occ, y: Occ, disk: Disk, q: string)
    requires SameItem(x, y) && Depicts(x, disk, q)
    ensures Depicts(y, disk, q)
  {
    hide ShowsEntry;
  }

  lemma DepictsAlike(row: Occ, disk: Disk, disk': Disk, q: string)
    requires Untouched(disk, disk', q) && Depicts(row, disk', q)
    ensures Depicts(row, disk, q) && disk[q] == disk'[q]
  {
    hide ShowsEntry;
    assert Within(q, q);
  }

  /** What was just captured, alone with its inodes and no link, is still what was recorded. */
  lemma CapturedIsSteady(w: World, id: Id, q: string)
    requires id in w.db.occs && w.db.occs[id].state == Recorded && Depicts(w.db.occs[id], w.disk, q)
    requires Isolated(w.disk, q) && !w.disk[q].body.LinkBody?
    ensures Steady(w, id)
  {
    hide Isolated, Depicts, Unchanged, Clean;
    DepictedIsUnchanged(w.db.occs[id], w.disk, q);
    RootIsThere(w.db.occs[id], w.disk, q);
  }

  lemma DepictedIsUnchanged(row: Occ, disk: Disk, q: string)
    requires Depicts(row, disk, q)
    ensures row.spool == q && Unchanged(disk, q, row.prints)
  {
    hide Within, Abs, Rel;
    forall rel | rel in row.prints ensures Live(disk, q, row.prints, rel) {
      assert ShowsEntry(row.entries[rel], row.prints[rel], disk[Abs(q, rel)]);
    }
    forall p | p in disk ensures Named(row.prints, q, p) {}
  }

  lemma RootIsThere(row: Occ, disk: Disk, q: string)
    requires Depicts(row, disk, q) && !disk[q].body.LinkBody?
    ensures "" in row.entries && row.entries[""].etype != LinkEntry
  {
    assert Within(q, q) && Rel(q, q) == "" && Abs(q, "") == q;
  }

  lemma NoAttemptsYet(h: History, db: Db, id: Id)
    requires Legal(h) && db.attempts == Now(h).db.attempts && id !in Now(h).db.occs
    ensures AttemptsOf(db, id) == {} && !HasPending(db, id)
  {
    EveryRunIsSound(h);
    InvParts(Now(h));
    hide Inv, Legal, Now;
  }

  lemma FirstFits(run: Run, db: Db, id: Id, at: int)
    requires id in db.occs && db.occs[id].state == Recorded && AttemptsOf(db, id) == {} && !HasPending(db, id)
    requires 0 < run.budget || run.insist
    ensures run.Fits(db, id, at)
  {
    assert FailuresOf(db, id) <= AttemptsOf(db, id);
    forall a | a in db.attempts && db.attempts[a].occ == id ensures a in AttemptsOf(db, id) {}
  }

  lemma DealtWithOn(w: World, x: Id, spent: set<Id>, fit: bool, fit': bool)
    requires DealtWith(w, x, spent, fit) && (fit' ==> fit)
    ensures DealtWith(w, x, spent, fit')
  {
    hide Gone, Idle;
  }

  /** Nothing changed but at one path: no other occurrence, no other item's entries. */
  ghost predicate OnlyAt(w: World, w': World, path: string) {
    && (forall x | x in w.db.occs && w.db.occs[x].spool != path :: Kept(w, w', x))
    && (forall q | q != path :: Spared(w, w', q))
    && (forall x | x in w'.db.occs && x !in w.db.occs :: w'.db.occs[x].spool == path)
  }

  lemma OnlyOnIsOnlyAt(w: World, w': World, o: Id)
    requires OnlyOn(w, w', o) && o in w.db.occs && w'.db.occs.Keys == w.db.occs.Keys
    ensures OnlyAt(w, w', w.db.occs[o].spool)
  {
    hide Kept, Spared;
  }

  /** `_spool_item`: resume the path's active occurrence, or capture a new one. */
  method SpoolItem(run: Run, path: string)
    requires run.Valid() && Tidy(run) && Parent(path) == run.drop && path !in run.admitted
    requires forall v | v in run.visited :: run.store.occs[v].spool != path
    modifies run, run.store
    ensures run.Valid() && Tidy(run) && run.now >= old(run.now)
    ensures Continues(old(run.history), run.history, run.calm) && Remembers(old(run.Current()), run.Current())
    ensures |run.report| == |old(run.report)| + 1 && old(run.visited) <= run.visited
    ensures old(run.admitted) <= run.admitted <= old(run.admitted) + {path}
    ensures forall v | v in run.visited && v !in old(run.visited) :: run.store.occs[v].spool == path
    ensures run.calm ==> OnlyAt(old(run.Current()), run.Current(), path)
    ensures forall x | run.calm && x in old(run.store.occs) && old(run.store.occs)[x].spool == path
                       && Steady(old(run.Current()), x) ::
              && x in run.visited
              && DealtWith(run.Current(), x, AttemptsOf(old(run.store.Rows()), x),
                           run.Fits(old(run.store.Rows()), x, old(run.now)))
    ensures run.calm && NoneActive(old(run.store.Rows()), path) && Walkable(old(run.disk), path)
            && path in run.admitted ==>
              TakenUp(run, run.Current(), run.visited, old(run.store.occs).Keys, old(run.disk), path)
  {
    hide Legal, Now, Went, Gone, Kept, Steady, Idle, DealtWith, ReportsOnce, AttemptsOf, Distinct, Continues, OnlyOn,
         OnlyAt, TakenUp, Walkable, AllNew;
    forall x ensures Steady(run.Current(), x) ==> x in run.store.occs && Active(run.store.occs[x].state) {
      SteadyIsActive(run.Current(), x);
    }
    var active := ActiveOccurrence(run, path);
    if active.Some? {
      forall x | x in run.store.occs && Steady(run.Current(), x) && run.store.occs[x].spool == path
        ensures x == active.value
      {
        OneActive(run.history, x, active.value);
      }
      RemembersSpool(run.Current(), active.value);
      Visit(run, active.value);
      if run.calm { OnlyOnIsOnlyAt(old(run.Current()), run.Current(), active.value); }
    } else {
      NewItem(run, path);
    }
  }

  lemma RemembersSpool(w: World, o: Id)
    ensures forall w': World :: Remembers(w, w') && o in w.db.occs ==>
              o in w'.db.occs && w'.db.occs[o].spool == w.db.occs[o].spool
  {}

  /** A path without an active occurrence. */
  method NewItem(run: Run, path: string)
    requires run.Valid() && Tidy(run) && Parent(path) == run.drop && path !in run.admitted
    requires NoneActive(run.store.Rows(), path)
    modifies run, run.store
    ensures run.Valid() && Tidy(run) && run.now >= old(run.now)
    ensures Continues(old(run.history), run.history, run.calm) && Remembers(old(run.Current()), run.Current())
    ensures |run.report| == |old(run.report)| + 1 && old(run.visited) <= run.visited
    ensures old(run.admitted) <= run.admitted <= old(run.admitted) + {path}
    ensures forall v | v in run.visited && v !in old(run.visited) :: run.store.occs[v].spool == path
    ensures run.calm ==> OnlyAt(old(run.Current()), run.Current(), path)
    ensures run.calm && Walkable(old(run.disk), path) && path in run.admitted ==>
              TakenUp(run, run.Current(), run.visited, old(run.store.occs).Keys, old(run.disk), path)
  {
    hide Legal, Now, Went, Kept, Tidy, Continues, Remembers, OnlyOn, OnlyAt, Spared, Walkable, Depicts, DealtWith,
         Isolated, TakenUp, Steady, AttemptsOf, HasPending, Run.Fits, NoneActive;
    var captured := CaptureNew(run, path);
    ghost var w, mid, at := run.Current(), run.history, run.now;
    if captured == None {
      if run.calm { OnlyRowsAt(old(run.Current()), w, path); }
      return;
    }
    var id := captured.value;
    NoAttemptsYet(old(run.history), w.db, id);
    RemembersSpool(w, id);
    Visit(run, id);
    ContinuesOn(old(run.history), mid, run.history, run.calm);
    RemembersOn(old(run.Current()), w, run.Current());
    if run.calm {
      OnlyAtOn(old(run.Current()), w, run.Current(), path, id);
      if Steady(w, id) && (0 < run.budget || run.insist) { FirstFits(run, w.db, id, at); }
      NowTakenUp(run, old(run.Current()), w, run.Current(), run.visited, path, id, run.Fits(w.db, id, at));
    }
  }

  lemma NowTakenUp(run: Run, w0: World, w: World, w': World, visited: set<Id>, q: string, id: Id, fit: bool)
    requires w.disk == w0.disk && id in w.db.occs && id !in w0.db.occs && id in visited && Remembers(w, w')
    requires w.db.occs[id].state == Recorded && Depicts(w.db.occs[id], w.disk, q)
    requires Steady(w, id) ==> DealtWith(w', id, {}, fit) && (0 < run.budget || run.insist ==> fit)
    ensures TakenUp(run, w', visited, w0.db.occs.Keys, w0.disk, q)
  {
    hide Depicts, DealtWith, Isolated, Steady;
    DepictsOn(w.db.occs[id], w'.db.occs[id], w.disk, q);
    QIsThere(w.db.occs[id], w.disk, q);
    if Isolated(w.disk, q) && !w.disk[q].body.LinkBody? {
      CapturedIsSteady(w, id, q);
      DealtWithOn(w', id, {}, fit, 0 < run.budget || run.insist);
    }
    assert TakenUpAs(run, w', visited, w0.db.occs.Keys, w0.disk, q, id);
  }

  lemma QIsThere(row: Occ, disk: Disk, q: string)
    requires Depicts(row, disk, q)
    ensures q in disk
  {}

  /** A record in an unchanged folder. */
  lemma OnlyRowsAt(w: World, w': World, path: string)
    requires w'.disk == w.disk && w'.drop == w.drop && w'.db.attempts == w.db.attempts
    requires forall x | x in w.db.occs :: x in w'.db.occs && w'.db.occs[x] == w.db.occs[x]
    requires forall x | x in w'.db.occs && x !in w.db.occs :: w'.db.occs[x].spool == path
    ensures OnlyAt(w, w', path) && forall x | x in w.db.occs :: Kept(w, w', x)
  {
    hide Isolated, Unchanged, Clean;
  }

  /** A record, and then work on what was recorded. */
  lemma OnlyAtOn(w: World, w1: World, w2: World, path: string, id: Id)
    requires w1.disk == w.disk && w1.drop == w.drop && w1.db.attempts == w.db.attempts
    requires w1.db.occs.Keys == w.db.occs.Keys + {id} && id !in w.db.occs && w1.db.occs[id].spool == path
    requires forall x | x in w.db.occs :: w1.db.occs[x] == w.db.occs[x]
    requires OnlyOn(w1, w2, id) && w2.db.occs.Keys == w1.db.occs.Keys && w2.db.occs[id].spool == path
    ensures OnlyAt(w, w2, path)
  {
    hide Kept, Spared;
    OnlyRowsAt(w, w1, path);
    forall x | x in w.db.occs && w.db.occs[x].spool != path ensures Kept(w, w2, x) { KeptOn(w, w1, w2, x); }
    forall q | q != path ensures Spared(w, w2, q) { SparedOn(w, w1, w2, q); }
  }

  lemma RemembersOn(w: World, w1: World, w2: World)
    requires Remembers(w, w1) && Remembers(w1, w2)
    ensures Remembers(w, w2)
  {}

  /** A capture in the books of the run: a new row, not yet visited, or one event. */
  method CaptureNew(run: Run, path: string) returns (o: Option<Id>)
    requires run.Valid() && Tidy(run) && Parent(path) == run.drop && NoneActive(run.store.Rows(), path)
    modifies run, run.store
    ensures run.Valid() && Tidy(run) && run.now >= old(run.now)
    ensures Continues(old(run.history), run.history, run.calm) && Remembers(old(run.Current()), run.Current())
    ensures run.visited == old(run.visited) && run.store.attempts == old(run.store.attempts)
    ensures |run.report| == |old(run.report)| + if o == None then 1 else 0
    ensures old(run.admitted) <= run.admitted <= old(run.admitted) + {path}
    ensures run.store.occs.Keys == old(run.store.occs).Keys + if o.Some? then {o.value} else {}
    ensures forall x | x in old(run.store.occs) :: run.store.occs[x] == old(run.store.occs)[x]
    ensures o.Some? ==> && o.value !in old(run.store.occs) && o.value !in run.visited
                        && run.store.occs[o.value].spool == path && run.store.occs[o.value].state == Recorded
    ensures run.calm ==> run.disk == old(run.disk) && (o.Some? ==> Depicts(run.store.occs[o.value], run.disk, path))
    ensures run.calm && path !in old(run.admitted) ==>
              (o.Some? <==> path in run.admitted && Walkable(run.disk, path))
  {
    hide Legal, Now, Went, ReportsOnce, Distinct, Continues, Walkable, Depicts, Remembers, AllNew, BackedUp,
         Run.Recalls;
    ghost var seen;
    o, seen := CaptureItem(run, path);
    WentContinues(run.base, run.history, run.item, run.calm);
    PastIsRemembered(run.base, run.history, run.calm);
    if o == None {
      UnnamedIsFine(old(run.report), run.visited, run.report);
    } else {
      SpoolOf(run.store.occs[o.value], seen, path);
    }
  }

  lemma SteadyIsActive(w: World, x: Id)
    ensures Steady(w, x) ==> x in w.db.occs && Active(w.db.occs[x].state)
  {
    hide Isolated, Clean, Unchanged;
  }

  lemma OneActive(h: History, x: Id, y: Id)
    requires Legal(h) && x in Now(h).db.occs && y in Now(h).db.occs && Steady(Now(h), x)
    requires Active(Now(h).db.occs[y].state)
    ensures Now(h).db.occs[x].spool == Now(h).db.occs[y].spool ==> x == y
  {
    EveryRunIsSound(h);
    SteadyIsActive(Now(h), x);
    hide Legal, Now, Steady;
  }

  // ---- the scan ---------------------------------------------------------------------------------------

  /** `.DS_Store`, `.localized` and what begins with the program's own prefix. */
  predicate Ignored(name: string) {
    name == ".DS_Store" || name == ".localized" || ".dropin-" <= name
  }

  /** A top-level entry the scan takes for an item. */
  predicate Selected(p: string, drop: string) {
    Parent(p) == drop && |p| > |drop| && !Ignored(p[|drop| + 1..])
  }

  /** Whatever does not begin with a dot is taken, and nothing of the program's own. */
  lemma OrdinaryIsSelected(p: string, drop: string)
    requires Parent(p) == drop && |p| > |drop| + 1
    ensures p[|drop| + 1] != '.' ==> Selected(p, drop)
    ensures ".dropin-" <= p[|drop| + 1..] ==> !Selected(p, drop)
  {
    assert p[|drop| + 1..][0] == p[|drop| + 1];
  }

  method Scan(run: Run) returns (paths: seq<string>)
    ensures Sorted(paths, Less)
    ensures forall p :: p in paths <==> p in run.disk && Selected(p, run.drop)
  {
    LessIsStrict();
    var names := set p | p in run.disk && Selected(p, run.drop);
    paths := SortBy(names, Less);
    forall p ensures p in paths <==> p in run.disk && Selected(p, run.drop) {
      assert p in (set q | q in paths) <==> p in names;
    }
  }

  /** How the watched occurrence stands: dealt with, or still exactly as at the start. */
  ghost predicate Watched(run: Run, w: World, visited: set<Id>, start: World, since: int, x: Id, here: bool) {
    && x in start.db.occs && x in w.db.occs && w.db.occs[x].spool == start.db.occs[x].spool
    && (x in visited <==> here)
    && if here then DealtWith(w, x, AttemptsOf(start.db, x), run.Fits(start.db, x, since))
       else Kept(start, w, x)
  }

  lemma FitsLater(run: Run, db: Db, db': Db, x: Id, at: int, at': int)
    requires x in db.occs && SameRows(db, db', x) && at <= at'
    ensures run.Fits(db, x, at) ==> run.Fits(db', x, at')
  {
    SameRowsSameAttempts(db, db', x);
    hide RowsOf;
  }

  /** Another item's turn changes nothing for the watched one. */
  lemma WatchedBeside(run: Run, w: World, visited: set<Id>, w': World, visited': set<Id>, start: World, since: int,
                      x: Id, here: bool)
    requires Watched(run, w, visited, start, since, x, here)
    requires Kept(w, w', x) && (x in visited' <==> x in visited)
    ensures Watched(run, w', visited', start, since, x, here)
  {
    if here {
      KeptIsDealtWith(w, w', x, AttemptsOf(start.db, x), run.Fits(start.db, x, since));
    } else {
      KeptOn(start, w, w', x);
    }
    hide DealtWith, Steady, Gone, RowsOf, AttemptsOf;
  }

  /** The watched one's own turn. */
  lemma WatchedTurn(run: Run, w: World, visited: set<Id>, at: int, w': World, visited': set<Id>, start: World,
                    since: int, x: Id)
    requires Watched(run, w, visited, start, since, x, false)
    requires since <= at && x in visited' && x in w'.db.occs && w'.db.occs[x].spool == w.db.occs[x].spool
    requires DealtWith(w', x, AttemptsOf(w.db, x), run.Fits(w.db, x, at))
    ensures Watched(run, w', visited', start, since, x, true)
  {
    SameRowsSameAttempts(start.db, w.db, x);
    FitsLater(run, start.db, w.db, x, since, at);
    hide Steady, Gone, RowsOf, AttemptsOf, Idle, Run.Fits;
  }

  lemma WatchedIsSteady(run: Run, w: World, visited: set<Id>, start: World, since: int, x: Id)
    requires Steady(start, x) && Watched(run, w, visited, start, since, x, false)
    ensures Steady(w, x)
  {
    hide Isolated, Clean, Unchanged, RowsOf;
  }

  ghost predicate VisitedAmong(visited: set<Id>, occs: map<Id, Occ>, paths: seq<string>) {
    forall v | v in visited :: v in occs && occs[v].spool in paths
  }

  lemma NoneBefore(visited: set<Id>, occs: map<Id, Occ>, paths: seq<string>, i: nat)
    requires i < |paths| && Sorted(paths, Less) && VisitedAmong(visited, occs, paths[..i])
    ensures forall v | v in visited :: occs[v].spool != paths[i]
    ensures paths[i] !in paths[..i]
  {
    LessIsStrict();
    assert forall k | 0 <= k < i :: paths[..i][k] == paths[k] && paths[k] != paths[i];
  }

  lemma StillAmong(visited: set<Id>, w: World, visited': set<Id>, w': World, done: seq<string>, path: string)
    requires VisitedAmong(visited, w.db.occs, done) && Remembers(w, w') && visited' <= w'.db.occs.Keys
    requires forall v | v in visited' && v !in visited :: w'.db.occs[v].spool == path
    ensures VisitedAmong(visited', w'.db.occs, done + [path])
  {}

  /** Still to come: its entries as at the start, nobody at work on it. */
  ghost predicate Awaits(start: World, w: World, q: string) {
    && w.drop == start.drop && q in w.disk && Parent(q) == w.drop && Isolated(w.disk, q)
    && Untouched(start.disk, w.disk, q) && NoneActive(w.db, q) && start.db.occs.Keys <= w.db.occs.Keys
  }

  /** How the fresh item stands: taken up if it was admitted, or still to come. */
  ghost predicate Newcomer(run: Run, w: World, visited: set<Id>, admitted: set<string>, start: World, q: string,
                           here: bool)
  {
    if here then q in admitted ==> TakenUp(run, w, visited, start.db.occs.Keys, start.disk, q)
    else Awaits(start, w, q)
  }

  lemma FreshAwaits(start: World, w: World, q: string)
    requires FreshItem(start, q) && w.disk == start.disk && w.drop == start.drop && w.db.occs == start.db.occs
    ensures Awaits(start, w, q)
  {
    hide Walkable, Isolated;
  }

  lemma AwaitsWhole(start: World, w: World, q: string)
    requires FreshItem(start, q) && Awaits(start, w, q)
    ensures Walkable(w.disk, q) && NoneActive(w.db, q)
  {
    hide Isolated, Selected;
    assert Within(q, q);
  }

  /** The fresh item's own turn. */
  lemma NewcomerTurn(run: Run, w: World, w': World, visited: set<Id>, admitted: set<string>, start: World, q: string)
    requires Awaits(start, w, q) && FreshItem(start, q)
    requires q in admitted ==> TakenUp(run, w', visited, w.db.occs.Keys, w.disk, q)
    ensures Newcomer(run, w', visited, admitted, start, q, true)
  {
    hide Walkable, Isolated, Depicts, DealtWith, Untouched;
    if q in admitted {
      var id :| TakenUpAs(run, w', visited, w.db.occs.Keys, w.disk, q, id);
      DepictsAlike(w'.db.occs[id], start.disk, w.disk, q);
      assert TakenUpAs(run, w', visited, start.db.occs.Keys, start.disk, q, id);
    }
  }

  /** What was taken up stays so while others are worked on. */
  lemma TakenUpStays(run: Run, w: World, w': World, visited: set<Id>, visited': set<Id>, known: set<Id>, disk: Disk,
                     q: string)
    requires TakenUp(run, w, visited, known, disk, q) && visited <= visited'
    requires forall v | v in visited && v in w.db.occs && w.db.occs[v].spool == q :: Kept(w, w', v)
    ensures TakenUp(run, w', visited', known, disk, q)
  {
    var id :| TakenUpAs(run, w, visited, known, disk, q, id);
    SpoolOf(w.db.occs[id], disk, q);
    hide Depicts, Isolated, DealtWith;
    KeptOcc(w, w', id);
    if Isolated(disk, q) && !disk[q].body.LinkBody? { KeptIsDealtWith(w, w', id, {}, 0 < run.budget || run.insist); }
    assert TakenUpAs(run, w', visited', known, disk, q, id);
  }

  lemma SpoolOf(row: Occ, disk: Disk, q: string)
    requires Depicts(row, disk, q)
    ensures row.spool == q && q in disk
  {}

  lemma KeptOcc(w: World, w': World, x: Id)
    requires Kept(w, w', x) && x in w.db.occs
    ensures x in w'.db.occs && w'.db.occs[x] == w.db.occs[x]
  {}

  /** Another item's turn changes nothing for the fresh one. */
  lemma NewcomerBeside(run: Run, w: World, w': World, visited: set<Id>, visited': set<Id>, admitted: set<string>,
                       admitted': set<string>, start: World, q: string, path: string, here: bool)
    requires Newcomer(run, w, visited, admitted, start, q, here) && OnlyAt(w, w', path) && q != path
    requires visited <= visited' && admitted' <= admitted + {path} && w'.drop == w.drop
    requires Remembers(w, w')
    ensures Newcomer(run, w', visited', admitted', start, q, here)
  {
    hide Kept, Isolated, TakenUp;
    if here {
      if q in admitted' { TakenUpStays(run, w, w', visited, visited', start.db.occs.Keys, start.disk, q); }
    } else {
      assert Spared(w, w', q);
      forall x | x in w'.db.occs && Active(w'.db.occs[x].state) ensures w'.db.occs[x].spool != q {
        if x in w.db.occs && w.db.occs[x].spool != path { KeptOcc(w, w', x); }
      }
    }
  }

  /** Pass 1, in name order. */
  method ScanPass(run: Run, paths: seq<string>, ghost start: World, ghost since: int, ghost x: Id, ghost q: string)
    requires run.Valid() && Tidy(run) && Sorted(paths, Less) && (forall p | p in paths :: Parent(p) == run.drop)
    requires run.visited == {} && run.admitted == {} && since <= run.now
    requires run.calm && Steady(start, x) ==> Watched(run, run.Current(), {}, start, since, x, false)
    requires run.calm && FreshItem(start, q) ==> Awaits(start, run.Current(), q)
    modifies run, run.store
    ensures run.Valid() && Tidy(run) && run.now >= old(run.now) && Continues(old(run.history), run.history, run.calm)
    ensures |run.report| == |old(run.report)| + |paths|
    ensures run.calm && Steady(start, x) ==>
              Watched(run, run.Current(), run.visited, start, since, x, start.db.occs[x].spool in paths)
    ensures run.calm && FreshItem(start, q) ==>
              Newcomer(run, run.Current(), run.visited, run.admitted, start, q, q in paths)
  {
    SteadyIsActive(start, x);
    hide Legal, Now, Went, Steady, Tidy, Watched, Sorted, VisitedAmong, Continues, FreshItem, Awaits, TakenUp;
    ContinuesItself(run.history, run.calm);
    assert VisitedAmong(run.visited, run.store.occs, paths[..0]) by { NoneAmong(run.store.occs); }
    for i := 0 to |paths|
      invariant run.Valid() && Tidy(run) && run.now >= old(run.now)
      invariant Continues(old(run.history), run.history, run.calm)
      invariant |run.report| == |old(run.report)| + i
      invariant VisitedAmong(run.visited, run.store.occs, paths[..i])
      invariant forall p | p in run.admitted :: p in paths[..i]
      invariant run.calm && Steady(start, x) ==>
                  && x in start.db.occs
                  && Watched(run, run.Current(), run.visited, start, since, x, start.db.occs[x].spool in paths[..i])
      invariant run.calm && FreshItem(start, q) ==>
                  Newcomer(run, run.Current(), run.visited, run.admitted, start, q, q in paths[..i])
    {
      ghost var mid := run.history;
      assert paths[i] in paths && paths[..i + 1] == paths[..i] + [paths[i]];
      ScanOne(run, paths, i, start, since, x, q);
      ContinuesOn(old(run.history), mid, run.history, run.calm);
    }
    assert paths[..|paths|] == paths;
  }

  lemma NoneAmong(occs: map<Id, Occ>)
    ensures VisitedAmong({}, occs, [])
  {}

  method ScanOne(run: Run, paths: seq<string>, i: nat, ghost start: World, ghost since: int, ghost x: Id,
                 ghost q: string)
    requires run.Valid() && Tidy(run) && Sorted(paths, Less) && i < |paths| && Parent(paths[i]) == run.drop
    requires since <= run.now && VisitedAmong(run.visited, run.store.occs, paths[..i])
    requires forall p | p in run.admitted :: p in paths[..i]
    requires run.calm && Steady(start, x) ==>
               Watched(run, run.Current(), run.visited, start, since, x, start.db.occs[x].spool in paths[..i])
    requires run.calm && FreshItem(start, q) ==>
               Newcomer(run, run.Current(), run.visited, run.admitted, start, q, q in paths[..i])
    modifies run, run.store
    ensures run.Valid() && Tidy(run) && run.now >= old(run.now) && Continues(old(run.history), run.history, run.calm)
    ensures |run.report| == |old(run.report)| + 1
    ensures VisitedAmong(run.visited, run.store.occs, paths[..i] + [paths[i]])
    ensures forall p | p in run.admitted :: p in paths[..i] + [paths[i]]
    ensures run.calm && Steady(start, x) ==>
              Watched(run, run.Current(), run.visited, start, since, x,
                      start.db.occs[x].spool in paths[..i] + [paths[i]])
    ensures run.calm && FreshItem(start, q) ==>
              Newcomer(run, run.Current(), run.visited, run.admitted, start, q, q in paths[..i] + [paths[i]])
  {
    hide Legal, Now, Went, Steady, Sorted, VisitedAmong, Continues, Kept, DealtWith, AttemptsOf, Remembers, ReportsOnce,
         Run.Fits, Distinct, FreshItem, TakenUp, OnlyAt, Watched, Newcomer, Walkable, NoneActive, AllNew, Awaits;
    NoneBefore(run.visited, run.store.occs, paths, i);
    SteadyIsActive(start, x);
    ghost var w, seen, at, let := run.Current(), run.visited, run.now, run.admitted;
    ghost var here := q in paths[..i];
    if run.calm && FreshItem(start, q) && q == paths[i] {
      NewcomerAwaits(run, w, seen, let, start, q);
      AwaitsWhole(start, w, q);
    }
    SpoolItem(run, paths[i]);
    StillAmong(seen, w, run.visited, run.Current(), paths[..i], paths[i]);
    if run.calm && Steady(start, x) { WatchedOn(run, w, seen, at, start, since, x, paths, i); }
    if run.calm && FreshItem(start, q) {
      if q == paths[i] {
        NewcomerTurn(run, w, run.Current(), run.visited, run.admitted, start, q);
      } else {
        NewcomerBeside(run, w, run.Current(), seen, run.visited, let, run.admitted, start, q, paths[i], here);
      }
    }
  }

  lemma NewcomerAwaits(run: Run, w: World, visited: set<Id>, admitted: set<string>, start: World, q: string)
    requires Newcomer(run, w, visited, admitted, start, q, false)
    ensures Awaits(start, w, q)
  {
    hide Awaits;
  }

  /** The watched occurrence after the turn of `paths[i]`, its own or another's. */
  lemma WatchedOn(run: Run, w: World, seen: set<Id>, at: int, start: World, since: int, x: Id, paths: seq<string>,
                  i: nat)
    requires i < |paths| && paths[i] !in paths[..i] && Steady(start, x) && since <= at && x in start.db.occs
    requires Watched(run, w, seen, start, since, x, start.db.occs[x].spool in paths[..i])
    requires Remembers(w, run.Current()) && OnlyAt(w, run.Current(), paths[i]) && seen <= run.visited
    requires forall v | v in run.visited && v !in seen :: v in run.store.occs && run.store.occs[v].spool == paths[i]
    requires x in w.db.occs && w.db.occs[x].spool == paths[i] && Steady(w, x) ==>
               && x in run.visited
               && DealtWith(run.Current(), x, AttemptsOf(w.db, x), run.Fits(w.db, x, at))
    ensures Watched(run, run.Current(), run.visited, start, since, x,
                    start.db.occs[x].spool in paths[..i] + [paths[i]])
  {
    hide Steady, Kept, DealtWith, AttemptsOf, Run.Fits, Spared;
    var w' := run.Current();
    RemembersItem(w, w', x);
    if start.db.occs[x].spool == paths[i] {
      WatchedIsSteady(run, w, seen, start, since, x);
      WatchedTurn(run, w, seen, at, w', run.visited, start, since, x);
    } else {
      WatchedBeside(run, w, seen, w', run.visited, start, since, x, start.db.occs[x].spool in paths[..i]);
    }
  }

  lemma RemembersItem(w: World, w': World, x: Id)
    requires Remembers(w, w') && x in w.db.occs
    ensures x in w'.db.occs && w'.db.occs[x].spool == w.db.occs[x].spool
  {}

  // ---- pass 2: pending eviction intents ---------------------------------------------------------------

  function Intended(db: Db): set<Id> {
    set o | o in db.intents && o in db.occs && db.occs[o].state == Evicting
  }

  /** None of the occurrences visited before changed. */
  ghost predicate KeptAll(w: World, w': World, visited: set<Id>) {
    forall v | v in visited && v in w.db.occs :: Kept(w, w', v)
  }

  lemma KeptAllItself(w: World, visited: set<Id>)
    ensures KeptAll(w, w, visited)
  {
    hide RowsOf, Isolated, Unchanged, Clean;
  }

  lemma KeptAllOn(w: World, w1: World, w2: World, visited: set<Id>, o: Id)
    requires KeptAll(w, w1, visited) && OnlyOn(w1, w2, o) && o !in visited
    ensures KeptAll(w, w2, visited)
  {
    hide Kept, Spared;
    forall v | v in visited && v in w.db.occs ensures Kept(w, w2, v) {
      KeptIsThere(w, w1, v);
      KeptOn(w, w1, w2, v);
    }
  }

  /** Pass 2: every deletion still intended has its turn in this run. */
  method IntentPass(run: Run, ghost start: World, ghost since: int, ghost x: Id, ghost here: bool)
    requires run.Valid() && Tidy(run) && since <= run.now
    requires run.calm && Steady(start, x) ==> Watched(run, run.Current(), run.visited, start, since, x, here)
    modifies run, run.store
    ensures run.Valid() && Tidy(run) && run.now >= old(run.now) && Continues(old(run.history), run.history, run.calm)
    ensures run.calm && Steady(start, x) ==>
              Watched(run, run.Current(), run.visited, start, since, x, here || start.db.occs[x].state == Evicting)
    ensures old(run.visited + Intended(run.store.Rows())) <= run.visited && run.admitted == old(run.admitted)
    ensures run.calm ==> KeptAll(old(run.Current()), run.Current(), old(run.visited))
  {
    hide Legal, Now, Went, Steady, Continues, Kept, DealtWith, AttemptsOf, ReportsOnce, Distinct, Run.Fits, KeptAll,
         AllNew, Spared, Watched, Remembers;
    ContinuesItself(run.history, run.calm);
    KeptAllItself(run.Current(), run.visited);
    var rest := set o | o in run.store.intents && o !in run.visited && o in run.store.occs
                        && run.store.occs[o].state == Evicting;
    ghost var watched, present := run.calm && Steady(start, x), here;
    ghost var evicting := x in start.db.occs && start.db.occs[x].state == Evicting;
    SteadyIsActive(start, x);
    if watched {
      WatchedMeans(run, run.Current(), run.visited, start, since, x, here);
      if !here { IntendedStill(run.history, start, x); }
    }
    while rest != {}
      invariant run.Valid() && Tidy(run) && run.now >= old(run.now)
      invariant Continues(old(run.history), run.history, run.calm)
      invariant rest <= run.store.occs.Keys && rest !! run.visited
      invariant old(run.visited + Intended(run.store.Rows())) <= run.visited + rest
      invariant run.admitted == old(run.admitted) && old(run.visited) <= run.visited
      invariant run.calm ==> KeptAll(old(run.Current()), run.Current(), old(run.visited))
      invariant watched ==> Watched(run, run.Current(), run.visited, start, since, x, present)
      invariant watched && !present && evicting ==> x in rest
      invariant present ==> here || evicting
      invariant here ==> present
      invariant watched && x in rest ==> evicting
      decreases rest
    {
      var o :| o in rest;
      rest := rest - {o};
      ghost var w, seen, at, mid := run.Current(), run.visited, run.now, run.history;
      if watched { WatchedMeans(run, w, seen, start, since, x, present); }
      if watched && o == x { WatchedIsSteady(run, w, seen, start, since, x); }
      Visit(run, o);
      ContinuesOn(old(run.history), mid, run.history, run.calm);
      if run.calm { KeptAllOn(old(run.Current()), w, run.Current(), old(run.visited), o); }
      if watched {
        WatchedVisit(run, w, seen, at, start, since, x, o, present);
        present := present || o == x;
      }
    }
  }

  lemma WatchedMeans(run: Run, w: World, visited: set<Id>, start: World, since: int, x: Id, here: bool)
    requires Watched(run, w, visited, start, since, x, here)
    ensures x in start.db.occs && (x in visited <==> here) && (!here ==> Kept(start, w, x))
  {
    hide Kept, DealtWith;
  }

  /** The watched occurrence after the visit of `o`. */
  lemma WatchedVisit(run: Run, w: World, seen: set<Id>, at: int, start: World, since: int, x: Id, o: Id, here: bool)
    requires Watched(run, w, seen, start, since, x, here) && since <= at && o in w.db.occs && o !in seen
    requires Remembers(w, run.Current()) && OnlyOn(w, run.Current(), o) && run.visited == seen + {o}
    requires o == x && Steady(w, x) ==> DealtWith(run.Current(), x, AttemptsOf(w.db, x), run.Fits(w.db, x, at))
    requires o == x && !here ==> Steady(w, x)
    ensures Watched(run, run.Current(), run.visited, start, since, x, here || o == x)
  {
    hide Steady, Kept, DealtWith, AttemptsOf, Run.Fits, Spared;
    var w' := run.Current();
    if o == x {
      RemembersItem(w, w', x);
      WatchedTurn(run, w, seen, at, w', run.visited, start, since, x);
    } else {
      OthersKept(w, w', o);
      WatchedBeside(run, w, seen, w', run.visited, start, since, x, here);
    }
  }

  lemma OthersKept(w: World, w': World, o: Id)
    requires OnlyOn(w, w', o)
    ensures forall x | x in w.db.occs && x != o :: Kept(w, w', x)
  {
    hide Kept, Spared;
  }

  lemma IntendedStill(h: History, start: World, x: Id)
    requires Legal(h) && x in start.db.occs && Kept(start, Now(h), x)
    ensures x in Now(h).db.occs && (start.db.occs[x].state == Evicting <==> x in Now(h).db.intents)
    ensures Now(h).db.occs[x] == start.db.occs[x]
  {
    EveryRunIsSound(h);
    hide Legal, Now, Steady, Gone, RowsOf;
  }

  // ---- pass 3: dormant pending attempts -----------------------------------------------------------------

  /**
   * Pass 3: every pending attempt no visit reached. Undisturbed, each of them is
   * failed if no snapshot carries its tag; visited occurrences are left alone.
   */
  method DormantPass(run: Run, ghost x: Id, ghost spent: set<Id>, ghost fit: bool)
    requires run.Valid() && Tidy(run)
    modifies run`repo, run`disk, run`clock, run`now, run`history, run`item, run`base, run.store
    ensures run.Valid() && Tidy(run) && run.now >= old(run.now) && Continues(old(run.history), run.history, run.calm)
    ensures run.calm && DealtWith(old(run.Current()), x, spent, fit) ==> DealtWith(run.Current(), x, spent, fit)
    ensures run.calm ==> KeptAll(old(run.Current()), run.Current(), run.visited)
    ensures run.calm ==> forall a | Forgotten(old(run.store.Rows()), run.visited, a) && Bearing(run.repo, a) == {} ::
              a in run.store.attempts && run.store.attempts[a].outcome == Failed
    ensures run.calm ==> NoneForgotten(run.store.Rows(), run.repo, run.visited)
  {
    hide Legal, Now, Went, Continues, Kept, DealtWith, ReportsOnce, Distinct, OnlyOn, KeptAll, AllNew, Bearing;
    hide OnlyFails, NoneForgotten;
    ghost var from, start, was := run.history, run.Current(), run.store.attempts;
    OnlyFailsItself(was);
    AttemptsHaveRows(run.history);
    ContinuesItself(run.history, run.calm);
    KeptAllItself(run.Current(), run.visited);
    var rest := set a | a in run.store.attempts && run.store.attempts[a].outcome == Pending
                        && run.store.attempts[a].occ !in run.visited && run.store.attempts[a].occ in run.store.occs;
    ghost var todo := rest;
    while rest != {}
      invariant run.Valid() && Tidy(run) && run.now >= old(run.now)
      invariant Continues(old(run.history), run.history, run.calm)
      invariant rest <= todo
      invariant forall a | a in rest :: IsPending(run.store.Rows(), a) && run.store.attempts[a].occ !in run.visited
      invariant run.calm && DealtWith(old(run.Current()), x, spent, fit) ==> DealtWith(run.Current(), x, spent, fit)
      invariant run.calm ==> run.repo == old(run.repo) && KeptAll(old(run.Current()), run.Current(), run.visited)
      invariant run.calm ==> forall a | a in todo && a !in rest && Bearing(run.repo, a) == {} ::
                  a in run.store.attempts && run.store.attempts[a].outcome == Failed
      invariant run.calm ==> OnlyFails(was, run.store.attempts)
      decreases rest
    {
      var a :| a in rest;
      rest := rest - {a};
      DormantTurn(run, a, from, start, was, x, spent, fit);
    }
    if run.calm { NoneIsForgotten(was, run.store.Rows(), run.repo, run.visited, todo); }
  }

  method DormantTurn(run: Run, a: Id, ghost from: History, ghost start: World, ghost was: map<Id, Attempt>,
                     ghost x: Id, ghost spent: set<Id>, ghost fit: bool)
    requires run.Valid() && Tidy(run) && IsPending(run.store.Rows(), a) && run.store.attempts[a].occ !in run.visited
    requires Continues(from, run.history, run.calm)
    modifies run`repo, run`disk, run`clock, run`now, run`history, run`item, run`base, run.store
    ensures run.Valid() && Tidy(run) && run.now >= old(run.now) && Continues(from, run.history, run.calm)
    ensures old(run.store.occs).Keys <= run.store.occs.Keys
    ensures forall b | b != a && b in old(run.store.attempts) ::
              b in run.store.attempts && run.store.attempts[b] == old(run.store.attempts)[b]
    ensures run.calm && DealtWith(old(run.Current()), x, spent, fit) ==> DealtWith(run.Current(), x, spent, fit)
    ensures run.calm ==> run.repo == old(run.repo)
    ensures run.calm && KeptAll(start, old(run.Current()), run.visited) ==> KeptAll(start, run.Current(), run.visited)
    ensures run.calm && OnlyFails(was, old(run.store.attempts)) ==> OnlyFails(was, run.store.attempts)
    ensures run.calm && Bearing(run.repo, a) == {} ==>
              a in run.store.attempts && run.store.attempts[a].outcome == Failed
  {
    hide Legal, Now, Went, Continues, Kept, DealtWith, ReportsOnce, Distinct, OnlyOn, KeptAll, AllNew, Bearing;
    hide OnlyFails;
    ghost var w, mid, o := run.Current(), run.history, run.store.attempts[a].occ;
    if run.calm && DealtWith(w, x, spent, fit) { DealtWithIsQuiet(run.history, x, spent, fit, a); }
    Dormant(run, a);
    ContinuesOn(from, mid, run.history, run.calm);
    if run.calm {
      OnlyFailsOn(was, w.db.attempts, run.store.attempts);
      if KeptAll(start, w, run.visited) { KeptAllOn(start, w, run.Current(), run.visited, o); }
      if DealtWith(w, x, spent, fit) {
        OthersKept(w, run.Current(), o);
        KeptIsDealtWith(w, run.Current(), x, spent, fit);
      }
    }
  }

  /** Attempts may have failed; nothing else became of any, and none is new. */
  predicate OnlyFails(was: map<Id, Attempt>, now: map<Id, Attempt>) {
    && now.Keys == was.Keys
    && forall a | a in was ::
         now[a] == was[a] || (now[a].outcome == Failed && now[a].occ == was[a].occ)
  }

  lemma OnlyFailsItself(attempts: map<Id, Attempt>)
    ensures OnlyFails(attempts, attempts)
  {}

  lemma OnlyFailsOn(x: map<Id, Attempt>, y: map<Id, Attempt>, z: map<Id, Attempt>)
    requires OnlyFails(y, z)
    ensures OnlyFails(x, y) ==> OnlyFails(x, z)
  {}

  /** What is pending on an occurrence nobody visited has a snapshot in the repository. */
  predicate NoneForgotten(db: Db, repo: map<SnapId, Snap>, visited: set<Id>) {
    forall a | a in db.attempts && Forgotten(db, visited, a) :: Bearing(repo, a) != {}
  }

  lemma NoneIsForgotten(was: map<Id, Attempt>, db: Db, repo: map<SnapId, Snap>, visited: set<Id>, todo: set<Id>)
    requires OnlyFails(was, db.attempts)
    requires forall a | a in was && was[a].outcome == Pending && was[a].occ !in visited :: a in todo
    requires forall a | a in todo && Bearing(repo, a) == {} :: a in db.attempts && db.attempts[a].outcome == Failed
    ensures NoneForgotten(db, repo, visited)
  {
    hide Bearing;
  }

  lemma AttemptsHaveRows(h: History)
    requires Legal(h)
    ensures forall a | a in Now(h).db.attempts :: Now(h).db.attempts[a].occ in Now(h).db.occs
  {
    EveryRunIsSound(h);
    InvParts(Now(h));
    hide Inv, Legal, Now;
  }

  /** Pending, of an occurrence this run never visited. */
  predicate Forgotten(db: Db, visited: set<Id>, a: Id) {
    IsPending(db, a) && db.attempts[a].occ !in visited
  }

  lemma DealtWithIsQuiet(h: History, x: Id, spent: set<Id>, fit: bool, a: Id)
    requires Legal(h) && DealtWith(Now(h), x, spent, fit) && IsPending(Now(h).db, a)
    ensures x in Now(h).db.occs && Now(h).db.attempts[a].occ != x
  {
    if Gone(Now(h), x) { AttemptsMatchTheState(h, x); }
    hide Steady;
  }

  lemma FailedOnly(db: Db, a: Id, at: int)
    requires IsPending(db, a)
    ensures var d := FailDb(db, a, at, Recorded);
            && d.attempts.Keys == db.attempts.Keys && d.attempts[a].outcome == Failed
            && OnlyFails(db.attempts, d.attempts)
            && forall b | b in db.attempts && b != a :: d.attempts[b] == db.attempts[b]
  {}

  /** One attempt whose source no resume will reach: observed, or failed, never confirmed. */
  method Dormant(run: Run, a: Id)
    requires run.Valid() && IsPending(run.store.Rows(), a)
    modifies run`repo, run`disk, run`clock, run`now, run`history, run`item, run`base, run.store
    ensures run.Valid() && run.now >= old(run.now) && Continues(old(run.history), run.history, run.calm)
    ensures old(run.store.occs).Keys <= run.store.occs.Keys && old(run.store.attempts).Keys <= run.store.attempts.Keys
    ensures run.store.attempts[a] == old(run.store.attempts)[a] || run.store.attempts[a].outcome == Failed
    ensures run.calm ==> OnlyFails(old(run.store.attempts), run.store.attempts)
    ensures run.calm ==>
              if Bearing(run.repo, a) == {} then run.store.attempts[a].outcome == Failed
              else && run.store.attempts == old(run.store.attempts)
                   && forall s | s in Bearing(run.repo, a) ::
                        s in run.store.ledger && run.store.ledger[s].status == SnapPending
    ensures forall b | b != a && b in old(run.store.attempts) :: run.store.attempts[b] == old(run.store.attempts)[b]
    ensures run.calm ==> run.repo == old(run.repo)
    ensures run.calm ==> OnlyOn(old(run.Current()), run.Current(), old(run.store.attempts)[a].occ)
  {
    hide Legal, Now, Went, Continues, Kept, Bears, OnlyOn, Bearing, OnlyFails;
    OnlyFailsItself(run.store.attempts);
    var o := run.store.attempts[a].occ;
    StayedPut(run.history, o, run.calm);
    run.item, run.base := o, run.history;
    run.Interfere();
    var unreachable: bool := *;
    if !unreachable || run.calm {
      var found := Bearing(run.repo, a);
      BearingMeans(run.repo, a);
      if found == {} {
        FailedOnly(run.store.Rows(), a, run.now);
        run.FailAttempt(a);
      } else {
        FoundAreOwn(run.history, a, found);
        LedgerAgain(run, a, found);
      }
    }
    WentContinues(run.base, run.history, o, run.calm);
    if run.calm { WorkIsLocal(run.base, run.history, o); }
  }

  lemma BearingMeans(repo: map<SnapId, Snap>, a: Id)
    ensures forall s | s in Bearing(repo, a) :: s in repo && repo[s].tags.Canonical? && repo[s].tags.id.attempt == a
  {}

  method LedgerAgain(run: Run, a: Id, found: set<SnapId>)
    requires run.Valid() && CanReobserve(run.Current(), a, found) && run.item == run.store.attempts[a].occ
    modifies run`history, run.store
    ensures run.Valid() && run.store.occs == old(run.store.occs) && run.store.attempts == old(run.store.attempts)
    ensures forall s | s in found :: s in run.store.ledger && run.store.ledger[s].status == SnapPending
  {
    ghost var w := run.Current();
    var identity := OwnIdentity(run.store.Rows(), a);
    forall s | s in found && s in run.store.ledger ensures run.store.ledger[s].identity == identity {
      LedgerAgrees(run.history, s, a);
    }
    hide Legal, Now, Went, OwnIdentity;
    var ok := run.store.ObserveAll(found, identity, SnapPending);
    hide CanReobserve, ObserveDb;
    run.Log(w, Step.Reobserve(a, found));
  }

  // ---- the whole run --------------------------------------------------------------------------------------

  /** A drain of a quiet folder finds the item: by the scan, or by its intent. */
  ghost predicate InReach(w: World, x: Id) {
    Steady(w, x) && Selected(w.db.occs[x].spool, w.drop)
  }

  lemma ReachedByScan(h: History, w: World, x: Id, paths: seq<string>)
    requires Legal(h) && Now(h) == w
    requires InReach(w, x) && forall p :: p in paths <==> p in w.disk && Selected(p, w.drop)
    ensures w.db.occs[x].spool in paths || w.db.occs[x].state == Evicting
    ensures x in w.db.occs
  {
    if w.db.occs[x].state != Evicting {
      RootIsPrinted(h, x);
      UnchangedHasRoot(w, x);
    }
  }

  lemma RootIsPrinted(h: History, x: Id)
    requires Legal(h) && x in Now(h).db.occs
    ensures "" in Now(h).db.occs[x].prints
  {
    EveryRunIsSound(h);
    assert ManifestSound(Now(h), x);
  }

  lemma UnchangedHasRoot(w: World, x: Id)
    requires Steady(w, x) && w.db.occs[x].state != Evicting
    requires "" in w.db.occs[x].prints
    ensures w.db.occs[x].spool in w.disk
  {
    assert Live(w.disk, w.db.occs[x].spool, w.db.occs[x].prints, "");
  }

  predicate AllRefused(report: seq<Event>) {
    forall i | 0 <= i < |report| :: report[i] == Event(None, ReportRefused)
  }

  /** The refusal of a whole run: each item in the folder is reported, none is touched. */
  method RefuseAll(run: Run) returns (paths: seq<string>)
    requires run.Valid() && run.report == [] && run.visited == {}
    modifies run`report
    ensures Sorted(paths, Less) && forall p :: p in paths <==> p in run.disk && Selected(p, run.drop)
    ensures |run.report| == |paths| && AllRefused(run.report)
  {
    hide Sorted, Selected;
    paths := Scan(run);
    for i := 0 to |paths|
      invariant |run.report| == i
      invariant forall k | 0 <= k < |run.report| :: run.report[k] == Event(None, ReportRefused)
    {
      run.report := run.report + [Event(None, ReportRefused)];
    }
  }

  /**
   * `_Run.execute`: the gate, then the three passes. Whatever others do meanwhile,
   * each visited item gets exactly one event and each attempt at most one backup,
   * and what the run leaves is a continuation of the history it found. In a
   * quiet folder an item in reach ends evicted, or back at the start with no
   * attempt spent; and evicted at once if nothing was pending and a new attempt
   * was due. A fresh item `q` that is admitted is recorded as what stands there,
   * and evicted at once if one attempt is allowed.
   */
  method Execute(run: Run, ghost x: Id, ghost q: string) returns (refused: bool)
    requires run.Valid() && run.visited == {} && run.report == [] && run.backups == []
    requires run.born <= run.store.attempts.Keys && run.trace.started == {} && run.admitted == {}
    modifies run, run.store
    ensures run.Valid() && Tidy(run) && run.now >= old(run.now) && Continues(old(run.history), run.history, run.calm)
    ensures forall o :: |AttemptsOf(run.store.Rows(), o)| <= |AttemptsOf(old(run.store.Rows()), o)| + 1
    ensures (exists s | s in old(run.repo) :: Unmerged(old(run.store.Rows()), old(run.repo)[s].tags)) ==> refused
    ensures refused ==> run.backups == [] && run.visited == {} && run.store.occs == old(run.store.occs)
                        && run.store.attempts == old(run.store.attempts) && AllRefused(run.report)
    ensures run.calm && !refused ==> NoneForgotten(run.store.Rows(), run.repo, run.visited)
    ensures run.calm ==> (refused <==> !PassesAll(old(run.store.Rows()), old(run.repo)))
    ensures run.calm && !refused && InReach(old(run.Current()), x) ==>
              DealtWith(run.Current(), x, AttemptsOf(old(run.store.Rows()), x),
                        run.Fits(old(run.store.Rows()), x, old(run.now)))
    ensures run.calm && !refused && FreshItem(old(run.Current()), q) && q in run.admitted ==>
              TakenUp(run, run.Current(), run.visited, old(run.store.occs).Keys, old(run.disk), q)
  {
    hide Legal, Now, Went, Steady, Continues, DealtWith, AttemptsOf, Selected, PassesAll, OwnLedgered, Run.Fits, Sorted,
         Kept, BackedUp, Unmerged, AllFamiliar, FreshItem, TakenUp, Awaits, NoneForgotten;
    ghost var start, since := run.Current(), run.now;
    var verdict := Gate(run, x);
    if verdict != Some(Passes) {
      if verdict == None { var _ := RefuseAll(run); }
      OneEachMore(old(run.history), run.history, run.calm);
      return true;
    }
    ghost var mid := run.history;
    if run.calm && FreshItem(start, q) { FreshAwaits(start, run.Current(), q); }
    Work(run, start, since, x, q);
    ContinuesOn(old(run.history), mid, run.history, run.calm);
    OneEachMore(old(run.history), run.history, run.calm);
    refused := false;
  }

  /** The gate at the start of a run: nothing about items or attempts changes by it. */
  method Gate(run: Run, ghost x: Id) returns (verdict: Option<Verdict>)
    requires run.Valid()
    modifies run`repo, run`disk, run`clock, run`now, run`history, run`base, run.store
    ensures run.Valid() && run.now >= old(run.now) && Continues(old(run.history), run.history, run.calm)
    ensures run.store.occs == old(run.store.occs) && run.store.attempts == old(run.store.attempts)
    ensures (exists s | s in old(run.repo) :: Unmerged(old(run.store.Rows()), old(run.repo)[s].tags)) ==>
              verdict != Some(Passes)
    ensures run.calm ==> (verdict != Some(Passes) <==> !PassesAll(old(run.store.Rows()), old(run.repo)))
    ensures run.calm && Steady(old(run.Current()), x) ==>
              x in old(run.store.occs) && Kept(old(run.Current()), run.Current(), x)
    ensures run.calm && InReach(old(run.Current()), x) ==> InReach(run.Current(), x)
    ensures run.calm ==> run.disk == old(run.disk)
  {
    hide Legal, Now, Went, Steady, Continues, PassesAll, OwnLedgered, AllFamiliar, Unmerged, Kept, InReach, BackedUp;
    ghost var start := run.Current();
    StayedPut(run.history, run.item, run.calm);
    run.base := run.history;
    ghost var seen;
    verdict, seen := CheckFrontier(run);
    WentContinues(run.base, run.history, run.item, run.calm);
    if s :| s in start.repo && Unmerged(start.db, start.repo[s].tags) {
      UnmergedIsRefused(start.db, start.repo, seen, s);
    }
    if run.calm && Steady(start, x) { GateKeeps(start, run.Current(), x); }
    if run.calm && !Steady(start, x) { OnlySteadyInReach(start, x); }
  }

  lemma OnlySteadyInReach(w: World, x: Id)
    ensures InReach(w, x) ==> Steady(w, x)
  {
    hide Steady, Selected;
  }

  /** The scan, and the three passes over what it found. */
  method Work(run: Run, ghost start: World, ghost since: int, ghost x: Id, ghost q: string)
    requires run.Valid() && run.visited == {} && run.report == [] && run.backups == [] && since <= run.now
    requires run.born <= run.store.attempts.Keys && run.trace.started == {} && run.admitted == {}
    requires run.calm && Steady(start, x) ==> x in start.db.occs && Kept(start, run.Current(), x)
    requires run.calm && InReach(start, x) ==> InReach(run.Current(), x)
    requires run.calm && FreshItem(start, q) ==> Awaits(start, run.Current(), q)
    modifies run, run.store
    ensures run.Valid() && Tidy(run) && run.now >= old(run.now) && Continues(old(run.history), run.history, run.calm)
    ensures run.calm ==> NoneForgotten(run.store.Rows(), run.repo, run.visited)
    ensures run.calm && InReach(start, x) ==>
              DealtWith(run.Current(), x, AttemptsOf(start.db, x), run.Fits(start.db, x, since))
    ensures run.calm && FreshItem(start, q) && q in run.admitted ==>
              TakenUp(run, run.Current(), run.visited, start.db.occs.Keys, start.disk, q)
  {
    hide Legal, Now, Went, Steady, Continues, DealtWith, AttemptsOf, Selected, Run.Fits, Sorted, Tidy, FreshItem,
         Awaits, TakenUp, NoneForgotten;
    var paths := Scan(run);
    if run.calm && InReach(start, x) {
      ReachedByScan(run.history, run.Current(), x, paths);
      KeptRow(start, run.Current(), x);
    }
    if run.calm && FreshItem(start, q) { AwaitedIsScanned(start, run.Current(), q); }
    assert forall p | p in paths :: Parent(p) == run.drop by { SelectedAreTop(run.disk, run.drop, paths); }
    RunPasses(run, paths, start, since, x, q);
  }

  lemma AwaitedIsScanned(start: World, w: World, q: string)
    requires FreshItem(start, q) && Awaits(start, w, q)
    ensures q in w.disk && Selected(q, w.drop)
  {
    hide Selected, Walkable, Isolated;
  }

  lemma KeptRow(w: World, w': World, x: Id)
    requires Kept(w, w', x) && x in w.db.occs
    ensures x in w'.db.occs && w'.db.occs[x] == w.db.occs[x]
  {}

  lemma OneEachMore(p: History, h: History, calm: bool)
    requires Legal(h) && Continues(p, h, calm)
    ensures Legal(p) && forall o :: |AttemptsOf(Now(h).db, o)| <= |AttemptsOf(Now(p).db, o)| + 1
  {
    ContinuesInProcess(p, h, calm);
    PrefixIsLegal(p, h) by { ContinuesIsPrefix(p, h, calm); }
    forall o ensures |AttemptsOf(Now(h).db, o)| <= |AttemptsOf(Now(p).db, o)| + 1 {
      OneAttemptPerProcess(p, h, o);
    }
  }

  lemma SelectedAreTop(disk: Disk, drop: string, paths: seq<string>)
    requires forall p :: p in paths <==> p in disk && Selected(p, drop)
    ensures forall p | p in paths :: Parent(p) == drop
  {}

  lemma GateKeeps(w: World, w': World, x: Id)
    requires Steady(w, x) && w'.disk == w.disk && w'.drop == w.drop
    requires w'.db.occs == w.db.occs && w'.db.attempts == w.db.attempts
    ensures x in w.db.occs && Kept(w, w', x) && (InReach(w, x) ==> InReach(w', x))
  {
    hide Isolated, Clean, Unchanged, Selected;
  }

  method RunPasses(run: Run, paths: seq<string>, ghost start: World, ghost since: int, ghost x: Id, ghost q: string)
    requires run.Valid() && run.visited == {} && run.report == [] && run.backups == [] && since <= run.now
    requires run.born <= run.store.attempts.Keys && run.trace.started == {} && run.admitted == {}
    requires Sorted(paths, Less) && forall p | p in paths :: Parent(p) == run.drop
    requires run.calm && Steady(start, x) ==> Kept(start, run.Current(), x)
    requires run.calm && InReach(start, x) ==>
               x in start.db.occs && (start.db.occs[x].spool in paths || start.db.occs[x].state == Evicting)
    requires run.calm && FreshItem(start, q) ==> Awaits(start, run.Current(), q) && q in paths
    modifies run, run.store
    ensures run.Valid() && Tidy(run) && run.now >= old(run.now) && Continues(old(run.history), run.history, run.calm)
    ensures run.calm ==> NoneForgotten(run.store.Rows(), run.repo, run.visited)
    ensures run.calm && InReach(start, x) ==>
              DealtWith(run.Current(), x, AttemptsOf(start.db, x), run.Fits(start.db, x, since))
    ensures run.calm && FreshItem(start, q) && q in run.admitted ==>
              TakenUp(run, run.Current(), run.visited, start.db.occs.Keys, start.disk, q)
  {
    hide Legal, Now, Went, Steady, Continues, DealtWith, AttemptsOf, Run.Fits, Sorted, Selected, Kept, FreshItem,
         Awaits, TakenUp, Forgotten, Bearing, NoneForgotten;
    SteadyIsActive(start, x);
    if run.calm && Steady(start, x) { KeptRow(start, run.Current(), x); }
    ghost var here := x in start.db.occs && start.db.occs[x].spool in paths;
    ghost var evicting := x in start.db.occs && start.db.occs[x].state == Evicting;
    ScanPass(run, paths, start, since, x, q);
    ghost var mid, w, seen := run.history, run.Current(), run.visited;
    ghost var taken := run.calm && FreshItem(start, q) && q in run.admitted;
    IntentPass(run, start, since, x, here);
    ContinuesOn(old(run.history), mid, run.history, run.calm);
    if taken { TakenUpStays(run, w, run.Current(), seen, run.visited, start.db.occs.Keys, start.disk, q); }
    mid, w, seen := run.history, run.Current(), run.visited;
    DormantPass(run, x, AttemptsOf(start.db, x), run.Fits(start.db, x, since));
    ContinuesOn(old(run.history), mid, run.history, run.calm);
    if taken { TakenUpStays(run, w, run.Current(), seen, run.visited, start.db.occs.Keys, start.disk, q); }
  }

  // ---- convergence ------------------------------------------------------------------------------------------

  /** Left to itself a run adds nothing foreign to the repository. */
  lemma {:induction false} NoStrangers(p: History, h: History)
    requires Legal(h) && Continues(p, h, true)
    ensures Legal(p) && Now(h).db.store == Now(p).db.store && Now(h).drop == Now(p).drop
    ensures forall s | s in Now(h).repo && ForeignTags(Now(h).repo[s].tags, Now(h).db.store) ::
              s in Now(p).repo && Now(p).repo[s] == Now(h).repo[s]
  {
    if p != h {
      NoStrangers(p, h.past);
      EveryRunIsSound(h.past);
      assert AttemptsOk(Now(h.past));
      StepAddsOwn(Now(h.past), h.step);
      hide Inv, Enabled, Do, ForeignTags, AttemptsOk;
    }
  }

  lemma StepAddsOwn(w: World, step: Step)
    requires AttemptsOk(w) && Enabled(w, step) && !step.Foreign? && !step.Edit?
    ensures Do(w, step).db.store == w.db.store && Do(w, step).drop == w.drop
    ensures forall s | s in Do(w, step).repo && ForeignTags(Do(w, step).repo[s].tags, w.db.store) ::
              s in w.repo && Do(w, step).repo[s] == w.repo[s]
  {
    hide Bears, ItemShape, Captured, CanEdit, MatchingAttempt, PayloadProven, RemoteCatalogProven, Without, Empty,
         AdoptDb, FailDb, DuplicateDb, ConfirmDb, ObserveDb;
    if step.Publish? { assert OwnIdentity(w.db, step.attempt).store == w.db.store; }
    else { OnlyPublicationsAdd(w, step); }
  }

  lemma OnlyPublicationsAdd(w: World, step: Step)
    requires Enabled(w, step) && !step.Foreign? && !step.Publish?
    ensures Do(w, step).repo == w.repo && Do(w, step).db.store == w.db.store && Do(w, step).drop == w.drop
  {
    hide Bears, ItemShape, Captured, CanEdit, MatchingAttempt, PayloadProven, RemoteCatalogProven, Without, Empty;
  }

  lemma StillPass(p: History, h: History)
    requires Legal(h) && Continues(p, h, true) && Legal(p) && PassesAll(Now(p).db, Now(p).repo)
    requires Now(h).db.lineage == Now(p).db.lineage
    ensures PassesAll(Now(h).db, Now(h).repo)
  {
    NoStrangers(p, h);
    forall s | s in Now(h).repo ensures Ruling(Now(h).db, s, Now(h).repo[s].tags) == Passes {
      if ForeignTags(Now(h).repo[s].tags, Now(h).db.store) {
        assert Ruling(Now(p).db, s, Now(p).repo[s].tags) == Passes;
        ForeignRuling(Now(p).db, Now(h).db, s, Now(h).repo[s].tags);
      } else {
        OwnSnapshotsPass(h, s);
      }
    }
    hide Legal, Now, Ruling, ForeignTags, Continues;
  }

  lemma ForeignRuling(db: Db, db': Db, s: SnapId, tags: SnapTags)
    requires ForeignTags(tags, db.store) && db'.store == db.store && db'.lineage == db.lineage
    ensures Ruling(db', s, tags) == Ruling(db, s, tags)
  {}

  /** `later` is past the backoff of every attempt of `x` that failed so far. */
  ghost predicate PastBackoff(db: Db, x: Id, backoff: nat, later: int) {
    forall a | a in FailuresOf(db, x) :: db.attempts[a].finished + backoff <= later
  }

  lemma IdleFits(h: History, run: Run, x: Id, spent: set<Id>, at: int)
    requires Legal(h) && Idle(Now(h), x, spent) && (|spent| < run.budget || run.insist)
    requires PastBackoff(Now(h).db, x, run.backoff, at)
    ensures run.Fits(Now(h).db, x, at)
  {
    AttemptsMatchTheState(h, x);
    var db := Now(h).db;
    assert FailuresOf(db, x) <= AttemptsOf(db, x);
    FewerOf(FailuresOf(db, x), AttemptsOf(db, x));
    hide Legal, Now, Steady;
  }

  lemma FewerOf(s: set<Id>, t: set<Id>)
    requires s <= t
    ensures |s| <= |t|
  {
    assert t == s + (t - s);
  }

  /**
   * From any state a run can reach: if the item is still what was recorded (or a
   * remainder of its intent), shares no inode, and has attempts to spare, then
   * two drains of a quiet folder over a faithful repository, the second at any
   * moment past the backoff, leave it evicted with exactly one confirmed attempt
   * and nothing of it in the folder. `between` is where the first drain ended; a
   * second one inside the backoff may leave the item at the start, but no worse.
   */
  method DrainTwice(store: Store, w: World, now: int, later: int, backoff: nat, insist: bool, insist': bool,
                    ghost h: History, x: Id)
    returns (run: Run, ghost between: History)
    requires Legal(h) && Now(h) == w && w.db == store.Rows()
    requires InReach(w, x) && PassesAll(w.db, w.repo)
    requires |AttemptsOf(w.db, x)| < w.budget || insist'
    modifies store
    ensures run.store == store && run.Valid() && Prefix(h, between) && Prefix(between, run.history) && Legal(between)
    ensures Gone(run.Current(), x) || Idle(run.Current(), x, AttemptsOf(w.db, x))
    ensures PastBackoff(Now(between).db, x, backoff, later) ==> Gone(run.Current(), x) && OneConfirmed(store.Rows(), x)
  {
    hide Legal, Now, Went, Steady, PassesAll, Selected, Continues, Run.Fits, PastBackoff, AttemptsOf;
    ghost var spent := AttemptsOf(w.db, x);
    run, between := FirstDrain(store, w, now, backoff, insist, h, x);
    if store.occs[x].state == Evicted {
      EvictedIsConfirmed(run.history, x);
      return;
    }
    ghost var fits := PastBackoff(Now(between).db, x, backoff, later);
    run := new Run(store, run.Current(), later, backoff, insist', true, between);
    if fits { IdleFits(between, run, x, spent, later); }
    var refused := Execute(run, x, "");
    SecondDrain(h, between, run.history, insist', x, spent);
    if fits { EvictedIsConfirmed(run.history, x); }
  }

  method FirstDrain(store: Store, w: World, now: int, backoff: nat, insist: bool, ghost h: History, x: Id)
    returns (run: Run, ghost between: History)
    requires Legal(h) && Now(h) == w && w.db == store.Rows() && InReach(w, x) && PassesAll(w.db, w.repo)
    modifies store
    ensures run.store == store && run.Valid() && between == run.history && Prefix(h, between) && x in store.occs
    ensures run.budget == w.budget
    ensures PassesAll(run.store.Rows(), run.repo)
    ensures if store.occs[x].state == Evicted then Gone(run.Current(), x)
            else Idle(run.Current(), x, AttemptsOf(w.db, x)) && InReach(run.Current(), x)
  {
    hide Legal, Now, Went, Steady, PassesAll, Selected, Continues, Run.Fits, Idle, AttemptsOf;
    run := new Run(store, w, now, backoff, insist, true, h);
    ghost var begun := run.history;
    BegunAs(h, insist);
    SteadyIsActive(w, x);
    var refused := Execute(run, x, "");
    between := run.history;
    ContinuesIsPrefix(begun, between, true);
    PrefixOn(h, begun, between);
    DealtWithHow(begun, between, x, AttemptsOf(w.db, x), run.Fits(w.db, x, now));
    StillPass(begun, between);
  }

  lemma BegunAs(h: History, insist: bool)
    requires Legal(h)
    ensures var begun := Then(h, Begin(insist));
            && Legal(begun) && Now(begun) == Now(h) && Prefix(h, begun)
            && Traced(begun).insist == insist && Traced(begun).started == {}
            && Insisting(begun) == Insisting(h) + if insist then 1 else 0
  {
    assert Prefix(h, h);
  }

  lemma SecondDrain(h: History, between: History, last: History, insist: bool, x: Id, spent: set<Id>)
    requires Prefix(h, between) && Legal(between) && Continues(Then(between, Begin(insist)), last, true) && Legal(last)
    ensures Prefix(between, last)
  {
    BegunAs(between, insist);
    ContinuesIsPrefix(Then(between, Begin(insist)), last, true);
    PrefixOn(between, Then(between, Begin(insist)), last);
  }

  /** How one of several drains is run: after what pause, insisting or not, disturbed or not. */
  datatype Setting = Setting(wait: nat, insist: bool, calm: bool)

  function Insistences(settings: seq<Setting>): nat {
    if settings == [] then 0
    else Insistences(settings[..|settings| - 1]) + if settings[|settings| - 1].insist then 1 else 0
  }

  /**
   * Any number of drains one after the other, each disturbed or not: over all of
   * them backup is called at most once per attempt, and an occurrence gets no
   * more attempts than the budget (or what it had) and one for each drain that
   * was told to insist. (Drains that are killed: `Safety.OneCallPerAttempt` and
   * `Safety.AttemptsAreBudgeted`.)
   */
  method DrainMany(store: Store, w: World, now: int, backoff: nat, settings: seq<Setting>, ghost h: History)
    returns (backups: seq<Id>, ghost last: History)
    requires Legal(h) && Now(h) == w && w.db == store.Rows()
    modifies store
    ensures Legal(last) && Now(last).db == store.Rows()
    ensures Distinct(backups) && forall b | b in backups :: b !in w.db.attempts && b in store.attempts
    ensures forall o :: |AttemptsOf(store.Rows(), o)| <= Max(w.budget, |AttemptsOf(w.db, o)|) + Insistences(settings)
  {
    hide Legal, Now, Went, Continues, ReportsOnce, Steady, PassesAll, InReach, Run.Fits, DealtWith, AttemptsOf;
    backups := [];
    var at, seen := w, now;
    last := h;
    for i := 0 to |settings|
      invariant Legal(last) && Now(last) == at && at.db == store.Rows() && at.budget == w.budget
      invariant Distinct(backups) && BackedUp(backups, store.attempts) && w.db.attempts.Keys <= store.attempts.Keys
      invariant forall b | b in backups :: b !in w.db.attempts
      invariant forall o :: |AttemptsOf(at.db, o)| <= Max(w.budget, |AttemptsOf(w.db, o)|) + Insistences(settings[..i])
    {
      ghost var known := store.attempts;
      var setting := settings[i];
      var run := new Run(store, at, seen + setting.wait, backoff, setting.insist, setting.calm, last);
      var refused := Execute(run, Id("", ""), "");
      JoinedAreDistinct(backups, run.backups, known);
      OneDrainIsBudgeted(last, run.history, setting.insist, setting.calm);
      assert settings[..i + 1][..i] == settings[..i];
      backups := backups + run.backups;
      at, seen := run.Current(), run.now;
      last := run.history;
    }
    assert settings[..|settings|] == settings;
  }

  lemma OneDrainIsBudgeted(p: History, h: History, insist: bool, calm: bool)
    requires Legal(p) && Legal(h) && Continues(Then(p, Begin(insist)), h, calm)
    ensures Now(h).budget == Now(p).budget
    ensures forall o ::
              |AttemptsOf(Now(h).db, o)| <= Max(Now(p).budget, |AttemptsOf(Now(p).db, o)|) + if insist then 1 else 0
  {
    var begun := Then(p, Begin(insist));
    BegunAs(p, insist);
    ContinuesIsPrefix(begun, h, calm);
    ContinuesInProcess(begun, h, calm);
    BudgetedSince(begun, h, Id("", ""));
    forall o
      ensures |AttemptsOf(Now(h).db, o)| <= Max(Now(p).budget, |AttemptsOf(Now(p).db, o)|) + if insist then 1 else 0
    {
      BudgetedSince(begun, h, o);
    }
  }

  lemma JoinedAreDistinct(x: seq<Id>, y: seq<Id>, known: map<Id, Attempt>)
    requires Distinct(x) && Distinct(y) && BackedUp(x, known) && AllNew(y, known.Keys)
    ensures Distinct(x + y)
  {
    forall i, j | 0 <= i < j < |x + y| ensures (x + y)[i] != (x + y)[j] {
      if i < |x| <= j { assert x[i] in x && y[j - |x|] in y; }
    }
  }

  lemma DealtWithHow(p: History, h: History, x: Id, spent: set<Id>, fit: bool)
    requires Legal(h) && Prefix(p, h) && Legal(p) && x in Now(p).db.occs && InReach(Now(p), x)
    requires DealtWith(Now(h), x, spent, fit)
    ensures x in Now(h).db.occs
    ensures Now(h).db.occs[x].state == Evicted ==> Gone(Now(h), x)
    ensures Now(h).db.occs[x].state != Evicted ==> Idle(Now(h), x, spent) && InReach(Now(h), x)
  {
    EvidenceAccumulates(p, h);
    hide Legal, Now, Selected, Isolated, Clean, Unchanged;
  }

  lemma EvictedIsConfirmed(h: History, x: Id)
    requires Legal(h) && Gone(Now(h), x)
    ensures OneConfirmed(Now(h).db, x)
  {
    AttemptsMatchTheState(h, x);
  }
}
