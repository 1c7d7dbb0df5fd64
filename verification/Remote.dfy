/** "The repository and the password are enough": recovery composed with whole runs. */
module Remote {
  import opened Wrappers
  import opened States
  import opened Paths
  import opened Records
  import opened Protocol
  import opened Invariant
  import opened Safety
  import opened Merge
  import opened Recovering

  // ---- recovery and the frontier gate -------------------------------------------------------

  /**
   * The gate accepts the very repository a store was recovered from, and the next
   * sequence the store allocates exceeds every own one seen - including those of
   * snapshots whose exports were invalid.
   */
  lemma RecoveredStorePasses(ev: Evidence, m: Db, db: Db, at: int, a: Id, o: Id)
    requires Rebuilt(ev, m, db, at)
    requires forall s | s in ev.repo :: Observable(ev, s) && (IdOf(ev, s).store == db.store || Valid(ev, s))
    ensures forall s | s in ev.repo :: Ruling(db, s, ev.repo[s].tags) == Passes
    ensures forall s | s in ev.repo && IdOf(ev, s).store == db.store :: IdOf(ev, s).seqno < StartDb(db, a, o).seqno
  {
    forall s | s in ev.repo ensures Ruling(db, s, ev.repo[s].tags) == Passes {
      assert s in Observed(ev);
      if IdOf(ev, s).store != db.store { assert s in ValidOnes(ev); }
    }
    assert forall s | s in ev.repo :: s in Observed(ev);
  }

  // ---- settled from evidence -------------------------------------------------------------------

  /**
   * Without trust in any record: an occurrence that was neither abandoned nor
   * being deleted ends recoverable exactly when some snapshot of it proves
   * itself; the newest such one alone is confirmed, with the attempt it was
   * published by, all others are orphaned, and the other attempts stay as merged.
   * Else it is recorded again, with every attempt failed and all orphaned.
   */
  lemma VerdictIsEvidence(ev: Evidence, m: Db, db: Db, o: Id, at: int)
    requires Rebuilt(ev, m, db, at) && Genuine(ev, m) && o in m.occs
    requires m.occs[o].state != Abandoned && m.occs[o].state != Evicting
    ensures db.occs[o].state == Recoverable <==> exists s :: s in Provers(ev, m, o)
    ensures db.occs[o].state == Recoverable ==>
              exists s :: && Newest(ev, s, Provers(ev, m, o)) && StandsBy(ev, db, o, s)
                          && OnlyOneStands(ev, db, o, Some(s)) && OthersStay(m, db, o, IdOf(ev, s).attempt)
    ensures db.occs[o].state != Recoverable ==>
              && db.occs[o].state == Recorded && db.occs[o].confirmed == None
              && (forall a | a in m.attempts && m.attempts[a].occ == o :: db.attempts[a].outcome == Failed)
              && OnlyOneStands(ev, db, o, None)
  {
    assert TriedAs(ev, m, db, o, at) && Observed(ev) <= m.ledger.Keys;
    hide Rebuilt, Genuine, Provers, Candidates, SettledAttempt, OnlyOneStands;
    var w :| Wins(ev, m, o, w) && (w.Some? ==> Observable(ev, w.value)) && SettledWith(ev, m, db, o, w, at);
    CandidatesStand(ev, m, db, o, w, at);
    if w.Some? {
      WonIsRecoverable(ev, m, db, o, w.value, at);
      WinnerStands(ev, m, db, o, w.value, at);
      OthersAreKept(ev, m, db, o, w.value, at);
    } else {
      LostIsRecorded(ev, m, db, o, at);
    }
  }

  /** The attempts of `o` but for `a` are as they were. */
  ghost predicate OthersStay(m: Db, db: Db, o: Id, a: Id) {
    forall b | b in m.attempts && m.attempts[b].occ == o && b != a ::
      b in db.attempts && db.attempts[b] == m.attempts[b]
  }

  lemma OthersAreKept(ev: Evidence, m: Db, db: Db, o: Id, w: SnapId, at: int)
    requires Observable(ev, w) && SettledWith(ev, m, db, o, Some(w), at)
    ensures OthersStay(m, db, o, IdOf(ev, w).attempt)
  {}

  /**
   * The attempt the snapshot's tags name, if there is a row of it, is confirmed on
   * that snapshot under the tagged digest, and an own one is behind the frontier.
   */
  ghost predicate AttemptStands(ev: Evidence, db: Db, s: SnapId)
    requires Observable(ev, s)
  {
    var id := IdOf(ev, s);
    id.attempt in db.attempts ==>
      var att := db.attempts[id.attempt];
      && att.outcome == Confirmed && att.snapshot == Some(s) && att.digest == Some(id.digest)
      && (att.origin == db.store ==> att.seqno <= db.frontier)
  }

  lemma WinnerStands(ev: Evidence, m: Db, db: Db, o: Id, w: SnapId, at: int)
    requires Rebuilt(ev, m, db, at) && Genuine(ev, m) && o in m.occs && w in Candidates(ev, o)
    requires Observable(ev, w) && SettledWith(ev, m, db, o, Some(w), at)
    ensures AttemptStands(ev, db, w)
  {
    hide TriedAs, SameOccurrence, SamePublication;
    var a := IdOf(ev, w).attempt;
    assert w in Observed(ev) && IdOf(ev, w).occ == o;
    if a in db.attempts {
      assert db.attempts[a] == SettledAttempt(ev, m.occs[o], a, m.attempts[a], Some(w), at);
    }
  }

  /** Of the occurrence's snapshots the ledger confirms this one, if any, and orphans the rest. */
  ghost predicate OnlyOneStands(ev: Evidence, db: Db, o: Id, winner: Option<SnapId>) {
    forall t | t in Candidates(ev, o) ::
      t in db.ledger && db.ledger[t].status == if winner == Some(t) then SnapConfirmed else SnapOrphaned
  }

  lemma CandidatesStand(ev: Evidence, m: Db, db: Db, o: Id, w: Option<SnapId>, at: int)
    requires (w.Some? ==> Observable(ev, w.value)) && SettledWith(ev, m, db, o, w, at) && Observed(ev) <= m.ledger.Keys
    ensures OnlyOneStands(ev, db, o, w)
  {
    hide SettledOcc, SettledAttempt;
    assert forall t | t in Candidates(ev, o) :: t in Observed(ev);
  }

  lemma WonIsRecoverable(ev: Evidence, m: Db, db: Db, o: Id, w: SnapId, at: int)
    requires Wins(ev, m, o, Some(w)) && Observable(ev, w) && SettledWith(ev, m, db, o, Some(w), at)
    requires m.occs[o].state != Evicting
    ensures Newest(ev, w, Provers(ev, m, o)) && w in Provers(ev, m, o) && w in Candidates(ev, o)
    ensures w in m.ledger ==> w in db.ledger && db.ledger[w].status == SnapConfirmed
    ensures db.occs[o].state == Recoverable && db.occs[o].confirmed == Some(IdOf(ev, w).attempt)
  {
    hide Provers, SettledAttempt, Candidates;
    WonIsCandidate(ev, m, o, w);
  }

  lemma LostIsRecorded(ev: Evidence, m: Db, db: Db, o: Id, at: int)
    requires Wins(ev, m, o, None) && SettledWith(ev, m, db, o, None, at)
    requires m.occs[o].state != Evicting
    ensures Provers(ev, m, o) == {} && db.occs[o].state == Recorded && db.occs[o].confirmed == None
    ensures forall a | a in m.attempts && m.attempts[a].occ == o :: db.attempts[a].outcome == Failed
  {
    hide Provers, Candidates;
  }

  /** Nothing recovered claims a local deletion, or an upload under way. */
  lemma NothingClaimed(ev: Evidence, m: Db, db: Db, o: Id, at: int)
    requires Rebuilt(ev, m, db, at) && Genuine(ev, m) && o in m.occs && m.occs[o].state != Abandoned
    ensures db.occs[o].state in {Recorded, Recoverable, Evicting}
    ensures db.occs[o].state == Evicting <==> m.occs[o].state == Evicting
  {
    assert TriedAs(ev, m, db, o, at);
    var w :| Wins(ev, m, o, w) && (w.Some? ==> Observable(ev, w.value)) && SettledWith(ev, m, db, o, w, at);
  }

  /** Some snapshot of the occurrence is ledgered as confirmed, and the row names its attempt. */
  ghost predicate StandsConfirmed(ev: Evidence, db: Db, o: Id) {
    exists s | s in Candidates(ev, o) :: StandsBy(ev, db, o, s)
  }

  ghost predicate StandsBy(ev: Evidence, db: Db, o: Id, s: SnapId) {
    && Observable(ev, s) && o in db.occs && db.occs[o].confirmed == Some(IdOf(ev, s).attempt)
    && s in db.ledger && db.ledger[s].status == SnapConfirmed && AttemptStands(ev, db, s)
  }

  /**
   * An occurrence recovered in the middle of its deletion stays there. A confirmed
   * snapshot stands behind it exactly when some snapshot of it proves itself, and
   * then it is the newest such one; else its row - whatever it names as confirmed -
   * and its attempts stay as merged while every snapshot of it is orphaned.
   */
  lemma EvictingStandsOnEvidence(ev: Evidence, m: Db, db: Db, o: Id, at: int)
    requires Rebuilt(ev, m, db, at) && Genuine(ev, m) && o in m.occs && m.occs[o].state == Evicting
    ensures o in db.occs && db.occs[o].state == Evicting
    ensures StandsConfirmed(ev, db, o) <==> Provers(ev, m, o) != {}
    ensures Provers(ev, m, o) != {} ==>
              exists s ::
                && Newest(ev, s, Provers(ev, m, o)) && StandsBy(ev, db, o, s)
                && OnlyOneStands(ev, db, o, Some(s)) && OthersStay(m, db, o, IdOf(ev, s).attempt)
    ensures Provers(ev, m, o) == {} ==>
              && db.occs[o] == m.occs[o] && OnlyOneStands(ev, db, o, None)
              && forall a | a in m.attempts && m.attempts[a].occ == o ::
                   a in db.attempts && db.attempts[a] == m.attempts[a]
  {
    hide Genuine, Provers, Candidates, SettledAttempt, OnlyOneStands;
    assert TriedAs(ev, m, db, o, at) && Observed(ev) <= m.ledger.Keys;
    var w :| Wins(ev, m, o, w) && (w.Some? ==> Observable(ev, w.value)) && SettledWith(ev, m, db, o, w, at);
    CandidatesStand(ev, m, db, o, w, at);
    if w.Some? {
      WonIsCandidate(ev, m, o, w.value);
      WinnerStands(ev, m, db, o, w.value, at);
      OthersAreKept(ev, m, db, o, w.value, at);
      EvictingWon(ev, m, db, o, w.value, at);
    } else {
      EvictingLost(ev, m, db, o, at);
    }
  }

  lemma WonIsCandidate(ev: Evidence, m: Db, o: Id, w: SnapId)
    requires Wins(ev, m, o, Some(w))
    ensures w in Candidates(ev, o)
  {}

  lemma EvictingWon(ev: Evidence, m: Db, db: Db, o: Id, w: SnapId, at: int)
    requires Wins(ev, m, o, Some(w)) && Observable(ev, w) && SettledWith(ev, m, db, o, Some(w), at)
    requires m.occs[o].state == Evicting && OnlyOneStands(ev, db, o, Some(w)) && AttemptStands(ev, db, w)
    ensures Provers(ev, m, o) != {} && Newest(ev, w, Provers(ev, m, o))
    ensures db.occs[o].state == Evicting && StandsBy(ev, db, o, w) && StandsConfirmed(ev, db, o)
  {
    hide SettledAttempt, Proves;
    assert w in Candidates(ev, o);
  }

  lemma EvictingLost(ev: Evidence, m: Db, db: Db, o: Id, at: int)
    requires Wins(ev, m, o, None) && SettledWith(ev, m, db, o, None, at)
    requires m.occs[o].state == Evicting && OnlyOneStands(ev, db, o, None)
    ensures Provers(ev, m, o) == {} && db.occs[o] == m.occs[o] && !StandsConfirmed(ev, db, o)
    ensures forall a | a in m.attempts && m.attempts[a].occ == o :: a in db.attempts && db.attempts[a] == m.attempts[a]
  {
    hide Provers, Candidates;
  }

  /**
   * And it does happen: a sound snapshot of a confirmed publication whose read fails
   * while this repository is recovered. The row still names the attempt recorded as
   * confirmed while the only snapshot of it is orphaned.
   */
  method EvictingMayLackProof(at: int) returns (db: Db, ghost all: seq<Export>, ghost m: Db)
    ensures all == [LaterExport()] && Rebuilt(LostReads(), m, db, at) && Genuine(LostReads(), m)
    ensures Contains(Work(m, {}), LaterExport()) && Drawn(Work(m, {}), all)
    ensures LostProof(LostReads(), m, db, Deleting(), "first")
  {
    hide Contains, Drawn, Rebuilt, LostProof, Ranked, Outcomes, LaterDb, LostReads, Genuine, TakenIn, LedgeredDb,
         MergedFrom;
    var ev := LostReads();
    var recovered;
    SnapshotsAreSeen();
    recovered, all, m := Recover(ev, at);
    OnlyTheLater(all);
    db := recovered.value;
    ghost var merged :| m == LedgeredDb(ev, merged) && (all != [] ==> MergedFrom(all, merged));
    LaterAlone(merged);
    EvictingStandsOnEvidence(ev, m, db, Deleting(), at);
    NothingReadNothingProven(ev, m, Deleting());
    LostSnapshot(m, db);
  }

  /**
   * Still being deleted, named confirmed by a recorded confirmation, sound remotely
   * and the manifest of a walked item, its intent exactly its fingerprint - and orphaned.
   */
  ghost predicate LostProof(ev: Evidence, m: Db, db: Db, o: Id, s: SnapId) {
    && o in m.occs && m.occs[o].state == Evicting && o in db.occs && db.occs[o].state == Evicting
    && ItemShape(m.occs[o]) && o in m.intents && m.intents[o].prints == m.occs[o].prints
    && s in Candidates(ev, o) && SameTree(ev.repo[s].tree, m.occs[o].spool, m.occs[o].entries)
    && db.occs[o].confirmed == Some(IdOf(ev, s).attempt) && IdOf(ev, s).attempt in db.attempts
    && db.attempts[IdOf(ev, s).attempt].outcome == Confirmed
    && OnlyOneStands(ev, db, o, None)
  }

  /** The second snapshot's export is the only valid one, and nothing stands against taking it in. */
  lemma OnlyTheLater(all: seq<Export>)
    requires TakenIn(LostReads(), all) && |all| == |ValidOnes(LostReads())|
    ensures all == [LaterExport()] && AllAgree(all)
    ensures LedgerClear(LostReads(), all[0].db.ledger)
  {
    hide LaterDb;
    var ev := LostReads();
    assert Valid(ev, "second") && ExportAt(ev, "second") == LaterExport();
    assert ValidOnes(ev) == {"second"};
    assert all[0] in all;
    LaterLedger();
  }

  lemma SnapshotsAreSeen()
    ensures Observed(LostReads()) != {}
  {
    assert "second" in Observed(LostReads());
  }

  lemma LaterLedger()
    ensures LedgerClear(LostReads(), LaterDb().ledger)
  {}

  /** Taken in alone, the export is the store it copies, its intent marked. */
  lemma LaterAlone(merged: Db)
    requires MergedFrom([LaterExport()], merged)
    ensures var ev, m := LostReads(), LedgeredDb(LostReads(), merged);
            && m.occs == LaterDb().occs && m.attempts == LaterDb().attempts
            && m.intents == map[Deleting() := LaterDb().intents[Deleting()].(recovered := true)]
            && Deleting() in m.occs && m.occs[Deleting()].state == Evicting && Genuine(ev, m)
            && forall s | s in Candidates(ev, Deleting()) :: s in ev.broken
  {
    assert [LaterExport()][1..] == [];
  }

  lemma LostSnapshot(m: Db, db: Db)
    requires m.occs == LaterDb().occs && m.attempts == LaterDb().attempts
    requires m.intents == map[Deleting() := LaterDb().intents[Deleting()].(recovered := true)]
    requires Deleting() in db.occs && db.occs[Deleting()] == m.occs[Deleting()]
    requires forall a | a in m.attempts && m.attempts[a].occ == Deleting() ::
               a in db.attempts && db.attempts[a] == m.attempts[a]
    requires OnlyOneStands(LostReads(), db, Deleting(), None)
    ensures LostProof(LostReads(), m, db, Deleting(), "first")
  {
    hide OnlyOneStands, ItemShape, SameTree;
    OneRowIsShaped(LaterDb().occs[Deleting()]);
    OneFileIsArchived();
  }

  lemma OneRowIsShaped(row: Occ)
    requires row == OneRow("x", "/d/x", 11).(state := Evicting, confirmed := Some(Id("s", "a")))
    ensures ItemShape(row)
  {
    hide Absolute;
    assert RowShape(row, "");
    PlaceIsAbsolute();
  }

  lemma PlaceIsAbsolute()
    ensures Absolute("/d/x")
  {
    assert "/d/x"[1..] == "d" + "/" + "x";
    SplitJoin("d", "x");
    OneLetter('d');
    OneLetter('x');
  }

  lemma OneLetter(c: char)
    requires c != '/'
    ensures Split([c]) == [[c]]
  {
    assert [c][1..] == "" && [c] + "" == [c] && [""][1..] == [];
  }

  lemma OneFileIsArchived()
    ensures SameTree(map["/d/x" := SourceFile([7])], "/d/x", OneFile())
  {
    var spool, tree := "/d/x", map["/d/x" := SourceFile([7])];
    forall rel | rel in OneFile() ensures Archived(tree, spool, OneFile(), rel) {}
    forall p | p in tree ensures Named(OneFile(), spool, p) {}
  }

  function Deleting(): Id { Id("s", "o") }

  function Uploading(): Id { Id("s", "p") }

  function OneFile(): map<string, Entry> {
    map["" := Entry(FileEntry, Some(1), Some(Sha256([7])), None, 0)]
  }

  /** An item of one file, as captured. */
  function OneRow(name: string, spool: string, inode: nat): Occ {
    Occ("s", name, name, FileKind, spool, FileRoot(Some(Sha256([7]))), 1, OneFile(),
        map["" := Print(FileEntry, Some(1), 3, 3, inode, 1, None)], Recorded, None)
  }

  /** The store when the first item's upload began. */
  function EarlierDb(): Db {
    Db("s", 1, 0, map[], map[Deleting() := OneRow("x", "/d/x", 11)],
       map[Id("s", "a") := Attempt("s", Deleting(), 1, None, None, Pending, 0)], map[], map[])
  }

  function EarlierExport(): Export { Export([LineageRow("s", 1, Deleting(), Id("s", "a"))], EarlierDb()) }

  function EarlierIdentity(): Identity {
    Identity("s", Deleting(), Id("s", "a"), 1, FileKind, CatalogSha(EarlierExport()))
  }

  /** The store when the next item's upload began: the first confirmed and being deleted. */
  function LaterDb(): Db {
    Db("s", 2, 1, map[],
       map[Deleting() := OneRow("x", "/d/x", 11).(state := Evicting, confirmed := Some(Id("s", "a"))),
           Uploading() := OneRow("y", "/d/y", 12)],
       map[Id("s", "a") := Attempt("s", Deleting(), 1, Some(CatalogSha(EarlierExport())), Some("first"), Confirmed, 5),
           Id("s", "b") := Attempt("s", Uploading(), 2, None, None, Pending, 0)],
       map["first" := Ledgered(EarlierIdentity(), SnapConfirmed)],
       map[Deleting() := Intent(OneRow("x", "/d/x", 11).prints, false)])
  }

  function LaterExport(): Export { Export([LineageRow("s", 2, Uploading(), Id("s", "b"))], LaterDb()) }

  function LaterIdentity(): Identity {
    Identity("s", Uploading(), Id("s", "b"), 2, FileKind, CatalogSha(LaterExport()))
  }

  /** Two snapshots, sound both; the first one's export and payload cannot be read this time. */
  function LostReads(): Evidence {
    Evidence(map["first" :=
                   Snap(Canonical(EarlierIdentity()), 1, map["/d/x" := SourceFile([7])], Some(EarlierExport())),
                 "second" :=
                   Snap(Canonical(LaterIdentity()), 2, map["/d/y" := SourceFile([7])], Some(LaterExport()))],
             {"first"}, {"first"}, map[])
  }

  lemma NothingReadNothingProven(ev: Evidence, m: Db, o: Id)
    requires forall s | s in Candidates(ev, o) :: s in ev.broken
    ensures Provers(ev, m, o) == {} && Wins(ev, m, o, None)
  {}

  // ---- what proving itself means ----------------------------------------------------------------------

  /**
   * For rows in manifest shape, a snapshot proves itself exactly when its export is
   * valid, its attempt is not recorded failed, it is read whole, the item is not a
   * bare link, and its tree equals the manifest.
   */
  lemma ProverHoldsTheManifest(ev: Evidence, m: Db, o: Id, s: SnapId)
    requires o in m.occs && ItemShape(m.occs[o])
    ensures s in Provers(ev, m, o) <==>
            (&& s in Candidates(ev, o) && Valid(ev, s) && !Excluded(ev, m, s) && ReadWhole(ev, s, m.occs[o])
             && PlainRoot(m.occs[o].entries) && SameTree(ev.repo[s].tree, m.occs[o].spool, m.occs[o].entries))
  {
    hide ItemShape, ReadsBack, ReadWhole, SameTree, PlainRoot, Excluded;
    if s in ev.repo { ReadsBackExactly(ev, s, m.occs[o]); }
  }

  // ---- exports are copies of the past --------------------------------------------------------------

  ghost predicate CopyOf(p: History, e: Export, a: Id) {
    && Legal(p) && a in Now(p).db.attempts && e == ExportOf(Now(p).db, a)
    && Now(p).db.seqno == Now(p).db.attempts[a].seqno
  }

  /** Every digest a run ever committed is of the store as it then was. */
  lemma {:induction false} DigestIsOfThePast(h: History, a: Id) returns (p: History)
    requires Legal(h) && a in Now(h).db.attempts && Now(h).db.attempts[a].digest.Some?
    ensures Prefix(p, h) && CopyOf(p, Now(h).db.attempts[a].digest.value.catalog, a)
    decreases h
  {
    match h
    case Start(w) =>
      p := h;
    case Then(past, step) =>
      DigestsStay(past, step, a);
      if step == SetDigest(a) {
        p := past;
      } else {
        p := DigestIsOfThePast(past, a);
      }
  }

  lemma DigestsStay(past: History, step: Step, a: Id)
    requires Legal(past) && Enabled(Now(past), step)
    requires a in Do(Now(past), step).db.attempts && Do(Now(past), step).db.attempts[a].digest.Some?
    ensures a in Now(past).db.attempts
    ensures if step == SetDigest(a)
            then && Do(Now(past), step).db.attempts[a].digest.value.catalog == ExportOf(Now(past).db, a)
                 && Now(past).db.seqno == Now(past).db.attempts[a].seqno
            else Now(past).db.attempts[a].digest == Do(Now(past), step).db.attempts[a].digest
  {
    hide Legal, Now, Bears, ItemShape, Captured, CanEdit, CanUnlink, PayloadProven, RemoteCatalogProven,
         MatchingAttempt,
         LegalEdit, Without, StillTheEntry, Empty;
    var w := Now(past);
  }

  // ---- one repository, any number of archivers -------------------------------------------------------

  /**
   * One repository, published to by the given runs, each with a store of its own:
   * every snapshot with parseable tags is one of theirs.
   */
  ghost predicate Shared(runs: map<StoreId, History>, ev: Evidence) {
    && (forall t | t in runs :: Legal(runs[t]) && Now(runs[t]).db.store == t && Now(runs[t]).repo == ev.repo)
    && (forall s | Observable(ev, s) :: IdOf(ev, s).store in runs)
  }

  lemma RunOf(runs: map<StoreId, History>, ev: Evidence, t: StoreId)
    requires Shared(runs, ev) && t in runs
    ensures Legal(runs[t]) && Now(runs[t]).db.store == t && Now(runs[t]).repo == ev.repo
  {
    hide Legal, Now;
  }

  /** A snapshot bears the tags of an attempt that the store it names knows. */
  lemma OwnSnapshot(runs: map<StoreId, History>, ev: Evidence, s: SnapId)
    requires Shared(runs, ev) && Observable(ev, s)
    ensures IdOf(ev, s).store in runs && Legal(runs[IdOf(ev, s).store])
    ensures var w, a := Now(runs[IdOf(ev, s).store]), IdOf(ev, s).attempt;
            OwnAttempt(w.db, a) && w.db.attempts[a].digest.Some? && IdOf(ev, s) == OwnIdentity(w.db, a)
  {
    hide Legal, Now, Inv, OwnAttempt, OwnIdentity;
    var t := IdOf(ev, s).store;
    RunOf(runs, ev, t);
    EveryRunIsSound(runs[t]);
    InvParts(Now(runs[t]));
    OwnTags(Now(runs[t]), s) by { assert KnownSnap(Now(runs[t]), s); }
  }

  /** A valid export is the store it names as it was at some moment of that store's run. */
  lemma ValidIsOfThePast(runs: map<StoreId, History>, ev: Evidence, s: SnapId) returns (p: History)
    requires Shared(runs, ev) && Valid(ev, s)
    ensures IdOf(ev, s).store in runs && Prefix(p, runs[IdOf(ev, s).store])
    ensures CopyOf(p, ExportAt(ev, s), IdOf(ev, s).attempt)
  {
    hide Legal, Now, Prefix, Shared;
    OwnSnapshot(runs, ev, s);
    p := DigestIsOfThePast(runs[IdOf(ev, s).store], IdOf(ev, s).attempt);
  }

  /** Moments of one run never disagree about what an identifier names. */
  lemma MomentsAgree(p: History, q: History, h: History)
    requires Legal(h) && Prefix(p, h) && Prefix(q, h)
    ensures Legal(p) && Legal(q) && Agree(Now(p).db, Now(q).db)
  {
    EvidenceAccumulates(p, h);
    EvidenceAccumulates(q, h);
    EvolvedAgree(Now(p), Now(q), Now(h));
  }

  lemma EvolvedAgree(x: World, y: World, w: World)
    requires Evolves(x, w) && Evolves(y, w)
    ensures Agree(x.db, y.db)
  {
    forall o | o in x.db.occs && o in y.db.occs ensures SameOccurrence(x.db.occs[o], y.db.occs[o]) {
      assert SameItem(x.db.occs[o], w.db.occs[o]) && SameItem(y.db.occs[o], w.db.occs[o]);
    }
    forall a | a in x.db.attempts && a in y.db.attempts
      ensures SamePublication(x.db.attempts[a], y.db.attempts[a])
    {
      assert SameAttempt(x.db.attempts[a], w.db.attempts[a]) && SameAttempt(y.db.attempts[a], w.db.attempts[a]);
    }
  }

  /** Identifiers carry the store that made them. */
  ghost predicate NamesAreOwn(db: Db, t: StoreId) {
    (forall o | o in db.occs :: o.store == t) && (forall a | a in db.attempts :: a.store == t)
  }

  /** What an export says is what was so, then, in the run of the store it is of. */
  lemma TakenFromThePast(runs: map<StoreId, History>, ev: Evidence, all: seq<Export>, e: Export)
    returns (t: StoreId, p: History)
    requires Shared(runs, ev) && TakenIn(ev, all) && e in all
    ensures t in runs && Legal(runs[t]) && Now(runs[t]).db.store == t
    ensures Prefix(p, runs[t]) && Legal(p) && e.db == Now(p).db && Evolves(Now(p), Now(runs[t])) && NamesAreOwn(e.db, t)
  {
    hide Legal, Now, Prefix, Shared, Evolves, Inv, AttemptsOk;
    var s :| Valid(ev, s) && ExportAt(ev, s) == e;
    p := ValidIsOfThePast(runs, ev, s);
    t := IdOf(ev, s).store;
    RunOf(runs, ev, t);
    EvidenceAccumulates(p, runs[t]);
    EveryRunIsSound(p);
    InvParts(Now(p));
    OwnNames(Now(p), Now(runs[t]));
  }

  lemma OwnNames(w: World, w': World)
    requires AttemptsOk(w) && Evolves(w, w')
    ensures NamesAreOwn(w.db, w'.db.store)
  {}

  lemma OwnExportsAgree(runs: map<StoreId, History>, ev: Evidence, all: seq<Export>)
    requires Shared(runs, ev) && TakenIn(ev, all)
    ensures AllAgree(all)
  {
    hide Legal, Now, Prefix, Shared, TakenIn, Agree, Evolves;
    forall i, j | 0 <= i < j < |all| ensures Agree(all[i].db, all[j].db) {
      assert all[i] in all && all[j] in all;
      var t, p := TakenFromThePast(runs, ev, all, all[i]);
      var u, q := TakenFromThePast(runs, ev, all, all[j]);
      if t == u { MomentsAgree(p, q, runs[t]); } else { StrangersAgree(all[i].db, all[j].db, t, u); }
    }
  }

  lemma StrangersAgree(x: Db, y: Db, t: StoreId, u: StoreId)
    requires NamesAreOwn(x, t) && NamesAreOwn(y, u) && t != u
    ensures Agree(x, y)
  {}

  lemma OwnLedgerIsClear(runs: map<StoreId, History>, ev: Evidence, all: seq<Export>)
    requires Shared(runs, ev) && TakenIn(ev, all)
    ensures LedgerClear(ev, if all == [] then map[] else all[0].db.ledger)
  {
    hide Legal, Now, Prefix, Shared, TakenIn, Inv, Evolves;
    if all != [] {
      var t, p := TakenFromThePast(runs, ev, all, all[0]);
      RunOf(runs, ev, t);
      EveryRunIsSound(runs[t]);
      InvParts(Now(runs[t]));
      LedgerIsAsTagged(Now(p), Now(runs[t]), ev);
    }
  }

  lemma LedgerIsAsTagged(x: World, w: World, ev: Evidence)
    requires OwnSnapshotsKnown(w) && Evolves(x, w) && w.repo == ev.repo
    ensures LedgerClear(ev, x.db.ledger)
  {
    forall s | s in Observed(ev) && s in x.db.ledger ensures x.db.ledger[s].identity == IdOf(ev, s) {
      assert LedgeredAsTagged(w, s);
    }
  }

  lemma {:induction false} AbandonedForGood(p: History, h: History, o: Id)
    requires Legal(h) && Prefix(p, h) && Legal(p) && IsIn(Now(p), o, Abandoned)
    ensures IsIn(Now(h), o, Abandoned)
    decreases h
  {
    hide Now, Enabled, MovesAsAllowed, IsIn, Fresh;
    if p != h {
      AbandonedForGood(p, h.past, o);
      KnownIsThere(Now(h.past), o);
      StatesMoveAsAllowed(h, o);
      AbandonedStays(Now(h.past), Now(h), o);
    }
  }

  lemma KnownIsThere(w: World, o: Id)
    requires IsIn(w, o, Abandoned)
    ensures o in w.db.occs
  {}

  lemma AbandonedStays(w: World, w': World, o: Id)
    requires IsIn(w, o, Abandoned) && MovesAsAllowed(w.db, w'.db, o)
    ensures IsIn(w', o, Abandoned)
  {}

  /** The merged rows are about the very things the runs' last rows are about. */
  lemma MergedIsOfTheRuns(runs: map<StoreId, History>, ev: Evidence, all: seq<Export>, m: Db)
    requires Shared(runs, ev) && TakenIn(ev, all)
    requires (forall e | e in all :: Contains(Work(m, {}), e)) && Drawn(Work(m, {}), all)
    ensures forall t | t in runs :: Legal(runs[t])
    ensures forall o | o in m.occs ::
              && o.store in runs && o in Now(runs[o.store]).db.occs
              && SameOccurrence(m.occs[o], Now(runs[o.store]).db.occs[o])
    ensures forall a | a in m.attempts ::
              && a.store in runs && a in Now(runs[a.store]).db.attempts
              && SamePublication(m.attempts[a], Now(runs[a.store]).db.attempts[a])
  {
    hide Legal, Now, Shared, TakenIn, Contains, SameOccurrence, SamePublication, Evolves;
    forall t | t in runs ensures Legal(runs[t]) { RunOf(runs, ev, t); }
    forall o | o in m.occs
      ensures o.store in runs && o in Now(runs[o.store]).db.occs
      ensures SameOccurrence(m.occs[o], Now(runs[o.store]).db.occs[o])
    {
      var e :| e in all && o in e.db.occs;
      var t, p := TakenFromThePast(runs, ev, all, e);
      OccurrenceThrough(m, e, Now(p), Now(runs[t]), o);
    }
    forall a | a in m.attempts
      ensures a.store in runs && a in Now(runs[a.store]).db.attempts
      ensures SamePublication(m.attempts[a], Now(runs[a.store]).db.attempts[a])
    {
      var e :| e in all && a in e.db.attempts;
      var t, p := TakenFromThePast(runs, ev, all, e);
      AttemptThrough(m, e, Now(p), Now(runs[t]), a);
    }
  }

  lemma OccurrenceThrough(m: Db, e: Export, x: World, w: World, o: Id)
    requires Contains(Work(m, {}), e) && e.db == x.db && Evolves(x, w) && o in e.db.occs
    ensures o in m.occs && o in w.db.occs && SameOccurrence(m.occs[o], w.db.occs[o])
  {
    assert SameItem(x.db.occs[o], w.db.occs[o]) && SameOccurrence(e.db.occs[o], m.occs[o]);
  }

  lemma AttemptThrough(m: Db, e: Export, x: World, w: World, a: Id)
    requires Contains(Work(m, {}), e) && e.db == x.db && Evolves(x, w) && a in e.db.attempts
    ensures a in m.attempts && a in w.db.attempts && SamePublication(m.attempts[a], w.db.attempts[a])
  {
    assert SameAttempt(x.db.attempts[a], w.db.attempts[a]) && SamePublication(e.db.attempts[a], m.attempts[a]);
  }

  lemma RunsAreGenuine(runs: map<StoreId, History>, ev: Evidence, all: seq<Export>, m: Db)
    requires Shared(runs, ev) && TakenIn(ev, all)
    requires (forall e | e in all :: Contains(Work(m, {}), e)) && Drawn(Work(m, {}), all)
    ensures Genuine(ev, m)
  {
    hide Legal, Now, Shared, TakenIn, Contains, Drawn, Inv, AttemptsOk;
    MergedIsOfTheRuns(runs, ev, all, m);
    forall s | s in Observed(ev) && IdOf(ev, s).attempt in m.attempts
      ensures m.attempts[IdOf(ev, s).attempt].occ == IdOf(ev, s).occ
    {
      OwnSnapshot(runs, ev, s);
      var t := IdOf(ev, s).store;
      RunOf(runs, ev, t);
      EveryRunIsSound(runs[t]);
      InvParts(Now(runs[t]));
      AttemptIsNamed(Now(runs[t]), IdOf(ev, s).attempt);
    }
  }

  lemma AttemptIsNamed(w: World, a: Id)
    requires AttemptsOk(w) && a in w.db.attempts
    ensures a.store == w.db.store
  {}

  // ---- the exports of one run tell one story ---------------------------------------------------

  /** Of two moments of a run one is the earlier. */
  lemma {:induction false} MomentsInOrder(p: History, q: History, h: History)
    requires Prefix(p, h) && Prefix(q, h)
    ensures Prefix(p, q) || Prefix(q, p)
  {
    if p != h && q != h { MomentsInOrder(p, q, h.past); }
  }

  /** The moment an export is of, and the attempt it was made for. */
  ghost predicate MadeAt(runs: map<StoreId, History>, e: Export, p: History, a: Id) {
    && |e.rows| == 1 && e.rows[0].store in runs && Legal(runs[e.rows[0].store]) && Prefix(p, runs[e.rows[0].store])
    && CopyOf(p, e, a) && Now(p).db.store == e.rows[0].store && e.rows[0].seqno == Now(p).db.seqno
    && var w := Now(runs[e.rows[0].store]);
       && Inv(w) && Evolves(Now(p), w)
       && a in w.db.attempts && w.db.attempts[a].digest == Some(CatalogSha(e))
       && w.db.attempts[a].seqno == e.rows[0].seqno
  }

  lemma TakenAtAMoment(runs: map<StoreId, History>, ev: Evidence, all: seq<Export>, e: Export)
    returns (p: History, a: Id)
    requires Shared(runs, ev) && TakenIn(ev, all) && e in all
    ensures MadeAt(runs, e, p, a)
  {
    hide Legal, Now, Prefix, Shared, Inv, Evolves;
    var s :| Valid(ev, s) && ExportAt(ev, s) == e;
    a := IdOf(ev, s).attempt;
    OwnSnapshot(runs, ev, s);
    p := ValidIsOfThePast(runs, ev, s);
    var h := runs[IdOf(ev, s).store];
    EvidenceAccumulates(p, h);
    EveryRunIsSound(h);
    AttemptStaysItself(Now(p), Now(h), a);
    RunOf(runs, ev, IdOf(ev, s).store);
  }

  lemma AttemptStaysItself(w: World, w': World, a: Id)
    requires Evolves(w, w') && a in w.db.attempts
    ensures a in w'.db.attempts && SameAttempt(w.db.attempts[a], w'.db.attempts[a]) && w'.db.store == w.db.store
  {}

  /** Of two exports of one lineage the one of higher sequence is the same or of a later moment. */
  lemma LaterIsLater(runs: map<StoreId, History>, d: Export, e: Export, p: History, a: Id, q: History, b: Id)
    requires MadeAt(runs, d, p, a) && MadeAt(runs, e, q, b) && NoEarlier(d, e)
    ensures d == e || (Legal(q) && Prefix(p, q))
  {
    hide Legal, Now, Inv, Evolves, Prefix;
    var h := runs[e.rows[0].store];
    MomentsInOrder(p, q, h);
    if Prefix(q, p) {
      EvidenceAccumulates(q, p);
      SequenceGrows(Now(q), Now(p));
      SameNumber(Now(h), a, b);
    }
  }

  lemma SequenceGrows(w: World, w': World)
    requires Evolves(w, w')
    ensures w.db.seqno <= w'.db.seqno
  {}

  lemma SameNumber(w: World, a: Id, b: Id)
    requires Inv(w) && a in w.db.attempts && b in w.db.attempts
    ensures w.db.attempts[a].seqno == w.db.attempts[b].seqno ==> a == b
  {
    InvParts(w);
    hide Inv;
  }

  lemma OriginsAreOwn(p: History)
    requires Legal(p)
    ensures forall a | a in Now(p).db.attempts :: Now(p).db.attempts[a].origin == Now(p).db.store
    ensures forall o | o in Now(p).db.occs :: Now(p).db.occs[o].origin == Now(p).db.store
  {
    EveryRunIsSound(p);
    InvParts(Now(p));
    hide Inv, Legal, Now;
  }

  /** The exports of any number of runs tell one story of every attempt and every occurrence. */
  lemma RunsTellOneStory(runs: map<StoreId, History>, ev: Evidence, all: seq<Export>, a: Id, o: Id)
    requires Shared(runs, ev) && TakenIn(ev, all)
    ensures Single(all) && OneStory(all, a) && OneFate(all, o)
  {
    hide Legal, Now, Prefix, Shared, Inv, Evolves, TakenIn, MadeAt, NoEarlier, Continued;
    forall e | e in all ensures |e.rows| == 1
      ensures a in e.db.attempts ==> e.db.attempts[a].origin == e.rows[0].store
      ensures o in e.db.occs ==> e.db.occs[o].origin == e.rows[0].store
    {
      var p, x := TakenAtAMoment(runs, ev, all, e);
      ExportIsOwn(runs, e, p, x);
    }
    forall d, e | d in all && e in all && NoEarlier(d, e)
      ensures a in d.db.attempts ==> Continued(d, e, a)
      ensures SaysOf(d, o, Abandoned) ==> SaysOf(e, o, Abandoned)
    {
      var p, x := TakenAtAMoment(runs, ev, all, d);
      var q, y := TakenAtAMoment(runs, ev, all, e);
      LaterIsLater(runs, d, e, p, x, q, y);
      if d != e { StoryGoesOn(runs, d, e, p, x, q, y, a, o); } else { ContinuedItself(d, a); }
    }
  }

  lemma ContinuedItself(d: Export, a: Id)
    ensures a in d.db.attempts ==> Continued(d, d, a)
  {}

  lemma ExportIsOwn(runs: map<StoreId, History>, e: Export, p: History, x: Id)
    requires MadeAt(runs, e, p, x)
    ensures |e.rows| == 1
    ensures forall a | a in e.db.attempts :: e.db.attempts[a].origin == e.rows[0].store
    ensures forall o | o in e.db.occs :: e.db.occs[o].origin == e.rows[0].store
  {
    hide Legal, Now, Prefix, Inv, Evolves;
    OriginsAreOwn(p);
  }

  lemma StoryGoesOn(runs: map<StoreId, History>, d: Export, e: Export, p: History, x: Id, q: History, y: Id,
                    a: Id, o: Id)
    requires MadeAt(runs, d, p, x) && MadeAt(runs, e, q, y) && Legal(q) && Prefix(p, q)
    ensures a in d.db.attempts ==> Continued(d, e, a)
    ensures SaysOf(d, o, Abandoned) ==> SaysOf(e, o, Abandoned)
  {
    hide Legal, Now, Prefix, Inv, Evolves;
    EvidenceAccumulates(p, q);
    if a in d.db.attempts { AttemptStaysItself(Now(p), Now(q), a); }
    if SaysOf(d, o, Abandoned) { AbandonedForGood(p, q, o); }
  }

  /** Some valid export records the attempt as failed. */
  ghost predicate RecordedFailed(ev: Evidence, a: Id) {
    exists s :: Valid(ev, s) && a in ExportAt(ev, s).db.attempts && ExportAt(ev, s).db.attempts[a].outcome == Failed
  }

  /**
   * Whatever the archivers' exports know of an attempt, recovery knows: it is pending
   * only if every export that has it says so, settled as any that settled it says,
   * and a snapshot of an attempt some export records as failed never proves itself.
   */
  lemma SettlementsAreKnown(runs: map<StoreId, History>, ev: Evidence, all: seq<Export>, merged: Db, a: Id)
    requires Shared(runs, ev) && TakenIn(ev, all) && all != [] && MergedFrom(all, merged) && a in merged.attempts
    ensures merged.attempts[a].outcome == Pending <==>
            (forall e | e in all && a in e.db.attempts :: e.db.attempts[a].outcome == Pending)
    ensures forall e | e in all && a in e.db.attempts && e.db.attempts[a].outcome != Pending ::
              SettledAlike(merged.attempts[a], e.db.attempts[a])
    ensures merged.attempts[a].outcome == Failed <==> RecordedFailed(ev, a)
  {
    hide Shared, MergedFrom, OneStory, OneFate, FateKnown, Valid;
    RunsTellOneStory(runs, ev, all, a, a);
    MergeLearns(all, merged, a, a);
    if RecordedFailed(ev, a) {
      var s :| Valid(ev, s) && a in ExportAt(ev, s).db.attempts && ExportAt(ev, s).db.attempts[a].outcome == Failed;
      assert ExportAt(ev, s) in all;
    }
    if merged.attempts[a].outcome == Failed {
      var e :| e in all && a in e.db.attempts && e.db.attempts[a].outcome == Failed;
      var s :| Valid(ev, s) && ExportAt(ev, s) == e;
    }
  }

  /** An occurrence is abandoned in the merged rows exactly when some export says so. */
  lemma AbandonmentIsKnown(runs: map<StoreId, History>, ev: Evidence, all: seq<Export>, merged: Db, o: Id)
    requires Shared(runs, ev) && TakenIn(ev, all) && all != [] && MergedFrom(all, merged) && o in merged.occs
    ensures merged.occs[o].state == Abandoned <==> exists e | e in all :: SaysOf(e, o, Abandoned)
  {
    hide Shared, MergedFrom, OneStory, OneFate, Learned, Outcomes, TakenIn;
    RunsTellOneStory(runs, ev, all, o, o);
    MergeLearns(all, merged, o, o);
  }

  /** No read of a snapshot behind a confirmed publication fails; any other read may. */
  ghost predicate ConfirmedReadable(runs: map<StoreId, History>, ev: Evidence)
    requires forall t | t in runs :: Legal(runs[t]) && Now(runs[t]).repo == ev.repo
  {
    forall t, o, s | t in runs && Published(Now(runs[t]), o) && ConfirmedAs(Now(runs[t]), o, s) ::
      s !in ev.unreadable && ReadWhole(ev, s, Now(runs[t]).db.occs[o])
  }

  /** Confirmed, and not abandoned since. */
  predicate Published(w: World, o: Id) {
    o in w.db.occs && w.db.occs[o].state in {Recoverable, Evicting, Evicted}
  }

  lemma ConfirmedIn(w: World, o: Id) returns (s: SnapId, a: Id)
    requires Inv(w) && Published(w, o)
    ensures a in w.db.attempts && w.db.attempts[a].occ == o && w.db.attempts[a].outcome == Confirmed
    ensures ConfirmedAs(w, o, s) && s in w.repo && w.repo[s].tags.Canonical?
    ensures w.repo[s].tags.id.attempt == a && w.repo[s].tags.id.occ == o && w.repo[s].tags.id.store == w.db.store
    ensures CatalogFileProven(w.repo[s].catalog, w.repo[s].tags.id)
    ensures ItemShape(w.db.occs[o]) && PlainRoot(w.db.occs[o].entries)
    ensures SameTree(w.repo[s].tree, w.db.occs[o].spool, w.db.occs[o].entries)
  {
    hide Inv, ItemShape, PlainRoot, SameTree, CatalogFileProven, RowsAgree, ManifestsSound, AttemptsOk, ProofsHold,
         BindingsOk,
         OneConfirmed, PayloadProven, RemoteCatalogProven;
    InvParts(w);
    PublishedIsConfirmed(w, o);
    a := w.db.occs[o].confirmed.value;
    s := w.db.attempts[a].snapshot.value;
    ProvenBehind(w, a, s);
    ShapeOf(w, o);
  }

  lemma PublishedIsConfirmed(w: World, o: Id)
    requires Settled(w) && Published(w, o)
    ensures OneConfirmed(w.db, o)
    ensures var row := w.db.occs[o];
            && row.confirmed.Some? && row.confirmed.value in w.db.attempts
            && w.db.attempts[row.confirmed.value].occ == o
            && w.db.attempts[row.confirmed.value].outcome == Confirmed
            && w.db.attempts[row.confirmed.value].snapshot.Some?
  {
    assert SettledAs(w.db, o);
  }

  lemma ProvenBehind(w: World, a: Id, s: SnapId)
    requires ProofsHold(w) && BindingsOk(w) && AttemptsOk(w)
    requires a in w.db.attempts && w.db.attempts[a].outcome == Confirmed && w.db.attempts[a].snapshot == Some(s)
    ensures w.db.attempts[a].occ in w.db.occs && s in w.repo && w.repo[s].tags.Canonical?
    ensures w.repo[s].tags.id.attempt == a && w.repo[s].tags.id.occ == w.db.attempts[a].occ
    ensures w.repo[s].tags.id.store == w.db.store
    ensures CatalogFileProven(w.repo[s].catalog, w.repo[s].tags.id)
    ensures var row := w.db.occs[w.db.attempts[a].occ];
            PlainRoot(row.entries) && SameTree(w.repo[s].tree, row.spool, row.entries)
  {
    hide SameTree, PlainRoot, CatalogFileProven, RowsAgree;
    assert ProofHolds(w, a) && BindingOk(w, a);
  }

  lemma ShapeOf(w: World, o: Id)
    requires ManifestsSound(w) && o in w.db.occs
    ensures ItemShape(w.db.occs[o])
  {
    assert ManifestSound(w, o);
  }

  /** The readers look only at what the occurrence is. */
  lemma ReadsAlike(ev: Evidence, s: SnapId, x: Occ, y: Occ)
    requires SameOccurrence(x, y)
    ensures ReadsBack(ev, s, x) <==> ReadsBack(ev, s, y)
  {}

  /** The confirmed publication of a run proves itself again, from the repository alone. */
  lemma ConfirmedProves(runs: map<StoreId, History>, ev: Evidence, all: seq<Export>, m: Db, t: StoreId, o: Id)
    returns (s: SnapId)
    requires Shared(runs, ev) && TakenIn(ev, all) && t in runs && ConfirmedReadable(runs, ev)
    requires (forall e | e in all :: Contains(Work(m, {}), e)) && Drawn(Work(m, {}), all)
    requires forall a :: Outcomes(Work(m, {}), all, a)
    requires Published(Now(runs[t]), o)
    ensures o in m.occs && s in Provers(ev, m, o)
  {
    hide *;
    RunOf(runs, ev, t);
    EveryRunIsSound(runs[t]);
    var a;
    s, a := ConfirmedIn(Now(runs[t]), o);
    ConfirmedIsValid(runs, ev, t, o, s);
    TakenMentions(runs, ev, all, m, t, o, s, a);
    NeverRecordedFailed(runs, ev, all, m, t, a);
    MergedIsOfTheRuns(runs, ev, all, m);
    NamedBy(Now(runs[t]), o);
    ReadsBackExactly(ev, s, Now(runs[t]).db.occs[o]);
    ReadsAlike(ev, s, m.occs[o], Now(runs[t]).db.occs[o]);
    ThenItProves(ev, m, o, s);
  }

  lemma NamedBy(w: World, o: Id)
    requires Inv(w) && Published(w, o)
    ensures o.store == w.db.store && o in w.db.occs
  {
    hide ItemShape, Captured;
    InvParts(w);
  }

  lemma ThenItProves(ev: Evidence, m: Db, o: Id, s: SnapId)
    requires Valid(ev, s) && IdOf(ev, s).occ == o && o in m.occs && ReadsBack(ev, s, m.occs[o])
    requires IdOf(ev, s).attempt in m.attempts ==> m.attempts[IdOf(ev, s).attempt].outcome != Failed
    ensures s in Provers(ev, m, o)
  {
    hide ReadsBack;
  }

  lemma ConfirmedIsValid(runs: map<StoreId, History>, ev: Evidence, t: StoreId, o: Id, s: SnapId)
    requires Shared(runs, ev) && t in runs && ConfirmedReadable(runs, ev)
    requires Published(Now(runs[t]), o) && ConfirmedAs(Now(runs[t]), o, s)
    requires s in Now(runs[t]).repo && Now(runs[t]).repo[s].tags.Canonical?
    requires CatalogFileProven(Now(runs[t]).repo[s].catalog, Now(runs[t]).repo[s].tags.id)
    ensures Valid(ev, s) && IdOf(ev, s) == Now(runs[t]).repo[s].tags.id && s in ev.repo
    ensures ev.repo[s] == Now(runs[t]).repo[s] && ReadWhole(ev, s, Now(runs[t]).db.occs[o])
  {
    hide Legal, Now, CatalogFileProven, Published, ConfirmedAs, ReadWhole;
    RunOf(runs, ev, t);
  }

  /** The occurrence is in the very export its confirmed snapshot carries. */
  lemma TakenMentions(runs: map<StoreId, History>, ev: Evidence, all: seq<Export>, m: Db, t: StoreId, o: Id, s: SnapId,
                      a: Id)
    requires Shared(runs, ev) && TakenIn(ev, all) && t in runs && Valid(ev, s) && IdOf(ev, s).store == t
    requires forall e | e in all :: Contains(Work(m, {}), e)
    requires IdOf(ev, s).attempt == a && a in Now(runs[t]).db.attempts && Now(runs[t]).db.attempts[a].occ == o
    ensures o in m.occs
  {
    hide Legal, Now, Shared, Prefix, Evolves, Valid;
    RunOf(runs, ev, t);
    var p := ValidIsOfThePast(runs, ev, s);
    EvidenceAccumulates(p, runs[t]);
    CopyMentions(p, runs[t], ExportAt(ev, s), a, o);
    assert ExportAt(ev, s) in all;
    assert Contains(Work(m, {}), ExportAt(ev, s));
  }

  lemma CopyMentions(p: History, h: History, e: Export, a: Id, o: Id)
    requires Legal(h) && CopyOf(p, e, a) && Evolves(Now(p), Now(h))
    requires a in Now(h).db.attempts && Now(h).db.attempts[a].occ == o
    ensures o in e.db.occs
  {
    EveryRunIsSound(p);
    assert SameAttempt(Now(p).db.attempts[a], Now(h).db.attempts[a]);
    assert AttemptsOk(Now(p));
    hide Legal, Inv;
  }

  /** An attempt confirmed in the end was never recorded failed at any moment. */
  lemma NeverRecordedFailed(runs: map<StoreId, History>, ev: Evidence, all: seq<Export>, m: Db, t: StoreId, a: Id)
    requires Shared(runs, ev) && TakenIn(ev, all) && t in runs && Outcomes(Work(m, {}), all, a)
    requires a in Now(runs[t]).db.attempts && Now(runs[t]).db.attempts[a].outcome == Confirmed
    ensures a in m.attempts ==> m.attempts[a].outcome != Failed
  {
    hide Legal, Now, Shared, TakenIn, Evolves, Inv, AttemptsOk;
    if a in m.attempts {
      var e :| e in all && a in e.db.attempts && e.db.attempts[a].outcome == m.attempts[a].outcome;
      var u, p := TakenFromThePast(runs, ev, all, e);
      RunOf(runs, ev, t);
      EveryRunIsSound(runs[t]);
      InvParts(Now(runs[t]));
      AttemptIsNamed(Now(runs[t]), a);
      FailedForGood(Now(p), Now(runs[t]), a);
    }
  }

  lemma FailedForGood(w: World, w': World, a: Id)
    requires Evolves(w, w') && a in w.db.attempts
    ensures a in w'.db.attempts && (w.db.attempts[a].outcome == Failed ==> w'.db.attempts[a].outcome == Failed)
  {
    assert SameAttempt(w.db.attempts[a], w'.db.attempts[a]);
  }

  lemma NeverAbandoned(runs: map<StoreId, History>, ev: Evidence, all: seq<Export>, m: Db, t: StoreId, o: Id)
    requires Shared(runs, ev) && TakenIn(ev, all) && t in runs && Ranked(Work(m, {}), all, o)
    requires Published(Now(runs[t]), o)
    ensures o in m.occs ==> m.occs[o].state != Abandoned
  {
    hide Legal, Now, Shared, TakenIn, Evolves, Inv, Prefix;
    if o in m.occs && m.occs[o].state == Abandoned {
      var e :| e in all && SaysOf(e, o, Abandoned);
      var u, p := TakenFromThePast(runs, ev, all, e);
      RunOf(runs, ev, t);
      EveryRunIsSound(runs[t]);
      NamedBy(Now(runs[t]), o);
      AbandonedForGood(p, runs[t], o);
      assert false;
    }
  }

  /** The occurrence stands confirmed again, on a snapshot that holds exactly its manifest. */
  ghost predicate BackFromTheRepository(w: World, ev: Evidence, db: Db, o: Id)
    requires o in w.db.occs
  {
    var row := w.db.occs[o];
    && o in db.occs && SameOccurrence(db.occs[o], row) && db.occs[o].state in {Recoverable, Evicting}
    && exists s | s in Candidates(ev, o) ::
         StandsBy(ev, db, o, s) && IdOf(ev, s).attempt in db.attempts
         && SameTree(ev.repo[s].tree, row.spool, row.entries)
  }

  /** A valid export holds the row of the attempt it was made for. */
  lemma TaggedAttemptIsKnown(runs: map<StoreId, History>, ev: Evidence, all: seq<Export>, m: Db, s: SnapId)
    requires Shared(runs, ev) && TakenIn(ev, all) && Valid(ev, s)
    requires forall e | e in all :: Contains(Work(m, {}), e)
    ensures IdOf(ev, s).attempt in m.attempts
  {
    hide Legal, Now, Shared, Prefix;
    var p := ValidIsOfThePast(runs, ev, s);
    assert ExportAt(ev, s) in all;
    assert Contains(Work(m, {}), ExportAt(ev, s));
  }

  lemma ComesBack(runs: map<StoreId, History>, ev: Evidence, all: seq<Export>, m: Db, db: Db, t: StoreId, o: Id,
                  at: int)
    requires Shared(runs, ev) && TakenIn(ev, all) && t in runs && ConfirmedReadable(runs, ev)
    requires (forall e | e in all :: Contains(Work(m, {}), e)) && Drawn(Work(m, {}), all)
    requires (forall a :: Outcomes(Work(m, {}), all, a)) && Ranked(Work(m, {}), all, o) && Rebuilt(ev, m, db, at)
    requires Published(Now(runs[t]), o)
    ensures o in Now(runs[t]).db.occs && BackFromTheRepository(Now(runs[t]), ev, db, o)
  {
    hide *;
    var s := ConfirmedProves(runs, ev, all, m, t, o);
    NeverAbandoned(runs, ev, all, m, t, o);
    RunsAreGenuine(runs, ev, all, m);
    MergedIsOfTheRuns(runs, ev, all, m);
    RunOf(runs, ev, t);
    EveryRunIsSound(runs[t]);
    NamedBy(Now(runs[t]), o);
    InvParts(Now(runs[t]));
    ShapeOf(Now(runs[t]), o);
    var w := ConfirmedAnew(ev, m, db, o, s, at);
    TaggedAttemptIsKnown(runs, ev, all, m, w);
    ReadsAlike(ev, w, m.occs[o], Now(runs[t]).db.occs[o]);
    ReadsBackExactly(ev, w, Now(runs[t]).db.occs[o]);
    SameThrough(m.occs[o], db.occs[o], Now(runs[t]).db.occs[o]);
    StandsAgain(Now(runs[t]), ev, db, o, w);
  }

  lemma StandsAgain(w: World, ev: Evidence, db: Db, o: Id, s: SnapId)
    requires o in w.db.occs && o in db.occs && SameOccurrence(db.occs[o], w.db.occs[o])
    requires s in Candidates(ev, o) && StandsBy(ev, db, o, s) && db.occs[o].state in {Recoverable, Evicting}
    requires IdOf(ev, s).attempt in db.attempts
    requires SameTree(ev.repo[s].tree, w.db.occs[o].spool, w.db.occs[o].entries)
    ensures BackFromTheRepository(w, ev, db, o)
  {
    hide SameTree, SameOccurrence, StandsBy;
  }

  lemma ConfirmedAnew(ev: Evidence, m: Db, db: Db, o: Id, s: SnapId, at: int) returns (w: SnapId)
    requires Rebuilt(ev, m, db, at) && Genuine(ev, m) && o in m.occs && m.occs[o].state != Abandoned
    requires s in Provers(ev, m, o)
    ensures w in ev.repo && w in Candidates(ev, o) && Valid(ev, w) && ReadsBack(ev, w, m.occs[o])
    ensures db.attempts.Keys == m.attempts.Keys
    ensures o in db.occs && SameOccurrence(m.occs[o], db.occs[o])
    ensures StandsBy(ev, db, o, w) && db.occs[o].state in {Recoverable, Evicting}
  {
    hide Genuine, SameOccurrence, ReadsBack, SettledAttempt, Excluded, Valid;
    assert TriedAs(ev, m, db, o, at) && Observed(ev) <= m.ledger.Keys;
    var x :| Wins(ev, m, o, x) && (x.Some? ==> Observable(ev, x.value)) && SettledWith(ev, m, db, o, x, at);
    w := x.value;
    CandidatesStand(ev, m, db, o, x, at);
    assert w in Candidates(ev, o);
    WinnerStands(ev, m, db, o, w, at);
  }

  lemma SameThrough(x: Occ, y: Occ, z: Occ)
    requires SameOccurrence(x, y) && SameOccurrence(x, z)
    ensures SameOccurrence(y, z)
  {}

  /** What recovery confirms was never recorded as failed by anything it could authenticate. */
  lemma NoFailureIsConfirmed(runs: map<StoreId, History>, ev: Evidence, all: seq<Export>, merged: Db, db: Db, o: Id,
                             at: int)
    requires Shared(runs, ev) && TakenIn(ev, all)
    requires var m := LedgeredDb(ev, merged);
             && (all != [] ==> MergedFrom(all, merged))
             && (forall e | e in all :: Contains(Work(m, {}), e)) && Drawn(Work(m, {}), all) && Rebuilt(ev, m, db, at)
    requires o in db.occs && db.occs[o].state == Recoverable
    ensures db.occs[o].confirmed.Some? && !RecordedFailed(ev, db.occs[o].confirmed.value)
  {
    hide *;
    var m := LedgeredDb(ev, merged);
    LedgeringKeepsAttempts(ev, merged);
    RunsAreGenuine(runs, ev, all, m);
    var s := ProvenBehindIt(ev, m, db, o, at);
    TaggedAttemptIsKnown(runs, ev, all, m, s);
    SomethingTaken(ev, all, s);
    SettlementsAreKnown(runs, ev, all, merged, IdOf(ev, s).attempt);
  }

  lemma LedgeringKeepsAttempts(ev: Evidence, merged: Db)
    ensures LedgeredDb(ev, merged).attempts == merged.attempts
  {}

  lemma SomethingTaken(ev: Evidence, all: seq<Export>, s: SnapId)
    requires TakenIn(ev, all) && Valid(ev, s)
    ensures all != []
  {}

  lemma ProvenBehindIt(ev: Evidence, m: Db, db: Db, o: Id, at: int) returns (s: SnapId)
    requires Rebuilt(ev, m, db, at) && Genuine(ev, m) && o in db.occs && db.occs[o].state == Recoverable
    ensures Observable(ev, s) && Valid(ev, s) && db.occs[o].confirmed == Some(IdOf(ev, s).attempt)
    ensures IdOf(ev, s).attempt in m.attempts ==> m.attempts[IdOf(ev, s).attempt].outcome != Failed
  {
    hide Genuine, SettledAttempt, ReadsBack, SameOccurrence, SamePublication;
    assert o in m.occs && TriedAs(ev, m, db, o, at);
    hide Rebuilt;
    if m.occs[o].state == Evicting { NothingClaimed(ev, m, db, o, at); }
    VerdictIsEvidence(ev, m, db, o, at);
    s :| Newest(ev, s, Provers(ev, m, o)) && StandsBy(ev, db, o, s)
         && OnlyOneStands(ev, db, o, Some(s)) && OthersStay(m, db, o, IdOf(ev, s).attempt);
  }

  /**
   * Every intent is marked as reconstructed and of its occurrence's own fingerprint,
   * and every deletion under way has one, so that it can be taken up again.
   */
  ghost predicate IntentsStand(db: Db) {
    && (forall o | o in db.intents ::
          && o in db.occs && db.intents[o].recovered && db.intents[o].prints == db.occs[o].prints)
    && (forall o | o in db.occs && db.occs[o].state == Evicting :: o in db.intents)
  }

  lemma DeletionsCanGoOn(runs: map<StoreId, History>, ev: Evidence, all: seq<Export>, m: Db, db: Db, at: int)
    requires Shared(runs, ev) && TakenIn(ev, all) && Rebuilt(ev, m, db, at) && IntentsOf(db.intents, all)
    requires (forall e | e in all :: Contains(Work(m, {}), e)) && Drawn(Work(m, {}), all)
    requires forall o :: Ranked(Work(m, {}), all, o)
    ensures IntentsStand(db)
  {
    hide *;
    RunsAreGenuine(runs, ev, all, m);
    forall o | o in db.intents
      ensures o in db.occs && db.intents[o].recovered && db.intents[o].prints == db.occs[o].prints
    {
      var e := IntentFrom(db, all, o);
      ExportIntents(runs, ev, all, e);
      IntentThrough(ev, m, db, e, o, at);
    }
    forall o | o in db.occs && db.occs[o].state == Evicting ensures o in db.intents {
      var e := EvictingFrom(ev, m, db, all, o, at);
      ExportIntents(runs, ev, all, e);
      IntentKept(db, all, e, o);
    }
    StandsAll(db);
  }

  lemma StandsAll(db: Db)
    requires forall o | o in db.intents ::
               && o in db.occs && db.intents[o].recovered && db.intents[o].prints == db.occs[o].prints
    requires forall o | o in db.occs && db.occs[o].state == Evicting :: o in db.intents
    ensures IntentsStand(db)
  {}

  lemma IntentFrom(db: Db, all: seq<Export>, o: Id) returns (e: Export)
    requires IntentsOf(db.intents, all) && o in db.intents
    ensures e in all && o in e.db.intents && e.db.intents[o].prints == db.intents[o].prints
  {
    var i: nat :| FirstSays(all, i, o, db.intents[o].prints);
    e := all[i];
  }

  lemma IntentKept(db: Db, all: seq<Export>, e: Export, o: Id)
    requires IntentsOf(db.intents, all) && e in all && o in e.db.intents
    ensures o in db.intents
  {}

  lemma ExportIntents(runs: map<StoreId, History>, ev: Evidence, all: seq<Export>, e: Export)
    requires Shared(runs, ev) && TakenIn(ev, all) && e in all
    ensures forall o | o in e.db.occs :: e.db.occs[o].state == Evicting <==> o in e.db.intents
    ensures forall o | o in e.db.intents :: o in e.db.occs && e.db.intents[o].prints == e.db.occs[o].prints
  {
    hide Legal, Now, Prefix, Shared, Evolves, TakenIn;
    var p, a := TakenAtAMoment(runs, ev, all, e);
    EveryRunIsSound(p);
    InvParts(Now(p));
    hide Inv;
  }

  lemma IntentThrough(ev: Evidence, m: Db, db: Db, e: Export, o: Id, at: int)
    requires Contains(Work(m, {}), e) && Rebuilt(ev, m, db, at) && o in db.intents && o in e.db.intents
    requires o in e.db.occs && e.db.intents[o].prints == e.db.occs[o].prints == db.intents[o].prints
    ensures o in db.occs && db.intents[o].recovered && db.intents[o].prints == db.occs[o].prints
  {
    hide TriedAs, Genuine;
    assert SameOccurrence(e.db.occs[o], m.occs[o]) && SameOccurrence(m.occs[o], db.occs[o]);
  }

  lemma EvictingFrom(ev: Evidence, m: Db, db: Db, all: seq<Export>, o: Id, at: int) returns (e: Export)
    requires Rebuilt(ev, m, db, at) && Genuine(ev, m) && o in db.occs && db.occs[o].state == Evicting
    requires Ranked(Work(m, {}), all, o)
    ensures e in all && o in e.db.occs && e.db.occs[o].state == Evicting
  {
    hide Genuine, SettledAttempt, ReadsBack, SameOccurrence, SamePublication, Wins;
    assert o in m.occs && TriedAs(ev, m, db, o, at);
    hide Rebuilt;
    e :| e in all && SaysOf(e, o, m.occs[o].state);
  }

  lemma RecoverySucceeds(runs: map<StoreId, History>, ev: Evidence, all: seq<Export>)
    requires Shared(runs, ev) && TakenIn(ev, all)
    ensures AllAgree(all) && LedgerClear(ev, if all == [] then map[] else all[0].db.ledger)
  {
    hide *;
    OwnExportsAgree(runs, ev, all);
    OwnLedgerIsClear(runs, ev, all);
  }

  /**
   * Lose every machine: one repository, any number of archivers, each after any run
   * of its own. From the repository alone recovery succeeds, and whatever any of
   * them had confirmed - also what it had already deleted locally - stands
   * confirmed again on a snapshot that holds it exactly. Nothing ends recoverable
   * on an attempt that any valid export records as failed. Of the reads only those
   * of the confirmed snapshots must not fail.
   */
  method RecoverAfterLoss(ghost runs: map<StoreId, History>, ev: Evidence, at: int) returns (r: Option<Db>)
    requires Shared(runs, ev) && ConfirmedReadable(runs, ev) && Observed(ev) != {}
    ensures r.Some?
    ensures forall t, o | t in runs && Published(Now(runs[t]), o) ::
              BackFromTheRepository(Now(runs[t]), ev, r.value, o)
    ensures forall o | o in r.value.occs && r.value.occs[o].state == Recoverable ::
              r.value.occs[o].confirmed.Some? && !RecordedFailed(ev, r.value.occs[o].confirmed.value)
    ensures IntentsStand(r.value)
    ensures (forall s | s in ev.repo :: Observable(ev, s) && (IdOf(ev, s).store == r.value.store || Valid(ev, s))) ==>
              forall s | s in ev.repo :: Ruling(r.value, s, ev.repo[s].tags) == Passes
  {
    hide Legal, Now, Shared, ConfirmedReadable, TakenIn, Drawn, Contains, Ranked, Outcomes, AllAgree, Rebuilt,
         FoundStore, LedgeredDb, MergedFrom, RecordedFailed, IntentsOf, IntentsStand, MarkedAsSeen,
         Ruling, Observed, Valid, BackFromTheRepository, LedgerClear;
    ghost var all, m;
    r, all, m := Recover(ev, at);
    RecoverySucceeds(runs, ev, all);
    forall t | t in runs ensures Legal(runs[t]) { RunOf(runs, ev, t); }
    forall t, o | t in runs && Published(Now(runs[t]), o)
      ensures o in Now(runs[t]).db.occs && BackFromTheRepository(Now(runs[t]), ev, r.value, o)
    {
      ComesBack(runs, ev, all, m, r.value, t, o, at);
    }
    DeletionsCanGoOn(runs, ev, all, m, r.value, at);
    ghost var merged :| m == LedgeredDb(ev, merged) && (all != [] ==> MergedFrom(all, merged));
    forall o | o in r.value.occs && r.value.occs[o].state == Recoverable
      ensures r.value.occs[o].confirmed.Some? && !RecordedFailed(ev, r.value.occs[o].confirmed.value)
    {
      NoFailureIsConfirmed(runs, ev, all, merged, r.value, o, at);
    }
    if forall s | s in ev.repo :: Observable(ev, s) && (IdOf(ev, s).store == r.value.store || Valid(ev, s)) {
      RecoveredStorePasses(ev, m, r.value, at, Id("", ""), Id("", ""));
    }
  }
}
