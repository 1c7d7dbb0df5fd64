/** What holds of every run, with crashes after any step and edits between any two. */
module Safety {
  import opened Wrappers
  import opened States
  import opened Paths
  import opened Records
  import opened Protocol
  import opened Invariant

  lemma FreshIsSound(w: World)
    requires Fresh(w)
    ensures Inv(w)
  {}

  lemma {:induction false} EveryRunIsSound(h: History)
    requires Legal(h)
    ensures Inv(Now(h))
  {
    match h
    case Start(w) => FreshIsSound(w);
    case Then(past, step) =>
      EveryRunIsSound(past);
      StepKeeps(Now(past), step);
  }

  /** `p` is `h` itself or one of the moments a crash could have stopped it at. */
  ghost predicate Prefix(p: History, h: History) {
    p == h || (h.Then? && Prefix(p, h.past))
  }

  lemma {:induction false} PrefixIsLegal(p: History, h: History)
    requires Legal(h) && Prefix(p, h)
    ensures Legal(p)
  {
    if p != h { PrefixIsLegal(p, h.past); }
  }

  /** Over any stretch of a run no row, ledger identity or snapshot is lost or rewritten. */
  lemma {:induction false} EvidenceAccumulates(p: History, h: History)
    requires Legal(h) && Prefix(p, h)
    ensures Legal(p) && Evolves(Now(p), Now(h))
  {
    if p == h {
      assert Evolves(Now(h), Now(h));
    } else {
      EvidenceAccumulates(p, h.past);
      EveryRunIsSound(h.past);
      StepKeeps(Now(h.past), h.step);
      EvolvesTransitive(Now(p), Now(h.past), Now(h));
    }
  }

  // ---- deletion -----------------------------------------------------------------------

  /** A snapshot's entry holds what the live entry holds. */
  predicate Holds(source: Source, body: Body) {
    match body
    case FileBody(c) => source == SourceFile(c)
    case DirBody => source == SourceDir
    case LinkBody(t) => source == SourceLink(t)
    case SpecialBody => false
  }

  /** The occurrence's single confirmed publication and the snapshot it is bound to. */
  ghost predicate ConfirmedAs(w: World, o: Id, s: SnapId) {
    && o in w.db.occs && w.db.occs[o].confirmed.Some?
    && var c := w.db.occs[o].confirmed.value;
       c in w.db.attempts && w.db.attempts[c].occ == o && w.db.attempts[c].outcome == Confirmed
       && w.db.attempts[c].snapshot == Some(s) && s in w.repo
  }

  /** The entry about to go is in the confirmed snapshot, at its own path, as it is. */
  ghost predicate HeldRemotely(w: World, o: Id, p: string)
    requires p in w.disk
  {
    exists s :: ConfirmedAs(w, o, s) && p in w.repo[s].tree && Holds(w.repo[s].tree[p], w.disk[p].body)
  }

  /**
   * Whatever a run unlinks, the confirmed snapshot of that occurrence holds at
   * that very path: the same bytes, the same link target.
   */
  lemma DeletionIsSafe(h: History, o: Id, rel: string)
    requires Legal(h) && h.Then? && h.step == Unlink(o, rel)
    ensures HeldRemotely(Now(h.past), o, Abs(Now(h.past).db.occs[o].spool, rel))
  {
    var w := Now(h.past);
    EveryRunIsSound(h.past);
    assert CanUnlink(w, o, rel);
    InvParts(w);
    UnlinkedIsHeld(w, o, rel);
  }

  lemma UnlinkedIsHeld(w: World, o: Id, rel: string)
    requires Settled(w) && BindingsOk(w) && ProofsHold(w) && ManifestsSound(w) && IntentsOk(w)
    requires CanUnlink(w, o, rel)
    ensures HeldRemotely(w, o, Abs(w.db.occs[o].spool, rel))
  {
    var occ := w.db.occs[o];
    var p := Abs(occ.spool, rel);
    assert SettledAs(w.db, o);
    var c := occ.confirmed.value;
    assert ProofHolds(w, c) && BindingOk(w, c) && ManifestSound(w, o);
    var s := w.db.attempts[c].snapshot.value;
    assert Archived(w.repo[s].tree, occ.spool, occ.entries, rel);
    assert RowShape(occ, rel);
    EntryIsHeld(occ, rel, w.disk, w.clock, p, w.repo[s].tree[p]);
    assert ConfirmedAs(w, o, s);
  }

  /** A live entry that still is the fingerprinted one is what the manifest describes. */
  lemma EntryIsHeld(row: Occ, rel: string, disk: Disk, clock: int, p: string, source: Source)
    requires Captured(row, disk, clock) && rel in row.entries && "" in row.entries && RowShape(row, rel)
    requires p in disk && StillTheEntry(disk[p], row.prints[rel]) && Describes(row.entries[rel], source)
    ensures Holds(source, disk[p].body)
  {}

  // ---- settlement --------------------------------------------------------------------

  /** Every write of an occurrence's state stutters or is an allowed transition. */
  lemma StatesMoveAsAllowed(h: History, o: Id)
    requires Legal(h) && h.Then? && o in Now(h.past).db.occs
    ensures MovesAsAllowed(Now(h.past).db, Now(h).db, o)
  {
    EveryRunIsSound(h.past);
    StepMovesAsAllowed(Now(h.past), h.step, o);
  }

  ghost predicate MovesAsAllowed(db: Db, db': Db, o: Id)
    requires o in db.occs
  {
    && o in db'.occs
    && (db'.occs[o].state == db.occs[o].state || CanTransition(db.occs[o].state, db'.occs[o].state))
  }

  lemma StepMovesAsAllowed(w: World, step: Step, o: Id)
    requires Inv(w) && Enabled(w, step) && o in w.db.occs
    ensures MovesAsAllowed(w.db, Do(w, step).db, o)
  {
    assert Settled(w);
    hide Inv, Settled;
    if step.Fail? || step.Abandon? || step.Duplicate? {
      SettlingMoves(w, step, o);
    } else if step.Transfer? || step.Verify? || step.Confirm? || step.AbandonConfirmed?
              || step.BeginEviction? || step.Finish? {
      AdvancingMoves(w, step, o);
    } else {
      OthersDoNotMove(w, step, o);
    }
  }

  lemma SettlingMoves(w: World, step: Step, o: Id)
    requires Settled(w) && Enabled(w, step) && o in w.db.occs
    requires step.Fail? || step.Abandon? || step.Duplicate?
    ensures MovesAsAllowed(w.db, Do(w, step).db, o)
  {
    PendingIsEarly(w, step.attempt);
    hide Settled, Bears;
  }

  lemma AdvancingMoves(w: World, step: Step, o: Id)
    requires Enabled(w, step) && o in w.db.occs
    requires step.Transfer? || step.Verify? || step.Confirm? || step.AbandonConfirmed?
             || step.BeginEviction? || step.Finish?
    ensures MovesAsAllowed(w.db, Do(w, step).db, o)
  {
    hide PayloadProven, RemoteCatalogProven;
  }

  lemma OthersDoNotMove(w: World, step: Step, o: Id)
    requires Enabled(w, step) && o in w.db.occs
    requires step.Begin? || step.Call?
             || step.Record? || step.StartAttempt? || step.SetDigest? || step.Adopt? || step.Observe?
             || step.Reobserve? || step.Unlink? || step.Publish? || step.Foreign? || step.Edit?
    ensures o in Do(w, step).db.occs && Do(w, step).db.occs[o] == w.db.occs[o]
  {
    hide Bears, ItemShape, Captured, CanEdit, MatchingAttempt, StillTheEntry, Empty, Without;
  }

  /** A pending attempt implies a state from before confirmation. */
  lemma PendingIsEarly(w: World, a: Id)
    requires Settled(w) && IsPending(w.db, a)
    ensures StateOf(w.db, a) in {Recorded, Transferred, Verified}
  {
    assert SettledAs(w.db, w.db.attempts[a].occ);
  }

  /**
   * Between any two steps: in `transferred` and `verified` exactly one attempt is
   * pending, bound to a snapshot, and none confirmed; from `recoverable` on
   * exactly one is confirmed, the one the row names, ledgered as confirmed, and
   * none is pending. So the driver's two "inconsistent store" branches - a
   * recorded occurrence with a confirmed attempt, a transferred one without a
   * bound pending attempt - are never taken.
   */
  lemma AttemptsMatchTheState(h: History, o: Id)
    requires Legal(h) && o in Now(h).db.occs
    ensures var db := Now(h).db;
            match db.occs[o].state
            case Recorded => NoneConfirmed(db, o) && AtMostOnePending(db, o)
            case Transferred => NoneConfirmed(db, o) && OneBoundPending(db, o)
            case Verified => NoneConfirmed(db, o) && OneBoundPending(db, o)
            case Abandoned => !HasPending(db, o)
            case _ => OneConfirmed(db, o) && !HasPending(db, o)
  {
    hide *;
    EveryRunIsSound(h);
    SettlementOf(Now(h), o);
    SettlementReads(Now(h).db, o);
  }

  lemma SettlementOf(w: World, o: Id)
    requires Inv(w) && o in w.db.occs
    ensures SettledAs(w.db, o)
  {}

  lemma SettlementReads(db: Db, o: Id)
    requires o in db.occs && SettledAs(db, o)
    ensures match db.occs[o].state
            case Recorded => NoneConfirmed(db, o) && AtMostOnePending(db, o)
            case Transferred => NoneConfirmed(db, o) && OneBoundPending(db, o)
            case Verified => NoneConfirmed(db, o) && OneBoundPending(db, o)
            case Abandoned => !HasPending(db, o)
            case _ => OneConfirmed(db, o) && !HasPending(db, o)
  {
    hide NoneConfirmed, AtMostOnePending, OneBoundPending;
  }

  // ---- the published frontier --------------------------------------------------------

  /** Highest sequence of a confirmed attempt, or zero. */
  ghost predicate FrontierIs(db: Db) {
    && (forall a | a in db.attempts && db.attempts[a].outcome == Confirmed :: db.attempts[a].seqno <= db.frontier)
    && (db.frontier == 0 || exists a | a in db.attempts ::
          db.attempts[a].outcome == Confirmed && db.attempts[a].seqno == db.frontier)
  }

  lemma {:induction false} FrontierIsConfirmed(h: History)
    requires Legal(h)
    ensures FrontierIs(Now(h).db)
  {
    if h.Then? {
      FrontierIsConfirmed(h.past);
      hide FrontierIs;
      if h.step.Confirm? {
        ConfirmMovesFrontier(Now(h.past), h.step);
      } else {
        OnlyConfirmConfirms(Now(h.past), h.step);
        FrontierStays(Now(h.past).db, Now(h).db);
      }
    }
  }

  /** The same attempts are confirmed, under the same numbers. */
  ghost predicate SameConfirmed(db: Db, db': Db) {
    && db'.frontier == db.frontier
    && (forall a | a in db.attempts && db.attempts[a].outcome == Confirmed ::
          a in db'.attempts && db'.attempts[a] == db.attempts[a])
    && forall a | a in db'.attempts && db'.attempts[a].outcome == Confirmed ::
         a in db.attempts && db.attempts[a] == db'.attempts[a]
  }

  lemma FrontierStays(db: Db, db': Db)
    requires FrontierIs(db) && SameConfirmed(db, db')
    ensures FrontierIs(db')
  {}

  lemma OnlyConfirmConfirms(w: World, step: Step)
    requires Enabled(w, step) && !step.Confirm?
    ensures SameConfirmed(w.db, Do(w, step).db)
  {
    hide Bears, ItemShape, Captured, CanEdit, MatchingAttempt, StillTheEntry, PayloadProven, RemoteCatalogProven, Empty,
         Without;
  }

  lemma ConfirmMovesFrontier(w: World, step: Step)
    requires Enabled(w, step) && step.Confirm? && FrontierIs(w.db)
    ensures FrontierIs(Do(w, step).db)
  {
    hide PayloadProven, RemoteCatalogProven;
    var d := Do(w, step).db;
    assert d.attempts[step.attempt].outcome == Confirmed;
    assert forall a | a in w.db.attempts && a != step.attempt :: d.attempts[a] == w.db.attempts[a];
  }

  // ---- the frontier gate --------------------------------------------------------------

  datatype Verdict = Passes | RefusedStale | RefusedLineage

  /** The gate's ruling on one snapshot. */
  function Ruling(db: Db, s: SnapId, tags: SnapTags): Verdict {
    if tags.Malformed? then RefusedStale
    else if tags.id.store != db.store then
      if tags.id.store in db.lineage && tags.id.seqno <= db.lineage[tags.id.store]
      then Passes else RefusedLineage
    else if s in db.ledger then
      if db.ledger[s].identity == tags.id then Passes else RefusedStale
    else if MatchingAttempt(db, tags.id) then Passes else RefusedStale
  }

  /** A snapshot of another store that is beyond what was merged of that store. */
  predicate Unmerged(db: Db, tags: SnapTags) {
    && tags.Canonical? && tags.id.store != db.store
    && (tags.id.store in db.lineage ==> db.lineage[tags.id.store] < tags.id.seqno)
  }

  /** An own snapshot ledgered under these very tags, or known by the attempt they name. */
  predicate KnownOwn(db: Db, s: SnapId, tags: SnapTags) {
    && tags.Canonical? && tags.id.store == db.store
    && if s in db.ledger then db.ledger[s].identity == tags.id else MatchingAttempt(db, tags.id)
  }

  /**
   * Passed are exactly the own snapshots that are known and those of another store
   * that were merged; a lineage refusal says exactly that one was not.
   */
  lemma RulingMeans(db: Db, s: SnapId, tags: SnapTags)
    ensures Ruling(db, s, tags) == Passes <==>
            (KnownOwn(db, s, tags) || (tags.Canonical? && tags.id.store != db.store && !Unmerged(db, tags)))
    ensures Ruling(db, s, tags) == RefusedLineage <==> Unmerged(db, tags)
  {
    hide MatchingAttempt;
  }

  /** The gate passes a store over everything it ever published itself. */
  lemma OwnSnapshotsPass(h: History, s: SnapId)
    requires Legal(h) && s in Now(h).repo && !ForeignTags(Now(h).repo[s].tags, Now(h).db.store)
    ensures Ruling(Now(h).db, s, Now(h).repo[s].tags) == Passes
  {
    var w := Now(h);
    EveryRunIsSound(h);
    assert KnownSnap(w, s) && LedgeredAsTagged(w, s);
    assert w.db.attempts[w.repo[s].tags.id.attempt].origin == w.db.store;
  }

  /**
   * A store restored from an older copy of itself passes the gate over an own
   * snapshot exactly when the copy already held the attempt that published it.
   */
  lemma StaleCopyIsRefused(p: History, h: History, s: SnapId)
    requires Legal(h) && Prefix(p, h)
    requires s in Now(h).repo && !ForeignTags(Now(h).repo[s].tags, Now(h).db.store)
    ensures Legal(p)
    ensures var tags := Now(h).repo[s].tags;
            Ruling(Now(p).db, s, tags) == Passes <==> tags.id.attempt in Now(p).db.attempts
  {
    EvidenceAccumulates(p, h);
    EveryRunIsSound(p);
    EveryRunIsSound(h);
    StaleRuling(Now(p), Now(h), s);
  }

  lemma StaleRuling(p: World, w: World, s: SnapId)
    requires Inv(p) && Inv(w) && Evolves(p, w)
    requires s in w.repo && !ForeignTags(w.repo[s].tags, w.db.store)
    ensures Ruling(p.db, s, w.repo[s].tags) == Passes <==> w.repo[s].tags.id.attempt in p.db.attempts
  {
    InvParts(p);
    InvParts(w);
    hide Inv;
    assert KnownSnap(w, s);
    if w.repo[s].tags.id.attempt in p.db.attempts {
      KnownAttemptPasses(p, w, s);
    } else {
      UnknownAttemptRefused(p, w, s);
    }
  }

  lemma OwnTags(w: World, s: SnapId)
    requires AttemptsOk(w) && s in w.repo && !ForeignTags(w.repo[s].tags, w.db.store) && KnownSnap(w, s)
    ensures w.repo[s].tags.Canonical?
    ensures var id := w.repo[s].tags.id;
            && id.store == w.db.store && OwnAttempt(w.db, id.attempt)
            && w.db.attempts[id.attempt].digest.Some? && id == OwnIdentity(w.db, id.attempt)
  {
    assert w.db.attempts[w.repo[s].tags.id.attempt].origin == w.db.store;
  }

  lemma KnownAttemptPasses(p: World, w: World, s: SnapId)
    requires OwnSnapshotsKnown(p) && AttemptsOk(p) && AttemptsOk(w) && Evolves(p, w)
    requires s in w.repo && !ForeignTags(w.repo[s].tags, w.db.store) && KnownSnap(w, s)
    requires w.repo[s].tags.id.attempt in p.db.attempts
    ensures Ruling(p.db, s, w.repo[s].tags) == Passes
  {
    hide AttemptsOk, MatchingAttempt, KnownSnap, OwnIdentity, SameAttempt, SameItem;
    OwnTags(w, s);
    assert p.db.store == w.db.store && (s in p.repo ==> p.repo[s] == w.repo[s]);
    assert LedgeredAsTagged(p, s);
    assert MatchingAttempt(p.db, w.repo[s].tags.id) by { KnownAttemptMatches(p, w, w.repo[s].tags.id); }
  }

  lemma KnownAttemptMatches(p: World, w: World, id: Identity)
    requires AttemptsOk(p) && Evolves(p, w) && id.attempt in p.db.attempts
    requires OwnAttempt(w.db, id.attempt) && w.db.attempts[id.attempt].digest.Some?
    requires id == OwnIdentity(w.db, id.attempt)
    ensures MatchingAttempt(p.db, id)
  {
    var a := id.attempt;
    assert SameAttempt(p.db.attempts[a], w.db.attempts[a]);
    assert SameItem(p.db.occs[p.db.attempts[a].occ], w.db.occs[p.db.attempts[a].occ]);
    hide Evolves;
  }

  lemma UnknownAttemptRefused(p: World, w: World, s: SnapId)
    requires OwnSnapshotsKnown(p) && AttemptsOk(w) && Evolves(p, w)
    requires s in w.repo && !ForeignTags(w.repo[s].tags, w.db.store) && KnownSnap(w, s)
    requires w.repo[s].tags.id.attempt !in p.db.attempts
    ensures Ruling(p.db, s, w.repo[s].tags) != Passes
  {
    var id := w.repo[s].tags.id;
    assert w.db.attempts[id.attempt].origin == w.db.store;
    assert LedgeredAsTagged(p, s);
    assert KnownSnap(p, s);
  }

  // ---- attempts and backup calls, over runs of many processes ---------------------------

  /** How many processes so far were told to insist. */
  function Insisting(h: History): nat {
    match h
    case Start(_) => 0
    case Then(past, step) => Insisting(past) + if step.Begin? && step.insist then 1 else 0
  }

  /** `h` goes on where `p` stopped, in the same process. */
  ghost predicate SameProcess(p: History, h: History) {
    p == h || (h.Then? && SameProcess(p, h.past) && !h.step.Begin?)
  }

  /** A process that insists and has not used the one attempt that allows it. */
  function Unused(h: History, o: Id): nat {
    if Traced(h).insist && o !in Traced(h).started then 1 else 0
  }

  function Max(x: nat, y: nat): nat { if x < y then y else x }

  /**
   * In every run, however often it was killed: no more attempts of an occurrence
   * than the budget, and one for each process given `--retry-exhausted`.
   */
  lemma AttemptsAreBudgeted(h: History, o: Id)
    requires Legal(h)
    ensures |AttemptsOf(Now(h).db, o)| <= Now(h).budget + Insisting(h)
  {
    var first := FirstOf(h);
    BudgetedSince(first, h, o);
    assert AttemptsOf(Now(first).db, o) == {};
  }

  lemma {:induction false} FirstOf(h: History) returns (first: History)
    requires Legal(h)
    ensures first.Start? && Prefix(first, h) && Legal(first)
  {
    match h
    case Start(_) => first := h;
    case Then(past, _) => first := FirstOf(past);
  }

  /** The same from any moment on: what was beyond the budget then stays allowed. */
  lemma {:induction false} BudgetedSince(p: History, h: History, o: Id)
    requires Legal(h) && Prefix(p, h)
    ensures Legal(p) && Insisting(p) <= Insisting(h) && Now(h).budget == Now(p).budget
    ensures |AttemptsOf(Now(h).db, o)| + Unused(h, o)
            <= Max(Now(p).budget, |AttemptsOf(Now(p).db, o)|) + Insisting(h) - Insisting(p) + Unused(p, o)
  {
    if p != h {
      BudgetedSince(p, h.past, o);
      BudgetedStep(h, o);
      hide AttemptsOf, Traced, Now;
    }
  }

  lemma BudgetedStep(h: History, o: Id)
    requires Legal(h) && h.Then?
    ensures Now(h).budget == Now(h.past).budget && Insisting(h.past) <= Insisting(h)
    ensures |AttemptsOf(Now(h).db, o)| + Unused(h, o)
            <= Max(Now(h).budget, |AttemptsOf(Now(h.past).db, o)| + Unused(h.past, o))
               + Insisting(h) - Insisting(h.past)
  {
    hide Inv, Evolves, Enabled, Do, AttemptsOf;
    EveryRunIsSound(h.past);
    StepKeeps(Now(h.past), h.step);
    StepIsBudgeted(Now(h.past), h.step, o);
    SameBudget(Now(h.past), Now(h));
  }

  lemma SameBudget(w: World, w': World)
    requires Evolves(w, w')
    ensures w'.budget == w.budget
  {}

  /** One process makes at most one attempt of an occurrence. */
  lemma {:induction false} OneAttemptPerProcess(p: History, h: History, o: Id)
    requires Legal(h) && SameProcess(p, h)
    ensures Legal(p) && Traced(p).started <= Traced(h).started
    ensures var more := if o in Traced(h).started && o !in Traced(p).started then 1 else 0;
            |AttemptsOf(Now(h).db, o)| <= |AttemptsOf(Now(p).db, o)| + more
  {
    if p != h {
      OneAttemptPerProcess(p, h.past, o);
      EveryRunIsSound(h.past);
      StepKeeps(Now(h.past), h.step);
      StepIsBudgeted(Now(h.past), h.step, o);
    }
  }

  lemma StepIsBudgeted(w: World, step: Step, o: Id)
    requires Inv(w) && Enabled(w, step) && Evolves(w, Do(w, step))
    ensures var n, n' := |AttemptsOf(w.db, o)|, |AttemptsOf(Do(w, step).db, o)|;
            if step.StartAttempt? && step.occ == o
            then n' == n + 1 && (n < w.budget || step.exhausted) else n' == n
  {
    if step.StartAttempt? {
      StartIsBudgeted(w, step.attempt, step.occ, step.exhausted, o);
    } else {
      OnlyStartsAdd(w, step);
      SameAttempts(w, Do(w, step), o);
    }
  }

  lemma StartIsBudgeted(w: World, a: Id, o': Id, exhausted: bool, o: Id)
    requires CanStart(w, a, o', exhausted)
    ensures var n, n' := |AttemptsOf(w.db, o)|, |AttemptsOf(StartDb(w.db, a, o'), o)|;
            if o' == o then n' == n + 1 && (n < w.budget || exhausted) else n' == n
  {
    hide AttemptsOf, StartDb, FailuresOf;
    StartAdds(w.db, a, o', o);
  }

  /** How often the engine was called for the attempt. */
  function Calls(h: History, a: Id): nat {
    match h
    case Start(_) => 0
    case Then(past, step) => Calls(past, a) + if step == Call(a) then 1 else 0
  }

  /**
   * In every run, however often it was killed, backup is called at most once for
   * an attempt, and only for one in the store; whatever the store's own name
   * stands on in the repository stems from the one call for its attempt.
   */
  lemma OneCallPerAttempt(h: History, a: Id)
    requires Legal(h)
    ensures Calls(h, a) <= 1 && (Calls(h, a) == 1 ==> a in Now(h).db.attempts)
    ensures forall s | s in Now(h).repo && !ForeignTags(Now(h).repo[s].tags, Now(h).db.store) ::
              Calls(h, Now(h).repo[s].tags.id.attempt) == 1
  {
    CallsAreTraced(h, a);
    CalledIsKnown(h);
    forall s | s in Now(h).repo && !ForeignTags(Now(h).repo[s].tags, Now(h).db.store)
      ensures Calls(h, Now(h).repo[s].tags.id.attempt) == 1
    {
      OwnWasCalled(h, s);
      CallsAreTraced(h, Now(h).repo[s].tags.id.attempt);
    }
  }

  /** An attempt waits for its call, or was called once, or never will be. */
  lemma {:induction false} CallsAreTraced(h: History, a: Id)
    requires Legal(h)
    ensures Calls(h, a) == if a in Traced(h).called then 1 else 0
    ensures a in Traced(h).called ==> a !in Traced(h).waiting
  {
    if h.Then? {
      CallsAreTraced(h.past, a);
      CalledIsKnown(h.past);
    }
  }

  lemma {:induction false} CalledIsKnown(h: History)
    requires Legal(h)
    ensures Traced(h).called + Traced(h).waiting <= Now(h).db.attempts.Keys
  {
    if h.Then? {
      CalledIsKnown(h.past);
      EveryRunIsSound(h.past);
      StepKeeps(Now(h.past), h.step);
      assert Evolves(Now(h.past), Now(h));
      hide Inv, Evolves;
      TraceIsKnown(Now(h.past), Traced(h.past), h.step);
    }
  }

  lemma TraceIsKnown(w: World, t: Trace, step: Step)
    requires Enabled(w, step) && Permitted(t, step) && Evolves(w, Do(w, step))
    requires t.called + t.waiting <= w.db.attempts.Keys
    ensures var t' := After(t, step); t'.called + t'.waiting <= Do(w, step).db.attempts.Keys
  {
    assert forall a | a in w.db.attempts :: a in Do(w, step).db.attempts;
    if step.StartAttempt? { assert step.attempt in StartDb(w.db, step.attempt, step.occ).attempts; }
    hide Evolves, Enabled, Do;
  }

  lemma {:induction false} OwnWasCalled(h: History, s: SnapId)
    requires Legal(h) && s in Now(h).repo && !ForeignTags(Now(h).repo[s].tags, Now(h).db.store)
    ensures Now(h).repo[s].tags.Canonical? && Now(h).repo[s].tags.id.attempt in Traced(h).called
  {
    if h.Then? {
      EveryRunIsSound(h.past);
      StepKeeps(Now(h.past), h.step);
      SnapshotsComeFrom(Now(h.past), h.step, s);
      if s in Now(h.past).repo { OwnWasCalled(h.past, s); }
    }
  }

  lemma SnapshotsComeFrom(w: World, step: Step, s: SnapId)
    requires Enabled(w, step) && Evolves(w, Do(w, step)) && s in Do(w, step).repo
    ensures || (s in w.repo && Do(w, step).repo[s] == w.repo[s])
            || (step.Publish? && step.snap == s
                && Do(w, step).repo[s].tags.Canonical? && Do(w, step).repo[s].tags.id.attempt == step.attempt)
            || (step.Foreign? && step.snap == s && ForeignTags(Do(w, step).repo[s].tags, w.db.store))
    ensures Do(w, step).db.store == w.db.store
  {
    assert Do(w, step).db.store == w.db.store;
    hide Evolves, PayloadProven, RemoteCatalogProven, Bears, ItemShape, Captured, CanEdit, MatchingAttempt,
         StillTheEntry,
         Empty, Without;
  }

  lemma StartAdds(db: Db, a: Id, o': Id, o: Id)
    requires a !in db.attempts
    ensures AttemptsOf(StartDb(db, a, o'), o) == AttemptsOf(db, o) + if o' == o then {a} else {}
    ensures a !in AttemptsOf(db, o)
  {}

  lemma SameAttempts(w: World, w': World, o: Id)
    requires Evolves(w, w') && w'.db.attempts.Keys == w.db.attempts.Keys
    ensures AttemptsOf(w'.db, o) == AttemptsOf(w.db, o)
  {
    assert forall a | a in w.db.attempts :: SameAttempt(w.db.attempts[a], w'.db.attempts[a]);
  }

  lemma OnlyStartsAdd(w: World, step: Step)
    requires Enabled(w, step) && !step.StartAttempt?
    ensures Do(w, step).db.attempts.Keys == w.db.attempts.Keys
  {
    hide PayloadProven, RemoteCatalogProven, Bears, ItemShape, Captured, CanEdit,
         MatchingAttempt, StillTheEntry, Empty, Without;
  }
}
