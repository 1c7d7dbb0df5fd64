/**
 * The drain driver: one object that works an item at a time through the states,
 * while the folder and the repository may change under it between any two looks.
 */
module Drain {
  import opened Wrappers
  import opened States
  import opened Paths
  import opened Records
  import opened Order
  import opened Protocol
  import opened Invariant
  import opened Safety
  import opened LocalStore
  import opened Capture
  import opened Eviction
  import V = Verify

  datatype Ending = ReportArchived | ReportRefused | ReportRetained | ReportDeferred

  /** How a stage left the loop: on to the next, reported, or by an exception. */
  datatype Flow = Go | Stop(ending: Ending) | EngineFault | IoFault

  datatype Event = Event(occ: Option<Id>, ending: Ending)

  /** How an occurrence is left, with an attempt pending or not, when its turn ends so. */
  predicate Leaves(state: State, pending: bool, ending: Ending) {
    match ending
    case ReportArchived => state == Evicted
    case ReportRetained => state in {Recoverable, Evicting}
    case ReportDeferred => state == Abandoned || (state == Recorded && !pending)
    case ReportRefused => state != Evicted
  }

  lemma WithoutLacks(disk: Disk, clock: int, p: string)
    requires p in disk
    ensures p !in Without(disk, clock, p)
  {}

  // ---- which occurrence a step is about ----------------------------------------------

  /** Steps that may alter the rows or the entries of an occurrence other than `o`: none. */
  predicate About(w: World, step: Step, o: Id, calm: bool) {
    match step
    case Begin(_) => false
    case Call(a) => a in w.db.attempts && w.db.attempts[a].occ == o
    case Record(x, _) => x == o
    case StartAttempt(_, x, _) => x == o
    case SetDigest(a) => a in w.db.attempts && w.db.attempts[a].occ == o
    case Adopt(a, _) => a in w.db.attempts && w.db.attempts[a].occ == o
    case Fail(a, _) => a in w.db.attempts && w.db.attempts[a].occ == o
    case Duplicate(a, _, _) => a in w.db.attempts && w.db.attempts[a].occ == o
    case Transfer(a) => a in w.db.attempts && w.db.attempts[a].occ == o
    case Verify(a) => a in w.db.attempts && w.db.attempts[a].occ == o
    case Confirm(a, _) => a in w.db.attempts && w.db.attempts[a].occ == o
    case Abandon(a, _) => a in w.db.attempts && w.db.attempts[a].occ == o
    case AbandonConfirmed(x) => x == o
    case Observe(_) => true
    case Reobserve(_, _) => true
    case BeginEviction(x) => x == o
    case Unlink(x, _) => x == o
    case Finish(x) => x == o
    case Publish(_, _, _, _, _) => true
    case Foreign(_, _) => !calm
    case Edit(_, _) => !calm
  }

  /** From `p` to `h` only `o` was worked on; in a calm run nobody else acted either. */
  ghost predicate Went(p: History, h: History, o: Id, calm: bool)
    requires Legal(h)
  {
    p == h || (h.Then? && Went(p, h.past, o, calm) && About(Now(h.past), h.step, o, calm))
  }

  lemma {:induction false} WentIsPrefix(p: History, h: History, o: Id, calm: bool)
    requires Legal(h) && Went(p, h, o, calm)
    ensures Prefix(p, h)
  {
    if p != h { WentIsPrefix(p, h.past, o, calm); }
  }

  lemma {:induction false} PrefixOn(p: History, q: History, h: History)
    requires Prefix(p, q) && Prefix(q, h)
    ensures Prefix(p, h)
  {
    if q != h { PrefixOn(p, q, h.past); }
  }

  // ---- when a run converges -------------------------------------------------------------

  /**
   * The item is still what was recorded (or, once deleting, a remainder of it),
   * shares no inode with anything, and is not a bare symbolic link.
   */
  ghost predicate Steady(w: World, o: Id) {
    && o in w.db.occs && Active(w.db.occs[o].state)
    && var row := w.db.occs[o];
    && "" in row.entries && row.entries[""].etype != LinkEntry
    && Isolated(w.disk, row.spool)
    && if row.state == Evicting then Clean(w.disk, row.spool, row.prints)
       else Unchanged(w.disk, row.spool, row.prints)
  }

  /** Back at the start: recorded, nothing pending, no attempt spent beyond `spent`. */
  ghost predicate Idle(w: World, o: Id, spent: set<Id>) {
    IsIn(w, o, Recorded) && !HasPending(w.db, o) && Steady(w, o) && AttemptsOf(w.db, o) == spent
  }

  ghost predicate Gone(w: World, o: Id) {
    IsIn(w, o, Evicted) && forall p | p in w.disk :: !Within(p, w.db.occs[o].spool)
  }

  /** The attempt pending on `o` is bound to a snapshot that will prove itself. */
  ghost predicate Perfect(w: World, o: Id) {
    exists a :: IsPending(w.db, a) && w.db.attempts[a].occ == o && PayloadProven(w, a) && RemoteCatalogProven(w, a)
  }

  /** `retry_state` over the rows. */
  datatype Retry = Ready | BackingOff | BudgetSpent | HasConfirmed

  function RetryState(db: Db, o: Id, budget: nat, backoff: nat, now: int, insist: bool): Retry {
    if exists a | a in db.attempts :: db.attempts[a].occ == o && db.attempts[a].outcome == Confirmed then HasConfirmed
    else if exists a | a in FailuresOf(db, o) :: now < db.attempts[a].finished + backoff then BackingOff
    else if |FailuresOf(db, o)| >= budget && !insist then BudgetSpent
    else Ready
  }

  /** Some attempt failed so lately that the backoff is not over. */
  predicate CoolingOff(db: Db, o: Id, backoff: nat, at: int) {
    exists a | a in db.attempts ::
      db.attempts[a].occ == o && db.attempts[a].outcome == Failed && at < db.attempts[a].finished + backoff
  }

  /** Failures are counted against the budget, unless the user insists. */
  predicate MayStart(db: Db, o: Id, budget: nat, backoff: nat, at: int, insist: bool) {
    !CoolingOff(db, o, backoff, at) && (insist || |FailuresOf(db, o)| < budget)
  }

  lemma RetryMeans(db: Db, o: Id, budget: nat, backoff: nat, at: int, insist: bool)
    requires RetryState(db, o, budget, backoff, at, insist) != HasConfirmed
    ensures RetryState(db, o, budget, backoff, at, insist) ==
            if MayStart(db, o, budget, backoff, at, insist) then Ready
            else if CoolingOff(db, o, backoff, at) then BackingOff
            else BudgetSpent
  {}

  // ---- what a faithful backup holds -------------------------------------------------------

  function SourceOf(b: Body): Source
    requires !b.SpecialBody?
  {
    match b case FileBody(c) => SourceFile(c) case DirBody => SourceDir case LinkBody(t) => SourceLink(t)
  }

  /** The tree a complete backup of the item archives. */
  function TreeOf(disk: Disk, spool: string): map<string, Source> {
    map p | p in disk && Within(p, spool) && !disk[p].body.SpecialBody? :: SourceOf(disk[p].body)
  }

  /** Backing up an unchanged item archives exactly its manifest. */
  lemma FaithfulTree(disk: Disk, clock: int, row: Occ)
    requires ItemShape(row) && Captured(row, disk, clock) && Unchanged(disk, row.spool, row.prints)
    ensures SameTree(TreeOf(disk, row.spool), row.spool, row.entries)
  {
    hide ItemShape, Captured, Archived, Live, Rel, Within;
    var tree := TreeOf(disk, row.spool);
    SameKeys(disk, clock, row);
    forall rel | rel in row.entries ensures Archived(tree, row.spool, row.entries, rel) {
      FaithfulEntry(disk, clock, row, rel);
    }
    forall p | p in tree ensures Named(row.entries, row.spool, p) {
      assert Named(row.prints, row.spool, p);
    }
  }

  lemma SameKeys(disk: Disk, clock: int, row: Occ)
    requires Captured(row, disk, clock)
    ensures row.prints.Keys == row.entries.Keys
  {}

  lemma FaithfulEntry(disk: Disk, clock: int, row: Occ, rel: string)
    requires ItemShape(row) && Captured(row, disk, clock) && Unchanged(disk, row.spool, row.prints)
    requires rel in row.entries
    ensures Archived(TreeOf(disk, row.spool), row.spool, row.entries, rel)
  {
    assert Live(disk, row.spool, row.prints, rel) && RowShape(row, rel);
    AbsIsWithin(row.spool, rel);
    hide Abs, Rel, Within, Plain, Parent, ItemShape;
  }

  /** A snapshot that carries the attempt's own export proves the attempt's catalog. */
  lemma FaithfulCatalog(w: World, a: Id, copy: Export, was: Db)
    requires OwnAttempt(w.db, a) && w.db.attempts[a].snapshot.Some? && w.db.attempts[a].snapshot.value in w.repo
    requires a in was.attempts && copy == ExportOf(was, a)
    requires var att, past := w.db.attempts[a], was.attempts[a];
             && att.digest == Some(CatalogSha(copy)) && att.origin == was.store
             && past.seqno == att.seqno && past.occ == att.occ
             && att.occ in was.occs && SameItem(was.occs[att.occ], w.db.occs[att.occ])
    requires w.repo[w.db.attempts[a].snapshot.value].tags == Canonical(OwnIdentity(w.db, a))
    requires w.repo[w.db.attempts[a].snapshot.value].catalog == Some(copy)
    ensures RemoteCatalogProven(w, a)
  {}

  /** What the engine reports of a backup: restic's exit 3 is "not complete". */
  datatype Backed = Backed(snap: SnapId, complete: bool)

  method FreshName(names: set<string>) returns (unused: string)
    ensures unused !in names
  {
    unused := "";
    var rest := names;
    while rest != {}
      invariant forall n | n in names && n !in rest :: |n| <= |unused|
      decreases rest
    {
      var n :| n in rest;
      unused := unused + n;
      rest := rest - {n};
    }
    unused := unused + "0";
  }

  /** `a` is pending on `o` and names its snapshot. */
  predicate Bound(w: World, a: Id, o: Id) {
    IsPending(w.db, a) && w.db.attempts[a].occ == o && w.db.attempts[a].snapshot.Some?
  }

  /** Stages still ahead of an occurrence, the reporting one included. */
  function Ahead(db: Db, o: Id): nat
    requires o in db.occs
  {
    match db.occs[o].state
    case Recorded => if HasPending(db, o) then 7 else 6
    case Transferred => 5
    case Verified => 4
    case Recoverable => 3
    case Evicting => 2
    case Evicted => 1
    case Abandoned => 1
  }

  /** Nothing but a fault or another's doing can now keep the item from being evicted. */
  ghost predicate OnTrack(w: World, o: Id) {
    && o in w.db.occs
    && match w.db.occs[o].state
       case Recorded => false
       case Transferred => Perfect(w, o)
       case Verified => Perfect(w, o)
       case Abandoned => false
       case _ => true
  }

  /** At most one more backup, for an attempt just made. */
  predicate OneMore(was: seq<Id>, backups: seq<Id>, attempts: map<Id, Attempt>) {
    || backups == was
    || (|backups| == |was| + 1 && was <= backups && backups[|was|] !in attempts && backups[|was|] !in was)
  }

  lemma OnlyOnePending(h: History, o: Id, a: Id)
    requires Legal(h) && IsIn(Now(h), o, Recorded) && IsPending(Now(h).db, a) && Now(h).db.attempts[a].occ == o
    ensures forall b | b in Now(h).db.attempts && Now(h).db.attempts[b].occ == o ::
              Now(h).db.attempts[b].outcome == Pending ==> b == a
  {
    AttemptsMatchTheState(h, o);
  }

  /** In any state at most one attempt is pending. */
  lemma SolePending(h: History, o: Id, a: Id)
    requires Legal(h) && IsPending(Now(h).db, a) && Now(h).db.attempts[a].occ == o
    ensures forall b | b in Now(h).db.attempts && Now(h).db.attempts[b].occ == o ::
              Now(h).db.attempts[b].outcome == Pending ==> b == a
  {
    hide *;
    EveryRunIsSound(h);
    SolePendingIn(Now(h), o, a);
  }

  lemma SolePendingIn(w: World, o: Id, a: Id)
    requires Inv(w) && IsPending(w.db, a) && w.db.attempts[a].occ == o
    ensures forall b | b in w.db.attempts && w.db.attempts[b].occ == o :: w.db.attempts[b].outcome == Pending ==> b == a
  {
    hide Inv, AttemptsOk, SettledAs, IntentFor;
    FactsFor(w, a);
    SettledSole(w.db, o, a);
  }

  lemma SettledSole(db: Db, o: Id, a: Id)
    requires o in db.occs && SettledAs(db, o) && a in db.attempts && db.attempts[a].occ == o
    requires db.attempts[a].outcome == Pending
    ensures forall b | b in db.attempts && db.attempts[b].occ == o :: db.attempts[b].outcome == Pending ==> b == a
  {}

  lemma BoundIsThere(h: History, o: Id)
    requires Legal(h) && o in Now(h).db.occs && Now(h).db.occs[o].state in {Transferred, Verified}
    ensures HasPending(Now(h).db, o)
    ensures forall a | a in Now(h).db.attempts && Now(h).db.attempts[a].occ == o ::
              Now(h).db.attempts[a].outcome == Pending ==> Now(h).db.attempts[a].snapshot.Some?
    ensures forall a, b | a in Now(h).db.attempts && b in Now(h).db.attempts
                          && Now(h).db.attempts[a].occ == o && Now(h).db.attempts[b].occ == o ::
              Now(h).db.attempts[a].outcome == Pending && Now(h).db.attempts[b].outcome == Pending ==> a == b
  {
    AttemptsMatchTheState(h, o);
  }

  /** A bound snapshot is in the repository under the attempt's tags, for an item of sound shape. */
  lemma BoundIsKept(h: History, a: Id, o: Id)
    requires Legal(h) && Bound(Now(h), a, o)
    ensures ItemShape(Now(h).db.occs[o]) && Bears(Now(h), {Now(h).db.attempts[a].snapshot.value}, a)
  {
    EveryRunIsSound(h);
    assert ManifestSound(Now(h), o) && BindingOk(Now(h), a);
  }

  lemma PerfectIsThis(w: World, o: Id, a: Id)
    requires Bound(w, a, o)
    requires forall b | b in w.db.attempts && w.db.attempts[b].occ == o ::
               w.db.attempts[b].outcome == Pending ==> b == a
    ensures Perfect(w, o) <==> PayloadProven(w, a) && RemoteCatalogProven(w, a)
  {
    hide PayloadProven, RemoteCatalogProven;
  }

  lemma UnchangedIsClean(disk: Disk, spool: string, prints: map<string, Print>)
    ensures Unchanged(disk, spool, prints) && Isolated(disk, spool) ==> Clean(disk, spool, prints)
  {
    if Unchanged(disk, spool, prints) {
      forall p | p in disk && Within(p, spool) ensures Fit(disk, spool, prints, p) {
        assert Named(prints, spool, p);
        AbsOfRel(p, spool);
        assert Live(disk, spool, prints, Rel(p, spool));
      }
    }
  }

  lemma IntentFacts(h: History, o: Id)
    requires Legal(h) && IsIn(Now(h), o, Evicting)
    ensures var w := Now(h); var row := w.db.occs[o];
            && o in w.db.intents && !w.db.intents[o].recovered && w.db.intents[o].prints == row.prints
            && "" in row.prints && (forall r | r in row.prints :: row.prints[r].ctime <= w.clock)
            && InodesAgree(w.disk) && InDrop(w.disk, w.drop) && (forall p | p in w.disk :: w.disk[p].ctime <= w.clock)
            && Parent(row.spool) == w.drop && Below(row.spool, w.drop) && row.spool[|row.spool| - 1] != '/'
  {
    var w := Now(h);
    EveryRunIsSound(h);
    assert ManifestSound(w, o);
    AbsoluteIsBelow(w.db.occs[o].spool);
  }

  lemma NothingGoneYet(disk: Disk, clock: int, spool: string, prints: map<string, Print>)
    requires forall p | p in disk :: disk[p].ctime <= clock
    ensures Shrunk(disk, clock, spool, prints, disk, clock) && Passed(disk, clock, spool, prints, [], disk, clock)
  {}

  lemma OrderCovers(order: seq<string>, prints: map<string, Print>)
    requires (set x | x in order) == prints.Keys - {""}
    ensures Covers(order, prints)
  {
    forall rel ensures rel in order <==> rel in prints && rel != "" {
      assert rel in (set x | x in order) <==> rel in prints.Keys - {""};
    }
  }

  /** An entry's turn in a clean remainder: nothing stands against its removal. */
  lemma TurnIsFree(w: World, o: Id, order: seq<string>, i: nat)
    requires IsIn(w, o, Evicting) && o in w.db.intents
    requires i < |order| && order[i] in w.db.intents[o].prints
    requires Sorted(order, DeeperFirst) && Covers(order, w.db.intents[o].prints)
    requires forall rel | rel in order[..i] :: Abs(w.db.occs[o].spool, rel) !in w.disk
    ensures Clean(w.disk, w.db.occs[o].spool, w.db.intents[o].prints) && Abs(w.db.occs[o].spool, order[i]) in w.disk
            ==> CanUnlink(w, o, order[i])
  {
    var spool, prints := w.db.occs[o].spool, w.db.intents[o].prints;
    if Clean(w.disk, spool, prints) && Abs(spool, order[i]) in w.disk {
      assert forall k | 0 <= k < i :: order[k] in order[..i];
      TurnFindsItEmpty(w.disk, spool, prints, order, i);
      FitAt(w.disk, spool, prints, order[i]);
    }
  }

  lemma RootIsFree(w: World, o: Id, order: seq<string>)
    requires IsIn(w, o, Evicting) && o in w.db.intents && "" in w.db.intents[o].prints
    requires Covers(order, w.db.intents[o].prints)
    requires forall rel | rel in order :: Abs(w.db.occs[o].spool, rel) !in w.disk
    ensures Clean(w.disk, w.db.occs[o].spool, w.db.intents[o].prints) && w.db.occs[o].spool in w.disk
            ==> CanUnlink(w, o, "")
  {
    var spool, prints := w.db.occs[o].spool, w.db.intents[o].prints;
    if Clean(w.disk, spool, prints) && spool in w.disk {
      LastIsTheRoot(w.disk, spool, prints, order);
      FitAt(w.disk, spool, prints, "");
    }
  }

  lemma FitAt(disk: Disk, spool: string, prints: map<string, Print>, rel: string)
    requires Clean(disk, spool, prints) && rel in prints && Abs(spool, rel) in disk
    ensures StillTheEntry(disk[Abs(spool, rel)], prints[rel])
  {
    AbsIsWithin(spool, rel);
    assert Fit(disk, spool, prints, Abs(spool, rel));
  }

  lemma TurnTaken(w: World, o: Id, rel: string, first: Disk, clock0: int)
    requires IsIn(w, o, Evicting) && o in w.db.intents && rel in w.db.intents[o].prints
    requires Shrunk(first, clock0, w.db.occs[o].spool, w.db.intents[o].prints, w.disk, w.clock)
    requires InodesAgree(first) && InodesAgree(w.disk) && InDrop(w.disk, w.drop)
    requires forall r | r in w.db.intents[o].prints :: w.db.intents[o].prints[r].ctime <= clock0
    ensures CanUnlink(w, o, rel) ==>
              var spool, prints := w.db.occs[o].spool, w.db.intents[o].prints;
              var p := Abs(spool, rel);
              && p in w.disk
              && var disk' := Without(w.disk, w.clock, p);
                 && Shrunk(first, clock0, spool, prints, disk', w.clock + 1)
                 && (Clean(w.disk, spool, prints) ==> Clean(disk', spool, prints))
                 && disk'.Keys == w.disk.Keys - {p}
  {
    hide Clean, Shrunk, InDrop, InodesAgree, Abs, StillTheEntry, Empty;
    if CanUnlink(w, o, rel) {
      var spool, prints := w.db.occs[o].spool, w.db.intents[o].prints;
      AbsIsWithin(spool, rel);
      RemovalShrinks(first, clock0, spool, prints, w.disk, w.clock, rel);
      if Clean(w.disk, spool, prints) { CleanStays(w.disk, w.clock, w.drop, spool, prints, Abs(spool, rel)); }
    }
  }

  /** How far a calm pass has come: the entries of `taken` are gone, nothing else is lost. */
  ghost predicate Passed(first: Disk, clock0: int, spool: string, prints: map<string, Print>, taken: seq<string>,
                         disk: Disk, clock: int)
  {
    && Shrunk(first, clock0, spool, prints, disk, clock)
    && (Clean(first, spool, prints) ==> Clean(disk, spool, prints))
    && forall rel | rel in taken :: Abs(spool, rel) !in disk
  }

  lemma TurnDone(w: World, o: Id, order: seq<string>, i: nat, first: Disk, clock0: int)
    requires IsIn(w, o, Evicting) && o in w.db.intents
    requires i < |order| && order[i] in w.db.intents[o].prints
    requires Sorted(order, DeeperFirst) && Covers(order, w.db.intents[o].prints)
    requires Passed(first, clock0, w.db.occs[o].spool, w.db.intents[o].prints, order[..i], w.disk, w.clock)
    requires InodesAgree(first) && InodesAgree(w.disk) && InDrop(w.disk, w.drop)
    requires forall r | r in w.db.intents[o].prints :: w.db.intents[o].prints[r].ctime <= clock0
    ensures var spool, prints := w.db.occs[o].spool, w.db.intents[o].prints;
            var p, taken := Abs(spool, order[i]), order[..i] + [order[i]];
            && Shrunk(first, clock0, spool, prints, w.disk, w.clock)
            && (p !in w.disk ==> Passed(first, clock0, spool, prints, taken, w.disk, w.clock))
            && (p in w.disk && CanUnlink(w, o, order[i]) ==>
                  Passed(first, clock0, spool, prints, taken, Without(w.disk, w.clock, p), w.clock + 1)
                  && Shrunk(first, clock0, spool, prints, Without(w.disk, w.clock, p), w.clock + 1))
            && (p in w.disk && !CanUnlink(w, o, order[i]) ==> !Clean(first, spool, prints))
  {
    hide Clean, Shrunk, InDrop, InodesAgree, Abs, CanUnlink, Sorted, Covers, Without;
    TurnIsFree(w, o, order, i);
    TurnTaken(w, o, order[i], first, clock0);
  }

  lemma RowsAreKept(p: History, h: History, o: Id, calm: bool)
    requires Legal(h) && Went(p, h, o, calm)
    ensures Legal(p) && Evolves(Now(p), Now(h)) && Now(p).db.attempts.Keys <= Now(h).db.attempts.Keys
  {
    WentIsPrefix(p, h, o, calm);
    EvidenceAccumulates(p, h);
  }

  lemma StayedPut(h: History, o: Id, calm: bool)
    requires Legal(h)
    ensures Went(h, h, o, calm)
  {}

  /** Where a calm run stands after a turn: on its way or done, or back at the start. */
  ghost predicate Course(w: World, o: Id, spent: set<Id>, flow: Flow) {
    || (flow.Go? && (Steady(w, o) || Gone(w, o)) && (AttemptsOf(w.db, o) == spent || OnTrack(w, o)))
    || (flow.Stop? && Idle(w, o, spent))
  }

  lemma CourseStarts(w: World, o: Id)
    ensures Steady(w, o) ==> Course(w, o, AttemptsOf(w.db, o), Go)
  {
    hide Steady, Gone, OnTrack, AttemptsOf;
  }

  lemma CourseOn(w: World, w': World, o: Id, spent: set<Id>, flow: Flow)
    ensures && Course(w, o, spent, Go) && o in w.db.occs && Active(w.db.occs[o].state)
            && (Steady(w, o) ==> Course(w', o, AttemptsOf(w.db, o), flow)
                                 && (OnTrack(w, o) ==> flow.Go? && OnTrack(w', o)))
            ==> Steady(w, o) && Course(w', o, spent, flow)
  {
    hide Isolated, Unchanged, Clean, Perfect, AttemptsOf, HasPending;
  }

  lemma CourseGoes(w: World, o: Id, spent: set<Id>, flow: Flow)
    ensures Course(w, o, spent, flow) ==> flow.Go? || flow.Stop?
  {
    hide Steady, Gone, OnTrack, AttemptsOf, Idle;
  }

  lemma CourseEnds(w: World, o: Id, spent: set<Id>, flow: Flow)
    requires o in w.db.occs && (flow == Go ==> !Active(w.db.occs[o].state))
    ensures Course(w, o, spent, flow) ==> Gone(w, o) || Idle(w, o, spent)
    ensures Course(w, o, spent, flow) && flow.Go? ==> Gone(w, o)
  {
    hide Isolated, Unchanged, Clean, Perfect, AttemptsOf, HasPending;
  }

  lemma SteadyIsClean(w: World, o: Id)
    requires IsIn(w, o, Evicting)
    ensures Steady(w, o) ==> Clean(w.disk, w.db.occs[o].spool, w.db.occs[o].prints)
  {
    hide Unchanged, Isolated, Clean;
  }

  lemma SteadyRoot(w: World, o: Id)
    requires Steady(w, o)
    ensures PlainRoot(w.db.occs[o].entries)
  {
    hide Unchanged, Isolated, Clean;
  }

  lemma ProvenMeans(w: World, a: Id, o: Id)
    requires Bound(w, a, o) && w.db.attempts[a].snapshot.value in w.repo
    ensures var row := w.db.occs[o];
            PayloadProven(w, a) <==>
            (PlainRoot(row.entries) && SameTree(w.repo[w.db.attempts[a].snapshot.value].tree, row.spool, row.entries))
  {
    hide SameTree, PlainRoot;
  }

  lemma ProvenStays(w: World, w': World, a: Id)
    requires PayloadProven(w, a) && w'.db == w.db
    requires forall s | s in w.repo :: s in w'.repo && w'.repo[s] == w.repo[s]
    ensures PayloadProven(w', a)
  {}

  lemma ConfirmedFacts(db: Db, a: Id, at: int)
    requires IsPending(db, a) && db.attempts[a].snapshot.Some?
    ensures var o, d := db.attempts[a].occ, ConfirmDb(db, a, at);
            && o in d.occs && d.occs[o].state == Recoverable && SameItem(db.occs[o], d.occs[o])
            && AttemptsOf(d, o) == AttemptsOf(db, o)
  {}

  lemma SteadyOn(w: World, w': World, o: Id)
    requires o in w.db.occs && o in w'.db.occs && SameItem(w.db.occs[o], w'.db.occs[o])
    requires Active(w'.db.occs[o].state)
    requires w'.db.occs[o].state == Evicting <==> w.db.occs[o].state == Evicting
    ensures Steady(w, o) && w'.disk == w.disk ==> Steady(w', o)
  {
    hide Unchanged, Isolated, Clean;
  }

  lemma SameItemAsItself(row: Occ)
    ensures SameItem(row, row)
  {}

  lemma FailedIsIdle(db: Db, a: Id, at: int, to: State)
    requires IsPending(db, a)
    ensures var o, d := db.attempts[a].occ, FailDb(db, a, at, to);
            && o in d.occs && d.occs[o].state == to && SameItem(db.occs[o], d.occs[o])
            && AttemptsOf(d, o) == AttemptsOf(db, o)
            && ((forall b | b in db.attempts && db.attempts[b].occ == o :: db.attempts[b].outcome == Pending ==> b == a)
                ==> !HasPending(d, o))
            && forall backoff | backoff > 0 :: CoolingOff(d, o, backoff, at)
  {
    var d := FailDb(db, a, at, to);
    assert a in d.attempts && d.attempts[a].outcome == Failed && d.attempts[a].finished == at;
  }

  lemma DuplicatesAreIdle(db: Db, a: Id, snaps: set<SnapId>, at: int)
    requires IsPending(db, a) && db.attempts[a].digest.Some?
    ensures var o, d := db.attempts[a].occ, DuplicateDb(db, a, snaps, at);
            && o in d.occs && d.occs[o].state == Recorded && SameItem(db.occs[o], d.occs[o])
            && AttemptsOf(d, o) == AttemptsOf(db, o)
            && ((forall b | b in db.attempts && db.attempts[b].occ == o :: db.attempts[b].outcome == Pending ==> b == a)
                ==> !HasPending(d, o))
  {}

  lemma AdoptedIsBound(db: Db, a: Id, s: SnapId)
    requires IsPending(db, a) && db.attempts[a].digest.Some?
    ensures var o, d := db.attempts[a].occ, AdoptDb(db, a, s);
            && o in d.occs && d.occs[o] == db.occs[o] && AttemptsOf(d, o) == AttemptsOf(db, o)
            && IsPending(d, a) && d.attempts[a].occ == o && d.attempts[a].snapshot == Some(s)
  {}

  /** Whatever the repository lists under an own attempt carries that attempt's tags. */
  lemma FoundAreOwn(h: History, a: Id, found: set<SnapId>)
    requires Legal(h) && a in Now(h).db.attempts && found != {}
    requires forall s | s in found ::
               s in Now(h).repo && Now(h).repo[s].tags.Canonical? && Now(h).repo[s].tags.id.attempt == a
    ensures Bears(Now(h), found, a)
  {
    var w := Now(h);
    EveryRunIsSound(h);
    assert a.store == w.db.store;
    forall s | s in found ensures Bears(w, {s}, a) {
      assert KnownSnap(w, s);
    }
  }

  /** A change of state leaves the attempt's proofs standing. */
  lemma StillPerfect(w: World, w': World, o: Id, a: Id)
    requires Bound(w, a, o) && PayloadProven(w, a) && RemoteCatalogProven(w, a)
    requires o in w'.db.occs && SameItem(w.db.occs[o], w'.db.occs[o])
    requires w'.db.attempts == w.db.attempts && w'.repo == w.repo
    ensures Perfect(w', o)
  {
    assert IsPending(w'.db, a) && PayloadProven(w', a) && RemoteCatalogProven(w', a);
  }

  lemma LedgerAgrees(h: History, s: SnapId, a: Id)
    requires Legal(h) && Bears(Now(h), {s}, a)
    ensures var db := Now(h).db; s in db.ledger ==> db.ledger[s].identity == OwnIdentity(db, a)
  {
    EveryRunIsSound(h);
    OwnLedger(Now(h), {s}, a);
  }

  lemma RecordedHasNoneConfirmed(h: History, o: Id)
    requires Legal(h) && IsIn(Now(h), o, Recorded)
    ensures forall a | a in Now(h).db.attempts ::
              Now(h).db.attempts[a].occ == o ==> Now(h).db.attempts[a].outcome != Confirmed
  {
    AttemptsMatchTheState(h, o);
  }

  lemma OnlyFailures(db: Db, o: Id, budget: nat, backoff: nat, now: int, insist: bool)
    requires !HasPending(db, o) && RetryState(db, o, budget, backoff, now, insist) == Ready
    ensures AttemptsOf(db, o) == FailuresOf(db, o) && (|FailuresOf(db, o)| < budget || insist)
  {}

  lemma FreshProves(h: History, a: Id, o: Id, copy: Export, was: Db)
    requires Legal(h)
    requires var w := Now(h);
             && OwnAttempt(w.db, a) && w.db.attempts[a].snapshot.Some? && w.db.attempts[a].occ == o
             && Bears(w, {w.db.attempts[a].snapshot.value}, a)
             && var snap := w.repo[w.db.attempts[a].snapshot.value];
             && PlainRoot(w.db.occs[o].entries) && Unchanged(w.disk, w.db.occs[o].spool, w.db.occs[o].prints)
             && snap.tree == TreeOf(w.disk, w.db.occs[o].spool) && snap.catalog == Some(copy)
    requires a in was.attempts && copy == ExportOf(was, a)
    requires var att, past := Now(h).db.attempts[a], was.attempts[a];
             && att.digest == Some(CatalogSha(copy)) && att.origin == was.store
             && past.seqno == att.seqno && past.occ == o
             && o in was.occs && SameItem(was.occs[o], Now(h).db.occs[o])
    ensures PayloadProven(Now(h), a) && RemoteCatalogProven(Now(h), a)
  {
    hide Legal, Now, Inv, TreeOf, SameTree, PlainRoot, Unchanged, SameItem, RemoteCatalogProven, ManifestsSound;
    var w := Now(h);
    EveryRunIsSound(h);
    InvParts(w);
    SoundOne(w, o);
    FaithfulTree(w.disk, w.clock, w.db.occs[o]);
    FaithfulCatalog(w, a, copy, was);
  }

  lemma SoundOne(w: World, o: Id)
    requires ManifestsSound(w) && o in w.db.occs
    ensures ItemShape(w.db.occs[o]) && Captured(w.db.occs[o], w.disk, w.clock)
  {
    assert ManifestSound(w, o);
  }

  /** Backup is only ever called for an attempt the store already knows. */
  predicate BackedUp(backups: seq<Id>, attempts: map<Id, Attempt>) {
    forall b | b in backups :: b in attempts
  }

  lemma StepKeepsAttempts(h: History, step: Step)
    requires Legal(h) && Enabled(Now(h), step)
    ensures Now(h).db.attempts.Keys <= Do(Now(h), step).db.attempts.Keys
  {
    hide *;
    EveryRunIsSound(h);
    StepKeeps(Now(h), step);
    EvolvedAttempts(Now(h), Do(Now(h), step));
  }

  lemma EvolvedAttempts(w: World, w': World)
    requires Evolves(w, w')
    ensures w.db.attempts.Keys <= w'.db.attempts.Keys
  {}

  /** The snapshots that carry the attempt's tag. */
  function Bearing(repo: map<SnapId, Snap>, a: Id): set<SnapId> {
    set s | s in repo && repo[s].tags.Canonical? && repo[s].tags.id.attempt == a
  }

  /** The attempt failed at that time, and each of these snapshots is ledgered as an orphan. */
  predicate FailedWith(db: Db, a: Id, snaps: set<SnapId>, at: int) {
    && a in db.attempts && db.attempts[a].outcome == Failed && db.attempts[a].finished == at
    && forall s | s in snaps :: s in db.ledger && db.ledger[s].status == SnapOrphaned
  }

  /** A pending attempt of which it is not known what its backup published. */
  predicate Unbound(db: Db, o: Id, a: Id) {
    IsPending(db, a) && db.attempts[a].occ == o && db.attempts[a].snapshot == None
  }

  lemma DuplicatesFail(db: Db, a: Id, snaps: set<SnapId>, at: int)
    requires IsPending(db, a) && db.attempts[a].digest.Some?
    ensures FailedWith(DuplicateDb(db, a, snaps, at), a, snaps, at)
  {}

  lemma FailedAlone(db: Db, a: Id, at: int)
    requires IsPending(db, a)
    ensures FailedWith(FailDb(db, a, at, Recorded), a, {}, at)
  {}

  lemma NoneUnbound(db: Db, o: Id)
    requires !HasPending(db, o)
    ensures forall a :: !Unbound(db, o, a)
  {}

  lemma OneOrMore(repo: map<SnapId, Snap>, repo': map<SnapId, Snap>, a: Id)
    requires forall s | s in repo :: s in repo' && repo'[s] == repo[s]
    ensures Bearing(repo, a) <= Bearing(repo', a) && |Bearing(repo, a)| <= |Bearing(repo', a)|
  {
    assert Bearing(repo', a) == Bearing(repo, a) + (Bearing(repo', a) - Bearing(repo, a));
  }

  // ---- the run --------------------------------------------------------------------------

  class Run {
    const store: Store
    const drop: string
    const budget: nat
    const backoff: nat
    const insist: bool
    /** Nobody else acts and nothing fails: the setting of the convergence results. */
    const calm: bool

    var repo: map<SnapId, Snap>
    var disk: Disk
    var clock: int
    var now: int

    var item: Id
    var visited: set<Id>
    var report: seq<Event>
    var backups: seq<Id>

    /** The steps committed so far, and where the present item's began. */
    ghost const born: set<Id>
    ghost var history: History
    ghost var base: History
    ghost var trace: Trace
    /** The paths admission has let in during this run. */
    ghost var admitted: set<string>

    /** A new run starts from whatever the three durable stores hold. */
    constructor (store: Store, w: World, now: int, backoff: nat, insist: bool, calm: bool, ghost h: History)
      requires Legal(h) && Now(h) == w && w.db == store.Rows()
      ensures this.store == store && Valid() && Current() == w && history == base == Then(h, Begin(insist))
      ensures trace.started == {} && admitted == {}
      ensures this.now == now && this.backoff == backoff && this.insist == insist && this.calm == calm
      ensures visited == {} && report == [] && backups == [] && born == store.attempts.Keys
    {
      this.store, this.now, this.backoff, this.insist, this.calm := store, now, backoff, insist, calm;
      repo, disk, clock, drop, budget := w.repo, w.disk, w.clock, w.drop, w.budget;
      item, visited, report, backups := Id("", ""), {}, [], [];
      born := store.attempts.Keys;
      history, base, trace := Then(h, Begin(insist)), Then(h, Begin(insist)), After(Traced(h), Begin(insist));
      admitted := {};
    }

    function Current(): World
      reads this, store
    {
      World(store.Rows(), repo, disk, clock, drop, budget)
    }

    ghost predicate Valid()
      reads this, store
    {
      && Legal(history) && Now(history) == Current() && Went(base, history, item, calm)
      && BackedUp(backups, store.attempts) && Recalls(backups)
    }

    /** The trace is that of the history, and holds every call made by this run. */
    ghost predicate Recalls(backups: seq<Id>)
      reads this`history, this`trace
    {
      trace == Traced(history) && trace.insist == insist && forall b | b in backups :: b in trace.called
    }

    /** The repository only grows; a calm run has both stores to itself. */
    twostate predicate Meanwhile()
      reads this
    {
      && (forall s | s in old(repo) :: s in repo && repo[s] == old(repo)[s])
      && (calm ==> repo == old(repo) && disk == old(disk) && clock == old(clock))
    }

    ghost method Log(w: World, step: Step)
      requires Legal(history) && Now(history) == w && Went(base, history, item, calm)
      requires Enabled(w, step) && About(w, step, item, calm) && Do(w, step) == Current()
      requires BackedUp(backups, w.db.attempts) && Recalls(backups)
      requires Permitted(trace, step) && After(trace, step) == trace
      modifies this`history
      ensures Valid() && history == Then(old(history), step)
    {
      StepKeepsAttempts(history, step);
      history := Then(history, step);
    }

    /** A step the process remembers: an attempt started, or a backup called. */
    ghost method Note(w: World, step: Step)
      requires Legal(history) && Now(history) == w && Went(base, history, item, calm)
      requires Enabled(w, step) && About(w, step, item, calm) && Do(w, step) == Current()
      requires BackedUp(backups, Current().db.attempts) && trace == Traced(history) && trace.insist == insist
      requires Permitted(trace, step) && After(trace, step).insist == insist
      requires forall b | b in backups :: b in After(trace, step).called
      modifies this`history, this`trace
      ensures Valid() && history == Then(old(history), step) && trace == After(old(trace), step)
    {
      hide Enabled, Do, About, After, Permitted;
      history, trace := Then(history, step), After(trace, step);
    }

    /** Whatever anybody else does between two looks of the driver. */
    method Interfere()
      requires Valid()
      modifies this`repo, this`disk, this`clock, this`now, this`history
      ensures Valid() && Meanwhile() && now >= old(now)
    {
      var elapsed: int := *;
      if elapsed > 0 { now := now + elapsed; }
      if calm { return; }
      var n: int := *;
      while n > 0
        invariant Valid() && Meanwhile() && now >= old(now)
        decreases n
      {
        hide Valid, Current;
        n := n - 1;
        var edit: bool := *;
        if edit { SomebodyEdits(); } else { SomebodyPublishes(); }
      }
    }

    method SomebodyEdits()
      requires Valid() && !calm
      modifies this`disk, this`clock, this`history
      ensures Valid() && Meanwhile()
      ensures (disk == old(disk) && clock == old(clock)) || CanEdit(old(Current()), disk, clock)
    {
      ghost var w := Current();
      var disk': Disk := *;
      var clock': int := *;
      if CanEdit(Current(), disk', clock') {
        disk, clock := disk', clock';
        hide CanEdit, Legal, Now, Went;
        Log(w, Edit(disk', clock'));
      }
    }

    method SomebodyPublishes()
      requires Valid() && !calm
      modifies this`repo, this`history
      ensures Valid() && Meanwhile()
    {
      ghost var w := Current();
      var s: SnapId := *;
      var content: Snap := *;
      if s !in repo && ForeignTags(content.tags, store.id) {
        repo := repo[s := content];
        hide Legal, Now, Went;
        Log(w, Foreign(s, content));
      }
    }

    /** `_pending_attempt`. */
    method PendingAttempt(o: Id) returns (a: Option<Id>)
      ensures a.Some? <==> HasPending(store.Rows(), o)
      ensures a.Some? ==> a.value in store.attempts && store.attempts[a.value].occ == o
                          && store.attempts[a.value].outcome == Pending
    {
      if x :| x in store.attempts && store.attempts[x].occ == o && store.attempts[x].outcome == Pending {
        return Some(x);
      }
      return None;
    }

    /** `fingerprint.compare` over a walk of the folder. */
    method Compare(spool: string, prints: map<string, Print>) returns (same: bool)
      ensures same <==> Unchanged(disk, spool, prints)
    {
      var rest := set p | p in disk && Within(p, spool);
      var seen: set<string> := {};
      while rest != {}
        invariant rest <= disk.Keys && forall p | p in rest :: Within(p, spool)
        invariant forall p | p in disk && Within(p, spool) && p !in rest ::
                    Rel(p, spool) in prints && Rel(p, spool) in seen
        invariant forall rel | rel in seen :: rel in prints && Live(disk, spool, prints, rel)
        decreases rest
      {
        var p :| p in rest;
        var rel := Rel(p, spool);
        AbsOfRel(p, spool);
        if disk[p].body.SpecialBody? || rel !in prints || PrintOf(disk[p]) != prints[rel] {
          assert Unchanged(disk, spool, prints) ==>
                   Named(prints, spool, p) && Live(disk, spool, prints, rel);
          return false;
        }
        seen := seen + {rel};
        rest := rest - {p};
      }
      same := forall rel | rel in prints :: rel in seen;
      forall p | p in disk ensures Named(prints, spool, p) {}
      if !same {
        var rel :| rel in prints && rel !in seen;
        AbsIsWithin(spool, rel);
        assert !Live(disk, spool, prints, rel);
      }
    }

    /** Stopped before the end: not reported as archived, and not evicted. */
    ghost predicate Unfinished(flow: Flow, o: Id)
      reads this, store
    {
      && o in store.occs && store.occs[o].state != Evicted
      && (flow.Stop? ==> flow.ending != ReportArchived
                         && Leaves(store.occs[o].state, HasPending(store.Rows(), o), flow.ending))
    }

    /** Gates (a) to (c): unless the source is what was recorded, the attempt is abandoned. */
    method Gate(o: Id, a: Id) returns (flow: Flow)
      requires Valid() && item == o && IsPending(store.Rows(), a) && store.attempts[a].occ == o
      requires store.occs[o].state in {Recorded, Transferred}
      modifies this`repo, this`disk, this`clock, this`now, this`history, store
      ensures Valid() && o in store.occs && Meanwhile() && now >= old(now) && (flow.Go? || flow.Stop?)
      ensures flow.Go? ==> store.Rows() == old(store.Rows())
      ensures flow.Stop? ==>
                IsIn(Current(), o, Abandoned)
                && flow.ending == if old(store.occs)[o].spool in disk then ReportDeferred else ReportRefused
      ensures flow.Go? <==> Unchanged(disk, old(store.occs)[o].spool, old(store.occs)[o].prints)
      ensures !flow.Go? ==> Unfinished(flow, o)
    {
      Interfere();
      var same := Compare(store.occs[o].spool, store.occs[o].prints);
      if same { return Go; }
      var vanished := store.occs[o].spool !in disk;
      ghost var w := Current();
      store.Fail(a, now, Abandoned);
      Log(w, Abandon(a, now));
      return Stop(if vanished then ReportRefused else ReportDeferred);
    }

    // ---- publication -----------------------------------------------------------------------

    /** `attempts.start`: the row and its number, the export of the store, the digest. */
    method StartAttempt(o: Id) returns (a: Id, copy: Export)
      requires Valid() && item == o && o in store.occs && store.occs[o].state == Recorded
      requires AttemptsOf(store.Rows(), o) == FailuresOf(store.Rows(), o) && o !in trace.started
      requires |FailuresOf(store.Rows(), o)| < budget || insist
      modifies this`history, this`trace, store
      ensures Valid() && a !in old(store.attempts) && a !in backups
      ensures a in trace.waiting && trace.started == old(trace.started) + {o}
      ensures copy == ExportOf(StartDb(old(store.Rows()), a, o), a)
      ensures store.Rows() == DigestDb(StartDb(old(store.Rows()), a, o), a)
    {
      ghost var w := Current();
      a := FreshId();
      hide Legal, Now, Went;
      store.StartAttemptRow(a, o);
      Note(w, Step.StartAttempt(a, o, insist));
      ghost var w1 := Current();
      copy := ExportOf(store.Rows(), a);
      store.SetExportDigest(a, CatalogSha(copy));
      Log(w1, SetDigest(a));
    }

    method FreshId() returns (a: Id)
      ensures a !in store.attempts && a !in store.occs && a !in backups && a.store == store.id
    {
      var ulid := FreshName((set x | x in store.attempts :: x.ulid) + (set x | x in store.occs :: x.ulid)
                            + (set x | x in backups :: x.ulid));
      a := Id(store.id, ulid);
    }

    /**
     * `engine.backup`: one snapshot with the attempt's tags, or none, or several,
     * with whatever was archived; the answer may be lost, or say "partial".
     */
    method Backup(o: Id, a: Id, copy: Export) returns (result: Option<Backed>)
      requires Valid() && item == o && IsPending(store.Rows(), a) && store.attempts[a].digest.Some?
      requires store.attempts[a].occ == o && a in trace.waiting
      modifies this`repo, this`disk, this`clock, this`now, this`history, this`trace, this`backups
      ensures Valid() && now >= old(now) && backups == old(backups) + [a] && trace.started == old(trace.started)
      ensures result.Some? ==> Bears(Current(), {result.value.snap}, a)
      ensures calm ==> disk == old(disk) && clock == old(clock)
      ensures calm ==>
                && result.Some? && result.value.complete
                && repo[result.value.snap].tree == TreeOf(disk, store.occs[o].spool)
                && repo[result.value.snap].catalog == Some(copy)
    {
      hide Legal, Now, Went, TreeOf;
      CallEngine(a);
      if calm {
        var s := FreshName(repo.Keys);
        PublishOne(a, s, TreeOf(disk, store.occs[o].spool), Some(copy));
        return Some(Backed(s, true));
      }
      ghost var after := trace;
      result := None;
      var n: int := *;
      while n > 0
        invariant Valid() && now >= old(now) && backups == old(backups) + [a] && trace == after
        invariant result.Some? ==> Bears(Current(), {result.value.snap}, a)
        decreases n
      {
        n := n - 1;
        result := BackupOnce(a);
      }
      var lost: bool := *;
      if lost { result := None; }
    }

    /** The call itself: the one thing no later process may repeat for this attempt. */
    method CallEngine(a: Id)
      requires Valid() && CanCall(Current(), a) && item == store.attempts[a].occ && a in trace.waiting
      modifies this`history, this`trace, this`backups
      ensures Valid() && backups == old(backups) + [a] && trace == After(old(trace), Call(a))
    {
      hide Legal, Now, Went;
      backups := backups + [a];
      Note(Current(), Call(a));
    }

    method BackupOnce(a: Id) returns (result: Option<Backed>)
      requires Valid() && !calm && OwnAttempt(store.Rows(), a) && store.attempts[a].digest.Some? && a in trace.called
      modifies this`repo, this`disk, this`clock, this`now, this`history
      ensures Valid() && now >= old(now)
      ensures result.Some? ==> Bears(Current(), {result.value.snap}, a)
    {
      Interfere();
      var s: SnapId := *;
      var tree: map<string, Source> := *;
      var catalog: Option<Export> := *;
      var complete: bool := *;
      if s in repo { return None; }
      PublishOne(a, s, tree, catalog);
      return Some(Backed(s, complete));
    }

    method PublishOne(a: Id, s: SnapId, tree: map<string, Source>, catalog: Option<Export>)
      requires Valid() && OwnAttempt(store.Rows(), a) && store.attempts[a].digest.Some? && a in trace.called
      requires s !in repo
      modifies this`repo, this`history
      ensures Valid() && repo == old(repo)[s := Snap(Canonical(OwnIdentity(store.Rows(), a)), now, tree, catalog)]
    {
      ghost var w := Current();
      repo := repo[s := Snap(Canonical(OwnIdentity(store.Rows(), a)), now, tree, catalog)];
      hide Legal, Now, Went, OwnIdentity;
      Log(w, Step.Publish(s, a, now, tree, catalog));
    }

    /** `attempts.adopt`. */
    method Bind(a: Id, s: SnapId)
      requires Valid() && CanBind(Current(), {s}, a) && item == store.attempts[a].occ
      modifies this`history, store
      ensures Valid() && store.Rows() == AdoptDb(old(store.Rows()), a, s)
    {
      ghost var w := Current();
      LedgerAgrees(history, s, a);
      hide Legal, Now, Went, OwnIdentity;
      var ok := store.Adopt(a, s);
      hide CanBind, AdoptDb;
      Log(w, Step.Adopt(a, s));
    }

    /** `attempts.fail`. */
    method FailAttempt(a: Id)
      requires Valid() && IsPending(store.Rows(), a) && item == store.attempts[a].occ
      modifies this`history, store
      ensures Valid() && store.Rows() == FailDb(old(store.Rows()), a, now, Recorded)
    {
      ghost var w := Current();
      store.Fail(a, now, Recorded);
      hide Legal, Now, Went, FailDb;
      Log(w, Step.Fail(a, now));
    }

    /** `_publish` for an occurrence without a pending attempt, up to the adoption. */
    method PublishFresh(o: Id) returns (flow: Flow, a: Id)
      requires Valid() && item == o && IsIn(Current(), o, Recorded) && !HasPending(store.Rows(), o)
      requires o !in trace.started
      modifies this`repo, this`disk, this`clock, this`now, this`history, this`trace, this`backups, store
      ensures Valid() && o in store.occs && now >= old(now) && (flow.Go? || flow.Stop?)
      ensures !flow.Go? ==> Unfinished(flow, o)
      ensures old(trace.started) <= trace.started <= old(trace.started) + {o}
      ensures if MayStart(old(store.Rows()), o, budget, backoff, old(now), insist) then o in trace.started
              else && store.Rows() == old(store.Rows()) && backups == old(backups) && trace == old(trace)
                   && flow == Stop(if CoolingOff(old(store.Rows()), o, backoff, old(now)) then ReportDeferred
                                   else ReportRefused)
      ensures || backups == old(backups)
              || (backups == old(backups) + [a] && a !in old(store.attempts) && a !in old(backups))
      ensures flow.Go? ==> Bound(Current(), a, o) && IsIn(Current(), o, Recorded)
      ensures calm ==> disk == old(disk) && clock == old(clock)
      ensures calm && Steady(old(Current()), o) ==>
                if RetryState(old(store.Rows()), o, budget, backoff, old(now), insist) == Ready
                then && flow.Go? && Steady(Current(), o)
                     && PayloadProven(Current(), a) && RemoteCatalogProven(Current(), a)
                else flow.Stop? && store.Rows() == old(store.Rows()) && Steady(Current(), o)
    {
      hide Legal, Now, Went, PayloadProven, RemoteCatalogProven, Unchanged, Isolated, Clean;
      hide MayStart, CoolingOff;
      a := o;
      var retry := RetryState(store.Rows(), o, budget, backoff, now, insist);
      if retry != HasConfirmed { RetryMeans(store.Rows(), o, budget, backoff, now, insist); }
      if retry == BackingOff { return Stop(ReportDeferred), a; }
      if retry == BudgetSpent { return Stop(ReportRefused), a; }
      if retry == HasConfirmed {
        // "inconsistent store": no run gets here
        RecordedHasNoneConfirmed(history, o);
        assert false;
      }
      OnlyFailures(store.Rows(), o, budget, backoff, now, insist);
      hide RetryState, HasPending;
      flow, a := PublishNew(o);
    }

    method PublishNew(o: Id) returns (flow: Flow, a: Id)
      requires Valid() && item == o && IsIn(Current(), o, Recorded) && o !in trace.started
      requires AttemptsOf(store.Rows(), o) == FailuresOf(store.Rows(), o)
      requires |FailuresOf(store.Rows(), o)| < budget || insist
      modifies this`repo, this`disk, this`clock, this`now, this`history, this`trace, this`backups, store
      ensures Valid() && o in store.occs && now >= old(now) && (flow.Go? || flow.Stop?)
      ensures !flow.Go? ==> Unfinished(flow, o)
      ensures trace.started == old(trace.started) + {o}
      ensures || backups == old(backups)
              || (backups == old(backups) + [a] && a !in old(store.attempts) && a !in old(backups))
      ensures flow.Go? ==> Bound(Current(), a, o) && IsIn(Current(), o, Recorded)
      ensures calm ==> disk == old(disk) && clock == old(clock)
      ensures calm && Steady(old(Current()), o) ==>
                flow.Go? && Steady(Current(), o) && PayloadProven(Current(), a) && RemoteCatalogProven(Current(), a)
    {
      hide Legal, Now, Went, PayloadProven, RemoteCatalogProven, Unchanged, Isolated, Clean, SameTree, TreeOf;
      ghost var before := store.Rows();
      var copy: Export;
      a, copy := StartAttempt(o);
      flow := Gate(o, a);
      if flow != Go { return; }
      assert store.Rows() == DigestDb(StartDb(before, a, o), a);
      ghost var answer;
      flow, answer := BackUpAndBind(o, a, copy);
      if calm && flow.Go? && Steady(old(Current()), o) {
        SteadyRoot(Current(), o);
        FreshProves(history, a, o, copy, StartDb(before, a, o));
      }
    }

    /**
     * From the backup to the adoption of what it published. Without an answer it
     * stays open what became of the attempt; a partial backup fails it.
     */
    method BackUpAndBind(o: Id, a: Id, copy: Export) returns (flow: Flow, ghost answer: Option<Backed>)
      requires Valid() && item == o && IsIn(Current(), o, Recorded) && IsPending(store.Rows(), a)
      requires store.attempts[a].occ == o && store.attempts[a].digest.Some? && store.attempts[a].snapshot == None
      requires a in trace.waiting
      modifies this`repo, this`disk, this`clock, this`now, this`history, this`trace, this`backups, store
      ensures Valid() && o in store.occs && now >= old(now) && (flow.Go? || flow.Stop?)
      ensures !flow.Go? ==> Unfinished(flow, o)
      ensures backups == old(backups) + [a] && trace.started == old(trace.started)
      ensures match answer
              case None => flow == Stop(ReportRefused) && store.Rows() == old(store.Rows())
              case Some(b) =>
                if b.complete then flow == Go && a in store.attempts && store.attempts[a].snapshot == Some(b.snap)
                else flow == Stop(ReportRefused) && IsIn(Current(), o, Recorded)
                     && FailedWith(store.Rows(), a, {b.snap}, now)
      ensures flow.Go? ==> Bound(Current(), a, o) && Bears(Current(), {store.attempts[a].snapshot.value}, a)
                           && IsIn(Current(), o, Recorded)
                           && store.attempts[a] == old(store.attempts)[a].(snapshot := store.attempts[a].snapshot)
                           && store.occs == old(store.occs)
      ensures calm ==> disk == old(disk) && clock == old(clock) && flow.Go?
                       && var snap := repo[store.attempts[a].snapshot.value];
                          snap.tree == TreeOf(disk, store.occs[o].spool) && snap.catalog == Some(copy)
    {
      hide Legal, Now, Went, TreeOf;
      var result := Backup(o, a, copy);
      if result == None { return Stop(ReportRefused), result; }
      Bind(a, result.value.snap);
      if !result.value.complete {
        FailAttempt(a);
        return Stop(ReportRefused), result;
      }
      return Go, result;
    }

    /** `attempts.resume`: ask the repository what became of the pending attempt. */
    method Resume(o: Id, a: Id) returns (flow: Flow, bound: bool)
      requires Valid() && item == o && IsIn(Current(), o, Recorded)
      requires IsPending(store.Rows(), a) && store.attempts[a].occ == o
      modifies this`repo, this`disk, this`clock, this`now, this`history, store
      ensures Valid() && Meanwhile() && now >= old(now) && (flow.Go? || (flow.EngineFault? && !calm))
      ensures IsIn(Current(), o, Recorded) && SameItem(old(store.occs)[o], store.occs[o])
      ensures AttemptsOf(store.Rows(), o) == AttemptsOf(old(store.Rows()), o)
      ensures flow.Go? ==> if bound then Bound(Current(), a, o) else !HasPending(store.Rows(), o)
      ensures flow.Go? && old(store.attempts)[a].snapshot.Some? ==> bound && store.Rows() == old(store.Rows())
      ensures flow.Go? && old(store.attempts)[a].snapshot == None ==> SettledAsFound(a, Bearing(repo, a), bound)
    {
      hide Legal, Now, Went, AttemptsOf, HasPending, FailDb, DuplicateDb, AdoptDb, SameItem, Bears, FailedWith;
      SameItemAsItself(store.occs[o]);
      if store.attempts[a].snapshot.Some? { return Go, true; }
      Interfere();
      var unreachable: bool := *;
      if unreachable && !calm { return EngineFault, false; }
      var found := Bearing(repo, a);
      if found != {} { FoundAreOwn(history, a, found); }
      bound := Settle(o, a, found);
      return Go, bound;
    }

    /**
     * What became of an attempt by the snapshots found under its tag: bound if
     * there is one, and then to that one; else failed, and all of them orphaned.
     */
    predicate SettledAsFound(a: Id, found: set<SnapId>, bound: bool)
      reads this, store
    {
      && (bound <==> |found| == 1)
      && if bound then
           a in store.attempts && store.attempts[a].snapshot.Some? && found == {store.attempts[a].snapshot.value}
         else FailedWith(store.Rows(), a, found, now)
    }

    /** None, one, or several snapshots: fail, adopt, or orphan them all. */
    method Settle(o: Id, a: Id, found: set<SnapId>) returns (bound: bool)
      requires Valid() && item == o && IsIn(Current(), o, Recorded)
      requires IsPending(store.Rows(), a) && store.attempts[a].occ == o && store.attempts[a].snapshot == None
      requires found != {} ==> Bears(Current(), found, a)
      modifies this`history, store
      ensures Valid()
      ensures IsIn(Current(), o, Recorded) && SameItem(old(store.occs)[o], store.occs[o])
      ensures AttemptsOf(store.Rows(), o) == AttemptsOf(old(store.Rows()), o)
      ensures if bound then Bound(Current(), a, o) else !HasPending(store.Rows(), o)
      ensures SettledAsFound(a, found, bound)
    {
      hide Legal, Now, Went, AttemptsOf, HasPending, FailDb, DuplicateDb, AdoptDb, FailedWith;
      OnlyOnePending(history, o, a);
      if found == {} {
        FailedIsIdle(store.Rows(), a, now, Recorded);
        FailedAlone(store.Rows(), a, now);
        FailAttempt(a);
        return false;
      }
      if |found| > 1 {
        DuplicatesAreIdle(store.Rows(), a, found, now);
        DuplicatesFail(store.Rows(), a, found, now);
        OrphanAll(a, found);
        return false;
      }
      var s :| s in found;
      assert found == {s} by { assert |found - {s}| == 0; }
      AdoptedIsBound(store.Rows(), a, s);
      Bind(a, s);
      return true;
    }

    /** Two snapshots for one attempt: neither can be told to be ours. */
    method OrphanAll(a: Id, found: set<SnapId>)
      requires Valid() && CanBind(Current(), found, a) && item == store.attempts[a].occ
      modifies this`history, store
      ensures Valid() && store.Rows() == DuplicateDb(old(store.Rows()), a, found, now)
    {
      ghost var w := Current();
      forall s | s in found && s in store.ledger ensures store.ledger[s].identity == OwnIdentity(store.Rows(), a) {
        LedgerAgrees(history, s, a);
      }
      hide Legal, Now, Went, OwnIdentity;
      var ok := store.FailDuplicates(a, found, now);
      hide CanBind, DuplicateDb;
      Log(w, Step.Duplicate(a, found, now));
    }

    /**
     * What a turn makes of an attempt whose backup nobody heard the end of, with
     * `before` in the repository at its start: two snapshots are never gone on
     * with, and going back to the start means it failed, all of them orphaned.
     */
    predicate Reconciled(o: Id, a: Id, before: map<SnapId, Snap>, flow: Flow)
      reads this, store
    {
      && (|Bearing(before, a)| > 1 ==> flow == EngineFault || (flow == Go && IsIn(Current(), o, Recorded)))
      && (flow == Go && IsIn(Current(), o, Recorded) ==>
            |Bearing(repo, a)| != 1 && FailedWith(store.Rows(), a, Bearing(repo, a), now))
      && (calm && flow == Go ==> (IsIn(Current(), o, Transferred) <==> |Bearing(before, a)| == 1))
    }

    /** `recorded` to `transferred`: one attempt, one backup, gates (a) and (b). */
    method Publish(o: Id) returns (flow: Flow)
      requires Valid() && item == o && IsIn(Current(), o, Recorded)
      requires HasPending(store.Rows(), o) || o !in trace.started
      modifies this`repo, this`disk, this`clock, this`now, this`history, this`trace, this`backups, store
      ensures Valid() && o in store.occs && now >= old(now) && flow != IoFault
      ensures !flow.Go? ==> Unfinished(flow, o)
      ensures flow.Go? ==> || IsIn(Current(), o, Transferred)
                           || (IsIn(Current(), o, Recorded) && HasPending(old(store.Rows()), o)
                               && !HasPending(store.Rows(), o))
      ensures if HasPending(old(store.Rows()), o) then backups == old(backups) && trace == old(trace)
              else OneMore(old(backups), backups, old(store.attempts))
                   && old(trace.started) <= trace.started <= old(trace.started) + {o}
      ensures !HasPending(old(store.Rows()), o) ==>
                if MayStart(old(store.Rows()), o, budget, backoff, old(now), insist) then o in trace.started
                else && store.Rows() == old(store.Rows()) && backups == old(backups) && trace == old(trace)
                     && flow == Stop(if CoolingOff(old(store.Rows()), o, backoff, old(now)) then ReportDeferred
                                     else ReportRefused)
      ensures forall a | Unbound(old(store.Rows()), o, a) :: Reconciled(o, a, old(repo), flow)
      ensures calm ==> disk == old(disk) && clock == old(clock) && flow != EngineFault
      ensures calm && Steady(old(Current()), o) && HasPending(old(store.Rows()), o) ==>
                flow.Go? && Steady(Current(), o)
                && AttemptsOf(store.Rows(), o) == AttemptsOf(old(store.Rows()), o)
      ensures calm && Steady(old(Current()), o) && !HasPending(old(store.Rows()), o) ==>
                if RetryState(old(store.Rows()), o, budget, backoff, old(now), insist) == Ready
                then flow.Go? && Steady(Current(), o) && IsIn(Current(), o, Transferred) && Perfect(Current(), o)
                else flow.Stop? && store.Rows() == old(store.Rows()) && Steady(Current(), o)
    {
      hide Legal, Now, Went, PayloadProven, RemoteCatalogProven, Steady, RetryState, HasPending, AttemptsOf;
      hide SameItem, Perfect, Bearing, FailedWith, Reconciled, MayStart, CoolingOff;
      var pending := PendingAttempt(o);
      if pending == None {
        NoneUnbound(store.Rows(), o);
        var a;
        flow, a := PublishFresh(o);
        if flow != Go { return; }
        flow := GateB(o, a);
      } else {
        OnlyOnePending(history, o, pending.value);
        flow := PublishPending(o, pending.value);
      }
    }

    /** `_publish` for an attempt that was pending already. */
    method PublishPending(o: Id, a: Id) returns (flow: Flow)
      requires Valid() && item == o && IsIn(Current(), o, Recorded)
      requires IsPending(store.Rows(), a) && store.attempts[a].occ == o
      modifies this`repo, this`disk, this`clock, this`now, this`history, store
      ensures Valid() && o in store.occs && now >= old(now) && flow != IoFault
      ensures !flow.Go? ==> Unfinished(flow, o)
      ensures flow.Go? ==> || IsIn(Current(), o, Transferred)
                           || (IsIn(Current(), o, Recorded) && !HasPending(store.Rows(), o))
      ensures Unbound(old(store.Rows()), o, a) ==> Reconciled(o, a, old(repo), flow)
      ensures calm ==> disk == old(disk) && clock == old(clock) && flow != EngineFault
      ensures calm && Steady(old(Current()), o) ==>
                flow.Go? && Steady(Current(), o)
                && AttemptsOf(store.Rows(), o) == AttemptsOf(old(store.Rows()), o)
    {
      hide Legal, Now, Went, PayloadProven, RemoteCatalogProven, Steady, HasPending, AttemptsOf, Bearing, FailedWith,
           Perfect;
      var bound: bool;
      flow, bound := TakeUp(o, a);
      if flow != Go || !bound { return; }
      flow := GateB(o, a);
    }

    /** `resume` in its place: what it leaves, and whether the turn goes on. */
    method TakeUp(o: Id, a: Id) returns (flow: Flow, bound: bool)
      requires Valid() && item == o && IsIn(Current(), o, Recorded)
      requires IsPending(store.Rows(), a) && store.attempts[a].occ == o
      modifies this`repo, this`disk, this`clock, this`now, this`history, store
      ensures Valid() && Meanwhile() && now >= old(now) && (flow.Go? || (flow.EngineFault? && !calm))
      ensures IsIn(Current(), o, Recorded)
      ensures AttemptsOf(store.Rows(), o) == AttemptsOf(old(store.Rows()), o)
      ensures flow.Go? ==> if bound then Bound(Current(), a, o) else !HasPending(store.Rows(), o)
      ensures Steady(old(Current()), o) && disk == old(disk) ==> Steady(Current(), o)
      ensures Unbound(old(store.Rows()), o, a) ==>
                if flow == Go && bound then |Bearing(old(repo), a)| <= 1 && (calm ==> |Bearing(old(repo), a)| == 1)
                else Reconciled(o, a, old(repo), flow)
      ensures flow == Go && !bound ==> Unbound(old(store.Rows()), o, a)
    {
      hide Legal, Now, Went, AttemptsOf, HasPending, SameItem, Steady, Bearing, FailedWith;
      flow, bound := Resume(o, a);
      SteadyOn(old(Current()), Current(), o);
      OneOrMore(old(repo), repo, a);
    }

    /** Gate (b), and the transition it guards. */
    method GateB(o: Id, a: Id) returns (flow: Flow)
      requires Valid() && item == o && IsIn(Current(), o, Recorded) && Bound(Current(), a, o)
      modifies this`repo, this`disk, this`clock, this`now, this`history, store
      ensures Valid() && o in store.occs && Meanwhile() && now >= old(now) && (flow.Go? || flow.Stop?)
      ensures if flow.Go? then IsIn(Current(), o, Transferred) else IsIn(Current(), o, Abandoned)
      ensures !flow.Go? ==> Unfinished(flow, o)
      ensures flow.Go? ==> Unchanged(disk, store.occs[o].spool, store.occs[o].prints)
      ensures calm && Steady(old(Current()), o) ==>
                flow.Go? && Steady(Current(), o) && AttemptsOf(store.Rows(), o) == AttemptsOf(old(store.Rows()), o)
      ensures calm && Steady(old(Current()), o) && old(PayloadProven(Current(), a) && RemoteCatalogProven(Current(), a))
              ==> Perfect(Current(), o)
    {
      hide Legal, Now, Went, PayloadProven, RemoteCatalogProven, Unchanged, Isolated, Clean;
      flow := Gate(o, a);
      if flow != Go { return; }
      MarkTransferred(o, a);
      if calm && Steady(old(Current()), o) && old(PayloadProven(Current(), a) && RemoteCatalogProven(Current(), a)) {
        StillPerfect(old(Current()), Current(), o, a);
      }
    }

    method MarkTransferred(o: Id, a: Id)
      requires Valid() && item == o && CanTransfer(Current(), a) && store.attempts[a].occ == o
      modifies this`history, store
      ensures Valid() && store.Rows() == SetState(old(store.Rows()), o, Transferred)
    {
      ghost var w := Current();
      store.SetOccurrenceState(o, Transferred);
      hide Legal, Now, Went, CanTransfer, SetState;
      Log(w, Step.Transfer(a));
    }

    // ---- the proofs ----------------------------------------------------------------------------

    /** `_require_pending`: its "inconsistent store" branch is never taken. */
    method RequirePending(o: Id) returns (a: Id)
      requires Valid() && o in store.occs && store.occs[o].state in {Transferred, Verified}
      ensures Bound(Current(), a, o)
      ensures forall b | b in store.attempts && store.attempts[b].occ == o ::
                store.attempts[b].outcome == Pending ==> b == a
    {
      BoundIsThere(history, o);
      hide Legal, Now, Went;
      var pending := PendingAttempt(o);
      a := pending.value;
    }

    /** `reconcile`, `verify_payload` and the recomputed manifest hash. */
    method ReadBack(o: Id, a: Id) returns (flow: Flow, ok: bool)
      requires Valid() && item == o && IsIn(Current(), o, Transferred) && Bound(Current(), a, o)
      modifies this`repo, this`disk, this`clock, this`now, this`history
      ensures Valid() && Meanwhile() && now >= old(now) && (flow.Go? || (flow.EngineFault? && !calm))
      ensures flow.Go? && ok ==> PayloadProven(Current(), a)
      ensures calm ==> (ok <==> PayloadProven(Current(), a))
    {
      hide Legal, Now, Went, PayloadProven, SameTree, ItemShape, PlainRoot;
      Interfere();
      var row, s := store.occs[o], store.attempts[a].snapshot.value;
      BoundIsKept(history, a, o);
      var tree := repo[s].tree;
      ProvenMeans(Current(), a, o);
      var unreachable: bool := *;
      if unreachable && !calm { return EngineFault, false; }
      var nodes := V.ListTree(tree, row.spool);
      ok := V.Reconcile(nodes, row.spool, row.entries);
      flow := Go;
      if row.kind == FileKind {
        ok := ReadFile(row, tree, nodes, ok);
      } else {
        flow, ok := ReadTree(row, tree, nodes, ok);
      }
    }

    /** One dump, one hash; a dump that fails is evidence of corruption. */
    method ReadFile(row: Occ, tree: map<string, Source>, ghost nodes: seq<V.LsNode>, listed: bool) returns (ok: bool)
      requires ItemShape(row) && row.kind == FileKind && V.Lists(nodes, tree, row.spool)
      requires listed <==> V.ListingAgrees(nodes, row.spool, row.entries)
      ensures ok ==> PlainRoot(row.entries) && SameTree(tree, row.spool, row.entries)
      ensures calm ==> (ok <==> PlainRoot(row.entries) && SameTree(tree, row.spool, row.entries))
    {
      ghost var plain := row.entries[""].etype == FileEntry;
      assert !plain ==> row.entries[""].sha == None by { assert RowShape(row, ""); }
      if plain { V.FileProofIsExact(row, tree, nodes); }
      hide ItemShape, V.ListingAgrees, SameTree;
      if !listed { return false; }
      var failed: bool := *;
      var content := if (failed && !calm) || row.spool !in tree || !tree[row.spool].SourceFile? then None
                     else Some(tree[row.spool].content);
      ok := V.VerifyFile(content, row.entries);
    }

    /** One stream, hashed member by member; it may stop anywhere. */
    method ReadTree(row: Occ, tree: map<string, Source>, nodes: seq<V.LsNode>, listed: bool)
      returns (flow: Flow, ok: bool)
      requires ItemShape(row) && row.kind != FileKind && V.Lists(nodes, tree, row.spool)
      requires listed <==> V.ListingAgrees(nodes, row.spool, row.entries)
      ensures flow.Go? || (flow.EngineFault? && !calm)
      ensures flow.Go? && ok ==> PlainRoot(row.entries) && SameTree(tree, row.spool, row.entries)
      ensures calm ==> (ok <==> PlainRoot(row.entries) && SameTree(tree, row.spool, row.entries))
    {
      var paths := V.StreamOrder(tree, row.spool);
      var k, broken, unreachable := |paths|, false, false;
      if !calm {
        var cut: int := *;
        if 0 <= cut < |paths| { k := cut; }
        broken := *;
        unreachable := *;
      }
      V.TreeProofIsExact(row, tree, nodes, paths, k);
      assert row.root == TreeRoot(Manifest(row.entries));
      hide ItemShape, V.ListingAgrees, V.StreamAgrees, V.StripSlashes, SameTree, Manifest, V.StreamOf;
      if !listed { return Go, false; }
      if unreachable { return EngineFault, false; }
      ok := V.VerifyTree(V.StreamOf(paths[..k], tree), broken, row.spool, row.entries);
      var root := RecomputeManifestHash(row.entries);
      return Go, ok && root == row.root;
    }

    /** Its attempt is given up: at the start with none pending and the backoff running, or abandoned. */
    predicate SetBack(o: Id)
      reads this, store
    {
      || (IsIn(Current(), o, Recorded) && !HasPending(store.Rows(), o)
          && (backoff > 0 ==> CoolingOff(store.Rows(), o, backoff, now)))
      || IsIn(Current(), o, Abandoned)
    }

    /** `transferred` to `verified`: reconcile, read the bytes back, gate (c). */
    method VerifyStep(o: Id) returns (flow: Flow)
      requires Valid() && item == o && IsIn(Current(), o, Transferred)
      modifies this`repo, this`disk, this`clock, this`now, this`history, store
      ensures Valid() && o in store.occs && Meanwhile() && now >= old(now) && flow != IoFault
      ensures !flow.Go? ==> Unfinished(flow, o)
      ensures flow.Stop? ==> SetBack(o)
      ensures flow.Go? ==> IsIn(Current(), o, Verified)
      ensures calm && Steady(old(Current()), o) ==>
                || (flow.Go? && Steady(Current(), o) && AttemptsOf(store.Rows(), o) == AttemptsOf(old(store.Rows()), o)
                    && (old(Perfect(Current(), o)) ==> Perfect(Current(), o)))
                || (flow.Stop? && Idle(Current(), o, AttemptsOf(old(store.Rows()), o)) && !old(Perfect(Current(), o)))
    {
      hide Legal, Now, Went, PayloadProven, RemoteCatalogProven, Steady, Perfect, AttemptsOf, FailDb, HasPending,
           CoolingOff;
      var a := RequirePending(o);
      PerfectIsThis(Current(), o, a);
      var ok: bool;
      flow, ok := ReadBack(o, a);
      if flow != Go { return; }
      if !ok {
        FailedIsIdle(store.Rows(), a, now, Recorded);
        FailAttempt(a);
        SteadyOn(old(Current()), Current(), o);
        return Stop(ReportRefused);
      }
      flow := GateC(o, a);
    }

    /** Gate (c), and the transition it guards. */
    method GateC(o: Id, a: Id) returns (flow: Flow)
      requires Valid() && item == o && IsIn(Current(), o, Transferred) && Bound(Current(), a, o)
      requires PayloadProven(Current(), a)
      modifies this`repo, this`disk, this`clock, this`now, this`history, store
      ensures Valid() && o in store.occs && Meanwhile() && now >= old(now) && (flow.Go? || flow.Stop?)
      ensures if flow.Go? then IsIn(Current(), o, Verified) else IsIn(Current(), o, Abandoned)
      ensures !flow.Go? ==> Unfinished(flow, o)
      ensures flow.Go? ==> Unchanged(disk, store.occs[o].spool, store.occs[o].prints)
      ensures calm && Steady(old(Current()), o) ==>
                flow.Go? && Steady(Current(), o) && AttemptsOf(store.Rows(), o) == AttemptsOf(old(store.Rows()), o)
      ensures calm && Steady(old(Current()), o) && old(RemoteCatalogProven(Current(), a)) ==> Perfect(Current(), o)
    {
      hide Legal, Now, Went, PayloadProven, RemoteCatalogProven, Unchanged, Isolated, Clean;
      ghost var w := Current();
      flow := Gate(o, a);
      if flow != Go { return; }
      ProvenStays(w, Current(), a);
      MarkVerified(o, a);
      if calm && Steady(w, o) && RemoteCatalogProven(w, a) { StillPerfect(w, Current(), o, a); }
    }

    method MarkVerified(o: Id, a: Id)
      requires Valid() && item == o && CanVerify(Current(), a) && store.attempts[a].occ == o
      modifies this`history, store
      ensures Valid() && store.Rows() == SetState(old(store.Rows()), o, Verified)
    {
      ghost var w := Current();
      store.SetOccurrenceState(o, Verified);
      hide Legal, Now, Went, CanVerify, SetState;
      Log(w, Step.Verify(a));
    }

    /** `verified` to `recoverable`: the remote catalog proves itself. */
    method Prove(o: Id) returns (flow: Flow)
      requires Valid() && item == o && IsIn(Current(), o, Verified)
      modifies this`repo, this`disk, this`clock, this`now, this`history, store
      ensures Valid() && o in store.occs && Meanwhile() && now >= old(now) && flow != IoFault
      ensures !flow.Go? ==> Unfinished(flow, o)
      ensures flow.Stop? ==> SetBack(o)
      ensures flow.Go? ==> IsIn(Current(), o, Recoverable)
      ensures calm && Steady(old(Current()), o) ==>
                || (flow.Go? && Steady(Current(), o) && AttemptsOf(store.Rows(), o) == AttemptsOf(old(store.Rows()), o))
                || (flow.Stop? && Idle(Current(), o, AttemptsOf(old(store.Rows()), o)) && !old(Perfect(Current(), o)))
    {
      hide Legal, Now, Went, PayloadProven, RemoteCatalogProven, Steady, Perfect, AttemptsOf, FailDb, HasPending,
           ConfirmDb, CoolingOff;
      var a := RequirePending(o);
      PerfectIsThis(Current(), o, a);
      var ok: bool;
      flow, ok := ReadCatalog(o, a);
      if flow != Go { return; }
      if !ok {
        FailedIsIdle(store.Rows(), a, now, Recorded);
        FailAttempt(a);
        SteadyOn(old(Current()), Current(), o);
        return Stop(ReportRefused);
      }
      ConfirmedFacts(store.Rows(), a, now);
      ConfirmIt(a);
      SteadyOn(old(Current()), Current(), o);
    }

    /** The export dumped back from the very snapshot, against the snapshot's own tags. */
    method ReadCatalog(o: Id, a: Id) returns (flow: Flow, ok: bool)
      requires Valid() && item == o && IsIn(Current(), o, Verified) && Bound(Current(), a, o)
      modifies this`repo, this`disk, this`clock, this`now, this`history
      ensures Valid() && Meanwhile() && now >= old(now) && (flow.Go? || (flow.EngineFault? && !calm))
      ensures flow.Go? && ok ==> RemoteCatalogProven(Current(), a)
      ensures calm ==> (ok <==> RemoteCatalogProven(Current(), a))
    {
      Interfere();
      var unreachable: bool := *;
      if unreachable && !calm { return EngineFault, false; }
      BoundIsKept(history, a, o);
      hide Legal, Now, Went;
      var att := store.attempts[a];
      var snap := repo[att.snapshot.value];
      var failed: bool := *;
      var dumped := if failed && !calm then None else snap.catalog;
      var check := V.VerifyCatalog(dumped, snap.tags.id, att.digest, store.occs[o], o);
      return Go, check == None;
    }

    /** `attempts.confirm`. */
    method ConfirmIt(a: Id)
      requires Valid() && CanConfirm(Current(), a) && item == store.attempts[a].occ
      requires store.attempts[a].snapshot.Some?
      modifies this`history, store
      ensures Valid() && store.Rows() == ConfirmDb(old(store.Rows()), a, now)
    {
      ghost var w := Current();
      store.ConfirmAttempt(a, now);
      hide Legal, Now, Went, CanConfirm, ConfirmDb;
      Log(w, Step.Confirm(a, now));
    }

    // ---- deletion --------------------------------------------------------------------------------

    /** The ownership oracle: who holds the entry open, if anybody can tell. */
    method AskOwner() returns (clear: bool)
      ensures calm ==> clear
    {
      clear := *;
      if calm { clear := true; }
    }

    /** `recoverable` to `evicting`: ownership, gate (d) and the intent in one transaction. */
    method Intend(o: Id) returns (flow: Flow)
      requires Valid() && item == o && IsIn(Current(), o, Recoverable)
      modifies this`repo, this`disk, this`clock, this`now, this`history, store
      ensures Valid() && o in store.occs && Meanwhile() && now >= old(now) && (flow.Go? || flow.Stop?)
      ensures flow.Go? ==> IsIn(Current(), o, Evicting)
      ensures !flow.Go? ==> Unfinished(flow, o)
      ensures flow.Go? ==> Unchanged(disk, store.occs[o].spool, store.occs[o].prints)
      ensures flow == Stop(ReportRetained) ==> IsIn(Current(), o, Recoverable)
      ensures flow == Stop(ReportRefused) ==>
                IsIn(Current(), o, Recoverable) && store.occs[o].spool !in disk
      ensures flow == Stop(ReportDeferred) ==> IsIn(Current(), o, Abandoned)
      ensures calm ==> (flow.Go? <==> Unchanged(old(disk), old(store.occs)[o].spool, old(store.occs)[o].prints))
      ensures calm && Steady(old(Current()), o) ==>
                flow.Go? && Steady(Current(), o) && AttemptsOf(store.Rows(), o) == AttemptsOf(old(store.Rows()), o)
    {
      hide Legal, Now, Went, Unchanged, Isolated, Clean;
      Interfere();
      var clear := AskOwner();
      if !clear { return Stop(ReportRetained); }
      Interfere();
      var same := Compare(store.occs[o].spool, store.occs[o].prints);
      if same {
        WriteIntent(o);
        UnchangedIsClean(disk, store.occs[o].spool, store.occs[o].prints);
        return Go;
      }
      Interfere();
      if store.occs[o].spool !in disk { return Stop(ReportRefused); }
      DropConfirmed(o);
      return Stop(ReportDeferred);
    }

    method WriteIntent(o: Id)
      requires Valid() && item == o && IsIn(Current(), o, Recoverable)
      modifies this`history, store
      ensures Valid() && store.Rows() == BeginDb(old(store.Rows()), o)
    {
      ghost var w := Current();
      store.WriteIntent(o);
      hide Legal, Now, Went, BeginDb;
      Log(w, Step.BeginEviction(o));
    }

    /** `abandon_source_changed` after confirmation: the publication stands. */
    method DropConfirmed(o: Id)
      requires Valid() && item == o && IsIn(Current(), o, Recoverable)
      modifies this`history, store
      ensures Valid() && store.Rows() == SetState(old(store.Rows()), o, Abandoned)
    {
      ghost var w := Current();
      store.SetOccurrenceState(o, Abandoned);
      hide Legal, Now, Went, SetState;
      Log(w, Step.AbandonConfirmed(o));
    }

    /**
     * `_remove` and `_remove_root`: one entry, removed only if nobody holds it
     * open and it is what the intent says; a directory only if it is empty.
     */
    method RemoveEntry(o: Id, rel: string) returns (flow: Flow)
      requires Valid() && item == o && IsIn(Current(), o, Evicting)
      requires o in store.intents && rel in store.intents[o].prints
      modifies this`repo, this`disk, this`clock, this`now, this`history
      ensures Valid() && now >= old(now) && flow in {Go, Stop(ReportRetained), IoFault}
      ensures flow.Go? ==> Abs(store.occs[o].spool, rel) !in disk
      ensures calm ==> repo == old(repo) && flow != IoFault
      ensures calm ==>
                var p := Abs(store.occs[o].spool, rel);
                if p !in old(disk) then flow.Go? && disk == old(disk) && clock == old(clock)
                else if CanUnlink(old(Current()), o, rel)
                then flow.Go? && disk == Without(old(disk), old(clock), p) && clock == old(clock) + 1
                else flow.Stop? && disk == old(disk) && clock == old(clock)
    {
      hide Legal, Now, Went, StillTheEntry, Without, Empty;
      Interfere();
      var p := Abs(store.occs[o].spool, rel);
      if p !in disk { return Go; }
      var clear := AskOwner();
      if !clear { return Stop(ReportRetained); }
      if !CanUnlink(Current(), o, rel) { return Stop(ReportRetained); }
      var failed, unopened: bool := *, *;
      if unopened && !calm { return IoFault; }
      if failed && !calm { return Stop(ReportRetained); }
      WithoutLacks(disk, clock, p);
      Unlink(o, rel);
      return Go;
    }

    method Unlink(o: Id, rel: string)
      requires Valid() && item == o && CanUnlink(Current(), o, rel)
      modifies this`disk, this`clock, this`history
      ensures Valid()
      ensures disk == Without(old(disk), old(clock), Abs(store.occs[o].spool, rel)) && clock == old(clock) + 1
    {
      ghost var w := Current();
      disk, clock := Without(disk, clock, Abs(store.occs[o].spool, rel)), clock + 1;
      hide Legal, Now, Went, CanUnlink, Without;
      Log(w, Step.Unlink(o, rel));
    }

    method FinishIt(o: Id)
      requires Valid() && item == o && CanFinish(Current(), o)
      modifies this`history, store
      ensures Valid() && store.Rows() == FinishDb(old(store.Rows()), o)
    {
      ghost var w := Current();
      store.FinishEviction(o);
      hide Legal, Now, Went, CanFinish, FinishDb;
      Log(w, Step.Finish(o));
    }

    /**
     * `evicting` to `evicted`: the journalled deletion, live or resumed. In a
     * calm run it finishes exactly when what is left is a remainder of the
     * intent in which no two names share a file, and it takes nothing else.
     */
    method RunEviction(o: Id) returns (flow: Flow)
      requires Valid() && item == o && IsIn(Current(), o, Evicting)
      modifies this`repo, this`disk, this`clock, this`now, this`history, store
      ensures Valid() && now >= old(now) && flow in {Go, Stop(ReportRetained), IoFault}
      ensures if flow.Go?
              then IsIn(Current(), o, Evicted) && AttemptsOf(store.Rows(), o) == AttemptsOf(old(store.Rows()), o)
              else store.Rows() == old(store.Rows())
      ensures calm ==>
                var row := old(store.occs)[o];
                && repo == old(repo) && flow != IoFault
                && Shrunk(old(disk), old(clock), row.spool, row.prints, disk, clock)
                && (flow.Go? <==> Clean(old(disk), row.spool, row.prints))
                && (flow.Go? ==> Gone(Current(), o))
    {
      hide Legal, Now, Went, Clean, Shrunk, InDrop, InodesAgree, StrictOrder, FinishDb, Passed, Sorted, Covers, Gone;
      IntentFacts(history, o);
      var spool, prints := store.occs[o].spool, store.intents[o].prints;
      ghost var first, clock0 := disk, clock;
      NothingGoneYet(disk, clock, spool, prints);
      var clear := AskOwner();
      if !clear { return Stop(ReportRetained); }
      Interfere();
      if spool !in disk { flow := Conclude(o, first, clock0); return; }
      clear := AskOwner();
      if !clear { return Stop(ReportRetained); }
      flow := TakeAll(o, first, clock0);
      if flow != Go { return; }
      flow := Conclude(o, first, clock0);
    }

    /** The loop over the entries, deepest first, and then the root. */
    method TakeAll(o: Id, ghost first: Disk, ghost clock0: int) returns (flow: Flow)
      requires Valid() && item == o && IsIn(Current(), o, Evicting) && o in store.intents
      requires "" in store.intents[o].prints && InodesAgree(first)
      requires forall r | r in store.intents[o].prints :: store.intents[o].prints[r].ctime <= clock0
      requires calm ==> Passed(first, clock0, store.occs[o].spool, store.intents[o].prints, [], disk, clock)
      modifies this`repo, this`disk, this`clock, this`now, this`history
      ensures Valid() && now >= old(now) && flow in {Go, Stop(ReportRetained), IoFault}
      ensures calm ==> repo == old(repo) && flow != IoFault
                       && Shrunk(first, clock0, store.occs[o].spool, store.intents[o].prints, disk, clock)
      ensures calm && flow.Go? ==> store.occs[o].spool !in disk
      ensures calm && flow.Stop? ==> !Clean(first, store.occs[o].spool, store.intents[o].prints)
    {
      hide Legal, Now, Went, Clean, Shrunk, InDrop, InodesAgree, StrictOrder, Passed, Sorted, Covers;
      var spool, prints := store.occs[o].spool, store.intents[o].prints;
      DeeperIsStrict();
      var order := SortBy(prints.Keys - {""}, DeeperFirst);
      OrderCovers(order, prints);
      for i := 0 to |order|
        invariant Valid() && now >= old(now)
        invariant calm ==> repo == old(repo) && Passed(first, clock0, spool, prints, order[..i], disk, clock)
      {
        assert order[i] in order && order[..i + 1] == order[..i] + [order[i]];
        flow := TakeTurn(o, order, i, first, clock0);
        if flow != Go { return; }
      }
      assert order[..|order|] == order;
      flow := TakeRoot(o, order, first, clock0);
    }

    /**
     * An item that is no clean remainder - one with two names of one file in it,
     * say - is retained by every one of any number of undisturbed passes.
     */
    method RetainedForGood(o: Id, passes: nat)
      requires Valid() && calm && item == o && IsIn(Current(), o, Evicting)
      requires !Clean(disk, store.occs[o].spool, store.occs[o].prints)
      modifies this`repo, this`disk, this`clock, this`now, this`history, store
      ensures Valid() && store.Rows() == old(store.Rows()) && IsIn(Current(), o, Evicting)
      ensures !Clean(disk, store.occs[o].spool, store.occs[o].prints)
    {
      hide Legal, Now, Went, Clean, Shrunk, InDrop, InodesAgree;
      for i := 0 to passes
        invariant Valid() && store.Rows() == old(store.Rows()) && IsIn(Current(), o, Evicting)
        invariant !Clean(disk, store.occs[o].spool, store.occs[o].prints)
      {
        IntentFacts(history, o);
        ghost var first, clock0 := disk, clock;
        var flow := RunEviction(o);
        assert flow.Stop?;
        DirtStays(first, clock0, store.occs[o].spool, store.occs[o].prints, disk, clock);
      }
    }

    method TakeTurn(o: Id, order: seq<string>, i: nat, ghost first: Disk, ghost clock0: int) returns (flow: Flow)
      requires Valid() && item == o && IsIn(Current(), o, Evicting) && o in store.intents
      requires i < |order| && order[i] in store.intents[o].prints && Covers(order, store.intents[o].prints)
      requires Sorted(order, DeeperFirst)
      requires calm ==> Passed(first, clock0, store.occs[o].spool, store.intents[o].prints, order[..i], disk, clock)
      requires InodesAgree(first)
      requires forall r | r in store.intents[o].prints :: store.intents[o].prints[r].ctime <= clock0
      modifies this`repo, this`disk, this`clock, this`now, this`history
      ensures Valid() && now >= old(now) && flow in {Go, Stop(ReportRetained), IoFault}
      ensures calm ==> repo == old(repo) && flow != IoFault
                       && Shrunk(first, clock0, store.occs[o].spool, store.intents[o].prints, disk, clock)
      ensures calm && flow.Go? ==>
                Passed(first, clock0, store.occs[o].spool, store.intents[o].prints, order[..i] + [order[i]],
                       disk, clock)
      ensures calm && flow.Stop? ==> !Clean(first, store.occs[o].spool, store.intents[o].prints)
    {
      hide Legal, Now, Went, Clean, Shrunk, InDrop, InodesAgree, CanUnlink, Without, Passed, Sorted, Covers;
      IntentFacts(history, o);
      if calm { TurnDone(Current(), o, order, i, first, clock0); }
      flow := RemoveEntry(o, order[i]);
    }

    method TakeRoot(o: Id, order: seq<string>, ghost first: Disk, ghost clock0: int) returns (flow: Flow)
      requires Valid() && item == o && IsIn(Current(), o, Evicting) && o in store.intents
      requires "" in store.intents[o].prints && Covers(order, store.intents[o].prints)
      requires calm ==> Passed(first, clock0, store.occs[o].spool, store.intents[o].prints, order, disk, clock)
      requires InodesAgree(first)
      requires forall r | r in store.intents[o].prints :: store.intents[o].prints[r].ctime <= clock0
      modifies this`repo, this`disk, this`clock, this`now, this`history
      ensures Valid() && now >= old(now) && flow in {Go, Stop(ReportRetained), IoFault}
      ensures calm ==> repo == old(repo) && flow != IoFault
                       && Shrunk(first, clock0, store.occs[o].spool, store.intents[o].prints, disk, clock)
      ensures calm && flow.Go? ==> store.occs[o].spool !in disk
      ensures calm && flow.Stop? ==> !Clean(first, store.occs[o].spool, store.intents[o].prints)
    {
      hide Legal, Now, Went, Clean, Shrunk, InDrop, InodesAgree, CanUnlink, Without, Covers;
      IntentFacts(history, o);
      if calm { RootIsFree(Current(), o, order); TurnTaken(Current(), o, "", first, clock0); }
      flow := RemoveEntry(o, "");
    }

    /** `_finish`, once the root is gone. */
    method Conclude(o: Id, ghost first: Disk, ghost clock0: int) returns (flow: Flow)
      requires Valid() && item == o && IsIn(Current(), o, Evicting) && o in store.intents
      requires calm ==> store.occs[o].spool !in disk
                        && Shrunk(first, clock0, store.occs[o].spool, store.intents[o].prints, disk, clock)
      modifies this`history, store
      ensures Valid() && flow == Go && IsIn(Current(), o, Evicted)
      ensures AttemptsOf(store.Rows(), o) == AttemptsOf(old(store.Rows()), o)
      ensures calm ==> Gone(Current(), o)
                       && Clean(first, old(store.occs)[o].spool, old(store.intents)[o].prints)
    {
      IntentFacts(history, o);
      hide Legal, Now, Went, Clean, Shrunk, InDrop, InodesAgree;
      if calm {
        RootlessIsEmpty(disk, drop, store.occs[o].spool);
        FinishedWasClean(first, clock0, store.occs[o].spool, store.intents[o].prints, disk, clock);
      }
      FinishIt(o);
      flow := Go;
    }

    // ---- the state machine --------------------------------------------------------------------------

    /** One turn of the loop, for an occurrence that is neither evicted nor abandoned. */
    method Stage(o: Id) returns (flow: Flow)
      requires Valid() && item == o && o in store.occs && Active(store.occs[o].state)
      requires store.occs[o].state == Recorded ==> o !in trace.started
      modifies this`repo, this`disk, this`clock, this`now, this`history, this`trace, this`backups, store
      ensures Valid() && now >= old(now) && o in store.occs
      ensures !flow.Go? ==> Unfinished(flow, o)
      ensures flow.Go? ==> Ahead(store.Rows(), o) < Ahead(old(store.Rows()), o)
      ensures if old(store.occs)[o].state == Recorded && !HasPending(old(store.Rows()), o)
              then && OneMore(old(backups), backups, old(store.attempts))
                   && (flow.Go? ==> store.occs[o].state == Transferred)
                   && old(trace.started) <= trace.started <= old(trace.started) + {o}
              else backups == old(backups) && trace == old(trace)
      ensures calm && Steady(old(Current()), o) ==>
                && Course(Current(), o, AttemptsOf(old(store.Rows()), o), flow)
                && (old(OnTrack(Current(), o)) ==> flow.Go? && OnTrack(Current(), o))
      ensures calm && Steady(old(Current()), o) && Fits(old(store.Rows()), o, old(now)) ==>
                flow.Go? && OnTrack(Current(), o)
    {
      hide Legal, Now, Went, Steady, Perfect, AttemptsOf, HasPending, RetryState, Gone;
      match store.occs[o].state
      case Recorded =>
        flow := Publish(o);
      case Transferred => flow := VerifyStep(o);
      case Verified => flow := Prove(o);
      case Recoverable => flow := Intend(o);
      case Evicting =>
        SteadyIsClean(Current(), o);
        flow := RunEviction(o);
    }

    lemma FitsStarts(db: Db, o: Id, at: int)
      ensures Fits(db, o, at) ==> o in db.occs && Active(db.occs[o].state)
    {}

    /** Recorded, nothing pending, and the budget and the backoff let a new attempt start. */
    predicate Fits(db: Db, o: Id, at: int) {
      && o in db.occs && db.occs[o].state == Recorded && !HasPending(db, o)
      && RetryState(db, o, budget, backoff, at, insist) == Ready
    }

    /** `_fail_pending` after a fault, then the item's one event. */
    method Conclusion(o: Id, flow: Flow)
      requires Valid() && item == o && o in store.occs && (!flow.Go? ==> Unfinished(flow, o))
      modifies this`history, this`report, store
      ensures Valid() && o in store.occs
      ensures |report| == |old(report)| + 1 && old(report) <= report && report[|old(report)|].occ == Some(o)
      ensures flow.Go? || flow.Stop? ==> store.Rows() == old(store.Rows())
      ensures !flow.Go? && !flow.Stop? ==> !HasPending(store.Rows(), o)
      ensures report[|old(report)|].ending == ReportArchived <==> store.occs[o].state == Evicted
      ensures Leaves(store.occs[o].state, HasPending(store.Rows(), o), report[|old(report)|].ending)
    {
      hide Legal, Now, Went, FailDb, HasPending;
      var ending := ReportRefused;
      match flow {
        case Go => if store.occs[o].state == Evicted { ending := ReportArchived; }
        case Stop(e) => ending := e;
        case _ =>
          var pending := PendingAttempt(o);
          if pending.Some? {
            SolePending(history, o, pending.value);
            FailedIsIdle(store.Rows(), pending.value, now, Recorded);
            FailAttempt(pending.value);
          }
      }
      report := report + [Event(Some(o), ending)];
    }

    /**
     * One item, worked until it is evicted, reported, or interrupted by a fault:
     * at most seven turns, at most one backup, exactly one event - "archived"
     * exactly when the item is evicted.
     */
    method Advance(o: Id)
      requires Valid() && o in store.occs && o !in trace.started
      modifies this`repo, this`disk, this`clock, this`now, this`history, this`trace, this`backups, store
      modifies this`item, this`base, this`report
      ensures Valid() && now >= old(now) && item == o && base == old(history) && o in store.occs
      ensures |report| == |old(report)| + 1 && old(report) <= report && report[|old(report)|].occ == Some(o)
      ensures report[|old(report)|].ending == ReportArchived <==> store.occs[o].state == Evicted
      ensures Leaves(store.occs[o].state, HasPending(store.Rows(), o), report[|old(report)|].ending)
      ensures OneMore(old(backups), backups, old(store.attempts))
      ensures old(trace.started) <= trace.started <= old(trace.started) + {o}
      ensures calm && Steady(old(Current()), o) ==>
                Gone(Current(), o) || Idle(Current(), o, AttemptsOf(old(store.Rows()), o))
      ensures calm && Steady(old(Current()), o) && Fits(old(store.Rows()), o, old(now)) ==> Gone(Current(), o)
    {
      hide Legal, Now, Went, Evolves, Steady, Idle, AttemptsOf, Gone, Fits, Course, HasPending, Leaves;
      StayedPut(history, o, calm);
      item, base := o, history;
      ghost var spent := AttemptsOf(store.Rows(), o);
      var flow, _ := Turns(o);
      ghost var reached := Current();
      CourseEnds(reached, o, spent, flow);
      Conclusion(o, flow);
      assert flow.Go? || flow.Stop? ==> Current() == reached;
    }

    /** The loop. */
    method Turns(o: Id) returns (flow: Flow, turns: nat)
      requires Valid() && item == o && base == history && o in store.occs && o !in trace.started
      modifies this`repo, this`disk, this`clock, this`now, this`history, this`trace, this`backups, store
      ensures Valid() && now >= old(now) && turns <= 7
      ensures o in store.occs && if flow.Go? then !Active(store.occs[o].state) else Unfinished(flow, o)
      ensures OneMore(old(backups), backups, old(store.attempts))
      ensures old(trace.started) <= trace.started <= old(trace.started) + {o}
      ensures calm && Steady(old(Current()), o) ==>
                (flow.Go? || flow.Stop?) && Course(Current(), o, AttemptsOf(old(store.Rows()), o), flow)
      ensures calm && Steady(old(Current()), o) && Fits(old(store.Rows()), o, old(now)) ==> flow.Go?
    {
      hide Legal, Now, Went, Evolves, Steady, Idle, Perfect, AttemptsOf, RetryState, Gone, OnTrack, Fits, HasPending,
           Course;
      ghost var start, since, spent := Current(), now, AttemptsOf(store.Rows(), o);
      CourseStarts(start, o);
      FitsStarts(start.db, o, since);
      turns := 0;
      flow := Go;
      while flow == Go && Active(store.occs[o].state)
        invariant Valid() && now >= old(now) && o in store.occs && (flow != Go ==> Unfinished(flow, o))
        invariant turns <= 7 && (flow == Go ==> turns + Ahead(store.Rows(), o) <= 7)
        invariant OneMore(old(backups), backups, old(store.attempts))
        invariant old(trace.started) <= trace.started <= old(trace.started) + {o}
        invariant flow == Go && (backups != old(backups) || o in trace.started) ==> store.occs[o].state != Recorded
        invariant turns == 0 ==> Current() == start && now == since && flow == Go
        invariant calm && Steady(start, o) ==> (flow.Go? || flow.Stop?) && Course(Current(), o, spent, flow)
        invariant calm && Steady(start, o) && Fits(start.db, o, since) && turns > 0 ==>
                    flow.Go? && OnTrack(Current(), o)
        decreases if flow == Go then Ahead(store.Rows(), o) else 0
      {
        RowsAreKept(base, history, o, calm);
        ghost var w := Current();
        flow := Stage(o);
        turns := turns + 1;
        CourseOn(w, Current(), o, spent, flow);
        CourseGoes(Current(), o, spent, flow);
      }
    }
  }
}
