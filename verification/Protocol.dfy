/**
 * The publish-prove-delete protocol as a transition system.
 *
 * A step is one committed unit: a transaction of the store, one autocommitted
 * update, one snapshot appearing in the repository, one entry leaving the drop
 * folder, or one edit by somebody else. A crash needs no step of its own: every
 * prefix of a history is a history, and whatever runs next begins with nothing
 * but the durable stores the prefix left.
 */
module Protocol {
  import opened Wrappers
  import opened States
  import opened Paths
  import opened Records
  import opened Order

  /** `drop` is the drop folder's path and `budget` the configured `max_attempts`. */
  datatype World = World(db: Db, repo: map<SnapId, Snap>, disk: Disk, clock: int,
                         drop: string, budget: nat)

  datatype Step =
    // a new process, and its calls of the backup engine
    | Begin(insist: bool)
    | Call(attempt: Id)
    // dropin/store/records.py, dropin/pipeline/attempts.py and drain.py
    | Record(occ: Id, row: Occ)
    | StartAttempt(attempt: Id, occ: Id, exhausted: bool)
    | SetDigest(attempt: Id)
    | Adopt(attempt: Id, snap: SnapId)
    | Fail(attempt: Id, at: int)
    | Duplicate(attempt: Id, snaps: set<SnapId>, at: int)
    | Transfer(attempt: Id)
    | Verify(attempt: Id)
    | Confirm(attempt: Id, at: int)
    | Abandon(attempt: Id, at: int)
    | AbandonConfirmed(occ: Id)
    | Observe(snap: SnapId)
    | Reobserve(attempt: Id, snaps: set<SnapId>)
    | BeginEviction(occ: Id)
    | Unlink(occ: Id, rel: string)
    | Finish(occ: Id)
    // the repository and everybody else
    | Publish(snap: SnapId, attempt: Id, time: int, tree: map<string, Source>, catalog: Option<Export>)
    | Foreign(snap: SnapId, content: Snap)
    | Edit(disk: Disk, clock: int)

  // ---- the drop folder under edits -------------------------------------------

  /**
   * What anybody may do to the drop folder. A changed entry carries a change
   * time later than every time seen so far; an entry that merely moved keeps
   * its own, but then a directory above its new place was changed.
   */
  predicate LegalEdit(disk: Disk, clock: int, disk': Disk, clock': int) {
    && clock <= clock' && InodesAgree(disk')
    && forall p | p in disk' ::
         && disk'[p].ctime <= clock'
         && (|| disk'[p].ctime > clock
             || (p in disk && disk[p] == disk'[p])
             || (&& disk'[p] in disk.Values
                 && exists a | a in disk' :: Below(p, a) && disk'[a].ctime > clock))
  }

  predicate SameInode(m: Node, n: Node) {
    m.inode == n.inode && m.dev == n.dev
  }

  /** Two names of one inode show one entry. */
  predicate InodesAgree(disk: Disk) {
    forall p, q | p in disk && q in disk :: SameInode(disk[p], disk[q]) ==> disk[p] == disk[q]
  }

  /** A tree of entries below the folder: real names, in directories that exist. */
  predicate InDrop(disk: Disk, drop: string) {
    forall p | p in disk :: Placed(disk, drop, p)
  }

  predicate Placed(disk: Disk, drop: string, p: string) {
    && Below(p, drop) && Absolute(p)
    && (Parent(p) == drop || (Parent(p) in disk && disk[Parent(p)].body.DirBody?))
  }

  predicate SameStamp(n: Node, p: Print) {
    n.ctime == p.ctime && n.inode == p.inode && n.dev == p.dev
  }

  /**
   * One entry unlinked: its parent directory and the other names of its inode
   * get a new change time, nothing else moves.
   */
  function Without(disk: Disk, clock: int, p: string): Disk
    requires p in disk
  {
    map q | q in disk && q != p ::
      if SameInode(disk[q], disk[p]) || (Parent(p) in disk && SameInode(disk[q], disk[Parent(p)]))
      then disk[q].(ctime := clock + 1) else disk[q]
  }

  predicate Empty(disk: Disk, dir: string) {
    forall q | q in disk :: !Below(q, dir)
  }

  // ---- captured items ----------------------------------------------------------

  function RowOf(rel: string, e: Entry): Row {
    Row(rel, e.etype, e.size, e.sha, e.target)
  }

  /** The manifest's lines, in path order. */
  function Manifest(entries: map<string, Entry>): seq<Row> {
    var names := Ordered(entries.Keys);
    seq(|names|, i requires 0 <= i < |names| =>
      assert names[i] in names; RowOf(names[i], entries[names[i]]))
  }

  function RootOf(kind: Kind, entries: map<string, Entry>): RootHash
    requires "" in entries
  {
    if kind == FileKind then FileRoot(entries[""].sha) else TreeRoot(Manifest(entries))
  }

  /** The manifest of one walked item. */
  predicate ItemShape(row: Occ) {
    && "" in row.entries && row.prints.Keys == row.entries.Keys && row.count == |row.entries|
    && (row.kind == FileKind <==> row.entries[""].etype != DirEntry)
    && (row.kind == FileKind ==> row.entries.Keys == {""})
    && row.root == RootOf(row.kind, row.entries)
    && (forall rel | rel in row.entries :: RowShape(row, rel))
    && Absolute(row.spool)
  }

  predicate RowShape(row: Occ, rel: string)
    requires "" in row.entries && row.prints.Keys == row.entries.Keys && rel in row.entries
  {
    var e, p := row.entries[rel], row.prints[rel];
    && e.etype == p.etype && e.size == p.size && e.target == p.target
    && (e.etype == FileEntry <==> e.sha.Some?)
    && (e.sha.Some? ==> e.size == Some(|e.sha.value.content|))
    && (e.etype == LinkEntry <==> e.target.Some?)
    && (rel != "" ==> Plain(rel) && Parent(rel) in row.entries
                      && row.entries[Parent(rel)].etype == DirEntry)
  }

  /**
   * The recorded hash is of the bytes the recorded stamp denotes: whatever file
   * carries that stamp, now or later, holds exactly the hashed bytes.
   */
  predicate Captured(row: Occ, disk: Disk, clock: int) {
    && row.prints.Keys == row.entries.Keys
    && (forall rel | rel in row.prints :: row.prints[rel].ctime <= clock)
    && forall rel, q | rel in row.prints && q in disk ::
         SameStamp(disk[q], row.prints[rel]) && disk[q].body.FileBody?
         && row.entries[rel].etype == FileEntry ==>
           row.entries[rel].sha == Some(Sha256(disk[q].body.content))
  }

  // ---- store updates, one function per transaction -----------------------------

  function ExportOf(db: Db, a: Id): Export
    requires a in db.attempts
  {
    var att := db.attempts[a];
    Export([LineageRow(db.store, att.seqno, att.occ, a)], db)
  }

  function SetState(db: Db, o: Id, s: State): Db
    requires o in db.occs
  {
    db.(occs := db.occs[o := db.occs[o].(state := s)])
  }

  function FinishAttempt(db: Db, a: Id, outcome: Outcome, at: int): Db
    requires a in db.attempts
  {
    db.(attempts := db.attempts[a := db.attempts[a].(outcome := outcome, finished := at)])
  }

  function SetStatus(db: Db, s: Option<SnapId>, status: Status): Db {
    if s.Some? && s.value in db.ledger
    then db.(ledger := db.ledger[s.value := db.ledger[s.value].(status := status)]) else db
  }

  function StartDb(db: Db, a: Id, o: Id): Db {
    db.(seqno := db.seqno + 1,
        attempts := db.attempts[a := Attempt(db.store, o, db.seqno + 1, None, None, Pending, 0)])
  }

  function DigestDb(db: Db, a: Id): Db
    requires a in db.attempts
  {
    db.(attempts := db.attempts[a := db.attempts[a].(digest := Some(CatalogSha(ExportOf(db, a))))])
  }

  function Observations(snaps: set<SnapId>, id: Identity, status: Status): map<SnapId, Ledgered> {
    map s | s in snaps :: Ledgered(id, status)
  }

  function ObserveDb(db: Db, snaps: set<SnapId>, id: Identity, status: Status): Db {
    db.(ledger := db.ledger + Observations(snaps, id, status))
  }

  function BindDb(db: Db, a: Id, s: SnapId): Db
    requires a in db.attempts
  {
    db.(attempts := db.attempts[a := db.attempts[a].(snapshot := Some(s))])
  }

  function AdoptDb(db: Db, a: Id, s: SnapId): Db
    requires OwnAttempt(db, a) && db.attempts[a].digest.Some?
  {
    ObserveDb(BindDb(db, a, s), {s}, OwnIdentity(db, a), SnapPending)
  }

  function FailDb(db: Db, a: Id, at: int, to: State): Db
    requires OwnAttempt(db, a)
  {
    var att := db.attempts[a];
    SetState(SetStatus(FinishAttempt(db, a, Failed, at), att.snapshot, SnapOrphaned), att.occ, to)
  }

  function DuplicateDb(db: Db, a: Id, snaps: set<SnapId>, at: int): Db
    requires OwnAttempt(db, a) && db.attempts[a].digest.Some?
  {
    var d := ObserveDb(db, snaps, OwnIdentity(db, a), SnapOrphaned);
    SetState(FinishAttempt(d, a, Failed, at), db.attempts[a].occ, Recorded)
  }

  function ConfirmDb(db: Db, a: Id, at: int): Db
    requires OwnAttempt(db, a) && db.attempts[a].snapshot.Some?
  {
    var att := db.attempts[a];
    PublishedDb(SetStatus(FinishAttempt(db, a, Confirmed, at), att.snapshot, SnapConfirmed),
                att.occ, a, att.seqno)
  }

  function PublishedDb(db: Db, o: Id, a: Id, seqno: nat): Db
    requires o in db.occs
  {
    db.(occs := db.occs[o := db.occs[o].(state := Recoverable, confirmed := Some(a))],
        frontier := if db.frontier < seqno then seqno else db.frontier)
  }

  function BeginDb(db: Db, o: Id): Db
    requires o in db.occs
  {
    SetState(db, o, Evicting).(intents := db.intents[o := Intent(db.occs[o].prints, false)])
  }

  function FinishDb(db: Db, o: Id): Db
    requires o in db.occs
  {
    SetState(db, o, Evicted).(intents := db.intents - {o})
  }

  predicate OwnAttempt(db: Db, a: Id) {
    a in db.attempts && db.attempts[a].occ in db.occs
  }

  function OwnIdentity(db: Db, a: Id): Identity
    requires OwnAttempt(db, a) && db.attempts[a].digest.Some?
  {
    IdentityOf(db.attempts[a], a, db.occs[db.attempts[a].occ].kind)
  }

  // ---- guards and effects --------------------------------------------------------

  predicate HasPending(db: Db, o: Id) {
    exists a | a in db.attempts :: db.attempts[a].occ == o && db.attempts[a].outcome == Pending
  }

  function AttemptsOf(db: Db, o: Id): set<Id> {
    set a | a in db.attempts && db.attempts[a].occ == o
  }

  function FailuresOf(db: Db, o: Id): set<Id> {
    set a | a in db.attempts && db.attempts[a].occ == o && db.attempts[a].outcome == Failed
  }

  predicate IsPending(db: Db, a: Id) {
    OwnAttempt(db, a) && db.attempts[a].outcome == Pending
  }

  function StateOf(db: Db, a: Id): State
    requires OwnAttempt(db, a)
  {
    db.occs[db.attempts[a].occ].state
  }

  /** `snaps` carry exactly the tags this attempt published under. */
  predicate Bears(w: World, snaps: set<SnapId>, a: Id) {
    && OwnAttempt(w.db, a) && w.db.attempts[a].digest.Some?
    && forall s | s in snaps :: s in w.repo && w.repo[s].tags == Canonical(OwnIdentity(w.db, a))
  }

  /** Payload verification passed for the attempt's own snapshot. */
  predicate PayloadProven(w: World, a: Id) {
    && OwnAttempt(w.db, a) && w.db.attempts[a].snapshot.Some?
    && w.db.attempts[a].snapshot.value in w.repo
    && var occ := w.db.occs[w.db.attempts[a].occ];
       PlainRoot(occ.entries) && SameTree(w.repo[w.db.attempts[a].snapshot.value].tree, occ.spool, occ.entries)
  }

  /** The snapshot's own catalog export proved itself. */
  predicate RemoteCatalogProven(w: World, a: Id) {
    && OwnAttempt(w.db, a) && w.db.attempts[a].snapshot.Some?
    && w.db.attempts[a].snapshot.value in w.repo
    && var att := w.db.attempts[a];
       CatalogProven(w.repo[att.snapshot.value], att.digest, w.db.occs[att.occ], att.occ)
  }

  predicate ForeignTags(tags: SnapTags, store: StoreId) {
    tags.Canonical? ==> tags.id.store != store && tags.id.attempt.store == tags.id.store
  }

  predicate CanRecord(w: World, o: Id, row: Occ) {
    && o !in w.db.occs && o.store == w.db.store && row.origin == w.db.store
    && row.state == Recorded && row.confirmed == None
    && ItemShape(row) && Captured(row, w.disk, w.clock)
    && Parent(row.spool) == w.drop
    && forall x | x in w.db.occs :: Active(w.db.occs[x].state) ==> w.db.occs[x].spool != row.spool
  }

  /** One attempt at a time, and only while the budget lasts (or an operator insists). */
  predicate CanStart(w: World, a: Id, o: Id, exhausted: bool) {
    && a !in w.db.attempts && a.store == w.db.store
    && o in w.db.occs && w.db.occs[o].state == Recorded
    && AttemptsOf(w.db, o) == FailuresOf(w.db, o)
    && (|FailuresOf(w.db, o)| < w.budget || exhausted)
  }

  /** The export is made and its digest written before another attempt is numbered. */
  predicate CanDigest(w: World, a: Id) {
    IsPending(w.db, a) && w.db.attempts[a].digest == None && w.db.attempts[a].seqno == w.db.seqno
  }

  predicate CanCall(w: World, a: Id) {
    IsPending(w.db, a) && w.db.attempts[a].digest.Some?
  }

  predicate CanBind(w: World, snaps: set<SnapId>, a: Id) {
    IsPending(w.db, a) && w.db.attempts[a].snapshot == None && Bears(w, snaps, a)
  }

  predicate CanTransfer(w: World, a: Id) {
    IsPending(w.db, a) && StateOf(w.db, a) == Recorded && w.db.attempts[a].snapshot.Some?
  }

  predicate CanVerify(w: World, a: Id) {
    IsPending(w.db, a) && StateOf(w.db, a) == Transferred && PayloadProven(w, a)
  }

  predicate CanConfirm(w: World, a: Id) {
    IsPending(w.db, a) && StateOf(w.db, a) == Verified && RemoteCatalogProven(w, a)
  }

  predicate CanAbandon(w: World, a: Id) {
    IsPending(w.db, a) && StateOf(w.db, a) in {Recorded, Transferred}
  }

  predicate IsIn(w: World, o: Id, s: State) {
    o in w.db.occs && w.db.occs[o].state == s
  }

  predicate CanObserve(w: World, s: SnapId) {
    && s in w.repo && s !in w.db.ledger && w.repo[s].tags.Canonical?
    && w.repo[s].tags.id.store == w.db.store && MatchingAttempt(w.db, w.repo[s].tags.id)
  }

  predicate CanReobserve(w: World, a: Id, snaps: set<SnapId>) {
    IsPending(w.db, a) && Bears(w, snaps, a)
  }

  predicate CanUnlink(w: World, o: Id, rel: string) {
    && IsIn(w, o, Evicting) && o in w.db.intents && rel in w.db.intents[o].prints
    && var p := Abs(w.db.occs[o].spool, rel);
    && p in w.disk && StillTheEntry(w.disk[p], w.db.intents[o].prints[rel])
    && (w.disk[p].body.DirBody? ==> Empty(w.disk, p))
  }

  predicate CanFinish(w: World, o: Id) {
    IsIn(w, o, Evicting) && o in w.db.intents
  }

  predicate CanPublish(w: World, s: SnapId, a: Id) {
    s !in w.repo && OwnAttempt(w.db, a) && w.db.attempts[a].digest.Some?
  }

  predicate CanEdit(w: World, disk': Disk, clock': int) {
    LegalEdit(w.disk, w.clock, disk', clock') && InDrop(disk', w.drop)
  }

  predicate Enabled(w: World, step: Step) {
    match step
    case Begin(_) => true
    case Call(a) => CanCall(w, a)
    case Record(o, row) => CanRecord(w, o, row)
    case StartAttempt(a, o, exhausted) => CanStart(w, a, o, exhausted)
    case SetDigest(a) => CanDigest(w, a)
    case Adopt(a, s) => CanBind(w, {s}, a)
    case Fail(a, at) => IsPending(w.db, a)
    case Duplicate(a, snaps, at) => CanBind(w, snaps, a)
    case Transfer(a) => CanTransfer(w, a)
    case Verify(a) => CanVerify(w, a)
    case Confirm(a, at) => CanConfirm(w, a)
    case Abandon(a, at) => CanAbandon(w, a)
    case AbandonConfirmed(o) => IsIn(w, o, Recoverable)
    case Observe(s) => CanObserve(w, s)
    case Reobserve(a, snaps) => CanReobserve(w, a, snaps)
    case BeginEviction(o) => IsIn(w, o, Recoverable)
    case Unlink(o, rel) => CanUnlink(w, o, rel)
    case Finish(o) => CanFinish(w, o)
    case Publish(s, a, time, tree, catalog) => CanPublish(w, s, a)
    case Foreign(s, content) => s !in w.repo && ForeignTags(content.tags, w.db.store)
    case Edit(disk', clock') => CanEdit(w, disk', clock')
  }

  function RecordDb(db: Db, o: Id, row: Occ): Db {
    db.(occs := db.occs[o := row])
  }

  function Unlinked(w: World, p: string): World
    requires p in w.disk
  {
    w.(disk := Without(w.disk, w.clock, p), clock := w.clock + 1)
  }

  function WithSnap(w: World, s: SnapId, content: Snap): World {
    w.(repo := w.repo[s := content])
  }

  function Do(w: World, step: Step): World
    requires Enabled(w, step)
  {
    match step
    case Begin(_) => w
    case Call(_) => w
    case Record(o, row) => w.(db := RecordDb(w.db, o, row))
    case StartAttempt(a, o, exhausted) => w.(db := StartDb(w.db, a, o))
    case SetDigest(a) => w.(db := DigestDb(w.db, a))
    case Adopt(a, s) => w.(db := AdoptDb(w.db, a, s))
    case Fail(a, at) => w.(db := FailDb(w.db, a, at, Recorded))
    case Duplicate(a, snaps, at) => w.(db := DuplicateDb(w.db, a, snaps, at))
    case Transfer(a) => w.(db := SetState(w.db, w.db.attempts[a].occ, Transferred))
    case Verify(a) => w.(db := SetState(w.db, w.db.attempts[a].occ, Verified))
    case Confirm(a, at) => w.(db := ConfirmDb(w.db, a, at))
    case Abandon(a, at) => w.(db := FailDb(w.db, a, at, Abandoned))
    case AbandonConfirmed(o) => w.(db := SetState(w.db, o, Abandoned))
    case Observe(s) => w.(db := ObserveDb(w.db, {s}, w.repo[s].tags.id, SnapPending))
    case Reobserve(a, snaps) => w.(db := ObserveDb(w.db, snaps, OwnIdentity(w.db, a), SnapPending))
    case BeginEviction(o) => w.(db := BeginDb(w.db, o))
    case Unlink(o, rel) => Unlinked(w, Abs(w.db.occs[o].spool, rel))
    case Finish(o) => w.(db := FinishDb(w.db, o))
    case Publish(s, a, time, tree, catalog) =>
      WithSnap(w, s, Snap(Canonical(OwnIdentity(w.db, a)), time, tree, catalog))
    case Foreign(s, content) => WithSnap(w, s, content)
    case Edit(disk', clock') => w.(disk := disk', clock := clock')
  }

  // ---- histories -------------------------------------------------------------------

  datatype History = Start(w: World) | Then(past: History, step: Step)

  /**
   * What the running process remembers - whether the operator insists, which
   * occurrences it started an attempt of, which of these it has yet to back up -
   * and what no process need remember: the attempts ever backed up.
   */
  datatype Trace = Trace(insist: bool, started: set<Id>, waiting: set<Id>, called: set<Id>)

  function Traced(h: History): Trace {
    match h
    case Start(_) => Trace(false, {}, {}, {})
    case Then(past, step) => After(Traced(past), step)
  }

  function After(t: Trace, step: Step): Trace {
    match step
    case Begin(insist) => Trace(insist, {}, {}, t.called)
    case Call(a) => t.(waiting := t.waiting - {a}, called := t.called + {a})
    case StartAttempt(a, o, _) => t.(started := t.started + {o}, waiting := t.waiting + {a})
    case _ => t
  }

  /**
   * A process deals with an occurrence once, insists only if told to, and calls
   * the engine right after it made the attempt; the engine archives when called.
   */
  predicate Permitted(t: Trace, step: Step) {
    match step
    case Call(a) => a in t.waiting
    case StartAttempt(_, o, exhausted) => o !in t.started && (exhausted ==> t.insist)
    case Publish(_, a, _, _, _) => a in t.called
    case _ => true
  }

  /** A store just initialised over a repository that holds nothing of its own. */
  predicate Fresh(w: World) {
    && w.db.seqno == 0 && w.db.frontier == 0
    && w.db.occs == map[] && w.db.attempts == map[] && w.db.ledger == map[] && w.db.intents == map[]
    && (forall s | s in w.repo :: ForeignTags(w.repo[s].tags, w.db.store))
    && (forall p | p in w.disk :: w.disk[p].ctime <= w.clock)
    && InodesAgree(w.disk) && InDrop(w.disk, w.drop)
  }

  ghost predicate Legal(h: History)
    decreases h, 0
  {
    match h
    case Start(w) => Fresh(w)
    case Then(past, step) => Legal(past) && Enabled(Now(past), step) && Permitted(Traced(past), step)
  }

  ghost function Now(h: History): World
    requires Legal(h)
    decreases h, 1
  {
    match h
    case Start(w) => w
    case Then(past, step) => Do(Now(past), step)
  }
}
