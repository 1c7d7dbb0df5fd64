/**
 * The three durable stores that a crash can separate: the local store's rows,
 * the repository's snapshots and the drop folder's entries, all as values.
 *
 * SHA-256 is taken to be injective: a digest is the constructor applied to what
 * was hashed.
 */
module Records {
  import opened Wrappers
  import opened States
  import opened Paths

  newtype byte = x: int | 0 <= x < 256
  type Bytes = seq<byte>

  type StoreId = string
  type SnapId = string
  datatype Id = Id(store: StoreId, ulid: string)

  datatype Kind = FileKind | DirKind | BundleKind
  datatype EntryType = FileEntry | DirEntry | LinkEntry
  datatype Sha = Sha256(content: Bytes)

  /** One row of the expected manifest. */
  datatype Entry = Entry(etype: EntryType, size: Option<nat>, sha: Option<Sha>,
                         target: Option<string>, mode: nat)

  /** One row of the source fingerprint. */
  datatype Print = Print(etype: EntryType, size: Option<nat>, mtime: int, ctime: int,
                         inode: nat, dev: nat, target: Option<string>)

  /** One line of the canonical manifest: an entry's path and hashed fields. */
  datatype Row = Row(rel: string, etype: EntryType, size: Option<nat>, sha: Option<Sha>,
                     target: Option<string>)

  /** The digest of an item's content: one file's hash, or its manifest's. */
  datatype RootHash = FileRoot(sha: Option<Sha>) | TreeRoot(rows: seq<Row>)

  datatype Occ = Occ(origin: StoreId, item: string, archive: string, kind: Kind,
                     spool: string, root: RootHash, count: nat,
                     entries: map<string, Entry>, prints: map<string, Print>,
                     state: State, confirmed: Option<Id>)

  datatype Outcome = Pending | Confirmed | Failed

  datatype Attempt = Attempt(origin: StoreId, occ: Id, seqno: nat, digest: Option<Digest>,
                             snapshot: Option<SnapId>, outcome: Outcome, finished: int)

  /** The six identity values a snapshot's reserved tags carry. */
  datatype Identity = Identity(store: StoreId, occ: Id, attempt: Id, seqno: nat, kind: Kind,
                               digest: Digest)

  datatype Status = SnapPending | SnapConfirmed | SnapOrphaned
  datatype Ledgered = Ledgered(identity: Identity, status: Status)
  datatype Intent = Intent(prints: map<string, Print>, recovered: bool)

  datatype Db = Db(store: StoreId, seqno: nat, frontier: nat, lineage: map<StoreId, nat>,
                   occs: map<Id, Occ>, attempts: map<Id, Attempt>,
                   ledger: map<SnapId, Ledgered>, intents: map<Id, Intent>)

  /** A catalog export: a copy of the store and its single lineage row. */
  datatype LineageRow = LineageRow(store: StoreId, seqno: nat, occ: Id, attempt: Id)
  datatype Export = Export(rows: seq<LineageRow>, db: Db)
  datatype Digest = CatalogSha(catalog: Export)

  // ---- the repository ------------------------------------------------------

  datatype Source = SourceFile(content: Bytes) | SourceDir | SourceLink(target: string)

  /** Reserved tags, parsed: see module Tags for the strings themselves. */
  datatype SnapTags = Canonical(id: Identity) | Malformed

  datatype Snap = Snap(tags: SnapTags, time: int, tree: map<string, Source>,
                       catalog: Option<Export>)

  // ---- the drop folder -----------------------------------------------------

  datatype Body = FileBody(content: Bytes) | DirBody | LinkBody(target: string) | SpecialBody

  datatype Node = Node(body: Body, mode: nat, mtime: int, ctime: int, inode: nat, dev: nat)

  type Disk = map<string, Node>

  /** What `lstat` reports of an entry; special entries have no fingerprint. */
  function PrintOf(n: Node): Print
    requires !n.body.SpecialBody?
  {
    match n.body
    case FileBody(c) => Print(FileEntry, Some(|c|), n.mtime, n.ctime, n.inode, n.dev, None)
    case DirBody => Print(DirEntry, None, n.mtime, n.ctime, n.inode, n.dev, None)
    case LinkBody(t) => Print(LinkEntry, None, n.mtime, n.ctime, n.inode, n.dev, Some(t))
  }

  predicate Matches(n: Node, p: Print) {
    !n.body.SpecialBody? && PrintOf(n) == p
  }

  /** The last comparison before an unlink: directories by identity alone. */
  predicate StillTheEntry(n: Node, p: Print) {
    if n.body.DirBody? then p.etype == DirEntry && n.inode == p.inode && n.dev == p.dev
    else Matches(n, p)
  }

  predicate Live(disk: Disk, spool: string, prints: map<string, Print>, rel: string)
    requires rel in prints
  {
    Abs(spool, rel) in disk && Matches(disk[Abs(spool, rel)], prints[rel])
  }

  /** Nothing at `p` that the rows do not name. */
  predicate Named<T>(rows: map<string, T>, spool: string, p: string) {
    Within(p, spool) ==> Rel(p, spool) in rows
  }

  /** Every row of `prints` is live and equal, and nothing else is there. */
  predicate Unchanged(disk: Disk, spool: string, prints: map<string, Print>) {
    && (forall rel {:trigger Live(disk, spool, prints, rel)} | rel in prints :: Live(disk, spool, prints, rel))
    && (forall p {:trigger Named(prints, spool, p)} | p in disk :: Named(prints, spool, p))
  }

  // ---- what a snapshot proves ------------------------------------------------

  predicate Describes(e: Entry, s: Source) {
    match s
    case SourceFile(c) => e.etype == FileEntry && e.sha == Some(Sha256(c)) && e.size == Some(|c|)
    case SourceDir => e.etype == DirEntry
    case SourceLink(t) => e.etype == LinkEntry && e.target == Some(t)
  }

  predicate Archived(tree: map<string, Source>, spool: string, entries: map<string, Entry>, rel: string)
    requires rel in entries
  {
    Abs(spool, rel) in tree && Describes(entries[rel], tree[Abs(spool, rel)])
  }

  /** The item is not a bare symbolic link: such a one has no bytes to read back. */
  predicate PlainRoot(entries: map<string, Entry>) {
    "" in entries && entries[""].etype != LinkEntry
  }

  /** The tree at `spool` equals the manifest: paths, types, bytes, link targets. */
  predicate SameTree(tree: map<string, Source>, spool: string, entries: map<string, Entry>) {
    && (forall rel {:trigger Archived(tree, spool, entries, rel)} | rel in entries ::
          Archived(tree, spool, entries, rel))
    && (forall p {:trigger Named(entries, spool, p)} | p in tree :: Named(entries, spool, p))
  }

  function IdentityOf(att: Attempt, a: Id, kind: Kind): Identity
    requires att.digest.Some?
  {
    Identity(att.origin, att.occ, a, att.seqno, kind, att.digest.value)
  }

  /** Does the attempt row bear the six tag values (a null digest agrees with any)? */
  predicate MatchingAttempt(db: Db, id: Identity) {
    && id.attempt in db.attempts
    && var att := db.attempts[id.attempt];
    && att.occ in db.occs
    && att.occ == id.occ && att.origin == id.store && att.seqno == id.seqno
    && db.occs[att.occ].kind == id.kind
    && (att.digest.Some? ==> att.digest == Some(id.digest))
  }

  /** Checks 2-4 of the catalog gate: provable from the file and its tags alone. */
  predicate CatalogFileProven(catalog: Option<Export>, id: Identity) {
    && catalog.Some?
    && CatalogSha(catalog.value) == id.digest
    && catalog.value.rows == [LineageRow(id.store, id.seqno, id.occ, id.attempt)]
  }

  /** Checks 5-6: the exported occurrence and its manifest equal the local ones. */
  predicate RowsAgree(exported: Occ, local: Occ) {
    && exported.root == local.root && exported.kind == local.kind
    && exported.count == local.count && exported.item == local.item
    && exported.archive == local.archive
    && exported.entries.Keys == local.entries.Keys
    && forall rel | rel in local.entries ::
         var e, l := exported.entries[rel], local.entries[rel];
         e.etype == l.etype && e.sha == l.sha && e.target == l.target
  }

  predicate CatalogProven(snap: Snap, live: Option<Digest>, local: Occ, occ: Id) {
    && snap.tags.Canonical?
    && (live.Some? ==> live.value == snap.tags.id.digest)
    && CatalogFileProven(snap.catalog, snap.tags.id)
    && occ in snap.catalog.value.db.occs
    && RowsAgree(snap.catalog.value.db.occs[occ], local)
  }
}
