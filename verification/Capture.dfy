/**
 * Sample, hash, sample again: why two equal fingerprint samples mean that every
 * hash taken between them is of the bytes the fingerprint denotes.
 */
module Capture {
  import opened Wrappers
  import opened States
  import opened Paths
  import opened Records
  import opened Protocol
  import opened Order

  // ---- one walk ------------------------------------------------------------------

  /** The walk completes: the root is there and no entry is special. */
  predicate Walkable(disk: Disk, spool: string) {
    spool in disk && forall p | p in disk && Within(p, spool) :: !disk[p].body.SpecialBody?
  }

  function RelPaths(disk: Disk, spool: string): set<string> {
    set p | p in disk && Within(p, spool) :: Rel(p, spool)
  }

  /** The fingerprint rows of one walk. */
  function Sample(disk: Disk, spool: string): (prints: map<string, Print>)
    requires Walkable(disk, spool)
    ensures Unchanged(disk, spool, prints)
    ensures forall rel | rel in prints :: Abs(spool, rel) in disk
  {
    SampledPaths(disk, spool);
    map rel | rel in RelPaths(disk, spool) :: PrintOf(disk[Abs(spool, rel)])
  }

  lemma SampledPaths(disk: Disk, spool: string)
    ensures forall rel | rel in RelPaths(disk, spool) ::
              Abs(spool, rel) in disk && Within(Abs(spool, rel), spool)
  {
    forall rel | rel in RelPaths(disk, spool)
      ensures Abs(spool, rel) in disk && Within(Abs(spool, rel), spool)
    {
      var p :| p in disk && Within(p, spool) && Rel(p, spool) == rel;
      AbsOfRel(p, spool);
    }
  }

  /** A fingerprint is unchanged exactly when walking again yields the same rows. */
  lemma UnchangedIsResampled(disk: Disk, spool: string, prints: map<string, Print>)
    requires "" in prints
    ensures Unchanged(disk, spool, prints) <==> Walkable(disk, spool) && Sample(disk, spool) == prints
  {
    if Unchanged(disk, spool, prints) {
      assert Live(disk, spool, prints, "");
      forall p | p in disk && Within(p, spool) ensures !disk[p].body.SpecialBody? {
        assert Named(prints, spool, p);
        AbsOfRel(p, spool);
        assert Live(disk, spool, prints, Rel(p, spool));
      }
      SampledPaths(disk, spool);
      var again := Sample(disk, spool);
      forall rel ensures rel in prints <==> rel in again {
        AbsIsWithin(spool, rel);
        if rel in prints { assert Live(disk, spool, prints, rel); }
        if rel in again {
          assert Named(prints, spool, Abs(spool, rel));
        }
      }
      forall rel | rel in prints ensures again[rel] == prints[rel] {
        assert Live(disk, spool, prints, rel);
      }
      assert again == prints;
    }
  }

  // ---- what may happen between the two samples -------------------------------------

  /** Paths of the item that were, at some moment so far, not as first sampled. */
  function Lost(first: Disk, spool: string, lost: set<string>, disk: Disk): set<string> {
    lost + set p | p in first && Within(p, spool) && !(p in disk && disk[p] == first[p])
  }

  predicate Damaged(clock0: int, lost: set<string>, disk: Disk, p: string) {
    p in disk && disk[p].ctime <= clock0 ==> exists a | a in lost :: Below(p, a)
  }

  /** Once a path was lost it shows: gone, freshly stamped, or below another lost one. */
  predicate Tracked(first: Disk, clock0: int, spool: string, lost: set<string>, disk: Disk, clock: int) {
    && clock0 <= clock
    && (forall p | p in first && Within(p, spool) && p !in lost :: p in disk && disk[p] == first[p])
    && (forall p | p in lost :: p in first && Within(p, spool))
    && (forall p {:trigger Damaged(clock0, lost, disk, p)} | p in lost :: Damaged(clock0, lost, disk, p))
  }

  /** In a tree, everything above an entry (up to the folder) is a directory of it. */
  lemma {:induction false} AncestorIsDirectory(disk: Disk, drop: string, p: string, a: string)
    requires InDrop(disk, drop) && p in disk && Below(p, a) && Below(a, drop)
    ensures a in disk && disk[a].body.DirBody?
    decreases |p|
  {
    assert Placed(disk, drop, p);
    ParentStaysBelow(p, a);
    if |Parent(p)| > |a| {
      assert Placed(disk, drop, Parent(p));
      PlainEnd(Parent(p)[1..]);
      AncestorIsDirectory(disk, drop, Parent(p), a);
    }
  }

  lemma EditIsTracked(first: Disk, clock0: int, drop: string, spool: string, lost: set<string>,
                      disk: Disk, clock: int, disk': Disk, clock': int)
    requires InDrop(first, drop) && Parent(spool) == drop
    requires forall p | p in first :: first[p].ctime <= clock0
    requires Tracked(first, clock0, spool, lost, disk, clock)
    requires LegalEdit(disk, clock, disk', clock') && InDrop(disk', drop)
    ensures Tracked(first, clock0, spool, Lost(first, spool, lost, disk'), disk', clock')
  {
    hide LegalEdit, InDrop, Damaged, Below, Within;
    var lost' := Lost(first, spool, lost, disk');
    forall p | p in lost' ensures Damaged(clock0, lost', disk', p) {
      EditDamages(first, clock0, drop, spool, lost, disk, clock, disk', clock', p);
    }
    EditMovesClock(disk, clock, disk', clock');
  }

  lemma EditMovesClock(disk: Disk, clock: int, disk': Disk, clock': int)
    requires LegalEdit(disk, clock, disk', clock')
    ensures clock <= clock'
  {}

  lemma EditDamages(first: Disk, clock0: int, drop: string, spool: string, lost: set<string>,
                    disk: Disk, clock: int, disk': Disk, clock': int, p: string)
    requires InDrop(first, drop) && Parent(spool) == drop
    requires forall q | q in first :: first[q].ctime <= clock0
    requires Tracked(first, clock0, spool, lost, disk, clock)
    requires LegalEdit(disk, clock, disk', clock') && InDrop(disk', drop) && p in Lost(first, spool, lost, disk')
    ensures Damaged(clock0, Lost(first, spool, lost, disk'), disk', p)
  {
    hide InDrop, InodesAgree;
    if p in disk' && disk'[p].ctime <= clock0 {
      if p in disk && disk[p] == disk'[p] {
        assert Damaged(clock0, lost, disk, p);
      } else {
        var a :| a in disk' && Below(p, a) && disk'[a].ctime > clock;
        StampedIsLost(first, clock0, drop, spool, lost, disk, clock, disk', p, a);
      }
    }
  }

  /** A directory stamped since, above an entry of the item, is an entry of the item, and lost. */
  lemma StampedIsLost(first: Disk, clock0: int, drop: string, spool: string, lost: set<string>,
                      disk: Disk, clock: int, disk': Disk, p: string, a: string)
    requires InDrop(first, drop) && Parent(spool) == drop && InDrop(disk', drop)
    requires forall q | q in first :: first[q].ctime <= clock0
    requires clock0 <= clock && p in first && Within(p, spool)
    requires a in disk' && Below(p, a) && disk'[a].ctime > clock
    ensures a in Lost(first, spool, lost, disk')
  {
    assert Placed(disk', drop, a);
    PlainEnd(a[1..]);
    BetweenIsWithin(p, a, spool);
    AncestorIsDirectory(first, drop, p, a);
  }

  /** Equal samples: nothing was lost in between. */
  lemma {:induction false} NeverLost(first: Disk, clock0: int, spool: string, lost: set<string>,
                                     disk: Disk, clock: int, p: string)
    requires Tracked(first, clock0, spool, lost, disk, clock)
    requires Walkable(first, spool) && Walkable(disk, spool) && Sample(disk, spool) == Sample(first, spool)
    requires forall q | q in first :: first[q].ctime <= clock0
    ensures p !in lost
    decreases |p|
  {
    if p in lost {
      SampledAlike(first, disk, spool, p);
      assert Damaged(clock0, lost, disk, p);
      var a :| a in lost && Below(p, a);
      NeverLost(first, clock0, spool, lost, disk, clock, a);
    }
  }

  lemma SampledAlike(first: Disk, disk: Disk, spool: string, p: string)
    requires Walkable(first, spool) && Walkable(disk, spool) && Sample(disk, spool) == Sample(first, spool)
    requires p in first && Within(p, spool)
    ensures p in disk && PrintOf(disk[p]) == PrintOf(first[p])
  {
    AbsOfRel(p, spool);
    assert Rel(p, spool) in Sample(first, spool);
  }

  /**
   * The point of sampling twice: however the folder was edited in between, if
   * both walks agree then every entry of the item stayed exactly what it was.
   */
  lemma EqualSamplesPin(first: Disk, clock0: int, spool: string, lost: set<string>, disk: Disk, clock: int)
    requires Tracked(first, clock0, spool, lost, disk, clock)
    requires Walkable(first, spool) && Walkable(disk, spool) && Sample(disk, spool) == Sample(first, spool)
    requires forall q | q in first :: first[q].ctime <= clock0
    ensures lost == {} && forall p | p in first && Within(p, spool) :: p in disk && disk[p] == first[p]
  {
    forall p ensures p !in lost {
      NeverLost(first, clock0, spool, lost, disk, clock, p);
    }
  }

  // ---- the captured item ---------------------------------------------------------------

  function EntryOf(n: Node, sha: Option<Sha>): Entry
    requires !n.body.SpecialBody?
  {
    var p := PrintOf(n);
    Entry(p.etype, p.size, sha, p.target, n.mode)
  }

  function HashOf(hashes: map<string, Sha>, rel: string): Option<Sha> {
    if rel in hashes then Some(hashes[rel]) else None
  }

  function KindOf(disk: Disk, spool: string, bundle: bool): Kind
    requires spool in disk
  {
    if !disk[spool].body.DirBody? then FileKind else if bundle then BundleKind else DirKind
  }

  /** The row `capture_item` and `record_occurrence` make of a first walk and its hashes. */
  function ItemOf(store: StoreId, item: string, archive: string, disk: Disk, spool: string, bundle: bool,
                  hashes: map<string, Sha>): Occ
    requires Walkable(disk, spool)
  {
    var prints := Sample(disk, spool);
    var entries := map rel | rel in prints :: EntryOf(disk[Abs(spool, rel)], HashOf(hashes, rel));
    RootSampled(disk, spool);
    var kind := KindOf(disk, spool, bundle);
    Occ(store, item, archive, kind, spool, RootOf(kind, entries), |entries|,
        entries, prints, Recorded, None)
  }

  lemma RootSampled(disk: Disk, spool: string)
    requires Walkable(disk, spool)
    ensures "" in Sample(disk, spool)
  {
    assert Rel(spool, spool) == "" && "" in RelPaths(disk, spool);
  }

  /** Every regular file of the first walk was hashed, as it was in that walk. */
  predicate Hashed(disk: Disk, spool: string, hashes: map<string, Sha>) {
    && (forall rel | rel in hashes ::
          Abs(spool, rel) in disk && disk[Abs(spool, rel)].body.FileBody?
          && hashes[rel] == Sha256(disk[Abs(spool, rel)].body.content))
    && (forall p | p in disk && Within(p, spool) && disk[p].body.FileBody? :: Rel(p, spool) in hashes)
  }

  /** `row` holds one manifest entry and one fingerprint row per entry of the walk. */
  predicate Taken(row: Occ, disk: Disk, hashes: map<string, Sha>) {
    && row.prints.Keys == row.entries.Keys == RelPaths(disk, row.spool)
    && forall rel {:trigger TakenAt(row, disk, hashes, rel)} | rel in row.entries ::
         TakenAt(row, disk, hashes, rel)
  }

  predicate TakenAt(row: Occ, disk: Disk, hashes: map<string, Sha>, rel: string)
    requires row.prints.Keys == row.entries.Keys && rel in row.entries
  {
    var p := Abs(row.spool, rel);
    && p in disk && !disk[p].body.SpecialBody?
    && row.prints[rel] == PrintOf(disk[p])
    && row.entries[rel] == EntryOf(disk[p], HashOf(hashes, rel))
  }

  lemma ItemIsTaken(store: StoreId, item: string, archive: string, disk: Disk, spool: string,
                    bundle: bool, hashes: map<string, Sha>)
    requires Walkable(disk, spool)
    ensures Taken(ItemOf(store, item, archive, disk, spool, bundle, hashes), disk, hashes)
  {
    var row := ItemOf(store, item, archive, disk, spool, bundle, hashes);
    SampledPaths(disk, spool);
    forall rel | rel in row.entries ensures TakenAt(row, disk, hashes, rel) {}
  }

  /** One row of manifest and fingerprint says what is there: type, size, target, mode, stamp, and bytes. */
  predicate ShowsEntry(e: Entry, p: Print, n: Node) {
    && p == Print(e.etype, e.size, n.mtime, n.ctime, n.inode, n.dev, e.target)
    && match n.body
       case FileBody(c) => e == Entry(FileEntry, Some(|c|), Some(Sha256(c)), None, n.mode)
       case DirBody => e == Entry(DirEntry, None, None, None, n.mode)
       case LinkBody(t) => e == Entry(LinkEntry, None, None, Some(t), n.mode)
       case SpecialBody => false
  }

  /** The row is what one walk and the files it met show, entry by entry, and nothing else. */
  ghost predicate Depicts(row: Occ, disk: Disk, spool: string) {
    && row.spool == spool && spool in disk && (row.kind == FileKind <==> !disk[spool].body.DirBody?)
    && row.prints.Keys == row.entries.Keys
    && (forall rel | rel in row.entries ::
          && Abs(spool, rel) in disk && Within(Abs(spool, rel), spool)
          && ShowsEntry(row.entries[rel], row.prints[rel], disk[Abs(spool, rel)]))
    && forall p | p in disk && Within(p, spool) :: Rel(p, spool) in row.entries
  }

  lemma ItemIsDepicted(store: StoreId, item: string, archive: string, disk: Disk, spool: string, bundle: bool,
                       hashes: map<string, Sha>)
    requires Walkable(disk, spool) && Hashed(disk, spool, hashes)
    ensures Depicts(ItemOf(store, item, archive, disk, spool, bundle, hashes), disk, spool)
  {
    var row := ItemOf(store, item, archive, disk, spool, bundle, hashes);
    ItemIsTaken(store, item, archive, disk, spool, bundle, hashes);
    SampledPaths(disk, spool);
    hide ItemOf, Sample, RootOf;
    forall rel | rel in row.entries
      ensures Abs(spool, rel) in disk && Within(Abs(spool, rel), spool)
      ensures ShowsEntry(row.entries[rel], row.prints[rel], disk[Abs(spool, rel)])
    {
      assert TakenAt(row, disk, hashes, rel);
      AbsIsWithin(spool, rel);
    }
  }

  lemma CapturedShape(store: StoreId, item: string, archive: string, disk: Disk, drop: string,
                      spool: string, bundle: bool, hashes: map<string, Sha>)
    requires Walkable(disk, spool) && InDrop(disk, drop) && Parent(spool) == drop
    requires Hashed(disk, spool, hashes)
    ensures ItemShape(ItemOf(store, item, archive, disk, spool, bundle, hashes))
  {
    var row := ItemOf(store, item, archive, disk, spool, bundle, hashes);
    ItemIsTaken(store, item, archive, disk, spool, bundle, hashes);
    RootSampled(disk, spool);
    assert Placed(disk, drop, spool);
    SampledPaths(disk, spool);
    assert TakenAt(row, disk, hashes, "");
    if !disk[spool].body.DirBody? { NothingBelow(row, disk, drop, hashes); }
    forall rel | rel in row.entries ensures RowShape(row, rel) {
      EntryShape(row, disk, drop, hashes, rel);
    }
    hide Taken, Hashed, RelPaths, InDrop, RowShape;
  }

  /** Only a directory has anything below it. */
  lemma NothingBelow(row: Occ, disk: Disk, drop: string, hashes: map<string, Sha>)
    requires InDrop(disk, drop) && Parent(row.spool) == drop && Below(row.spool, drop)
    requires Taken(row, disk, hashes) && row.spool in disk && !disk[row.spool].body.DirBody?
    ensures forall rel | rel in row.entries :: rel == ""
  {
    forall rel | rel in row.entries ensures rel == "" {
      assert TakenAt(row, disk, hashes, rel);
      if rel != "" {
        AbsIsWithin(row.spool, rel);
        AncestorIsDirectory(disk, drop, Abs(row.spool, rel), row.spool);
      }
    }
  }

  lemma EntryShape(row: Occ, disk: Disk, drop: string, hashes: map<string, Sha>, rel: string)
    requires InDrop(disk, drop) && Parent(row.spool) == drop && Below(row.spool, drop)
    requires Taken(row, disk, hashes) && Hashed(disk, row.spool, hashes)
    requires rel in row.entries && "" in row.entries
    ensures RowShape(row, rel)
  {
    assert TakenAt(row, disk, hashes, rel);
    EntryFields(row, disk, hashes, rel);
    if rel != "" { EntryPlaced(row, disk, drop, hashes, rel); }
    hide Taken, TakenAt, Hashed, InDrop, Plain, Parent, Abs;
  }

  lemma EntryFields(row: Occ, disk: Disk, hashes: map<string, Sha>, rel: string)
    requires row.prints.Keys == row.entries.Keys && rel in row.entries && TakenAt(row, disk, hashes, rel)
    requires Hashed(disk, row.spool, hashes)
    ensures var e, p := row.entries[rel], row.prints[rel];
            && e.etype == p.etype && e.size == p.size && e.target == p.target
            && (e.etype == FileEntry <==> e.sha.Some?)
            && (e.sha.Some? ==> e.size == Some(|e.sha.value.content|))
            && (e.etype == LinkEntry <==> e.target.Some?)
  {
    AbsIsWithin(row.spool, rel);
    hide Below, Rel, Abs;
  }

  lemma EntryPlaced(row: Occ, disk: Disk, drop: string, hashes: map<string, Sha>, rel: string)
    requires InDrop(disk, drop) && Parent(row.spool) == drop && Below(row.spool, drop)
    requires Taken(row, disk, hashes)
    requires rel in row.entries && rel != ""
    ensures Plain(rel) && Parent(rel) in row.entries && row.entries[Parent(rel)].etype == DirEntry
  {
    var p, up := Abs(row.spool, rel), Parent(rel);
    assert TakenAt(row, disk, hashes, rel) && Placed(disk, drop, p);
    AbsoluteParts(row.spool, rel);
    AbsIsWithin(row.spool, up);
    assert |Parent(p)| >= |row.spool|;
    assert up in RelPaths(disk, row.spool) by { assert Rel(Parent(p), row.spool) == up; }
    assert TakenAt(row, disk, hashes, up);
  }

  /** Whatever carries a recorded stamp, now or later, holds the hashed bytes. */
  lemma CapturedBytes(row: Occ, first: Disk, clock0: int, hashes: map<string, Sha>, disk: Disk, clock: int)
    requires Taken(row, first, hashes) && Hashed(first, row.spool, hashes)
    requires clock0 <= clock && InodesAgree(disk)
    requires forall p | p in first :: first[p].ctime <= clock0
    requires forall p | p in first && Within(p, row.spool) :: p in disk && disk[p] == first[p]
    ensures Captured(row, disk, clock)
  {
    forall rel | rel in row.prints ensures row.prints[rel].ctime <= clock {
      assert TakenAt(row, first, hashes, rel);
    }
    forall rel, q | rel in row.prints && q in disk && SameStamp(disk[q], row.prints[rel])
                    && disk[q].body.FileBody? && row.entries[rel].etype == FileEntry
      ensures row.entries[rel].sha == Some(Sha256(disk[q].body.content))
    {
      StampedBytes(row, first, hashes, disk, rel, q);
    }
  }

  lemma StampedBytes(row: Occ, first: Disk, hashes: map<string, Sha>, disk: Disk, rel: string, q: string)
    requires Taken(row, first, hashes) && Hashed(first, row.spool, hashes) && InodesAgree(disk)
    requires forall p | p in first && Within(p, row.spool) :: p in disk && disk[p] == first[p]
    requires rel in row.prints && q in disk && SameStamp(disk[q], row.prints[rel])
    requires disk[q].body.FileBody?
    ensures row.entries[rel].sha == Some(Sha256(disk[q].body.content))
  {
    var p := Abs(row.spool, rel);
    AbsIsWithin(row.spool, rel);
    assert TakenAt(row, first, hashes, rel);
    assert SameInode(disk[q], disk[p]);
    hide Taken, Abs, Rel, Below;
  }

  // ---- the manifest hash -------------------------------------------------------------------

  /** `walked` holds each entry of the manifest once, in whatever order. */
  predicate Walked(walked: seq<string>, entries: map<string, Entry>) {
    && (forall i | 0 <= i < |walked| :: walked[i] in entries)
    && (forall rel | rel in entries :: rel in walked)
    && forall i, j | 0 <= i < j < |walked| :: walked[i] != walked[j]
  }

  /** `manifest_hash`: the digest is fed the entries of a walk in path order. */
  method ManifestHash(walked: seq<string>, entries: map<string, Entry>) returns (root: RootHash)
    requires Walked(walked, entries)
    ensures root == TreeRoot(Manifest(entries))
  {
    LessIsStrict();
    var all := set rel | rel in walked;
    assert all == entries.Keys;
    var names := SortBy(all, Less);
    assert names == Ordered(entries.Keys) by {
      forall rel ensures rel in names <==> rel in Ordered(entries.Keys) {
        assert rel in names <==> rel in (set x | x in names);
        assert (set x | x in names) == all;
      }
      SortedIsUnique(names, Ordered(entries.Keys), Less);
    }
    root := Fed(names, entries);
  }

  /** `recompute_manifest_hash`: the same digest from the stored rows, `ORDER BY rel_path`. */
  method RecomputeManifestHash(entries: map<string, Entry>) returns (root: RootHash)
    ensures root == TreeRoot(Manifest(entries))
  {
    root := Fed(Ordered(entries.Keys), entries);
  }

  /** The digest loop, one line at a time. */
  method Fed(names: seq<string>, entries: map<string, Entry>) returns (root: RootHash)
    requires names == Ordered(entries.Keys)
    ensures root == TreeRoot(Manifest(entries))
  {
    hide Manifest, Ordered;
    ManifestLines(entries);
    var lines: seq<Row> := [];
    for i := 0 to |names|
      invariant lines == Manifest(entries)[..i]
    {
      assert names[i] in names;
      lines := lines + [RowOf(names[i], entries[names[i]])];
    }
    root := TreeRoot(lines);
  }

  lemma ManifestLines(entries: map<string, Entry>)
    ensures var names := Ordered(entries.Keys);
            && |Manifest(entries)| == |names|
            && forall i | 0 <= i < |names| ::
                 names[i] in names && Manifest(entries)[i] == RowOf(names[i], entries[names[i]])
  {
    assert forall i | 0 <= i < |Ordered(entries.Keys)| :: Ordered(entries.Keys)[i] in Ordered(entries.Keys);
  }

  /** Equal digests mean equal manifests: paths, types, sizes, hashes and link targets. */
  lemma ManifestIsFaithful(x: map<string, Entry>, y: map<string, Entry>)
    requires Manifest(x) == Manifest(y)
    ensures x.Keys == y.Keys && forall rel | rel in x :: RowOf(rel, x[rel]) == RowOf(rel, y[rel])
  {
    ManifestHas(x, y);
    ManifestHas(y, x);
  }

  lemma ManifestHas(x: map<string, Entry>, y: map<string, Entry>)
    requires Manifest(x) == Manifest(y)
    ensures forall rel | rel in x :: rel in y && RowOf(rel, x[rel]) == RowOf(rel, y[rel])
  {
    var names, others := Ordered(x.Keys), Ordered(y.Keys);
    forall rel | rel in x ensures rel in y && RowOf(rel, x[rel]) == RowOf(rel, y[rel]) {
      var i :| 0 <= i < |names| && names[i] == rel;
      assert Manifest(x)[i] == RowOf(rel, x[rel]);
      assert others[i] in others && Manifest(y)[i] == RowOf(others[i], y[others[i]]);
    }
  }
}
