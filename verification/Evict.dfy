/**
 * The journalled deletion as a pass over one folder: what it leaves, what it
 * removes, and exactly when it can finish.
 */
module Eviction {
  import opened Wrappers
  import opened States
  import opened Paths
  import opened Records
  import opened Protocol
  import opened Order
  import opened Capture

  /** The entry at `p` is one the intent names, still as the intent has it. */
  predicate Fit(disk: Disk, spool: string, prints: map<string, Print>, p: string)
    requires p in disk
  {
    Within(p, spool) && Rel(p, spool) in prints && StillTheEntry(disk[p], prints[Rel(p, spool)])
  }

  /** Two names of one file or link, both part of the item. */
  predicate Linked(disk: Disk, spool: string, p: string, q: string) {
    && p in disk && q in disk && p != q && Within(p, spool) && Within(q, spool)
    && SameInode(disk[p], disk[q]) && !disk[p].body.DirBody?
  }

  /** What is left of the item is a remainder of the intent, without hard links inside. */
  predicate Clean(disk: Disk, spool: string, prints: map<string, Print>) {
    && (forall p {:trigger Fit(disk, spool, prints, p)} | p in disk :: Within(p, spool) ==> Fit(disk, spool, prints, p))
    && (forall p, q {:trigger Linked(disk, spool, p, q)} | p in disk && q in disk :: !Linked(disk, spool, p, q))
  }

  /** No entry of the item shares its inode with any other entry of the folder. */
  ghost predicate Isolated(disk: Disk, spool: string) {
    forall p, q | p in disk && q in disk && Within(p, spool) && SameInode(disk[p], disk[q]) :: p == q
  }

  // ---- one pass, from a first look to now ------------------------------------------

  /** The same entry, its change time either untouched or newer than the first look. */
  predicate Restamped(m: Node, n: Node, clock0: int) {
    n == m.(ctime := n.ctime) && (n.ctime == m.ctime || n.ctime > clock0)
  }

  /** Only entries that fitted the intent are gone; every other name of a gone one shows it. */
  ghost predicate Shrunk(first: Disk, clock0: int, spool: string, prints: map<string, Print>, disk: Disk, clock: int) {
    && clock0 <= clock
    && (forall p | p in disk :: p in first && Restamped(first[p], disk[p], clock0) && disk[p].ctime <= clock)
    && (forall p {:trigger Fit(first, spool, prints, p)} | p in first && p !in disk :: Fit(first, spool, prints, p))
    && (forall p, q {:trigger Linked(first, spool, p, q)} ::
          Linked(first, spool, p, q) && p !in disk ==> q in disk && disk[q].ctime > clock0)
  }

  lemma RemovalShrinks(first: Disk, clock0: int, spool: string, prints: map<string, Print>,
                       disk: Disk, clock: int, rel: string)
    requires Shrunk(first, clock0, spool, prints, disk, clock) && InodesAgree(first)
    requires forall r | r in prints :: prints[r].ctime <= clock0
    requires rel in prints && Abs(spool, rel) in disk && StillTheEntry(disk[Abs(spool, rel)], prints[rel])
    ensures Shrunk(first, clock0, spool, prints, Without(disk, clock, Abs(spool, rel)), clock + 1)
  {
    var gone := Abs(spool, rel);
    AbsIsWithin(spool, rel);
    assert Fit(first, spool, prints, gone);
    var disk' := Without(disk, clock, gone);
    forall p, q | Linked(first, spool, p, q) && p !in disk'
      ensures q in disk' && disk'[q].ctime > clock0
    {
      assert Linked(first, spool, q, p);
    }
  }

  /** A pass that removed everything had a clean item before it. */
  lemma FinishedWasClean(first: Disk, clock0: int, spool: string, prints: map<string, Print>, disk: Disk, clock: int)
    requires Shrunk(first, clock0, spool, prints, disk, clock)
    requires forall p | p in disk :: !Within(p, spool)
    ensures Clean(first, spool, prints)
  {}

  /** Taking one fitting entry leaves the rest fitting. */
  lemma CleanStays(disk: Disk, clock: int, drop: string, spool: string, prints: map<string, Print>, p: string)
    requires Clean(disk, spool, prints) && InodesAgree(disk) && InDrop(disk, drop)
    requires p in disk && Within(p, spool)
    ensures Clean(Without(disk, clock, p), spool, prints)
  {
    var disk' := Without(disk, clock, p);
    assert Placed(disk, drop, p);
    forall q | q in disk' && Within(q, spool) ensures Fit(disk', spool, prints, q) {
      assert Fit(disk, spool, prints, q);
      assert !Linked(disk, spool, p, q);
    }
    forall x, y | x in disk' && y in disk' ensures !Linked(disk', spool, x, y) {
      assert !Linked(disk, spool, x, y);
    }
  }

  /** Nothing of an item whose root is gone is left. */
  lemma RootlessIsEmpty(disk: Disk, drop: string, spool: string)
    requires InDrop(disk, drop) && spool !in disk && Below(spool, drop)
    ensures forall p | p in disk :: !Within(p, spool)
  {
    forall p | p in disk && Within(p, spool) ensures false {
      AncestorIsDirectory(disk, drop, p, spool);
    }
  }

  // ---- bottom-up order ---------------------------------------------------------------

  lemma DescendantIsDeeper(p: string, a: string)
    requires Below(p, a)
    ensures DeeperFirst(p, a) && !DeeperFirst(a, p)
  {
    assert p == a + (['/'] + p[|a| + 1..]);
    SlashesAdd(a, ['/'] + p[|a| + 1..]);
    assert (['/'] + p[|a| + 1..])[1..] == p[|a| + 1..];
  }

  /** Every entry but the root has its turn. */
  ghost predicate Covers(order: seq<string>, prints: map<string, Print>) {
    forall rel :: rel in order <==> rel in prints && rel != ""
  }

  /** When a directory's turn comes, everything below it had its turn before. */
  lemma TurnFindsItEmpty(disk: Disk, spool: string, prints: map<string, Print>, order: seq<string>, i: nat)
    requires Sorted(order, DeeperFirst) && Covers(order, prints) && i < |order|
    requires forall k | 0 <= k < i :: Abs(spool, order[k]) !in disk
    requires Clean(disk, spool, prints)
    ensures Empty(disk, Abs(spool, order[i]))
  {
    var rel := order[i];
    assert rel in order;
    forall q | q in disk && Below(q, Abs(spool, rel)) ensures false {
      BelowIsWithin(q, spool, rel);
      assert Fit(disk, spool, prints, q);
      AbsOfRel(q, spool);
      UnderIsBelow(spool, Rel(q, spool), rel);
      DescendantIsDeeper(Rel(q, spool), rel);
    }
  }

  lemma BelowIsWithin(q: string, spool: string, rel: string)
    requires Below(q, Abs(spool, rel))
    ensures Below(q, spool) && Rel(q, spool) != ""
  {
    var a := Abs(spool, rel);
    assert a[..|spool|] == spool;
    assert q[..|spool|] == q[..|a|][..|spool|];
    if rel != "" { assert q[|spool|] == a[|spool|]; }
  }

  lemma LastIsTheRoot(disk: Disk, spool: string, prints: map<string, Print>, order: seq<string>)
    requires Covers(order, prints)
    requires forall k | 0 <= k < |order| :: Abs(spool, order[k]) !in disk
    requires Clean(disk, spool, prints)
    ensures Empty(disk, spool)
  {
    forall q | q in disk && Below(q, spool) ensures false {
      assert Fit(disk, spool, prints, q);
      AbsOfRel(q, spool);
    }
  }

  // ---- beside a pass -----------------------------------------------------------------

  /** Everything of the item at `spool` is as it was. */
  ghost predicate Untouched(disk: Disk, disk': Disk, spool: string) {
    forall p | Within(p, spool) :: (p in disk <==> p in disk') && (p in disk ==> disk'[p] == disk[p])
  }

  lemma RemovalSparesOthers(disk: Disk, clock: int, drop: string, spool: string, other: string, p: string)
    requires InDrop(disk, drop) && Parent(spool) == drop && Parent(other) == drop && spool != other
    requires Below(spool, drop) && Below(other, drop) && spool[|spool| - 1] != '/'
    requires p in disk && Within(p, spool) && Isolated(disk, other)
    ensures Untouched(disk, Without(disk, clock, p), other) && Isolated(Without(disk, clock, p), other)
  {
    var disk' := Without(disk, clock, p);
    assert Placed(disk, drop, p);
    forall q | Within(q, other) ensures q != p && q != Parent(p) {
      if q == p { ItemsAreApart(p, spool, other); }
      if q == Parent(p) {
        if p == spool { NoItemIsTheFolder(q, other); } else {
          ParentStaysBelow(p, spool);
          if |q| > |spool| + 1 { ItemsAreApart(q, spool, other); }
          else if q == spool { ItemsAreApart(q, spool, other); }
          else { assert Placed(disk, drop, q); PlainEnd(q[1..]); }
        }
      }
    }
  }

  lemma NoItemIsTheFolder(q: string, other: string)
    requires Within(q, other) && Below(other, Parent(other))
    ensures q != Parent(other)
  {}

  /** Items side by side in the folder share no path. */
  lemma ItemsAreApart(p: string, spool: string, other: string)
    requires Within(p, spool) && Within(p, other) && Parent(spool) == Parent(other)
    requires Below(spool, Parent(spool)) && Below(other, Parent(other))
    ensures spool == other
  {
    ParentIsPrefix(spool);
    ParentIsPrefix(other);
    assert spool == p[..|spool|] && other == p[..|other|];
  }

  // ---- where the pass cannot finish ----------------------------------------------------

  /**
   * A pass never cleans up: what it leaves is a clean remainder only if it found
   * one. So an item it cannot finish it can never finish by itself.
   */
  lemma DirtStays(first: Disk, clock0: int, spool: string, prints: map<string, Print>, disk: Disk, clock: int)
    requires Shrunk(first, clock0, spool, prints, disk, clock)
    requires InodesAgree(first) && forall r | r in prints :: prints[r].ctime <= clock0
    ensures Clean(disk, spool, prints) ==> Clean(first, spool, prints)
  {
    if Clean(disk, spool, prints) {
      forall p | p in first && Within(p, spool) ensures Fit(first, spool, prints, p) {
        if p in disk { assert Fit(disk, spool, prints, p) && Restamped(first[p], disk[p], clock0); }
      }
      forall p, q | p in first && q in first ensures !Linked(first, spool, p, q) {
        if Linked(first, spool, p, q) { LinkShows(first, clock0, spool, prints, disk, clock, p, q); }
      }
    }
  }

  /** With one of two linked names gone, the other is no longer what the intent names. */
  lemma LinkShows(first: Disk, clock0: int, spool: string, prints: map<string, Print>, disk: Disk, clock: int,
                  p: string, q: string)
    requires Shrunk(first, clock0, spool, prints, disk, clock) && Linked(first, spool, p, q)
    requires InodesAgree(first) && forall r | r in prints :: prints[r].ctime <= clock0
    ensures !Clean(disk, spool, prints)
  {
    if p in disk && q in disk {
      assert Restamped(first[p], disk[p], clock0) && Restamped(first[q], disk[q], clock0);
      assert Linked(disk, spool, p, q);
    } else {
      var there := if p in disk then p else q;
      assert SameInode(first[p], first[q]) && Linked(first, spool, q, p);
      assert there in disk && disk[there].ctime > clock0 && Restamped(first[there], disk[there], clock0);
      assert !Fit(disk, spool, prints, there);
    }
  }

  /**
   * Two names of one file inside an item: before any pass and after any number of
   * them what is left is no clean remainder, because unlinking the first name moves
   * the change time of the second.
   */
  lemma HardLinksStick(first: Disk, clock0: int, spool: string, prints: map<string, Print>, disk: Disk, clock: int,
                       p: string, q: string)
    requires Linked(first, spool, p, q) && Shrunk(first, clock0, spool, prints, disk, clock)
    requires InodesAgree(first) && forall r | r in prints :: prints[r].ctime <= clock0
    ensures !Clean(first, spool, prints) && !Clean(disk, spool, prints)
  {
    LinkShows(first, clock0, spool, prints, disk, clock, p, q);
    assert p in first && q in first;
  }

  /** The gates do not see it coming: such an item can be unchanged in every recorded field. */
  lemma LinksGoUnseen()
    ensures exists disk: Disk, spool, prints, p, q ::
              Unchanged(disk, spool, prints) && Linked(disk, spool, p, q)
  {
    var file := Node(FileBody([]), 0, 0, 0, 7, 1);
    var dir := Node(DirBody, 0, 0, 0, 8, 1);
    var disk := map["/d/x" := dir, "/d/x/a" := file, "/d/x/b" := file];
    var prints := map["" := PrintOf(dir), "a" := PrintOf(file), "b" := PrintOf(file)];
    assert Abs("/d/x", "") == "/d/x" && Abs("/d/x", "a") == "/d/x/a" && Abs("/d/x", "b") == "/d/x/b";
    forall rel | rel in prints ensures Live(disk, "/d/x", prints, rel) {}
    forall p | p in disk ensures Named(prints, "/d/x", p) {}
    assert Unchanged(disk, "/d/x", prints);
    assert Linked(disk, "/d/x", "/d/x/a", "/d/x/b");
  }
}
