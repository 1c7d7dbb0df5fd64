/**
 * Rebuilding a directory from an untrusted stream: the staging tree is the
 * manifest's subtree, or there is an error.
 */
module Retrieve {
  import opened Wrappers
  import opened Paths
  import opened Records
  import opened Order
  import opened Protocol
  import V = Verify

  const PRIVATE := 0x1C0 // 0o700

  /** What the staging directory holds, by path below its root. */
  datatype Staged = StagedDir(mode: nat) | StagedFile(content: Bytes, mode: nat) | StagedLink(target: string)

  /** `stat.S_IMODE`. */
  function Permissions(mode: nat): nat { mode % 0x1000 }

  // ---- names --------------------------------------------------------------------------

  /** `_safe_relative`. */
  predicate Safe(s: string) {
    s != "" && s[0] != '/' && (0 as char) !in s && Plain(s)
  }

  /** Rows of the subtree at `root`, by equality of the prefix. */
  predicate InSubtree(rel: string, root: string) {
    root == "" || rel == root || (|rel| > |root| && rel[..|root|] == root && rel[|root|] == '/')
  }

  function Relative(rel: string, root: string): string
    requires InSubtree(rel, root)
  {
    if rel == root then "" else if root == "" then rel else rel[|root| + 1..]
  }

  function Joined(root: string, relative: string): string {
    if root == "" then relative else root + "/" + relative
  }

  lemma JoinedIsBelow(root: string, relative: string)
    requires root != "" || relative != ""
    ensures InSubtree(Joined(root, relative), root) && Relative(Joined(root, relative), root) == relative
    ensures Joined(root, relative) != root
  {
    if root != "" {
      assert Joined(root, relative)[..|root|] == root;
      assert Joined(root, relative)[|root| + 1..] == relative;
    }
  }

  lemma JoinedBack(rel: string, root: string)
    requires InSubtree(rel, root) && rel != root
    ensures Joined(root, Relative(rel, root)) == rel
  {
    if root != "" { assert rel == rel[..|root|] + [rel[|root|]] + rel[|root| + 1..]; }
  }

  lemma ParentOfJoined(root: string, relative: string)
    requires relative != "" && relative[0] != '/'
    ensures Parent(Joined(root, relative)) == if '/' in relative then Joined(root, Parent(relative)) else root
    ensures '/' in relative ==> Parent(relative) != ""
  {
    ParentIsPrefix(relative);
    if root != "" {
      var p := Joined(root, relative);
      ParentIsPrefix(p);
      assert p[|root|] == '/';
      if '/' in relative {
        var k := |Parent(relative)|;
        assert relative[k] == '/' && p[|root| + 1 + k] == '/';
        assert p[|Parent(p)|] == relative[|Parent(p)| - |root| - 1];
        assert Parent(p) == p[..|Parent(p)|];
      } else {
        assert |Parent(p)| >= |root|;
        assert Parent(p) == p[..|root|];
      }
    }
  }

  lemma {:induction false} PrefixIsLess(a: string, b: string)
    requires |a| < |b| && b[..|a|] == a
    ensures Less(a, b)
  {
    if a != "" {
      assert b[0] == a[0] && b[1..][..|a| - 1] == a[1..];
      PrefixIsLess(a[1..], b[1..]);
    }
  }

  // ---- the staging directory ---------------------------------------------------------------

  /** The entry's directory is there: the staging root, or a directory made before. */
  predicate HasPlace(tree: map<string, Staged>, p: string) {
    '/' in p ==> Parent(p) in tree && tree[Parent(p)].StagedDir?
  }

  predicate NoLinks(tree: map<string, Staged>) {
    forall p | p in tree :: !tree[p].StagedLink?
  }

  /** `a` is a proper ancestor of `p` in the staging tree. */
  predicate Above(a: string, p: string) {
    |p| > |a| && p[..|a|] == a && p[|a|] == '/'
  }

  /** Descriptor-relative calls; what would make one fail is its precondition here. */
  class Staging {
    var tree: map<string, Staged>
    var rootMode: nat

    constructor ()
      ensures tree == map[] && rootMode == PRIVATE
    {
      tree, rootMode := map[], PRIVATE;
    }

    method Mkdir(p: string)
      requires p !in tree && HasPlace(tree, p)
      modifies this`tree
      ensures tree == old(tree)[p := StagedDir(PRIVATE)]
    {
      tree := tree[p := StagedDir(PRIVATE)];
    }

    /** Exclusive creation, never through a link: no link exists yet. */
    method Write(p: string, content: Bytes, mode: nat)
      requires p !in tree && HasPlace(tree, p) && NoLinks(tree)
      modifies this`tree
      ensures tree == old(tree)[p := StagedFile(content, mode)]
    {
      tree := tree[p := StagedFile(content, mode)];
    }

    method Symlink(p: string, target: string)
      requires p !in tree && HasPlace(tree, p)
      modifies this`tree
      ensures tree == old(tree)[p := StagedLink(target)]
    {
      tree := tree[p := StagedLink(target)];
    }

    /** Reaching the directory needs every directory above it still private. */
    method Chmod(p: string, mode: nat)
      requires p in tree && tree[p].StagedDir? && rootMode == PRIVATE
      requires forall a | a in tree && Above(a, p) && tree[a].StagedDir? :: tree[a].mode == PRIVATE
      modifies this`tree
      ensures tree == old(tree)[p := StagedDir(mode)]
    {
      tree := tree[p := StagedDir(mode)];
    }

    method ChmodRoot(mode: nat)
      modifies this`rootMode
      ensures rootMode == mode
    {
      rootMode := mode;
    }
  }

  // ---- what the manifest asks for ----------------------------------------------------------------

  /** The subtree's rows below its root. */
  function Kids(entries: map<string, Entry>, root: string): set<string> {
    set rel | rel in entries && InSubtree(rel, root) && rel != root
  }

  function KidNames(entries: map<string, Entry>, root: string): (names: set<string>)
    ensures forall p | p in names :: Joined(root, p) in entries
  {
    KidsJoin(entries, root);
    set rel | rel in Kids(entries, root) :: Relative(rel, root)
  }

  lemma KidsJoin(entries: map<string, Entry>, root: string)
    ensures forall rel | rel in Kids(entries, root) :: Joined(root, Relative(rel, root)) == rel
  {
    forall rel | rel in Kids(entries, root) ensures Joined(root, Relative(rel, root)) == rel { JoinedBack(rel, root); }
  }

  predicate SoundRow(entries: map<string, Entry>, root: string, rel: string)
    requires InSubtree(rel, root)
  {
    Safe(Relative(rel, root)) && Parent(rel) in entries && entries[Parent(rel)].etype == DirEntry
  }

  /** The root is a directory, and every row below it has a safe name in a directory. */
  predicate SoundSubtree(entries: map<string, Entry>, root: string) {
    && root in entries && entries[root].etype == DirEntry
    && forall rel | rel in Kids(entries, root) :: SoundRow(entries, root, rel)
  }

  function StagedAs(e: Entry): Staged {
    match e.etype
    case DirEntry => StagedDir(PRIVATE)
    case FileEntry => StagedFile(if e.sha.Some? then e.sha.value.content else [], Permissions(e.mode))
    case LinkEntry => StagedLink(if e.target.Some? then e.target.value else "")
  }

  /** The rows named, as staged entries. */
  function Layer(entries: map<string, Entry>, root: string, names: set<string>): map<string, Staged>
    requires forall p | p in names :: Joined(root, p) in entries
  {
    map p | p in names :: StagedAs(entries[Joined(root, p)])
  }

  function OfType(entries: map<string, Entry>, root: string, t: EntryType): (names: set<string>)
    ensures forall p | p in names :: Joined(root, p) in entries && entries[Joined(root, p)].etype == t
    ensures names <= KidNames(entries, root)
  {
    NamesJoin(entries, root);
    set p | p in KidNames(entries, root) && entries[Joined(root, p)].etype == t
  }

  lemma NamesJoin(entries: map<string, Entry>, root: string)
    ensures forall p | p in KidNames(entries, root) :: Joined(root, p) in Kids(entries, root) && (root != "" || p != "")
    ensures forall p | (root != "" || p != "") && Joined(root, p) in entries :: p in KidNames(entries, root)
  {
    forall p | p in KidNames(entries, root)
      ensures Joined(root, p) in Kids(entries, root) && (root != "" || p != "")
    {
      var rel :| rel in Kids(entries, root) && Relative(rel, root) == p;
      JoinedBack(rel, root);
    }
    forall p | (root != "" || p != "") && Joined(root, p) in entries ensures p in KidNames(entries, root) {
      JoinedIsBelow(root, p);
      assert Joined(root, p) in Kids(entries, root);
    }
  }

  /** The directory a row of a sound subtree belongs in is itself a row of it. */
  lemma PlaceIsThere(entries: map<string, Entry>, root: string, p: string)
    requires p != "" && Joined(root, p) in entries && SoundRow(entries, root, Joined(root, p))
    requires InSubtree(Joined(root, p), root)
    ensures '/' in p ==> Parent(p) in OfType(entries, root, DirEntry)
  {
    JoinedIsBelow(root, p);
    ParentOfJoined(root, p);
    NamesJoin(entries, root);
  }

  // ---- phase 1: the directories -------------------------------------------------------------------

  /** Rows in path order: each directory's own directory is made before it. */
  method MakeDirectories(entries: map<string, Entry>, root: string, stage: Staging) returns (expected: Option<nat>)
    requires stage.tree == map[]
    modifies stage`tree
    ensures expected.Some? <==> forall rel | rel in Kids(entries, root) :: SoundRow(entries, root, rel)
    ensures expected.Some? ==> expected.value == |Kids(entries, root)|
                               && stage.tree == Layer(entries, root, OfType(entries, root, DirEntry))
  {
    hide Safe, Parent, Plain, Layer, SoundRow, DirsAmong, Less;
    LessIsStrict();
    var order := SortBy(Kids(entries, root), Less);
    NoDirsYet(entries, root);
    forall rel ensures rel in order <==> rel in Kids(entries, root) {
      assert rel in order <==> rel in (set x | x in order);
    }
    var count := 0;
    for i := 0 to |order|
      invariant count == i && stage.tree == Layer(entries, root, DirsAmong(entries, root, order[..i]))
      invariant forall k | 0 <= k < i :: order[k] in Kids(entries, root) && SoundRow(entries, root, order[k])
    {
      assert order[i] in order;
      var made := MakeRow(entries, root, order, i, stage);
      if !made { return None; }
      count := count + 1;
    }
    AllDirs(entries, root, order);
    return Some(count);
  }

  method MakeRow(entries: map<string, Entry>, root: string, order: seq<string>, i: nat, stage: Staging)
    returns (made: bool)
    requires i < |order| && Sorted(order, Less) && forall rel :: rel in order <==> rel in Kids(entries, root)
    requires order[i] in Kids(entries, root)
    requires stage.tree == Layer(entries, root, DirsAmong(entries, root, order[..i]))
    modifies stage`tree
    ensures made <==> SoundRow(entries, root, order[i])
    ensures made ==> stage.tree == Layer(entries, root, DirsAmong(entries, root, order[..i + 1]))
  {
    hide Safe, Parent, Plain, Sorted, Less, HasPlace, DirsAmong;
    var rel := order[i];
    var name := Relative(rel, root);
    if !Safe(name) || Parent(rel) !in entries || entries[Parent(rel)].etype != DirEntry { return false; }
    JoinedBack(rel, root);
    OneMoreDir(entries, root, order, i);
    if entries[rel].etype == DirEntry {
      DirectoryFollows(entries, root, order, i);
      hide Kids, SoundRow, Relative, InSubtree;
      stage.Mkdir(name);
    }
    return true;
  }

  /** Names of the directories among these rows. */
  function DirsAmong(entries: map<string, Entry>, root: string, rels: seq<string>): (names: set<string>)
    requires forall rel | rel in rels :: rel in Kids(entries, root)
    ensures forall p | p in names :: Joined(root, p) in entries
  {
    set rel | rel in rels && JoinsBack(entries, root, rel) :: Relative(rel, root)
  }

  predicate JoinsBack(entries: map<string, Entry>, root: string, rel: string) {
    && rel in entries && entries[rel].etype == DirEntry && InSubtree(rel, root) && rel != root
    && Joined(root, Relative(rel, root)) == rel
  }

  lemma NoDirsYet(entries: map<string, Entry>, root: string)
    ensures Layer(entries, root, DirsAmong(entries, root, [])) == map[]
  {}

  lemma OneMoreDir(entries: map<string, Entry>, root: string, order: seq<string>, i: nat)
    requires i < |order| && (forall rel | rel in order :: rel in Kids(entries, root)) && order[i] in Kids(entries, root)
    ensures var rel := order[i];
            DirsAmong(entries, root, order[..i + 1]) ==
            DirsAmong(entries, root, order[..i]) + if entries[rel].etype == DirEntry then {Relative(rel, root)} else {}
  {
    var rel := order[i];
    assert order[..i + 1] == order[..i] + [rel];
    JoinedBack(rel, root);
  }

  lemma AllDirs(entries: map<string, Entry>, root: string, order: seq<string>)
    requires forall rel :: rel in order <==> rel in Kids(entries, root)
    ensures DirsAmong(entries, root, order[..|order|]) == OfType(entries, root, DirEntry)
  {
    assert order[..|order|] == order;
    NamesJoin(entries, root);
    forall p ensures p in DirsAmong(entries, root, order) <==> p in OfType(entries, root, DirEntry) {
      if p in OfType(entries, root, DirEntry) {
        var rel := Joined(root, p);
        assert rel in order;
        JoinedIsBelow(root, p);
        assert JoinsBack(entries, root, rel);
      }
    }
  }

  /** A row's directory comes before it in path order, so it is made already. */
  lemma DirectoryFollows(entries: map<string, Entry>, root: string, order: seq<string>, i: nat)
    requires i < |order| && Sorted(order, Less) && forall rel :: rel in order <==> rel in Kids(entries, root)
    requires order[i] in Kids(entries, root) && SoundRow(entries, root, order[i])
    ensures var name := Relative(order[i], root);
            && HasPlace(Layer(entries, root, DirsAmong(entries, root, order[..i])), name)
            && name !in DirsAmong(entries, root, order[..i])
  {
    var rel := order[i];
    var name := Relative(rel, root);
    JoinedBack(rel, root);
    LessIsStrict();
    if '/' in name {
      ParentOfJoined(root, name);
      ParentIsPrefix(name);
      var up := Parent(rel);
      JoinedIsBelow(root, Parent(name));
      assert up in order;
      var k :| 0 <= k < |order| && order[k] == up;
      ParentIsPrefix(rel);
      JoinedIsBelow(root, name);
      SlashInJoined(root, name);
      PrefixIsLess(up, rel);
      assert k < i;
      assert order[k] in order[..i] && JoinsBack(entries, root, up);
    }
  }

  lemma SlashInJoined(root: string, name: string)
    requires '/' in name
    ensures '/' in Joined(root, name)
  {
    if root != "" {
      var i :| 0 <= i < |name| && name[i] == '/';
      assert Joined(root, name)[|root| + 1 + i] == '/';
    }
  }

  // ---- phase 2: the stream ------------------------------------------------------------------------

  predicate BodyFits(m: V.MemberBody, e: Entry) {
    match m
    case Directory => e.etype == DirEntry
    case Symlink(t) => e.etype == LinkEntry && e.target == Some(t)
    case Regular(c) => e.etype == FileEntry && e.size == Some(|c|) && e.sha == Some(Sha256(c))
    case _ => false
  }

  /** The member names a row of the manifest below `root`, safely, and is what the row says. */
  predicate Fits(m: V.Member, prefix: string, entries: map<string, Entry>, root: string) {
    && V.Resolve(m.name, prefix).Some? && Safe(V.Resolve(m.name, prefix).value)
    && Joined(root, V.Resolve(m.name, prefix).value) in entries
    && BodyFits(m.body, entries[Joined(root, V.Resolve(m.name, prefix).value)])
  }

  function NameOf(m: V.Member, prefix: string): string {
    match V.Resolve(m.name, prefix) case Some(p) => p case None => ""
  }

  function NamesOf(members: seq<V.Member>, prefix: string): set<string> {
    set m | m in members :: NameOf(m, prefix)
  }

  /** The member at `i` fits, and none before it had its name. */
  predicate FitsAt(members: seq<V.Member>, i: nat, prefix: string, entries: map<string, Entry>, root: string)
    requires i < |members|
  {
    Fits(members[i], prefix, entries, root) && NameOf(members[i], prefix) !in NamesOf(members[..i], prefix)
  }

  /** All members fit, no two are the same, and there are as many as rows. */
  predicate StreamFits(members: seq<V.Member>, prefix: string, entries: map<string, Entry>, root: string) {
    && (forall i | 0 <= i < |members| :: FitsAt(members, i, prefix, entries, root))
    && |members| == |Kids(entries, root)|
  }

  method ReadMembers(members: seq<V.Member>, broken: bool, prefix: string, entries: map<string, Entry>, root: string,
                     expected: nat, stage: Staging) returns (ok: bool)
    requires SoundSubtree(entries, root) && expected == |Kids(entries, root)|
    requires stage.tree == Layer(entries, root, OfType(entries, root, DirEntry))
    modifies stage`tree
    ensures ok <==> !broken && StreamFits(members, prefix, entries, root)
    ensures ok ==>
              stage.tree == Layer(entries, root, OfType(entries, root, DirEntry) + OfType(entries, root, FileEntry))
  {
    hide SoundSubtree, Kids, KidNames, Fits, Layer, SoFar, NamesOf, NameOf;
    var seen: set<string> := {};
    AllSeenSoFar(entries, root);
    NoNamesYet(members, prefix);
    for i := 0 to |members|
      invariant forall k | 0 <= k < i :: FitsAt(members, k, prefix, entries, root)
      invariant |seen| == i && seen <= KidNames(entries, root) && seen == NamesOf(members[..i], prefix)
      invariant stage.tree == Layer(entries, root, SoFar(entries, root, seen))
    {
      var taken := ReadMember(members[i], prefix, entries, root, seen, stage);
      if taken == None {
        assert !FitsAt(members, i, prefix, entries, root);
        return false;
      }
      OneMoreName(members, i, prefix);
      seen := seen + {taken.value};
    }
    if broken { return false; }
    ok := |members| == expected;
    if ok {
      NamesCount(entries, root);
      SubsetIsAll(seen, KidNames(entries, root));
      EverythingRead(entries, root);
    }
  }

  lemma NoNamesYet(members: seq<V.Member>, prefix: string)
    ensures NamesOf(members[..0], prefix) == {}
  {}

  lemma OneMoreName(members: seq<V.Member>, i: nat, prefix: string)
    requires i < |members|
    ensures NamesOf(members[..i + 1], prefix) == NamesOf(members[..i], prefix) + {NameOf(members[i], prefix)}
  {
    assert members[..i + 1] == members[..i] + [members[i]];
  }

  /** Directories, and the files whose members were read. */
  function SoFar(entries: map<string, Entry>, root: string, seen: set<string>): (names: set<string>)
    ensures names <= KidNames(entries, root)
    ensures forall p | p in names :: Joined(root, p) in entries
  {
    OfType(entries, root, DirEntry) + (OfType(entries, root, FileEntry) * seen)
  }

  lemma AllSeenSoFar(entries: map<string, Entry>, root: string)
    ensures SoFar(entries, root, {}) == OfType(entries, root, DirEntry)
  {}

  lemma EverythingRead(entries: map<string, Entry>, root: string)
    ensures SoFar(entries, root, KidNames(entries, root))
            == OfType(entries, root, DirEntry) + OfType(entries, root, FileEntry)
  {}

  /** One member: looked up, refused if seen before, checked, and written if it is a file. */
  method ReadMember(m: V.Member, prefix: string, entries: map<string, Entry>, root: string, seen: set<string>,
                    stage: Staging) returns (taken: Option<string>)
    requires SoundSubtree(entries, root) && stage.tree == Layer(entries, root, SoFar(entries, root, seen))
    modifies stage`tree
    ensures taken.Some? <==> Fits(m, prefix, entries, root) && NameOf(m, prefix) !in seen
    ensures taken.Some? ==> taken.value == NameOf(m, prefix) && taken.value in KidNames(entries, root)
                            && stage.tree == Layer(entries, root, SoFar(entries, root, seen + {taken.value}))
  {
    var r := V.Resolve(m.name, prefix);
    if r == None || !Safe(r.value) { return None; }
    var p := r.value;
    if Joined(root, p) !in entries { return None; }
    var row := entries[Joined(root, p)];
    if p in seen { return None; }
    NamesJoin(entries, root);
    if !BodyShape(m.body, row) { return None; }
    if m.body.Regular? {
      if row.size != Some(|m.body.content|) { return None; }
      FileHasPlace(entries, root, seen, p);
      hide Safe, Kids, SoundSubtree, HasPlace, NoLinks, Layer, SoFar, V.Resolve;
      stage.Write(p, m.body.content, Permissions(row.mode));
      if row.sha != Some(Sha256(m.body.content)) { return None; }
      OneMoreFile(entries, root, seen, p, m.body.content);
    } else {
      NoFileRead(entries, root, seen, p);
    }
    return Some(p);
  }

  /** The type checks, before any byte is read: links by their target, files by type alone. */
  predicate BodyShape(m: V.MemberBody, e: Entry) {
    match m
    case Directory => e.etype == DirEntry
    case Symlink(t) => e.etype == LinkEntry && e.target == Some(t)
    case Regular(_) => e.etype == FileEntry
    case _ => false
  }

  lemma FileHasPlace(entries: map<string, Entry>, root: string, seen: set<string>, p: string)
    requires SoundSubtree(entries, root) && p != "" && Joined(root, p) in entries && p !in seen
    requires entries[Joined(root, p)].etype == FileEntry
    ensures var tree := Layer(entries, root, SoFar(entries, root, seen));
            p !in tree && HasPlace(tree, p) && NoLinks(tree)
  {
    NamesJoin(entries, root);
    JoinedIsBelow(root, p);
    PlaceIsThere(entries, root, p);
  }

  lemma OneMoreFile(entries: map<string, Entry>, root: string, seen: set<string>, p: string, c: Bytes)
    requires p in KidNames(entries, root) && Joined(root, p) in entries
    requires entries[Joined(root, p)].etype == FileEntry && entries[Joined(root, p)].sha == Some(Sha256(c))
    ensures Layer(entries, root, SoFar(entries, root, seen))
              [p := StagedFile(c, Permissions(entries[Joined(root, p)].mode))]
            == Layer(entries, root, SoFar(entries, root, seen + {p}))
  {
    assert SoFar(entries, root, seen + {p}) == SoFar(entries, root, seen) + {p};
  }

  lemma NoFileRead(entries: map<string, Entry>, root: string, seen: set<string>, p: string)
    requires Joined(root, p) in entries && entries[Joined(root, p)].etype != FileEntry
    ensures SoFar(entries, root, seen + {p}) == SoFar(entries, root, seen)
  {}

  lemma NamesCount(entries: map<string, Entry>, root: string)
    ensures |KidNames(entries, root)| == |Kids(entries, root)|
  {
    NamesAreAsMany(Kids(entries, root), root);
  }

  lemma {:induction false} NamesAreAsMany(kids: set<string>, root: string)
    requires forall rel | rel in kids :: InSubtree(rel, root) && rel != root
    ensures |set rel | rel in kids :: Relative(rel, root)| == |kids|
    decreases kids
  {
    var names := set rel | rel in kids :: Relative(rel, root);
    if kids == {} {
      assert names == {};
    } else {
      var x :| x in kids;
      NamesAreAsMany(kids - {x}, root);
      JoinedBack(x, root);
      forall y | y in kids - {x} ensures Relative(y, root) != Relative(x, root) { JoinedBack(y, root); }
      assert names == (set rel | rel in kids - {x} :: Relative(rel, root)) + {Relative(x, root)};
    }
  }

  /** Distinct members, all of the manifest and equal in number, are all of it. */
  lemma {:induction false} SubsetIsAll(s: set<string>, t: set<string>)
    requires s <= t && |s| == |t|
    ensures s == t
    decreases s
  {
    if s != {} {
      var x :| x in s;
      SubsetIsAll(s - {x}, t - {x});
    }
  }

  // ---- phase 3: the links, then the modes -----------------------------------------------------------

  method MakeLinks(entries: map<string, Entry>, root: string, stage: Staging)
    requires SoundSubtree(entries, root)
    requires stage.tree == Layer(entries, root, OfType(entries, root, DirEntry) + OfType(entries, root, FileEntry))
    modifies stage`tree
    ensures stage.tree == Layer(entries, root, KidNames(entries, root))
  {
    hide SoundSubtree, KidNames, OfType, HasPlace, Layer;
    var rest := OfType(entries, root, LinkEntry);
    ghost var links := rest;
    ghost var names := OfType(entries, root, DirEntry) + OfType(entries, root, FileEntry);
    TypesApart(entries, root);
    while rest != {}
      invariant rest <= links && rest !! names
      invariant names + rest == OfType(entries, root, DirEntry) + OfType(entries, root, FileEntry) + links
      invariant OfType(entries, root, DirEntry) <= names <= KidNames(entries, root)
      invariant stage.tree == Layer(entries, root, names)
      decreases rest
    {
      var p :| p in rest;
      LinkHasPlace(entries, root, names, p);
      OneMoreLink(entries, root, names, p);
      stage.Symlink(p, match entries[Joined(root, p)].target { case Some(t) => t case None => "" });
      rest, names := rest - {p}, names + {p};
    }
    assert names + rest == names;
    EveryRow(entries, root);
  }

  lemma OneMoreLink(entries: map<string, Entry>, root: string, names: set<string>, p: string)
    requires names <= KidNames(entries, root) && p in OfType(entries, root, LinkEntry)
    ensures Joined(root, p) in entries
    ensures Layer(entries, root, names)
              [p := StagedLink(match entries[Joined(root, p)].target { case Some(t) => t case None => "" })]
            == Layer(entries, root, names + {p})
  {}

  lemma LinkHasPlace(entries: map<string, Entry>, root: string, names: set<string>, p: string)
    requires SoundSubtree(entries, root) && p in OfType(entries, root, LinkEntry)
    requires OfType(entries, root, DirEntry) <= names <= KidNames(entries, root)
    requires p !in names
    ensures var tree := Layer(entries, root, names); p !in tree && HasPlace(tree, p)
  {
    NamesJoin(entries, root);
    assert SoundRow(entries, root, Joined(root, p));
    JoinedIsBelow(root, p);
    PlaceIsThere(entries, root, p);
  }

  lemma TypesApart(entries: map<string, Entry>, root: string)
    ensures OfType(entries, root, LinkEntry) !! OfType(entries, root, DirEntry) + OfType(entries, root, FileEntry)
  {}

  lemma EveryRow(entries: map<string, Entry>, root: string)
    ensures OfType(entries, root, DirEntry) + OfType(entries, root, FileEntry) + OfType(entries, root, LinkEntry)
            == KidNames(entries, root)
  {
    NamesJoin(entries, root);
  }

  /** What a restored directory is: the manifest's subtree, rebased at its root, modes included. */
  function Restored(entries: map<string, Entry>, root: string): map<string, Staged>
  {
    NamesJoin(entries, root);
    map p | p in KidNames(entries, root) ::
      var e := entries[Joined(root, p)];
      if e.etype == DirEntry then StagedDir(Permissions(e.mode)) else StagedAs(e)
  }

  /** `_directory_modes`: descending path order, so a directory is closed after all below it. */
  method SetModes(entries: map<string, Entry>, root: string, stage: Staging)
    requires root in entries && stage.tree == Layer(entries, root, KidNames(entries, root)) && stage.rootMode == PRIVATE
    modifies stage
    ensures stage.tree == Restored(entries, root) && stage.rootMode == Permissions(entries[root].mode)
  {
    hide KidNames, OfType, Less, Above, Layer, Restored, Joined;
    LessIsStrict();
    var dirs := OfType(entries, root, DirEntry);
    var order := SortBy(dirs, Less);
    forall p ensures p in order <==> p in dirs { assert p in order <==> p in (set x | x in order); }
    NoneSet(entries, root, order);
    var i := |order|;
    while i > 0
      invariant 0 <= i <= |order| && stage.rootMode == PRIVATE
      invariant stage.tree == PartlySet(entries, root, dirs, order[..i])
      decreases i
    {
      i := i - 1;
      assert order[i] in order && order[..i + 1] == order[..i] + [order[i]];
      ClosedFromBelow(entries, root, order, i);
      NotBefore(order, i);
      OneMoreSet(entries, root, dirs, order, i);
      stage.Chmod(order[i], Permissions(entries[Joined(root, order[i])].mode));
    }
    stage.ChmodRoot(Permissions(entries[root].mode));
    AllSet(entries, root);
  }

  /** All rows staged; of the directories, those of `open` still private. */
  function PartlySet(entries: map<string, Entry>, root: string, dirs: set<string>, open: seq<string>)
    : map<string, Staged>
  {
    map p | p in KidNames(entries, root) ::
      if p in dirs && p !in open then StagedDir(Permissions(entries[Joined(root, p)].mode))
      else StagedAs(entries[Joined(root, p)])
  }

  lemma NoneSet(entries: map<string, Entry>, root: string, order: seq<string>)
    requires forall p :: p in order <==> p in OfType(entries, root, DirEntry)
    ensures PartlySet(entries, root, OfType(entries, root, DirEntry), order[..|order|])
            == Layer(entries, root, KidNames(entries, root))
  {
    assert order[..|order|] == order;
  }

  lemma OneMoreSet(entries: map<string, Entry>, root: string, dirs: set<string>, order: seq<string>, i: nat)
    requires i < |order| && dirs == OfType(entries, root, DirEntry) && order[i] in dirs && order[i] !in order[..i]
    ensures Joined(root, order[i]) in entries && order[i] in KidNames(entries, root)
    ensures PartlySet(entries, root, dirs, order[..i + 1])
              [order[i] := StagedDir(Permissions(entries[Joined(root, order[i])].mode))]
            == PartlySet(entries, root, dirs, order[..i])
    ensures PartlySet(entries, root, dirs, order[..i + 1])[order[i]].StagedDir?
    ensures forall a | a in PartlySet(entries, root, dirs, order[..i + 1])
                       && PartlySet(entries, root, dirs, order[..i + 1])[a].StagedDir? ::
              a in dirs && (a in order[..i] ==> PartlySet(entries, root, dirs, order[..i + 1])[a].mode == PRIVATE)
  {
    NamesJoin(entries, root);
    assert order[..i + 1] == order[..i] + [order[i]];
  }

  lemma AllSet(entries: map<string, Entry>, root: string)
    ensures PartlySet(entries, root, OfType(entries, root, DirEntry), []) == Restored(entries, root)
  {
    NamesJoin(entries, root);
  }

  lemma NotBefore(order: seq<string>, i: nat)
    requires i < |order| && Sorted(order, Less)
    ensures order[i] !in order[..i]
  {
    LessIsStrict();
  }

  /** In path order every directory above `order[i]` comes before it. */
  lemma ClosedFromBelow(entries: map<string, Entry>, root: string, order: seq<string>, i: nat)
    requires i < |order| && Sorted(order, Less) && forall p :: p in order <==> p in OfType(entries, root, DirEntry)
    ensures forall a | a in KidNames(entries, root) && Above(a, order[i]) ::
              a in OfType(entries, root, DirEntry) ==> a in order[..i]
  {
    LessIsStrict();
    forall a | a in OfType(entries, root, DirEntry) && Above(a, order[i]) ensures a in order[..i] {
      PrefixIsLess(a, order[i]);
      assert a in order;
      var k :| 0 <= k < |order| && order[k] == a;
      assert k < i;
    }
  }

  /**
   * `_tree` and the modes: an error, or exactly the manifest's subtree. On the
   * way every directory is made in one that is there, no link exists while a
   * byte is written, and every mode is set before its ancestors'.
   */
  method RestoreTree(entries: map<string, Entry>, spool: string, root: string, members: seq<V.Member>, broken: bool)
    returns (stage: Staging, ok: bool)
    ensures fresh(stage)
    ensures ok <==> SoundSubtree(entries, root) && !broken
                    && StreamFits(members, V.StripSlashes(RemoteRoot(spool, root)), entries, root)
    ensures ok ==> stage.tree == Restored(entries, root) && stage.rootMode == Permissions(entries[root].mode)
  {
    hide Kids, V.StripSlashes, StreamFits, Layer, OfType, Restored;
    stage := new Staging();
    if root !in entries || entries[root].etype != DirEntry { return stage, false; }
    var expected := MakeDirectories(entries, root, stage);
    if expected == None { return stage, false; }
    ok := ReadMembers(members, broken, V.StripSlashes(RemoteRoot(spool, root)), entries, root, expected.value, stage);
    if !ok { return; }
    MakeLinks(entries, root, stage);
    SetModes(entries, root, stage);
  }

  // ---- whatever passed verification can be restored -----------------------------------------------------

  lemma PlainJoins(a: string, b: string)
    requires Plain(a) && Plain(b)
    ensures Plain(a + "/" + b)
  {
    SplitJoin(a, b);
  }

  /** Where the subtree lies in the snapshot. */
  function RemoteRoot(spool: string, root: string): string {
    Abs(spool, root)
  }

  lemma RemoteIsAbsolute(row: Occ, root: string)
    requires ItemShape(row) && root in row.entries
    ensures Absolute(RemoteRoot(row.spool, root))
  {
    hide *;
    PlainRow(row, root);
    JoinIsAbsolute(row.spool, root);
  }

  lemma JoinIsAbsolute(spool: string, root: string)
    requires Absolute(spool) && (root == "" || Plain(root))
    ensures Absolute(RemoteRoot(spool, root))
  {
    hide Plain;
    if root != "" {
      PlainJoins(spool[1..], root);
      assert RemoteRoot(spool, root)[1..] == spool[1..] + "/" + root;
    }
  }

  lemma PlainRow(row: Occ, root: string)
    requires ItemShape(row) && root in row.entries
    ensures Absolute(row.spool) && (root == "" || Plain(root))
  {
    hide Plain, Absolute;
    assert RowShape(row, root);
  }

  /** A row below `root` lies below the remote root, under its relative name. */
  lemma KidIsBelow(row: Occ, root: string, rel: string)
    requires ItemShape(row) && root in row.entries && rel in Kids(row.entries, root)
    ensures var name := Relative(rel, root);
            && Plain(name) && Joined(root, name) == rel && Abs(RemoteRoot(row.spool, root), name) == Abs(row.spool, rel)
            && Below(Abs(row.spool, rel), RemoteRoot(row.spool, root))
  {
    hide *;
    KidIsPlain(row, root, rel);
    KidPath(row.spool, root, rel);
  }

  lemma KidIsPlain(row: Occ, root: string, rel: string)
    requires ItemShape(row) && root in row.entries && rel in Kids(row.entries, root)
    ensures rel in row.entries && InSubtree(rel, root) && rel != root && Plain(Relative(rel, root))
  {
    JoinedBack(rel, root);
    assert rel != "";
    assert RowShape(row, rel);
    hide ItemShape, Plain, Parent;
    if root != "" {
      assert rel == root + "/" + Relative(rel, root);
      PlainParts(root, Relative(rel, root));
    }
  }

  lemma KidPath(spool: string, root: string, rel: string)
    requires InSubtree(rel, root) && rel != root && Plain(Relative(rel, root))
    ensures var name := Relative(rel, root);
            && Joined(root, name) == rel && Abs(RemoteRoot(spool, root), name) == Abs(spool, rel)
            && Below(Abs(spool, rel), RemoteRoot(spool, root))
  {
    var name := Relative(rel, root);
    JoinedBack(rel, root);
    PlainStart(name);
    hide Plain;
    if root != "" { assert spool + "/" + rel == (spool + "/" + root) + "/" + name; }
    AbsIsWithin(RemoteRoot(spool, root), name);
  }

  /** The stream of one row's entry resolves to the row and fits it. */
  lemma KidFits(row: Occ, tree: map<string, Source>, root: string, rel: string)
    requires ItemShape(row) && SameTree(tree, row.spool, row.entries) && root in row.entries
    requires rel in Kids(row.entries, root)
    requires forall r | r in row.entries :: (0 as char) !in r
    ensures var remote, p := RemoteRoot(row.spool, root), Abs(row.spool, rel);
            && p in tree && Below(p, remote)
            && Fits(V.MemberAt(tree, p), V.StripSlashes(remote), row.entries, root)
            && NameOf(V.MemberAt(tree, p), V.StripSlashes(remote)) == Relative(rel, root)
  {
    hide *;
    KidIsPlain(row, root, rel);
    var remote, p, name := RemoteRoot(row.spool, root), Abs(row.spool, rel), Relative(rel, root);
    KidIsBelow(row, root, rel);
    RemoteIsAbsolute(row, root);
    RowIsArchived(row, tree, rel);
    PlainStart(name);
    V.NameResolves(remote, name);
    NoNulInside(rel, root);
    MemberFits(row, tree, root, rel, V.StripSlashes(remote));
  }

  lemma RowIsArchived(row: Occ, tree: map<string, Source>, rel: string)
    requires SameTree(tree, row.spool, row.entries) && rel in row.entries
    ensures Archived(tree, row.spool, row.entries, rel) && Abs(row.spool, rel) in tree
  {}

  lemma MemberFits(row: Occ, tree: map<string, Source>, root: string, rel: string, prefix: string)
    requires rel in row.entries && Archived(tree, row.spool, row.entries, rel) && Abs(row.spool, rel) in tree
    requires InSubtree(rel, root) && Joined(root, Relative(rel, root)) == rel
    requires Plain(Relative(rel, root)) && Relative(rel, root) != "" && Relative(rel, root)[0] != '/'
    requires (0 as char) !in Relative(rel, root)
    requires V.Resolve(V.StripSlashes(Abs(row.spool, rel)), prefix) == Some(Relative(rel, root))
    ensures var m := V.MemberAt(tree, Abs(row.spool, rel));
            Fits(m, prefix, row.entries, root) && NameOf(m, prefix) == Relative(rel, root)
  {
    hide V.Resolve, V.StripSlashes, Plain, Abs, Joined, Relative, InSubtree;
  }

  lemma NoNulInside(rel: string, root: string)
    requires InSubtree(rel, root) && (0 as char) !in rel
    ensures (0 as char) !in Relative(rel, root)
  {}

  /** And every entry below the remote root is some row's. */
  lemma BelowIsKid(row: Occ, tree: map<string, Source>, root: string, p: string)
    requires ItemShape(row) && SameTree(tree, row.spool, row.entries) && root in row.entries
    requires p in tree && Below(p, RemoteRoot(row.spool, root))
    ensures Within(p, row.spool) && Rel(p, row.spool) in Kids(row.entries, root)
    ensures Abs(row.spool, Rel(p, row.spool)) == p
  {
    BelowRemote(row.spool, root, p);
    assert Named(row.entries, row.spool, p);
    AbsOfRel(p, row.spool);
    if root != "" { BelowRemoteIsDeeper(row.spool, root, Rel(p, row.spool), p); }
    hide ItemShape, SameTree, Below, Within, Abs, RemoteRoot;
  }

  lemma BelowRemote(spool: string, root: string, p: string)
    requires Below(p, RemoteRoot(spool, root))
    ensures Within(p, spool) && Below(p, spool)
  {
    var remote := RemoteRoot(spool, root);
    if root != "" {
      assert remote[..|spool|] == spool;
      assert p[..|spool|] == p[..|remote|][..|spool|] && p[|spool|] == remote[|spool|];
    }
  }

  lemma BelowRemoteIsDeeper(spool: string, root: string, rel: string, p: string)
    requires root != "" && p == Abs(spool, rel) && Below(p, RemoteRoot(spool, root)) && Below(p, spool)
    ensures |rel| > |root| && rel[..|root|] == root && rel[|root|] == '/'
  {
    var remote := RemoteRoot(spool, root);
    assert p == spool + "/" + rel && remote == spool + "/" + root;
    assert rel[..|root|] == p[|spool| + 1..][..|root|] == remote[|spool| + 1..];
    assert rel[|root|] == p[|remote|];
  }

  /**
   * A snapshot whose tree is the manifest - one that passed verification - can be
   * restored at any directory of it, whatever the order of the stream.
   */
  lemma VerifiedIsRestorable(row: Occ, tree: map<string, Source>, root: string, paths: seq<string>)
    requires ItemShape(row) && SameTree(tree, row.spool, row.entries)
    requires root in row.entries && row.entries[root].etype == DirEntry
    requires forall r | r in row.entries :: (0 as char) !in r
    requires V.Enumerates(paths, tree, RemoteRoot(row.spool, root))
    ensures SoundSubtree(row.entries, root)
    ensures StreamFits(V.StreamOf(paths, tree), V.StripSlashes(RemoteRoot(row.spool, root)), row.entries, root)
  {
    hide *;
    SubtreeIsSound(row, root);
    VerifiedFits(row, tree, root, paths);
  }

  lemma SubtreeIsSound(row: Occ, root: string)
    requires ItemShape(row) && root in row.entries && row.entries[root].etype == DirEntry
    requires forall r | r in row.entries :: (0 as char) !in r
    ensures SoundSubtree(row.entries, root)
  {
    forall rel | rel in Kids(row.entries, root) ensures SoundRow(row.entries, root, rel) {
      KidIsPlain(row, root, rel);
      RowHasParent(row, root, rel);
      PlainStart(Relative(rel, root));
      NoNulInside(rel, root);
    }
    hide ItemShape, Plain, SoundRow;
  }

  lemma RowHasParent(row: Occ, root: string, rel: string)
    requires ItemShape(row) && root in row.entries && rel in Kids(row.entries, root)
    ensures Parent(rel) in row.entries && row.entries[Parent(rel)].etype == DirEntry
  {
    assert rel != "";
    assert RowShape(row, rel);
  }

  lemma VerifiedFits(row: Occ, tree: map<string, Source>, root: string, paths: seq<string>)
    requires ItemShape(row) && SameTree(tree, row.spool, row.entries) && root in row.entries
    requires forall r | r in row.entries :: (0 as char) !in r
    requires V.Enumerates(paths, tree, RemoteRoot(row.spool, root))
    ensures StreamFits(V.StreamOf(paths, tree), V.StripSlashes(RemoteRoot(row.spool, root)), row.entries, root)
  {
    hide ItemShape, SameTree, Fits, V.StripSlashes, RemoteRoot, Kids, NameOf, Below;
    var members, prefix := V.StreamOf(paths, tree), V.StripSlashes(RemoteRoot(row.spool, root));
    forall i | 0 <= i < |members| ensures FitsAt(members, i, prefix, row.entries, root) {
      PathFits(row, tree, root, paths[i]);
      forall k | 0 <= k < i ensures NameOf(members[k], prefix) != NameOf(members[i], prefix) {
        PathFits(row, tree, root, paths[k]);
        DifferentNames(row.entries, root, Rel(paths[k], row.spool), Rel(paths[i], row.spool));
      }
      NotAmong(members, i, prefix);
    }
    PathsAreKids(row, tree, root, paths);
  }

  lemma NotAmong(members: seq<V.Member>, i: nat, prefix: string)
    requires i < |members| && forall k | 0 <= k < i :: NameOf(members[k], prefix) != NameOf(members[i], prefix)
    ensures NameOf(members[i], prefix) !in NamesOf(members[..i], prefix)
  {
    hide NameOf;
  }

  lemma DifferentNames(entries: map<string, Entry>, root: string, x: string, y: string)
    requires x in Kids(entries, root) && y in Kids(entries, root) && x != y
    ensures Relative(x, root) != Relative(y, root)
  {
    JoinedBack(x, root);
    JoinedBack(y, root);
  }

  lemma PathFits(row: Occ, tree: map<string, Source>, root: string, p: string)
    requires ItemShape(row) && SameTree(tree, row.spool, row.entries) && root in row.entries
    requires forall r | r in row.entries :: (0 as char) !in r
    requires p in tree && Below(p, RemoteRoot(row.spool, root))
    ensures Within(p, row.spool) && Rel(p, row.spool) in Kids(row.entries, root)
    ensures Abs(row.spool, Rel(p, row.spool)) == p
    ensures InSubtree(Rel(p, row.spool), root)
    ensures var m, prefix := V.MemberAt(tree, p), V.StripSlashes(RemoteRoot(row.spool, root));
            Fits(m, prefix, row.entries, root) && NameOf(m, prefix) == Relative(Rel(p, row.spool), root)
  {
    hide *;
    BelowIsKid(row, tree, root, p);
    KidIsPlain(row, root, Rel(p, row.spool));
    KidFits(row, tree, root, Rel(p, row.spool));
  }

  lemma PathsAreKids(row: Occ, tree: map<string, Source>, root: string, paths: seq<string>)
    requires ItemShape(row) && SameTree(tree, row.spool, row.entries) && root in row.entries
    requires V.Enumerates(paths, tree, RemoteRoot(row.spool, root))
    ensures |paths| == |Kids(row.entries, root)|
  {
    var all := set p | p in paths;
    SeqIsSet(paths);
    var kids := Kids(row.entries, root);
    forall rel | rel in kids ensures Abs(row.spool, rel) in all {
      KidIsBelow(row, root, rel);
      assert Archived(tree, row.spool, row.entries, rel);
    }
    forall p | p in all ensures p in (set rel | rel in kids :: Abs(row.spool, rel)) {
      BelowIsKid(row, tree, root, p);
    }
    assert all == set rel | rel in kids :: Abs(row.spool, rel);
    PlacesAreAsMany(kids, row.spool);
  }

  lemma {:induction false} SeqIsSet(paths: seq<string>)
    requires forall i, j | 0 <= i < j < |paths| :: paths[i] != paths[j]
    ensures |set p | p in paths| == |paths|
    decreases |paths|
  {
    var all := set p | p in paths;
    if paths == [] {
      assert all == {};
    } else {
      var init, last := paths[..|paths| - 1], paths[|paths| - 1];
      SeqIsSet(init);
      assert paths == init + [last];
      assert all == (set p | p in init) + {last};
      assert last !in init;
    }
  }

  lemma {:induction false} PlacesAreAsMany(kids: set<string>, spool: string)
    ensures |set rel | rel in kids :: Abs(spool, rel)| == |kids|
    decreases kids
  {
    var places := set rel | rel in kids :: Abs(spool, rel);
    if kids == {} {
      assert places == {};
    } else {
      var x :| x in kids;
      PlacesAreAsMany(kids - {x}, spool);
      forall y | y in kids - {x} ensures Abs(spool, y) != Abs(spool, x) {
        if Abs(spool, y) == Abs(spool, x) { AbsInjective(spool, x, y); }
      }
      assert places == (set rel | rel in kids - {x} :: Abs(spool, rel)) + {Abs(spool, x)};
    }
  }
}
