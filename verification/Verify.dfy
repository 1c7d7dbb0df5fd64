/**
 * The payload proof: an `ls` listing reconciled with the manifest, then the
 * bytes read back and hashed. Listings and streams are untrusted input.
 */
module Verify {
  import opened Wrappers
  import opened Paths
  import opened Records
  import opened Protocol
  import opened Order

  // ---- what the engine shows ---------------------------------------------------------

  datatype NodeType = NodeFile | NodeDir | NodeSymlink | NodeOther
  datatype LsNode = LsNode(path: string, ntype: NodeType, size: Option<nat>)

  datatype MemberBody = Regular(content: Bytes) | Directory | Symlink(linkname: string)
                      | Hardlink | Unsupported
  datatype Member = Member(name: string, body: MemberBody)

  function NodeTypeOf(t: EntryType): NodeType {
    match t case FileEntry => NodeFile case DirEntry => NodeDir case LinkEntry => NodeSymlink
  }

  /** The `ls` node of a tree's entry: no link target, a size only for files. */
  function NodeAt(tree: map<string, Source>, p: string): LsNode
    requires p in tree
  {
    match tree[p]
    case SourceFile(c) => LsNode(p, NodeFile, Some(|c|))
    case SourceDir => LsNode(p, NodeDir, None)
    case SourceLink(_) => LsNode(p, NodeSymlink, None)
  }

  function StripSlashes(s: string): string {
    if s != "" && s[0] == '/' then StripSlashes(s[1..]) else s
  }

  /** The tar member of a tree's entry. */
  function MemberAt(tree: map<string, Source>, p: string): Member
    requires p in tree
  {
    Member(StripSlashes(p),
           match tree[p]
           case SourceFile(c) => Regular(c)
           case SourceDir => Directory
           case SourceLink(t) => Symlink(t))
  }

  // ---- reconciliation ------------------------------------------------------------------

  predicate NodeIs(n: LsNode, spool: string, entries: map<string, Entry>, rel: string)
    requires rel in entries
  {
    && Abs(spool, rel) == n.path && n.ntype == NodeTypeOf(entries[rel].etype)
    && (entries[rel].etype == FileEntry ==> n.size == entries[rel].size)
  }

  predicate NodeAgrees(n: LsNode, spool: string, entries: map<string, Entry>) {
    exists rel {:trigger NodeIs(n, spool, entries, rel)} | rel in entries :: NodeIs(n, spool, entries, rel)
  }

  predicate Listed(nodes: seq<LsNode>, p: string) {
    exists n | n in nodes :: n.path == p
  }

  /** The listing names exactly the manifest's entries, with their types and sizes. */
  predicate ListingAgrees(nodes: seq<LsNode>, spool: string, entries: map<string, Entry>) {
    && (forall n {:trigger NodeAgrees(n, spool, entries)} | n in nodes :: NodeAgrees(n, spool, entries))
    && (forall rel {:trigger Listed(nodes, Abs(spool, rel))} | rel in entries :: Listed(nodes, Abs(spool, rel)))
  }

  method Reconcile(nodes: seq<LsNode>, spool: string, entries: map<string, Entry>) returns (ok: bool)
    ensures ok <==> ListingAgrees(nodes, spool, entries)
  {
    hide Abs, NodeTypeOf;
    var expected: map<string, string> := map[];
    var rows := entries.Keys;
    while rows != {}
      invariant rows <= entries.Keys
      invariant forall rel | rel in entries && rel !in rows ::
                  Abs(spool, rel) in expected && expected[Abs(spool, rel)] == rel
      invariant forall p | p in expected :: expected[p] in entries && Abs(spool, expected[p]) == p
      decreases rows
    {
      var rel :| rel in rows;
      expected := expected[Abs(spool, rel) := rel];
      forall other | other in entries && Abs(spool, other) == Abs(spool, rel) ensures other == rel {
        AbsInjective(spool, other, rel);
      }
      rows := rows - {rel};
    }
    var seen: set<string> := {};
    for i := 0 to |nodes|
      invariant forall k | 0 <= k < i :: NodeAgrees(nodes[k], spool, entries)
      invariant forall p | p in seen :: Listed(nodes, p)
      invariant forall k | 0 <= k < i :: nodes[k].path in seen
    {
      var n := nodes[i];
      if n.path !in expected {
        assert n in nodes && !NodeAgrees(n, spool, entries);
        return false;
      }
      var rel := expected[n.path];
      seen := seen + {n.path};
      if n.ntype != NodeTypeOf(entries[rel].etype) || (entries[rel].etype == FileEntry && n.size != entries[rel].size) {
        assert n in nodes;
        forall r | r in entries && NodeIs(n, spool, entries, r) ensures r == rel {
          AbsInjective(spool, r, rel);
        }
        assert !NodeAgrees(n, spool, entries);
        return false;
      }
      assert NodeIs(n, spool, entries, rel);
      assert Listed(nodes, n.path);
    }
    ok := forall p | p in expected :: p in seen;
    assert forall n | n in nodes :: NodeAgrees(n, spool, entries);
    if ok {
      forall rel | rel in entries ensures Listed(nodes, Abs(spool, rel)) {
        assert Abs(spool, rel) in expected;
      }
    } else {
      var p :| p in expected && p !in seen;
      assert !Listed(nodes, Abs(spool, expected[p]));
    }
  }

  // ---- reading the bytes back ----------------------------------------------------------------

  /** `_member_rel_path`: member names come from the stream and are never trusted. */
  function Resolve(name: string, prefix: string): Option<string> {
    if name != "" && name[0] == '/' then None
    else if "." in Split(name) || ".." in Split(name) then None
    else if name == prefix then Some("")
    else if |name| > |prefix| && name[..|prefix|] == prefix && name[|prefix|] == '/'
    then Some(name[|prefix| + 1..])
    else None
  }

  predicate MemberAgrees(m: MemberBody, e: Entry) {
    match m
    case Symlink(t) => e.etype == LinkEntry && e.target == Some(t)
    case Directory => e.etype == DirEntry
    case Regular(c) => e.etype == FileEntry && e.sha == Some(Sha256(c))
    case _ => false
  }

  predicate MemberKnown(m: Member, prefix: string, entries: map<string, Entry>) {
    && Resolve(m.name, prefix).Some? && Resolve(m.name, prefix).value in entries
    && MemberAgrees(m.body, entries[Resolve(m.name, prefix).value])
  }

  /** The members are, each once, exactly the manifest's entries below the root. */
  predicate StreamAgrees(members: seq<Member>, prefix: string, entries: map<string, Entry>) {
    && (forall i | 0 <= i < |members| :: MemberKnown(members[i], prefix, entries))
    && (forall i, j | 0 <= i < j < |members| ::
          Resolve(members[i].name, prefix) != Resolve(members[j].name, prefix))
    && (forall rel | rel in entries && rel != "" ::
          exists i | 0 <= i < |members| :: Resolve(members[i].name, prefix) == Some(rel))
  }

  /** `broken` is a stream that ended inside a member. */
  method VerifyTree(members: seq<Member>, broken: bool, spool: string, entries: map<string, Entry>)
    returns (ok: bool)
    ensures ok <==> !broken && StreamAgrees(members, StripSlashes(spool), entries)
  {
    hide Resolve, MemberAgrees, StripSlashes;
    var prefix := StripSlashes(spool);
    var seen: set<string> := {};
    for i := 0 to |members|
      invariant forall k | 0 <= k < i :: MemberKnown(members[k], prefix, entries)
      invariant forall k | 0 <= k < i :: Resolve(members[k].name, prefix).value in seen
      invariant forall rel | rel in seen :: exists k | 0 <= k < i :: Resolve(members[k].name, prefix) == Some(rel)
      invariant forall j, k | 0 <= j < k < i ::
                  Resolve(members[j].name, prefix) != Resolve(members[k].name, prefix)
    {
      var rel := Resolve(members[i].name, prefix);
      if rel == None || rel.value in seen || rel.value !in entries
         || !MemberAgrees(members[i].body, entries[rel.value]) {
        return false;
      }
      seen := seen + {rel.value};
    }
    if broken { return false; }
    ok := forall rel | rel in entries && rel != "" :: rel in seen;
  }

  method VerifyFile(content: Option<Bytes>, entries: map<string, Entry>) returns (ok: bool)
    requires "" in entries
    ensures ok <==> content.Some? && entries[""].sha == Some(Sha256(content.value))
  {
    ok := content.Some? && Some(Sha256(content.value)) == entries[""].sha;
  }

  // ---- the remote catalog ----------------------------------------------------------------------

  datatype Check = DumpCheck | DigestCheck | LineageCheck | OccurrenceCheck | EntriesCheck

  /** `verify_catalog`: the first check that fails, if any does. */
  method VerifyCatalog(catalog: Option<Export>, id: Identity, live: Option<Digest>, local: Occ, occ: Id)
    returns (failed: Option<Check>)
    ensures failed == None <==>
              && (live.Some? ==> live.value == id.digest) && CatalogFileProven(catalog, id)
              && occ in catalog.value.db.occs && RowsAgree(catalog.value.db.occs[occ], local)
  {
    if catalog == None { return Some(DumpCheck); }
    if live.Some? && live.value != id.digest { return Some(DigestCheck); }
    if CatalogSha(catalog.value) != id.digest { return Some(DigestCheck); }
    if catalog.value.rows != [LineageRow(id.store, id.seqno, id.occ, id.attempt)] { return Some(LineageCheck); }
    if occ !in catalog.value.db.occs { return Some(OccurrenceCheck); }
    var exported := catalog.value.db.occs[occ];
    if exported.root != local.root || exported.kind != local.kind || exported.count != local.count
       || exported.item != local.item || exported.archive != local.archive {
      return Some(OccurrenceCheck);
    }
    var same := CompareRows(exported.entries, local.entries);
    return if same then None else Some(EntriesCheck);
  }

  predicate SameRow(e: Entry, l: Entry) {
    e.etype == l.etype && e.sha == l.sha && e.target == l.target
  }

  lemma SameOrder(exported: map<string, Entry>, local: map<string, Entry>, theirs: seq<string>, ours: seq<string>)
    requires theirs == Ordered(exported.Keys) && ours == Ordered(local.Keys) && |theirs| == |ours|
    requires forall k | 0 <= k < |ours| :: theirs[k] == ours[k] && ours[k] in exported && ours[k] in local
                                           && SameRow(exported[ours[k]], local[ours[k]])
    ensures exported.Keys == local.Keys && forall rel | rel in local :: SameRow(exported[rel], local[rel])
  {
    hide *;
    assert theirs == ours;
    forall rel ensures rel in exported <==> rel in local {
      assert rel in theirs <==> rel in ours;
    }
    forall rel | rel in local ensures SameRow(exported[rel], local[rel]) {
      assert rel in ours;
    }
  }

  /** Both manifests in path order, side by side. */
  method CompareRows(exported: map<string, Entry>, local: map<string, Entry>) returns (same: bool)
    ensures same <==> exported.Keys == local.Keys && forall rel | rel in local :: SameRow(exported[rel], local[rel])
  {
    hide *;
    var theirs, ours := Ordered(exported.Keys), Ordered(local.Keys);
    if |theirs| != |ours| {
      assert exported.Keys == local.Keys ==> theirs == ours;
      return false;
    }
    for i := 0 to |ours|
      invariant forall k | 0 <= k < i :: theirs[k] == ours[k] && ours[k] in exported && ours[k] in local
                                         && SameRow(exported[ours[k]], local[ours[k]])
    {
      assert theirs[i] in theirs && ours[i] in ours;
      if theirs[i] != ours[i] || !SameRow(exported[theirs[i]], local[ours[i]]) {
        assert exported.Keys == local.Keys ==> theirs == ours;
        return false;
      }
    }
    SameOrder(exported, local, theirs, ours);
    return true;
  }

  // ---- what acceptance means --------------------------------------------------------------------

  /** `paths` are, each once, exactly the tree's entries strictly below `spool`. */
  predicate Enumerates(paths: seq<string>, tree: map<string, Source>, spool: string) {
    && (forall i | 0 <= i < |paths| :: paths[i] in tree && Below(paths[i], spool))
    && (forall i, j | 0 <= i < j < |paths| :: paths[i] != paths[j])
    && (forall p | p in tree && Below(p, spool) :: p in paths)
  }

  function StreamOf(paths: seq<string>, tree: map<string, Source>): seq<Member>
    requires forall p | p in paths :: p in tree
  {
    seq(|paths|, i requires 0 <= i < |paths| => MemberAt(tree, paths[i]))
  }

  predicate NodeOf(n: LsNode, tree: map<string, Source>, spool: string) {
    n.path in tree && Within(n.path, spool) && n == NodeAt(tree, n.path)
  }

  predicate Lists(nodes: seq<LsNode>, tree: map<string, Source>, spool: string) {
    && (forall n {:trigger NodeOf(n, tree, spool)} | n in nodes :: NodeOf(n, tree, spool))
    && (forall p {:trigger Listed(nodes, p)} | p in tree && Within(p, spool) :: Listed(nodes, p))
  }

  /** The listing in path order. */
  function Listing(tree: map<string, Source>, spool: string): (nodes: seq<LsNode>)
    ensures Lists(nodes, tree, spool)
  {
    var within := set p | p in tree && Within(p, spool);
    var names := Ordered(within);
    var nodes := seq(|names|, i requires 0 <= i < |names| => assert names[i] in names; NodeAt(tree, names[i]));
    EachIsListed(tree, spool, names, nodes);
    nodes
  }

  lemma EachIsListed(tree: map<string, Source>, spool: string, names: seq<string>, nodes: seq<LsNode>)
    requires forall p :: p in names <==> p in tree && Within(p, spool)
    requires |nodes| == |names| && forall i | 0 <= i < |names| :: names[i] in tree && nodes[i] == NodeAt(tree, names[i])
    ensures Lists(nodes, tree, spool)
  {
    forall n | n in nodes ensures NodeOf(n, tree, spool) {
      var i :| 0 <= i < |nodes| && nodes[i] == n;
      assert names[i] in names;
    }
    forall p | p in tree && Within(p, spool) ensures Listed(nodes, p) {
      var i :| 0 <= i < |names| && names[i] == p;
      assert nodes[i] in nodes && nodes[i].path == p;
    }
  }

  /** The streamed paths in path order. */
  function DumpOrder(tree: map<string, Source>, spool: string): (paths: seq<string>)
    ensures Enumerates(paths, tree, spool)
  {
    var below := set p | p in tree && Below(p, spool);
    LessIsStrict();
    var paths := Ordered(below);
    SortedEnumerates(tree, spool, paths);
    paths
  }

  lemma SortedEnumerates(tree: map<string, Source>, spool: string, paths: seq<string>)
    requires Sorted(paths, Less) && forall p :: p in paths <==> p in tree && Below(p, spool)
    ensures Enumerates(paths, tree, spool)
  {
    LessIsStrict();
    assert forall i | 0 <= i < |paths| :: paths[i] in paths;
    forall i, j | 0 <= i < j < |paths| ensures paths[i] != paths[j] {
      LessIsTotal(paths[i], paths[j]);
    }
  }

  /** `ls` of a snapshot's tree at the item's path. */
  method ListTree(tree: map<string, Source>, spool: string) returns (nodes: seq<LsNode>)
    ensures Lists(nodes, tree, spool)
  {
    nodes := [];
    var rest := tree.Keys;
    while rest != {}
      invariant rest <= tree.Keys
      invariant forall n {:trigger NodeOf(n, tree, spool)} | n in nodes :: NodeOf(n, tree, spool)
      invariant forall p {:trigger Listed(nodes, p)} | p in tree && Within(p, spool) && p !in rest :: Listed(nodes, p)
      decreases rest
    {
      var p :| p in rest;
      rest := rest - {p};
      ghost var was := nodes;
      if Within(p, spool) { nodes := nodes + [NodeAt(tree, p)]; }
      forall q | q in tree && Within(q, spool) && q !in rest ensures Listed(nodes, q) {
        if q == p { assert NodeAt(tree, p) in nodes; } else { assert Listed(was, q); }
      }
    }
  }

  /** The order in which `dump` streams the descendants. */
  method StreamOrder(tree: map<string, Source>, spool: string) returns (paths: seq<string>)
    ensures Enumerates(paths, tree, spool)
  {
    paths := [];
    var rest := tree.Keys;
    while rest != {}
      invariant rest <= tree.Keys && forall p | p in paths :: p !in rest
      invariant forall i | 0 <= i < |paths| :: paths[i] in tree && Below(paths[i], spool)
      invariant forall i, j | 0 <= i < j < |paths| :: paths[i] != paths[j]
      invariant forall p | p in tree && Below(p, spool) && p !in rest :: p in paths
      decreases rest
    {
      var p :| p in rest;
      rest := rest - {p};
      if Below(p, spool) { paths := paths + [p]; }
    }
  }

  lemma StripOnce(s: string)
    requires s != "" && s[0] == '/' && (|s| > 1 ==> s[1] != '/')
    ensures StripSlashes(s) == s[1..]
  {}

  /** Of a plain path below a plain root the stream's name resolves to its own place. */
  lemma NameResolves(spool: string, rel: string)
    requires Absolute(spool) && rel != "" && Plain(rel)
    ensures Resolve(StripSlashes(Abs(spool, rel)), StripSlashes(spool)) == Some(rel)
  {
    var prefix := spool[1..];
    PlainStart(prefix);
    StripOnce(spool);
    var p := Abs(spool, rel);
    var name := prefix + "/" + rel;
    assert p[1..] == name;
    assert p[1] == prefix[0];
    StripOnce(p);
    SplitJoin(prefix, rel);
    assert name[|prefix| + 1..] == rel;
    assert name[..|prefix|] == prefix;
    assert name[0] == prefix[0];
    hide StripSlashes, Split;
  }

  /**
   * For a directory: the listing and the stream of a snapshot's own tree are
   * both accepted exactly when that tree equals the manifest and the stream was
   * read to its end. A stream cut on a member boundary is never accepted.
   */
  lemma TreeProofIsExact(row: Occ, tree: map<string, Source>, nodes: seq<LsNode>, paths: seq<string>, k: nat)
    requires ItemShape(row) && row.kind != FileKind
    requires Lists(nodes, tree, row.spool) && Enumerates(paths, tree, row.spool) && k <= |paths|
    ensures ListingAgrees(nodes, row.spool, row.entries)
            && StreamAgrees(StreamOf(paths[..k], tree), StripSlashes(row.spool), row.entries)
            <==> SameTree(tree, row.spool, row.entries) && k == |paths|
  {
    if SameTree(tree, row.spool, row.entries) {
      ListingFollows(row, tree, nodes);
      if k == |paths| {
        assert paths[..k] == paths;
        StreamFollows(row, tree, paths);
      }
    }
    if ListingAgrees(nodes, row.spool, row.entries)
       && StreamAgrees(StreamOf(paths[..k], tree), StripSlashes(row.spool), row.entries) {
      TreeFollows(row, tree, nodes, paths, k);
    }
  }

  lemma ListingFollows(row: Occ, tree: map<string, Source>, nodes: seq<LsNode>)
    requires ItemShape(row) && Lists(nodes, tree, row.spool) && SameTree(tree, row.spool, row.entries)
    ensures ListingAgrees(nodes, row.spool, row.entries)
  {
    forall n | n in nodes ensures NodeAgrees(n, row.spool, row.entries) {
      assert NodeOf(n, tree, row.spool) && Named(row.entries, row.spool, n.path);
      var rel := Rel(n.path, row.spool);
      AbsOfRel(n.path, row.spool);
      assert Archived(tree, row.spool, row.entries, rel);
      assert NodeIs(n, row.spool, row.entries, rel);
    }
    forall rel | rel in row.entries ensures Listed(nodes, Abs(row.spool, rel)) {
      AbsIsWithin(row.spool, rel);
      assert Archived(tree, row.spool, row.entries, rel);
    }
  }

  lemma StreamFollows(row: Occ, tree: map<string, Source>, paths: seq<string>)
    requires ItemShape(row) && Enumerates(paths, tree, row.spool) && SameTree(tree, row.spool, row.entries)
    ensures StreamAgrees(StreamOf(paths, tree), StripSlashes(row.spool), row.entries)
  {
    hide MemberAt, Resolve, Rel, Abs, Below, StripSlashes, MemberKnown, ItemShape, SameTree;
    var members, prefix := StreamOf(paths, tree), StripSlashes(row.spool);
    forall i | 0 <= i < |paths|
      ensures Resolve(members[i].name, prefix) == Some(Rel(paths[i], row.spool))
      ensures MemberKnown(members[i], prefix, row.entries) && Abs(row.spool, Rel(paths[i], row.spool)) == paths[i]
    {
      MemberFollows(row, tree, paths[i]);
    }
    forall rel | rel in row.entries && rel != ""
      ensures exists i | 0 <= i < |members| :: Resolve(members[i].name, prefix) == Some(rel)
    {
      BelowRoot(row, tree, rel);
      var i :| 0 <= i < |paths| && paths[i] == Abs(row.spool, rel);
      assert Resolve(members[i].name, prefix) == Some(rel);
    }
  }

  lemma BelowRoot(row: Occ, tree: map<string, Source>, rel: string)
    requires SameTree(tree, row.spool, row.entries) && rel in row.entries && rel != ""
    ensures var p := Abs(row.spool, rel); p in tree && Below(p, row.spool) && Rel(p, row.spool) == rel
  {
    AbsIsWithin(row.spool, rel);
    assert Archived(tree, row.spool, row.entries, rel);
  }

  lemma MemberFollows(row: Occ, tree: map<string, Source>, p: string)
    requires ItemShape(row) && SameTree(tree, row.spool, row.entries) && p in tree && Below(p, row.spool)
    ensures var m, prefix := MemberAt(tree, p), StripSlashes(row.spool);
            && Resolve(m.name, prefix) == Some(Rel(p, row.spool))
            && MemberKnown(m, prefix, row.entries) && Abs(row.spool, Rel(p, row.spool)) == p
  {
    hide StripSlashes, Plain, Absolute, Resolve, RowShape, Parent, Split, Below;
    var rel := Rel(p, row.spool);
    RelOfMember(row, tree, p);
    NameResolves(row.spool, rel);
    assert Archived(tree, row.spool, row.entries, rel) && RowShape(row, rel);
    MemberIsDescribed(row, tree, p);
  }

  lemma RelOfMember(row: Occ, tree: map<string, Source>, p: string)
    requires ItemShape(row) && SameTree(tree, row.spool, row.entries) && p in tree && Below(p, row.spool)
    ensures var rel := Rel(p, row.spool);
            rel in row.entries && rel != "" && Plain(rel) && Abs(row.spool, rel) == p
  {
    hide Absolute, Plain;
    assert Named(row.entries, row.spool, p);
    AbsOfRel(p, row.spool);
    assert RowShape(row, Rel(p, row.spool));
  }

  lemma MemberIsDescribed(row: Occ, tree: map<string, Source>, p: string)
    requires "" in row.entries && row.prints.Keys == row.entries.Keys && p in tree && Within(p, row.spool)
    requires var rel := Rel(p, row.spool);
             && rel in row.entries && RowShape(row, rel) && Archived(tree, row.spool, row.entries, rel)
             && Abs(row.spool, rel) == p
    ensures MemberAgrees(MemberAt(tree, p).body, row.entries[Rel(p, row.spool)])
  {
    hide StripSlashes, Plain, Parent;
  }

  lemma TreeFollows(row: Occ, tree: map<string, Source>, nodes: seq<LsNode>, paths: seq<string>, k: nat)
    requires ItemShape(row) && row.kind != FileKind
    requires Lists(nodes, tree, row.spool) && Enumerates(paths, tree, row.spool) && k <= |paths|
    requires ListingAgrees(nodes, row.spool, row.entries)
    requires StreamAgrees(StreamOf(paths[..k], tree), StripSlashes(row.spool), row.entries)
    ensures SameTree(tree, row.spool, row.entries) && k == |paths|
  {
    if k < |paths| { CutStreamMisses(row, tree, nodes, paths, k); }
    ListedAreEntries(row, tree, nodes);
    forall rel | rel in row.entries ensures Archived(tree, row.spool, row.entries, rel) {
      StreamedEntry(row, tree, nodes, paths, k, rel);
    }
  }

  lemma StreamedEntry(row: Occ, tree: map<string, Source>, nodes: seq<LsNode>, paths: seq<string>, k: nat, rel: string)
    requires ItemShape(row) && row.kind != FileKind && rel in row.entries
    requires Lists(nodes, tree, row.spool) && Enumerates(paths, tree, row.spool) && k <= |paths|
    requires ListingAgrees(nodes, row.spool, row.entries)
    requires StreamAgrees(StreamOf(paths[..k], tree), StripSlashes(row.spool), row.entries)
    ensures Archived(tree, row.spool, row.entries, rel)
  {
    var members, prefix := StreamOf(paths[..k], tree), StripSlashes(row.spool);
    ListedEntry(row, tree, nodes, rel);
    assert RowShape(row, rel);
    if rel != "" {
      var i :| 0 <= i < k && Resolve(members[i].name, prefix) == Some(rel);
      assert MemberKnown(members[i], prefix, row.entries);
      PathResolves(row, tree, nodes, paths[i]);
    }
  }

  /** A stream that stops at a member boundary leaves an expected entry out. */
  lemma CutStreamMisses(row: Occ, tree: map<string, Source>, nodes: seq<LsNode>, paths: seq<string>, k: nat)
    requires ItemShape(row) && Lists(nodes, tree, row.spool) && Enumerates(paths, tree, row.spool)
    requires ListingAgrees(nodes, row.spool, row.entries) && k < |paths|
    ensures !StreamAgrees(StreamOf(paths[..k], tree), StripSlashes(row.spool), row.entries)
  {
    var members, prefix := StreamOf(paths[..k], tree), StripSlashes(row.spool);
    PathResolves(row, tree, nodes, paths[k]);
    var rel := Rel(paths[k], row.spool);
    forall i | 0 <= i < |members| ensures Resolve(members[i].name, prefix) != Some(rel) {
      PathResolves(row, tree, nodes, paths[i]);
    }
    hide Resolve, StripSlashes, Rel, Below, Abs, MemberAt;
    assert rel in row.entries && rel != "";
  }

  lemma PathResolves(row: Occ, tree: map<string, Source>, nodes: seq<LsNode>, p: string)
    requires ItemShape(row) && Lists(nodes, tree, row.spool) && ListingAgrees(nodes, row.spool, row.entries)
    requires p in tree && Below(p, row.spool)
    ensures Rel(p, row.spool) in row.entries && Rel(p, row.spool) != ""
    ensures Resolve(MemberAt(tree, p).name, StripSlashes(row.spool)) == Some(Rel(p, row.spool))
    ensures Abs(row.spool, Rel(p, row.spool)) == p
  {
    ListedAreEntries(row, tree, nodes);
    var rel := Rel(p, row.spool);
    assert Named(row.entries, row.spool, p);
    AbsOfRel(p, row.spool);
    assert RowShape(row, rel);
    NameResolves(row.spool, rel);
  }

  lemma ListedAreEntries(row: Occ, tree: map<string, Source>, nodes: seq<LsNode>)
    requires Lists(nodes, tree, row.spool) && ListingAgrees(nodes, row.spool, row.entries)
    ensures forall p {:trigger Named(row.entries, row.spool, p)} | p in tree :: Named(row.entries, row.spool, p)
  {
    forall p | p in tree && Within(p, row.spool) ensures Named(row.entries, row.spool, p) {
      assert Listed(nodes, p);
      var n :| n in nodes && n.path == p;
      assert NodeAgrees(n, row.spool, row.entries);
      var rel :| rel in row.entries && NodeIs(n, row.spool, row.entries, rel);
      AbsIsWithin(row.spool, rel);
    }
  }

  lemma ListedEntry(row: Occ, tree: map<string, Source>, nodes: seq<LsNode>, rel: string)
    requires Lists(nodes, tree, row.spool) && ListingAgrees(nodes, row.spool, row.entries) && rel in row.entries
    ensures var p := Abs(row.spool, rel);
            && p in tree && NodeAt(tree, p).ntype == NodeTypeOf(row.entries[rel].etype)
            && (row.entries[rel].etype == FileEntry ==> NodeAt(tree, p).size == row.entries[rel].size)
  {
    assert Listed(nodes, Abs(row.spool, rel));
    var n :| n in nodes && n.path == Abs(row.spool, rel);
    assert NodeAgrees(n, row.spool, row.entries) && NodeOf(n, tree, row.spool);
    var r :| r in row.entries && NodeIs(n, row.spool, row.entries, r);
    AbsInjective(row.spool, r, rel);
  }

  /** For a regular file: the same, with the one dump in place of the stream. */
  lemma FileProofIsExact(row: Occ, tree: map<string, Source>, nodes: seq<LsNode>)
    requires ItemShape(row) && row.kind == FileKind && row.entries[""].etype == FileEntry
    requires Lists(nodes, tree, row.spool)
    ensures ListingAgrees(nodes, row.spool, row.entries)
            && row.spool in tree && tree[row.spool].SourceFile?
            && row.entries[""].sha == Some(Sha256(tree[row.spool].content))
            <==> SameTree(tree, row.spool, row.entries)
  {
    assert RowShape(row, "");
    if SameTree(tree, row.spool, row.entries) {
      ListingFollows(row, tree, nodes);
      assert Archived(tree, row.spool, row.entries, "");
    }
    if ListingAgrees(nodes, row.spool, row.entries) && row.spool in tree && tree[row.spool].SourceFile?
       && row.entries[""].sha == Some(Sha256(tree[row.spool].content)) {
      ListedAreEntries(row, tree, nodes);
      ListedEntry(row, tree, nodes, "");
      assert Archived(tree, row.spool, row.entries, "");
    }
  }
}
