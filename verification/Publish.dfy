/**
 * Publishing a restored artifact beside other processes: no replacement, an
 * aside for what stands in the way, rollback, and cleanup of the stage alone.
 *
 * Other processes may add, rename, swap and remove entries anywhere - in the
 * destination, the aside directory, the stage and below it - between any two
 * calls. Only two things are taken from the file system: a directory has one
 * name, and a directory stays a directory.
 */
module Publication {
  import opened Wrappers

  // ---- names and what they stand for -------------------------------------------------------

  /** An entry's identity: device and inode. */
  type Obj = nat

  /** What each directory holds; whatever is no key is a file or a link. */
  type Fs = map<Obj, map<string, Obj>>

  function At(fs: Fs, d: Obj, n: string): Option<Obj> {
    if d in fs && n in fs[d] then Some(fs[d][n]) else None
  }

  predicate IsEmpty(fs: Fs, d: Obj) {
    d in fs && fs[d] == map[]
  }

  function Minus(fs: Fs, d: Obj, n: string): (fs': Fs)
    requires d in fs
    ensures fs'.Keys == fs.Keys
    ensures forall x, k :: At(fs', x, k) == if x == d && k == n then None else At(fs, x, k)
  {
    fs[d := fs[d] - {n}]
  }

  function Plus(fs: Fs, d: Obj, n: string, o: Obj): (fs': Fs)
    requires d in fs
    ensures fs'.Keys == fs.Keys
    ensures forall x, k :: At(fs', x, k) == if x == d && k == n then Some(o) else At(fs, x, k)
  {
    var entries: map<string, Obj> := fs[d][n := o];
    fs[d := entries]
  }

  function Renamed(fs: Fs, d: Obj, n: string, d': Obj, n': string): (fs': Fs)
    requires At(fs, d, n).Some? && d' in fs
    ensures fs'.Keys == fs.Keys
    ensures forall x, k :: At(fs', x, k) ==
              if x == d' && k == n' then At(fs, d, n) else if x == d && k == n then None else At(fs, x, k)
  {
    Plus(Minus(fs, d, n), d', n', At(fs, d, n).value)
  }

  /** An empty directory `a`, made under a name of `d`. */
  function Made(fs: Fs, d: Obj, n: string, a: Obj): (fs': Fs)
    requires d in fs && a !in fs
    ensures fs'.Keys == fs.Keys + {a}
    ensures forall x, k :: At(fs', x, k) == if x == d && k == n then Some(a) else At(fs, x, k)
  {
    var entries: map<string, Obj> := fs[d][n := a];
    fs[a := map[]][d := entries]
  }

  /** No directory has two names. */
  ghost predicate OneName(fs: Fs) {
    forall x, k, y, l {:trigger At(fs, x, k), At(fs, y, l)} ::
      At(fs, x, k).Some? && At(fs, x, k) == At(fs, y, l) && At(fs, x, k).value in fs ==> x == y && k == l
  }

  /** What other processes may make of the file system. */
  ghost predicate MayBecome(fs: Fs, fs': Fs) {
    fs.Keys <= fs'.Keys && OneName(fs')
  }

  ghost predicate Reaches(fs: Fs, x: Obj, y: Obj, path: seq<string>)
    decreases |path|
  {
    if path == [] then x == y else At(fs, x, path[0]).Some? && Reaches(fs, At(fs, x, path[0]).value, y, path[1..])
  }

  ghost predicate IsBelow(fs: Fs, x: Obj, y: Obj) {
    exists path :: Reaches(fs, x, y, path)
  }

  /** An entry and everything below it. */
  ghost function Below(fs: Fs, x: Obj): iset<Obj> {
    iset y | IsBelow(fs, x, y)
  }

  lemma BelowItself(fs: Fs, x: Obj)
    ensures x in Below(fs, x)
  {
    assert Reaches(fs, x, x, []);
  }

  lemma {:induction false} ReachesOn(fs: Fs, x: Obj, y: Obj, path: seq<string>, k: string)
    requires Reaches(fs, x, y, path) && At(fs, y, k).Some?
    ensures Reaches(fs, x, At(fs, y, k).value, path + [k])
    decreases |path|
  {
    if path == [] {
      assert ([] + [k])[1..] == [];
    } else {
      ReachesOn(fs, At(fs, x, path[0]).value, y, path[1..], k);
      assert (path + [k])[1..] == path[1..] + [k];
    }
  }

  /** With a directory everything in it belongs to the set. */
  ghost predicate Closed(fs: Fs, mine: iset<Obj>) {
    forall d, k {:trigger At(fs, d, k)} | d in mine && At(fs, d, k).Some? :: At(fs, d, k).value in mine
  }

  /** A height for every directory, lower for what is in it. */
  ghost predicate Ranked(fs: Fs, rank: map<Obj, nat>) {
    fs.Keys <= rank.Keys
    && forall d, k {:trigger At(fs, d, k)} | At(fs, d, k).Some? && At(fs, d, k).value in fs ::
         rank[At(fs, d, k).value] < rank[d]
  }

  lemma BelowIsClosed(fs: Fs, x: Obj)
    ensures Closed(fs, Below(fs, x))
  {
    forall d, k | d in Below(fs, x) && At(fs, d, k).Some? ensures At(fs, d, k).value in Below(fs, x) {
      var path :| Reaches(fs, x, d, path);
      ReachesOn(fs, x, d, path, k);
    }
  }

  ghost predicate CameWith(fs: Fs, fs': Fs, into: iset<Obj>, z: Obj) {
    exists x, k {:trigger At(fs', x, k)} ::
      x in into && At(fs', x, k).Some? && At(fs', x, k) != At(fs, x, k) && IsBelow(fs', At(fs', x, k).value, z)
  }

  /** What gained a name in a directory of `into`, with everything below it. */
  ghost function Brought(fs: Fs, fs': Fs, into: iset<Obj>): iset<Obj> {
    iset z | CameWith(fs, fs', into, z)
  }

  ghost predicate Left(fs: Fs, fs': Fs, o: Obj) {
    exists x, k {:trigger At(fs, x, k)} :: At(fs, x, k) == Some(o) && At(fs', x, k) != Some(o)
  }

  /** What lost a name. */
  ghost function Departed(fs: Fs, fs': Fs): iset<Obj> {
    iset o | Left(fs, fs', o)
  }

  ghost predicate Holds(fs: Fs, d: Obj, o: Obj) {
    exists k {:trigger At(fs, d, k)} :: At(fs, d, k) == Some(o)
  }

  ghost function Contents(fs: Fs, d: Obj): iset<Obj> {
    iset o | Holds(fs, d, o)
  }

  lemma HeldOrDeparted(fs: Fs, fs': Fs, d: Obj, o: Obj)
    requires Holds(fs, d, o)
    ensures Holds(fs', d, o) || o in Departed(fs, fs')
  {}

  lemma StaysClosed(fs: Fs, fs': Fs, mine: iset<Obj>)
    requires Closed(fs, mine)
    ensures Closed(fs', mine + Brought(fs, fs', mine))
  {
    forall d, k | d in mine + Brought(fs, fs', mine) && At(fs', d, k).Some?
      ensures At(fs', d, k).value in mine + Brought(fs, fs', mine)
    {
      if d in mine {
        if At(fs', d, k) != At(fs, d, k) { ArrivalIsBrought(fs, fs', mine, d, k); }
      } else {
        var x, l :| x in mine && At(fs', x, l).Some? && At(fs', x, l) != At(fs, x, l)
                    && d in Below(fs', At(fs', x, l).value);
        BelowIsClosed(fs', At(fs', x, l).value);
      }
    }
  }

  lemma ArrivalIsBrought(fs: Fs, fs': Fs, mine: iset<Obj>, d: Obj, k: string)
    requires d in mine && At(fs', d, k).Some? && At(fs', d, k) != At(fs, d, k)
    ensures At(fs', d, k).value in Brought(fs, fs', mine)
  {
    BelowItself(fs', At(fs', d, k).value);
  }

  // ---- what the two looks after the rename say --------------------------------------------------

  /** `published_info` from the first look, `transferred` from the second. */
  function Accounted(first: Fs, second: Fs, dest: Obj, name: string, stageName: string, stage: Obj)
    : (Option<Obj>, bool)
  {
    (if At(first, dest, name) == Some(stage) then Some(stage) else None, At(second, dest, stageName) != Some(stage))
  }

  /**
   * A published tree is left unmarked exactly when the stage came back between
   * the two looks: gone from its own name at the first, there again at the second.
   */
  lemma UnmarkedWhenReturned(first: Fs, second: Fs, dest: Obj, name: string, stageName: string, stage: Obj)
    requires OneName(first) && stage in first && name != stageName
    ensures Accounted(first, second, dest, name, stageName, stage) == (Some(stage), false) <==>
            (&& At(first, dest, name) == Some(stage) && At(first, dest, stageName) != Some(stage)
             && At(second, dest, stageName) == Some(stage))
  {
    if At(first, dest, name) == Some(stage) { assert At(first, dest, name) != At(first, dest, stageName); }
  }

  /**
   * Another process can do just that: it renames the tree back as soon as it was
   * seen published. Then the tree is recorded as published, is not marked as moved,
   * and stands where cleanup looks for its private stage.
   */
  lemma PublishedTreeMayBeEntered(fs: Fs, dest: Obj, name: string, stageName: string, stage: Obj)
    requires OneName(fs) && stage in fs && name != stageName
    requires At(fs, dest, stageName) == Some(stage) && At(fs, dest, name) == None
    ensures var there := Renamed(fs, dest, stageName, dest, name);
            && At(there, dest, name).Some?
            && var back := Renamed(there, dest, name, dest, stageName);
               && MayBecome(there, back)
               && Accounted(there, back, dest, name, stageName, stage) == (Some(stage), false)
               && At(back, dest, stageName) == Some(stage)
  {
    var there := Renamed(fs, dest, stageName, dest, name);
    var back := Renamed(there, dest, name, dest, stageName);
    forall x, k ensures At(back, x, k) == At(fs, x, k) {}
    assert OneName(back) by {
      forall x, k, y, l | At(back, x, k).Some? && At(back, x, k) == At(back, y, l) && At(back, x, k).value in back
        ensures x == y && k == l
      {
        assert At(fs, x, k) == At(fs, y, l);
      }
    }
  }

  // ---- the publisher -------------------------------------------------------------------------------

  /** Where the verified artifact is: the stage itself, or a file inside it. */
  datatype Artifact = TheStage | InStage(file: string)

  class Publisher {
    const name: string
    const stageName: string
    const asideName: string
    const dest: Obj
    const stage: Obj

    /** Nobody else acts and no call fails. */
    const calm: bool

    var fs: Fs
    var aside: Option<Obj>
    var asideInfo: Option<Obj>
    var published: Option<Obj>
    var transferred: bool

    /** All that ever stood in the destination or the aside directory. */
    ghost var seen: iset<Obj>
    /** What lost a name through other processes. */
    ghost var moved: iset<Obj>
    /** What other processes put into the stage, or into what they put there, during cleanup. */
    ghost var brought: iset<Obj>
    /** What this process removed before the operation under way. */
    ghost var before: iset<Obj>
    /** What it removed since: files and links, and directories that were empty; and the names it took. */
    ghost var unlinked: iset<Obj>
    ghost var emptied: iset<Obj>
    ghost var taken: iset<(Obj, string)>

    ghost predicate Valid()
      reads this
    {
      && name != stageName && name != asideName && stageName != asideName
      && dest in fs && stage in fs && dest != stage && OneName(fs)
      && (aside.Some? ==> aside.value in fs && aside.value != dest && aside.value != stage)
      && (forall o | o in emptied :: o in fs)
      && Conserved()
    }

    ghost function Removed(): iset<Obj>
      reads this`before, this`unlinked, this`emptied
    {
      before + unlinked + emptied
    }

    ghost predicate Standing(o: Obj)
      reads this`fs, this`aside
    {
      Holds(fs, dest, o) || (aside.Some? && Holds(fs, aside.value, o))
    }

    /**
     * Whatever stood in the destination or the aside directory at any time still
     * does, unless another process moved it or it was removed here.
     */
    ghost predicate Conserved()
      reads this`fs, this`aside, this`seen, this`moved, this`before, this`unlinked, this`emptied
    {
      && Contents(fs, dest) <= seen && (aside.Some? ==> Contents(fs, aside.value) <= seen)
      && forall o {:trigger Standing(o)} | o in seen :: Standing(o) || o in moved || o in Removed()
    }

    /** The stage was just made, privately, in the destination. */
    constructor (fs: Fs, dest: Obj, stage: Obj, name: string, stageName: string, asideName: string, calm: bool)
      requires name != stageName && name != asideName && stageName != asideName && dest != stage
      requires dest in fs && stage in fs && OneName(fs) && At(fs, dest, stageName) == Some(stage)
      ensures Valid() && this.fs == fs && this.dest == dest && this.stage == stage && this.calm == calm
      ensures this.name == name && this.stageName == stageName && this.asideName == asideName
      ensures aside == None && asideInfo == None && published == None && !transferred
      ensures moved == iset{} && Removed() == iset{}
    {
      this.fs, this.dest, this.stage, this.calm := fs, dest, stage, calm;
      this.name, this.stageName, this.asideName := name, stageName, asideName;
      aside, asideInfo, published, transferred := None, None, None, false;
      seen := Contents(fs, dest);
      moved, brought, before, unlinked, emptied, taken := iset{}, iset{}, iset{}, iset{}, iset{}, iset{};
    }

    /** Every name it had it still has. */
    twostate predicate Stays(o: Obj)
      reads this
    {
      forall x, k {:trigger At(fs, x, k)} {:trigger At(old(fs), x, k)} | At(old(fs), x, k) == Some(o) ::
        At(fs, x, k) == Some(o)
    }

    // ---- other processes ----------------------------------------------------------------

    method Interfere()
      requires Valid()
      modifies this`fs, this`seen, this`moved
      ensures Valid() && old(seen) <= seen && MayBecome(old(fs), fs)
      ensures moved == old(moved) + Departed(old(fs), fs)
      ensures forall o | o !in moved :: Stays(o)
      ensures calm ==> fs == old(fs) && moved == old(moved)
    {
      var fs': Fs := *;
      NothingGoes(fs);
      if !calm && fs.Keys <= fs'.Keys && OneNameHolds(fs') { Become(fs'); }
    }

    /** The one-name condition, looked at entry by entry. */
    predicate OneNameHolds(fs': Fs) {
      forall x, y | x in fs' && y in fs' ::
        forall k, l | k in fs'[x] && l in fs'[y] :: fs'[x][k] == fs'[y][l] && fs'[x][k] in fs' ==> x == y && k == l
    }

    method Become(fs': Fs)
      requires Valid() && fs.Keys <= fs'.Keys && OneNameHolds(fs')
      modifies this`fs, this`seen, this`moved
      ensures Valid() && old(seen) <= seen && fs == fs' && OneName(fs)
      ensures moved == old(moved) + Departed(old(fs), fs)
      ensures forall o | o !in moved :: Stays(o)
    {
      ghost var was := fs;
      fs := fs';
      moved := moved + Departed(was, fs);
      seen := seen + Contents(fs, dest) + if aside.Some? then Contents(fs, aside.value) else iset{};
      StillStands(was);
    }

    /** After others acted: what still stands, and what they took. */
    twostate lemma StillStands(was: Fs)
      requires was == old(fs) && aside == old(aside) && old(Valid())
      requires seen == old(seen) + Contents(fs, dest) + (if aside.Some? then Contents(fs, aside.value) else iset{})
      requires Removed() == old(Removed()) && moved == old(moved) + Departed(was, fs)
      ensures Conserved()
    {
      hide Departed, OneName;
      forall o | o in seen ensures Standing(o) || o in moved || o in Removed() {
        if o in old(seen) && !(o in moved || o in Removed()) {
          assert old(Standing(o));
          if Holds(was, dest, o) { HeldOrDeparted(was, fs, dest, o); } else { HeldOrDeparted(was, fs, aside.value, o); }
        }
      }
    }

    method Fails() returns (failed: bool)
      ensures calm ==> !failed
    {
      failed := *;
      if calm { failed := false; }
    }

    // ---- the calls ------------------------------------------------------------------------

    /**
     * `rename_noreplace` into the destination or the aside directory: atomic, by
     * name, and never onto anything.
     */
    method Rename(d: Obj, n: string, d': Obj, n': string) returns (ok: bool)
      requires Valid() && d in fs && (d' == dest || aside == Some(d'))
      modifies this`fs, this`seen
      ensures Valid() && old(seen) <= seen
      ensures ok ==> At(old(fs), d, n).Some? && At(old(fs), d', n') == None && fs == Renamed(old(fs), d, n, d', n')
      ensures !ok ==> fs == old(fs)
      ensures calm && At(old(fs), d, n).Some? && At(old(fs), d', n') == None ==> ok
    {
      var failed := Fails();
      if failed || At(fs, d, n) == None || At(fs, d', n').Some? { return false; }
      RenameKeepsOneName(fs, d, n, d', n');
      ghost var was := fs;
      seen := seen + iset{At(fs, d, n).value};
      fs := Renamed(fs, d, n, d', n');
      forall o | o in seen ensures Standing(o) || o in moved || o in Removed() {
        assert o in old(seen) ==> old(Standing(o)) || o in moved || o in Removed();
        if o == was[d][n] { assert At(fs, d', n') == Some(o); } else { RenameSpares(was, d, n, d', n', o); }
      }
      forall o | o in Contents(fs, dest) ensures o in seen { RenameAdds(was, d, n, d', n', dest, o); }
      if aside.Some? {
        forall o | o in Contents(fs, aside.value) ensures o in seen { RenameAdds(was, d, n, d', n', aside.value, o); }
      }
      ok := true;
    }

    /** `rmdir` by name: whatever stands there goes, but only if it is an empty directory. */
    method RemoveDirectory(d: Obj, n: string) returns (ok: bool)
      requires Valid() && d in fs
      modifies this`fs, this`emptied, this`taken
      ensures Valid() && old(emptied) <= emptied && old(taken) <= taken
      ensures ok ==> && At(old(fs), d, n).Some? && IsEmpty(old(fs), At(old(fs), d, n).value)
                     && fs == Minus(old(fs), d, n)
                     && emptied == old(emptied) + iset{At(old(fs), d, n).value} && taken == old(taken) + iset{(d, n)}
      ensures !ok ==> fs == old(fs) && emptied == old(emptied) && taken == old(taken)
      ensures calm && At(old(fs), d, n).Some? && IsEmpty(old(fs), At(old(fs), d, n).value) ==> ok
    {
      var failed := Fails();
      if failed || At(fs, d, n) == None || !IsEmpty(fs, fs[d][n]) { return false; }
      emptied := emptied + iset{fs[d][n]};
      TakeOut(d, n);
      ok := true;
    }

    /** `unlink` by name: whatever stands there goes, but no directory. */
    method Unlink(d: Obj, n: string) returns (ok: bool)
      requires Valid() && d in fs
      modifies this`fs, this`unlinked, this`taken
      ensures Valid() && old(unlinked) <= unlinked && old(taken) <= taken
      ensures ok ==> && At(old(fs), d, n).Some? && At(old(fs), d, n).value !in old(fs) && fs == Minus(old(fs), d, n)
                     && unlinked == old(unlinked) + iset{At(old(fs), d, n).value} && taken == old(taken) + iset{(d, n)}
      ensures !ok ==> fs == old(fs) && unlinked == old(unlinked) && taken == old(taken)
      ensures calm && At(old(fs), d, n).Some? && At(old(fs), d, n).value !in old(fs) ==> ok
    {
      var failed := Fails();
      if failed || At(fs, d, n) == None || fs[d][n] in fs { return false; }
      unlinked := unlinked + iset{fs[d][n]};
      TakeOut(d, n);
      ok := true;
    }

    method TakeOut(d: Obj, n: string)
      requires Valid() && At(fs, d, n).Some? && At(fs, d, n).value in Removed()
      modifies this`fs, this`taken
      ensures Valid() && fs == Minus(old(fs), d, n) && taken == old(taken) + iset{(d, n)}
    {
      ghost var was := fs;
      taken := taken + iset{(d, n)};
      fs := Minus(fs, d, n);
      forall o | o in seen ensures Standing(o) || o in moved || o in Removed() {
        assert old(Standing(o)) || o in moved || o in Removed();
        if o != was[d][n] { TakingSpares(was, d, n, o); }
      }
      forall o | o in Contents(fs, dest) ensures o in Contents(was, dest) { TakingAdds(was, d, n, dest, o); }
      if aside.Some? {
        forall o | o in Contents(fs, aside.value) ensures o in Contents(was, aside.value) {
          TakingAdds(was, d, n, aside.value, o);
        }
      }
    }

    /** A new operation begins its own account of what it removes. */
    ghost method Begin()
      requires Valid()
      modifies this`before, this`unlinked, this`emptied, this`taken
      ensures Valid() && before == Removed() == old(Removed())
      ensures unlinked == emptied == iset{} && taken == iset{}
    {
      before, unlinked, emptied, taken := Removed(), iset{}, iset{}, iset{};
      assert Removed() == old(Removed());
    }

    // ---- publication ------------------------------------------------------------------------

    /** The entry that stood under the name when publication began is there, or set aside. */
    predicate InPlace(o: Obj)
      reads this`fs, this`aside
    {
      At(fs, dest, name) == Some(o) || (aside.Some? && At(fs, aside.value, name) == Some(o))
    }

    /** Directory and name the artifact is renamed from. */
    function Place(source: Artifact): (Obj, string) {
      match source case TheStage => (dest, stageName) case InStage(f) => (stage, f)
    }

    function SourceAt(g: Fs, source: Artifact): Option<Obj> {
      At(g, Place(source).0, Place(source).1)
    }

    /** `check_artifacts`. */
    predicate ArtifactsStand()
      reads this`fs, this`aside, this`asideInfo, this`published
    {
      && (published.Some? ==> At(fs, dest, name) == published)
      && (asideInfo.Some? ==> aside.Some? && At(fs, dest, asideName) == aside && At(fs, aside.value, name) == asideInfo)
    }

    predicate StageStands()
      reads this`fs
    {
      At(fs, dest, stageName) == Some(stage)
    }

    /** A published tree carries its mark, unless another process moved the tree. */
    ghost predicate Marked()
      reads this
    {
      published == Some(stage) ==> transferred || stage in moved
    }

    /** Whatever went was an empty directory, and went from the aside's name. */
    ghost predicate OnlyAsideWent()
      reads this`unlinked, this`taken
    {
      unlinked == iset{} && taken <= iset{(dest, asideName)}
    }

    method Unused() returns (a: Obj)
      requires Valid()
      ensures a !in fs && forall x, k :: At(fs, x, k) != Some(a)
    {
      var used := fs.Keys + set x, k | x in fs && k in fs[x] :: fs[x][k];
      a := 0;
      var rest := used;
      while rest != {}
        invariant rest <= used && forall x | x in used && x !in rest :: x < a
        decreases rest
      {
        var x :| x in rest;
        rest := rest - {x};
        if a <= x { a := x + 1; }
      }
      forall x, k ensures At(fs, x, k) != Some(a) {
        if At(fs, x, k).Some? { assert fs[x][k] in used; }
      }
    }

    /** `OwnedDirectory` for the aside; a created directory whose acquisition is refused is left alone. */
    method MakeAside() returns (ok: bool)
      requires Valid() && aside == None
      modifies this`fs, this`aside, this`seen
      ensures Valid() && old(seen) <= seen && ok == aside.Some?
      ensures forall x, k | At(old(fs), x, k).Some? :: At(fs, x, k) == At(old(fs), x, k)
      ensures ok ==> && aside.value !in old(fs) && fs == Made(old(fs), dest, asideName, aside.value)
                     && forall x, k :: At(old(fs), x, k) != aside
      ensures calm && At(old(fs), dest, asideName) == None ==> ok
    {
      var failed := Fails();
      if At(fs, dest, asideName).Some? { return false; }
      var a := Unused();
      ghost var was := fs;
      fs := Made(fs, dest, asideName, a);
      seen := seen + iset{a};
      MakingKeepsOneName(was, dest, asideName, a);
      forall o | o in seen ensures Standing(o) || o in moved || o in Removed() {
        assert o in old(seen) ==> old(Standing(o)) || o in moved || o in Removed();
        if o == a { assert At(fs, dest, asideName) == Some(a); } else { MakingSpares(was, dest, asideName, a, o); }
      }
      forall o | o in Contents(fs, dest) ensures o in seen { MakingAdds(was, dest, asideName, a, dest, o); }
      if failed { return false; }
      aside := Some(a);
      MadeEmpty(was, dest, asideName, a);
      ok := true;
    }

    /** Others have their turn: what was in place still is, unless they moved it. */
    method Wait()
      requires Valid()
      modifies this`fs, this`seen, this`moved
      ensures Valid() && old(moved) <= moved
      ensures forall o | o !in moved && old(InPlace(o)) :: InPlace(o)
      ensures calm ==> fs == old(fs)
    {
      hide Conserved, OneName, Departed, MayBecome;
      Interfere();
    }

    /** `rmdir` of the aside by its name. */
    method DropAside()
      requires Valid() && OnlyAsideWent()
      modifies this`fs, this`emptied, this`taken
      ensures Valid() && OnlyAsideWent()
      ensures forall o | old(InPlace(o)) :: InPlace(o)
      ensures calm && aside.Some? && At(old(fs), dest, asideName) == aside && IsEmpty(old(fs), aside.value) ==>
                fs == Minus(old(fs), dest, asideName)
    {
      hide Conserved, OneName, Minus;
      ghost var there := At(fs, dest, asideName);
      var gone := RemoveDirectory(dest, asideName);
    }

    /** The force path: move what is there out of the way. */
    method SetAside(original: Obj) returns (ok: bool)
      requires Valid() && OnlyAsideWent() && aside == None && asideInfo == None && At(fs, dest, name) == Some(original)
      modifies this`fs, this`aside, this`asideInfo, this`seen, this`moved, this`emptied, this`taken
      ensures Valid() && OnlyAsideWent() && old(moved) <= moved && (asideInfo.Some? ==> aside.Some?)
      ensures original !in moved ==> InPlace(original)
      ensures ok ==> asideInfo.Some?
      ensures calm && At(old(fs), dest, asideName) == None ==>
                && ok && aside.value !in old(fs) && asideInfo == Some(original)
                && (forall x, k :: At(old(fs), x, k) != aside)
                && fs == Renamed(Made(old(fs), dest, asideName, aside.value), dest, name, aside.value, name)
    {
      hide Conserved, OneName, Departed, MayBecome, Renamed, Made, Accounted;
      var made := MakeAside();
      if !made { return false; }
      ok := MoveAside(original);
    }

    /** From the made aside on: whatever the rename reported, what stands there now is accounted for. */
    method MoveAside(original: Obj) returns (ok: bool)
      requires Valid() && OnlyAsideWent() && aside.Some? && asideInfo == None && At(fs, dest, name) == Some(original)
      modifies this`fs, this`asideInfo, this`seen, this`moved, this`emptied, this`taken
      ensures Valid() && OnlyAsideWent() && old(moved) <= moved
      ensures original !in moved ==> InPlace(original)
      ensures ok ==> asideInfo.Some?
      ensures calm && At(old(fs), aside.value, name) == None ==>
                ok && asideInfo == Some(original) && fs == Renamed(old(fs), dest, name, aside.value, name)
    {
      hide Conserved, OneName, Renamed, At, IsEmpty;
      Wait();
      var refused := Fails();
      var away := false;
      if !refused { away := Rename(dest, name, aside.value, name); }
      Wait();
      if At(fs, aside.value, name).Some? {
        asideInfo := At(fs, aside.value, name);
      } else {
        if At(fs, dest, asideName) == aside {
          Wait();
          DropAside();
        }
        return false;
      }
      Wait();
      ok := away && At(fs, aside.value, name) == Some(original);
    }

    /** The last checks, and the identity about to be published. */
    method LastLook(source: Artifact) returns (info: Option<Obj>)
      requires Valid()
      modifies this`fs, this`seen, this`moved
      ensures Valid() && old(moved) <= moved
      ensures forall o | o !in moved :: Stays(o)
      ensures info.Some? && source.TheStage? ==> info.value == stage
      ensures info == Some(stage) && source.InStage? ==> stage in moved
      ensures calm ==> fs == old(fs)
      ensures calm && StageStands() && ArtifactsStand() ==> info == SourceAt(fs, source)
    {
      Interfere();
      var refused := Fails();
      if refused || !StageStands() || !ArtifactsStand() { return None; }
      ghost var looked := fs;
      Interfere();
      match source {
        case TheStage => info := if StageStands() then Some(stage) else None;
        case InStage(f) =>
          info := At(fs, stage, f);
          if info == Some(stage) {
            assert At(looked, dest, stageName) == Some(stage) && At(fs, dest, stageName) != Some(stage);
          }
      }
      Interfere();
    }

    /**
     * Whatever the rename reported: what stands under the name now, and is the
     * stage gone? The looks are at `first` and at what is there in the end; a
     * published tree goes unmarked only if the stage came back in between.
     */
    method Account(source: Artifact, info: Obj) returns (ghost first: Fs)
      requires Valid() && published == None && !transferred && (source.TheStage? ==> info == stage)
      requires source.InStage? && info == stage ==> stage in moved
      modifies this`fs, this`seen, this`moved, this`published, this`transferred
      ensures Valid() && old(moved) <= moved && Marked() && MayBecome(old(fs), first) && MayBecome(first, fs)
      ensures forall o | o !in moved :: Stays(o)
      ensures published == if At(first, dest, name) == Some(info) then Some(info) else None
      ensures source.TheStage? && published == Some(stage) && !transferred ==>
                At(first, dest, stageName) != Some(stage) && StageStands() && stage in moved
      ensures calm ==> fs == old(fs) && published == (if At(fs, dest, name) == Some(info) then Some(info) else None)
    {
      Interfere();
      first := fs;
      if At(fs, dest, name) == Some(info) { published := Some(info); }
      Interfere();
      if source.TheStage? {
        transferred := !StageStands();
        UnmarkedWhenReturned(first, fs, dest, name, stageName, stage);
      }
    }

    /** From the last checks to the rename and what it is found to have done. */
    method TryPublish(source: Artifact) returns (ok: bool)
      requires Valid() && published == None && !transferred
      modifies this`fs, this`seen, this`moved, this`published, this`transferred
      ensures Valid() && old(moved) <= moved && Marked()
      ensures forall o | o !in moved && old(InPlace(o)) :: InPlace(o)
      ensures ok ==> published.Some?
      ensures published.Some? && source.TheStage? ==> published == Some(stage)
      ensures calm && old(StageStands() && ArtifactsStand()) && SourceAt(old(fs), source).Some?
              && At(old(fs), dest, name) == None ==>
                && ok && published == SourceAt(old(fs), source)
                && fs == Renamed(old(fs), Place(source).0, Place(source).1, dest, name)
      ensures calm && old(StageStands() && ArtifactsStand()) && SourceAt(old(fs), source) == None ==>
                !ok && published == None && fs == old(fs)
    {
      hide Conserved, OneName, Departed, MayBecome, Renamed, Made, Accounted, At, Standing, IsEmpty;
      var info := LastLook(source);
      if info == None { return false; }
      ghost var before := fs;
      var renamed := Rename(Place(source).0, Place(source).1, dest, name);
      ghost var first := Account(source, info.value);
      if !renamed || published == None { return false; }
      Interfere();
      ok := ArtifactsStand();
    }

    /** Undo the force-aside; everything it cannot undo stays where it is. Undisturbed it undoes it all. */
    method Rollback()
      requires Valid() && OnlyAsideWent() && asideInfo.Some? && aside.Some?
      modifies this`fs, this`asideInfo, this`seen, this`moved, this`emptied, this`taken
      ensures Valid() && OnlyAsideWent() && old(moved) <= moved
      ensures forall o | o !in moved && old(InPlace(o)) :: InPlace(o)
      ensures calm && old(ArtifactsStand()) && At(old(fs), dest, name) == None
              && old(fs)[aside.value].Keys == {name} ==>
                && asideInfo == None
                && fs == Minus(Renamed(old(fs), aside.value, name, dest, name), dest, asideName)
    {
      hide Conserved, OneName, Renamed, Minus, At, IsEmpty;
      Wait();
      if !ArtifactsStand() { return; }
      var back := Rename(aside.value, name, dest, name);
      if !back { return; }
      asideInfo := None;
      if old(fs)[aside.value].Keys == {name} { MovedOutIsEmpty(old(fs), aside.value, name, dest, asideName); }
      LeaveAside();
    }

    /** The aside goes if it is still there, and empty. */
    method LeaveAside()
      requires Valid() && OnlyAsideWent() && aside.Some?
      modifies this`fs, this`seen, this`moved, this`emptied, this`taken
      ensures Valid() && OnlyAsideWent() && old(moved) <= moved
      ensures forall o | o !in moved && old(InPlace(o)) :: InPlace(o)
      ensures calm && At(old(fs), dest, asideName) == aside && IsEmpty(old(fs), aside.value) ==>
                fs == Minus(old(fs), dest, asideName)
    {
      hide Conserved, OneName, Minus, At, IsEmpty;
      Wait();
      if At(fs, dest, asideName) == aside {
        Wait();
        DropAside();
      }
    }

    /**
     * `_publish`, whatever other processes do meanwhile. Nothing is overwritten or
     * unlinked, and nothing removed but an empty directory under the aside's name;
     * what stood under the name stands there again or is set aside, unless another
     * process moved it; a published tree is marked so that no cleanup will enter
     * it, unless another process moved it back. Undisturbed it succeeds exactly
     * when the artifact is there and the name is free or displacing is allowed, and
     * moves nothing else; when it fails, every name stands for what it stood for.
     */
    method Publish(source: Artifact, force: bool) returns (ok: bool)
      requires Valid() && aside == None && asideInfo == None && published == None && !transferred
      modifies this`fs, this`aside, this`asideInfo, this`published, this`transferred
      modifies this`seen, this`moved, this`before, this`unlinked, this`emptied, this`taken
      ensures Valid() && old(moved) <= moved && Marked()
      ensures before == old(Removed()) && OnlyAsideWent()
      ensures ok ==> published.Some?
      ensures published.Some? && source.TheStage? ==> published == Some(stage)
      ensures At(old(fs), dest, name).Some? && At(old(fs), dest, name).value !in moved ==>
                InPlace(At(old(fs), dest, name).value)
      ensures calm && old(StageStands()) && At(old(fs), dest, asideName) == None ==>
                && (ok <==> SourceAt(old(fs), source).Some? && (At(old(fs), dest, name) == None || force))
                && (!ok ==> SameNames(old(fs), fs))
                && (ok ==> Delivered(old(fs), source))
    {
      hide Conserved, OneName, Departed, MayBecome, Renamed, Made, Accounted, Delivered, Standing, SameNames;
      NamesAreThemselves(fs);
      Begin();
      var refused := Fails();
      if refused || !StageStands() { return false; }
      ok := MakeWay(force);
      if !ok { return; }
      ok := PublishThere(source, old(fs));
    }

    /** With the way clear: the artifact goes under the name, or what was there goes back. */
    method PublishThere(source: Artifact, ghost g: Fs) returns (ok: bool)
      requires Valid() && OnlyAsideWent() && published == None && !transferred && (asideInfo.Some? ==> aside.Some?)
      modifies this`fs, this`asideInfo, this`published, this`transferred
      modifies this`seen, this`moved, this`emptied, this`taken
      ensures Valid() && OnlyAsideWent() && old(moved) <= moved && Marked()
      ensures ok ==> published.Some?
      ensures published.Some? && source.TheStage? ==> published == Some(stage)
      ensures forall o | o !in moved && old(InPlace(o)) :: InPlace(o)
      ensures calm && old(WayIsClear(g)) ==>
                && (ok <==> SourceAt(g, source).Some?)
                && (ok ==> Delivered(g, source)) && (!ok ==> SameNames(g, fs))
    {
      hide Conserved, OneName, Departed, MayBecome, Renamed, Made, Minus, Accounted, Delivered, Standing, SameNames, At,
           IsEmpty, Cleared, WayIsClear;
      ghost var cleared := fs;
      if WayIsClear(g) { WayIsClearFor(g, source); }
      ok := TryPublish(source);
      if calm && ok && old(WayIsClear(g)) { IsDelivered(g, cleared, source); }
      if !ok && asideInfo.Some? && published == None { Rollback(); }
    }

    /** `g` with the name free: as it was, or with what stood there alone in the new aside. */
    ghost predicate WayIsClear(g: Fs)
      reads this
    {
      && dest in g && stage in g && published == None && StageStands() && At(g, dest, asideName) == None
      && name != stageName && name != asideName && stageName != asideName && dest != stage
      && if At(g, dest, name) == None then fs == g && aside == None && asideInfo == None else Cleared(g)
    }

    lemma WayIsClearFor(g: Fs, source: Artifact)
      requires WayIsClear(g)
      ensures dest in g && stage in g && StageStands() && ArtifactsStand() && At(fs, dest, name) == None
      ensures SourceAt(fs, source) == SourceAt(g, source)
      ensures if At(g, dest, name) == None then aside == None && asideInfo == None && fs == g && SameNames(g, fs)
              else && aside.Some? && aside.value !in g && (forall x, k :: At(g, x, k) != aside)
                   && fs == Renamed(Made(g, dest, asideName, aside.value), dest, name, aside.value, name)
                   && aside.value in fs && fs[aside.value].Keys == {name} && asideInfo.Some?
                   && At(fs, aside.value, name).Some?
                   && SameNames(g, Minus(Renamed(fs, aside.value, name, dest, name), dest, asideName))
    {}

    /** Nothing stands under the name, or what does is set aside if that is allowed. */
    method MakeWay(force: bool) returns (ok: bool)
      requires Valid() && OnlyAsideWent() && aside == None && asideInfo == None && published == None
      modifies this`fs, this`aside, this`asideInfo, this`seen, this`moved, this`emptied, this`taken
      ensures Valid() && OnlyAsideWent() && old(moved) <= moved && (asideInfo.Some? ==> aside.Some?)
      ensures At(old(fs), dest, name).Some? && At(old(fs), dest, name).value !in moved ==>
                InPlace(At(old(fs), dest, name).value)
      ensures calm && At(old(fs), dest, asideName) == None ==>
                && (ok <==> At(old(fs), dest, name) == None || force)
                && (At(old(fs), dest, name) == None || !ok ==> fs == old(fs) && aside == None && asideInfo == None)
                && (At(old(fs), dest, name).Some? && ok ==> Cleared(old(fs)))
    {
      hide Conserved, OneName, Departed, MayBecome, Renamed, Made;
      if At(fs, dest, name).Some? {
        if !force { return false; }
        ok := SetAside(fs[dest][name]);
        if calm && At(old(fs), dest, asideName) == None { IsClear(old(fs), aside.value); }
        return;
      }
      ok := true;
    }

    /** What stood under the name in `g` is alone in the new aside; taking it back restores every name. */
    ghost predicate Cleared(g: Fs)
      requires dest in g
      reads this`fs, this`aside, this`asideInfo, this`published
    {
      && aside.Some? && aside.value !in g && (forall x, k :: At(g, x, k) != aside) && At(g, dest, name).Some?
      && fs == Renamed(Made(g, dest, asideName, aside.value), dest, name, aside.value, name)
      && At(fs, dest, name) == None && aside.value in fs && fs[aside.value].Keys == {name}
      && asideInfo == At(g, dest, name) && published == None && ArtifactsStand()
      && SameNames(g, Minus(Renamed(fs, aside.value, name, dest, name), dest, asideName))
    }

    /** What the force path left, and that taking it back restores every name. */
    lemma IsClear(g: Fs, a: Obj)
      requires dest in g && a !in g && (forall x, k :: At(g, x, k) != Some(a)) && name != asideName
      requires At(g, dest, name).Some? && At(g, dest, asideName) == None
      ensures var cleared := Renamed(Made(g, dest, asideName, a), dest, name, a, name);
              && At(cleared, dest, name) == None && At(cleared, dest, asideName) == Some(a)
              && cleared[a].Keys == {name} && At(cleared, a, name) == At(g, dest, name)
              && SameNames(g, Minus(Renamed(cleared, a, name, dest, name), dest, asideName))
    {
      var made := Made(g, dest, asideName, a);
      var cleared := Renamed(made, dest, name, a, name);
      forall k ensures k in cleared[a] <==> k == name {
        assert At(cleared, a, k).Some? <==> k in cleared[a];
        assert At(g, a, k) == None;
      }
      assert cleared[a].Keys == {name};
    }

    /** From `g`: the artifact under the name, what was there set aside, all else where it was. */
    ghost predicate Delivered(g: Fs, source: Artifact)
      reads this`fs, this`aside
    {
      && At(fs, dest, name) == SourceAt(g, source) && SourceAt(fs, source) == None
      && (aside == None <==> At(g, dest, name) == None)
      && (aside.Some? ==> At(fs, aside.value, name) == At(g, dest, name) && forall x, k :: At(g, x, k) != aside)
      && forall x: Obj, k {:trigger At(fs, x, k)} {:trigger At(g, x, k)} | Some(x) != aside && !Touched(source, x, k) ::
           At(fs, x, k) == At(g, x, k)
    }

    /** The three names an undisturbed publication changes. */
    predicate Touched(source: Artifact, d: Obj, n: string) {
      (d, n) == (dest, name) || (d, n) == (dest, asideName) || (d, n) == Place(source)
    }

    lemma IsDelivered(g: Fs, cleared: Fs, source: Artifact)
      requires dest in g && name != stageName && name != asideName && stageName != asideName && dest != stage
      requires SourceAt(g, source).Some? && SourceAt(cleared, source) == SourceAt(g, source)
      requires dest in cleared && At(cleared, dest, name) == None && stage in g
      requires if At(g, dest, name) == None then aside == None && cleared == g
               else && aside.Some? && aside.value !in g && (forall x, k :: At(g, x, k) != aside)
                    && cleared == Renamed(Made(g, dest, asideName, aside.value), dest, name, aside.value, name)
      requires fs == Renamed(cleared, Place(source).0, Place(source).1, dest, name)
      ensures Delivered(g, source)
    {
      hide Renamed, Made;
    }

    // ---- cleanup ------------------------------------------------------------------------------

    /**
     * `mine` and what others put into it hold whatever stands in their directories;
     * whatever was removed belongs to them, and was removed from one of them.
     */
    ghost predicate Private(mine: iset<Obj>)
      reads this`fs, this`brought, this`unlinked, this`emptied, this`taken
    {
      && Closed(fs, mine + brought)
      && unlinked + emptied <= mine + brought && forall p | p in taken :: p.0 in mine + brought
    }

    lemma PrivateAt(mine: iset<Obj>, d: Obj, n: string)
      requires Private(mine) && d in mine + brought && At(fs, d, n).Some?
      ensures At(fs, d, n).value in mine + brought
    {}

    /** Every entry keeps every name, but for what others moved and the names taken here. */
    twostate predicate Spared()
      reads this`fs, this`moved, this`taken
    {
      forall x: Obj, k {:trigger At(fs, x, k)} {:trigger At(old(fs), x, k)} |
        At(old(fs), x, k).Some? && At(old(fs), x, k).value !in moved && (x, k) !in taken ::
        At(fs, x, k) == At(old(fs), x, k)
    }

    /** What others took and brought, and what was taken here, only grows. */
    twostate predicate Grown()
      reads this`fs, this`moved, this`brought, this`taken
    {
      old(fs).Keys <= fs.Keys && old(moved) <= moved && old(brought) <= brought && old(taken) <= taken
    }

    /** Undisturbed: directories of higher rank, and all names outside, are as they were. */
    twostate predicate Lowered(rank: map<Obj, nat>, d: Obj)
      requires d in rank
      reads this
    {
      && fs.Keys == old(fs).Keys
      && (forall x | x in fs :: fs[x].Keys <= old(fs)[x].Keys && forall k | k in fs[x] :: fs[x][k] == old(fs)[x][k])
      && (forall x | x in fs && x in rank && rank[x] >= rank[d] && x != d :: fs[x] == old(fs)[x])
    }

    /** Others have their turn; what they bring into `mine` is theirs to answer for. */
    method Pause(ghost mine: iset<Obj>)
      requires Valid() && Private(mine)
      modifies this`fs, this`seen, this`moved, this`brought
      ensures Valid() && Private(mine) && Grown() && Spared()
      ensures brought == old(brought) + Brought(old(fs), fs, mine + old(brought))
      ensures forall o | o !in moved :: Stays(o)
      ensures forall d, k {:trigger At(fs, d, k)} |
                d in mine + old(brought) && At(fs, d, k).Some? && At(fs, d, k) != At(old(fs), d, k) ::
                At(fs, d, k).value in brought
      ensures calm ==> fs == old(fs) && moved == old(moved) && brought == old(brought)
    {
      hide Departed, Conserved, OneName;
      ghost var was, all := fs, mine + brought;
      Interfere();
      brought := brought + Brought(was, fs, all);
      StaysClosed(was, fs, all);
      assert mine + brought == all + Brought(was, fs, all);
      forall d, k | d in all && At(fs, d, k).Some? && At(fs, d, k) != At(was, d, k)
        ensures At(fs, d, k).value in brought
      {
        ArrivalIsBrought(was, fs, all, d, k);
      }
      if calm { NothingComes(fs, all); }
    }

    /**
     * The removal, by name, of an entry that just matched the look: what goes is
     * that entry, or one another process put in its place since.
     */
    method TakeLooked(d: Obj, n: string, looked: Obj, ghost mine: iset<Obj>) returns (ok: bool)
      requires Valid() && Private(mine) && At(fs, d, n) == Some(looked)
      requires d in mine + brought && looked in mine + brought
      modifies this`fs, this`seen, this`moved, this`brought, this`unlinked, this`emptied, this`taken
      ensures Valid() && Private(mine) && Grown() && Spared()
      ensures taken <= old(taken) + iset{(d, n)} && Removed() - old(Removed()) <= iset{looked} + brought
      ensures calm && (looked in old(fs) ==> IsEmpty(old(fs), looked)) ==> ok && fs == Minus(old(fs), d, n)
      ensures calm && !ok ==> fs == old(fs)
    {
      hide Conserved, OneName, Brought;
      var directory := looked in fs;
      Pause(mine);
      if directory { ok := RemoveDirectory(d, n); } else { ok := Unlink(d, n); }
    }

    /**
     * `_empty` of one directory. Each entry is looked at, compared again before it
     * goes, and descended into only as the directory it was; whatever is removed
     * is part of `mine` or was brought there by another process. `limit` is how
     * deep the host language lets the recursion go.
     */
    method Empty(d: Obj, limit: nat, ghost mine: iset<Obj>, ghost rank: map<Obj, nat>) returns (ok: bool)
      requires Valid() && d in fs && d in mine + brought && Private(mine)
      requires calm ==> Ranked(fs, rank) && d in rank && rank[d] < limit
      modifies this`fs, this`seen, this`moved, this`brought, this`unlinked, this`emptied, this`taken
      ensures Valid() && Private(mine) && Grown() && Spared()
      ensures calm ==> ok && IsEmpty(fs, d) && Lowered(rank, d) && Ranked(fs, rank)
      decreases limit, 2
    {
      var rest := fs[d].Keys;
      while rest != {}
        invariant Valid() && Private(mine) && Grown() && Spared()
        invariant calm ==> fs[d].Keys == rest && Lowered(rank, d) && Ranked(fs, rank)
        decreases rest
      {
        var n :| n in rest;
        rest := rest - {n};
        ok := RemoveEntry(d, n, limit, mine, rank);
        if !ok { return; }
      }
      ok := true;
    }

    method RemoveEntry(d: Obj, n: string, limit: nat, ghost mine: iset<Obj>, ghost rank: map<Obj, nat>)
      returns (ok: bool)
      requires Valid() && d in fs && d in mine + brought && Private(mine)
      requires calm ==> Ranked(fs, rank) && d in rank && rank[d] < limit && n in fs[d]
      modifies this`fs, this`seen, this`moved, this`brought, this`unlinked, this`emptied, this`taken
      ensures Valid() && Private(mine) && Grown() && Spared()
      ensures calm ==> ok && fs[d].Keys == old(fs)[d].Keys - {n} && Lowered(rank, d) && Ranked(fs, rank)
      decreases limit, 1
    {
      hide Conserved, OneName, Closed, Minus, IsEmpty, Private;
      Pause(mine);
      var info := At(fs, d, n);
      var failed := Fails();
      if failed || info == None { return false; }
      var directory := info.value in fs;
      Pause(mine);
      if At(fs, d, n) != info { return false; }
      PrivateAt(mine, d, n);
      if directory {
        ok := Descend(d, n, info.value, limit, mine, rank);
      } else {
        ok := TakeLooked(d, n, info.value, mine);
        if calm { TakingLowers(old(fs), d, n, rank); }
      }
    }

    method TakeChild(d: Obj, n: string, child: Obj, ghost mine: iset<Obj>) returns (ok: bool)
      requires Valid() && Private(mine) && d in mine + brought && child in fs && child in mine + brought
      modifies this`fs, this`seen, this`moved, this`brought, this`unlinked, this`emptied, this`taken
      ensures Valid() && Private(mine) && Grown() && Spared()
      ensures calm && At(old(fs), d, n) == Some(child) && IsEmpty(old(fs), child) ==> ok && fs == Minus(old(fs), d, n)
    {
      hide Conserved, OneName, Closed, Minus, IsEmpty, Private, Brought;
      Pause(mine);
      if At(fs, d, n) != Some(child) { return false; }
      ok := TakeLooked(d, n, child, mine);
    }

    /** A directory: emptied first, compared once more, and removed if it is still that one. */
    method Descend(d: Obj, n: string, child: Obj, limit: nat, ghost mine: iset<Obj>, ghost rank: map<Obj, nat>)
      returns (ok: bool)
      requires Valid() && d in mine + brought && child in fs && child in mine + brought && Private(mine)
      requires At(fs, d, n) == Some(child) && (calm ==> Ranked(fs, rank) && d in rank && rank[d] < limit)
      modifies this`fs, this`seen, this`moved, this`brought, this`unlinked, this`emptied, this`taken
      ensures Valid() && Private(mine) && Grown() && Spared()
      ensures calm ==> ok && fs[d].Keys == old(fs)[d].Keys - {n} && Lowered(rank, d) && Ranked(fs, rank)
      decreases limit, 0
    {
      hide Conserved, OneName, Closed, Minus, IsEmpty, Private;
      if limit == 0 { return false; }
      if calm { LowerRank(fs, rank, d, n); }
      ok := Empty(child, limit - 1, mine, rank);
      if !ok { return; }
      ghost var emptied := fs;
      ok := TakeChild(d, n, child, mine);
      if calm { TakingLowers(emptied, d, n, rank); }
    }

    /** The stage's own removal, by its name: `last` is what goes. */
    method RemoveStage(ghost mine: iset<Obj>) returns (ok: bool, ghost last: Option<Obj>)
      requires Valid() && Private(mine)
      modifies this`fs, this`seen, this`moved, this`brought, this`emptied, this`taken
      ensures Valid() && Grown() && Spared() && unlinked <= mine + brought
      ensures forall o | o in emptied :: o in mine || o in brought || last == Some(o)
      ensures forall p | p in taken :: p.0 in mine || p.0 in brought || (p == (dest, stageName) && last.Some?)
      ensures last.Some? ==> last.value in emptied && (last.value == stage || stage in moved)
      ensures calm && old(StageStands()) && IsEmpty(old(fs), stage) ==> ok && fs == Minus(old(fs), dest, stageName)
    {
      hide Conserved, OneName, Closed, Brought;
      last := None;
      Pause(mine);
      if !StageStands() { return false, None; }
      Pause(mine);
      var there := At(fs, dest, stageName);
      ok := RemoveDirectory(dest, stageName);
      if ok { last := there; }
    }

    /**
     * `cleanup`. A tree marked as moved is not touched, so a published tree is not,
     * unless another process moved it. Else whatever is removed was below the
     * private stage, or was put into it by another process meanwhile, and is
     * removed from there; nothing else loses a name. `last` is what the final
     * `rmdir` finds under the stage's name: the stage itself, or, if another
     * process moved that, an empty directory put there instead. Undisturbed, the
     * stage and all in it are gone in the end.
     */
    method Cleanup(limit: nat, ghost rank: map<Obj, nat>) returns (ok: bool, ghost last: Option<Obj>)
      requires Valid() && (calm ==> Ranked(fs, rank) && rank[stage] < limit)
      modifies this`fs, this`seen, this`moved, this`brought, this`before, this`unlinked, this`emptied, this`taken
      ensures Valid() && old(moved) <= moved && before == old(Removed()) && Spared()
      ensures transferred ==> ok && fs == old(fs) && unlinked + emptied == iset{}
      ensures published == Some(stage) && old(Marked()) && stage !in moved ==>
                ok && fs == old(fs) && unlinked + emptied == iset{}
      ensures forall o | o in unlinked :: o in Below(old(fs), stage) || o in brought
      ensures forall o | o in emptied :: o in Below(old(fs), stage) || o in brought || last == Some(o)
      ensures forall p | p in taken ::
                p.0 in Below(old(fs), stage) || p.0 in brought || (p == (dest, stageName) && last.Some?)
      ensures last.Some? ==> last.value in emptied && (last.value == stage || stage in moved)
      ensures calm && !transferred && old(StageStands()) ==> ok && IsEmpty(fs, stage) && At(fs, dest, stageName) == None
      ensures calm && !transferred && !old(StageStands()) ==> !ok && fs == old(fs)
    {
      hide Conserved, OneName, Closed, Brought, Below;
      Begin();
      brought, last := iset{}, None;
      if transferred { return true, None; }
      if !StageStands() { return false, None; }
      ghost var mine := Below(fs, stage);
      assert Private(mine) && stage in mine by {
        BelowItself(fs, stage);
        BelowIsClosed(fs, stage);
        assert mine + brought == mine;
      }
      var failed := Fails();
      if failed { return false, None; }
      ok := Empty(stage, limit, mine, rank);
      if !ok { return; }
      ok, last := RemoveStage(mine);
    }
  }

  /** Every name stands for what it stood for. */
  ghost predicate SameNames(g: Fs, fs: Fs) {
    forall x, k {:trigger At(fs, x, k)} :: At(fs, x, k) == At(g, x, k)
  }

  lemma NamesAreThemselves(g: Fs)
    ensures SameNames(g, g)
  {}

  lemma MovedOutIsEmpty(g: Fs, d: Obj, n: string, d': Obj, asideName: string)
    requires d in g && d' in g && d != d' && g[d].Keys == {n} && n != asideName
    ensures At(g, d, n).Some? && IsEmpty(Renamed(g, d, n, d', n), d)
    ensures At(Renamed(g, d, n, d', n), d', asideName) == At(g, d', asideName)
  {
    var z := Renamed(g, d, n, d', n);
    forall k ensures k !in z[d] { assert At(z, d, k) == None; }
    assert z[d] == map[];
  }

  lemma LowerRank(fs: Fs, rank: map<Obj, nat>, d: Obj, n: string)
    requires Ranked(fs, rank) && At(fs, d, n).Some? && At(fs, d, n).value in fs
    ensures At(fs, d, n).value in rank && d in rank && rank[At(fs, d, n).value] < rank[d]
  {}

  /** Taking a name out of one directory leaves all others and the ranks. */
  lemma TakingLowers(fs: Fs, d: Obj, n: string, rank: map<Obj, nat>)
    requires At(fs, d, n).Some? && Ranked(fs, rank)
    ensures var fs' := Minus(fs, d, n);
            && Ranked(fs', rank) && fs'[d].Keys == fs[d].Keys - {n}
            && (forall x | x in fs && x != d :: fs'[x] == fs[x]) && forall k | k in fs'[d] :: fs'[d][k] == fs[d][k]
  {
    var fs' := Minus(fs, d, n);
    forall x, k | At(fs', x, k).Some? && At(fs', x, k).value in fs' ensures rank[At(fs', x, k).value] < rank[x] {
      assert At(fs, x, k) == At(fs', x, k);
    }
  }

  lemma MakingKeepsOneName(fs: Fs, d: Obj, n: string, a: Obj)
    requires OneName(fs) && d in fs && a !in fs && At(fs, d, n) == None && forall x, k :: At(fs, x, k) != Some(a)
    ensures OneName(Made(fs, d, n, a))
  {
    var fs' := Made(fs, d, n, a);
    forall x, k, y, l | At(fs', x, k).Some? && At(fs', x, k) == At(fs', y, l) && At(fs', x, k).value in fs'
      ensures x == y && k == l
    {
      assert At(fs, x, k) == At(fs', x, k) || (x == d && k == n);
      assert At(fs, y, l) == At(fs', y, l) || (y == d && l == n);
    }
  }

  lemma MadeEmpty(fs: Fs, d: Obj, n: string, a: Obj)
    requires d in fs && a !in fs
    ensures Contents(Made(fs, d, n, a), a) == iset{}
  {}

  lemma MakingSpares(fs: Fs, d: Obj, n: string, a: Obj, o: Obj)
    requires d in fs && a !in fs && At(fs, d, n) == None && o != a
    ensures forall x | Holds(fs, x, o) :: Holds(Made(fs, d, n, a), x, o)
  {
    forall x | Holds(fs, x, o) ensures Holds(Made(fs, d, n, a), x, o) {
      var k :| At(fs, x, k) == Some(o);
      assert At(Made(fs, d, n, a), x, k) == Some(o);
    }
  }

  lemma MakingAdds(fs: Fs, d: Obj, n: string, a: Obj, x: Obj, o: Obj)
    requires d in fs && a !in fs && Holds(Made(fs, d, n, a), x, o)
    ensures Holds(fs, x, o) || o == a
  {
    var k :| At(Made(fs, d, n, a), x, k) == Some(o);
  }

  lemma RenameKeepsOneName(fs: Fs, d: Obj, n: string, d': Obj, n': string)
    requires OneName(fs) && At(fs, d, n).Some? && d' in fs && At(fs, d', n') == None
    ensures OneName(Renamed(fs, d, n, d', n'))
  {
    var fs' := Renamed(fs, d, n, d', n');
    forall x, k, y, l | At(fs', x, k).Some? && At(fs', x, k) == At(fs', y, l) && At(fs', x, k).value in fs'
      ensures x == y && k == l
    {
      var x0, k0 := if x == d' && k == n' then d else x, if x == d' && k == n' then n else k;
      var y0, l0 := if y == d' && l == n' then d else y, if y == d' && l == n' then n else l;
      assert At(fs, x0, k0) == At(fs', x, k) && At(fs, y0, l0) == At(fs', y, l);
    }
  }

  /** A rename takes no other entry out of anything. */
  lemma RenameSpares(fs: Fs, d: Obj, n: string, d': Obj, n': string, o: Obj)
    requires At(fs, d, n).Some? && d' in fs && At(fs, d', n') == None && At(fs, d, n) != Some(o)
    ensures forall x | Holds(fs, x, o) :: Holds(Renamed(fs, d, n, d', n'), x, o)
  {
    forall x | Holds(fs, x, o) ensures Holds(Renamed(fs, d, n, d', n'), x, o) {
      var k :| At(fs, x, k) == Some(o);
      assert At(Renamed(fs, d, n, d', n'), x, k) == Some(o);
    }
  }

  lemma RenameAdds(fs: Fs, d: Obj, n: string, d': Obj, n': string, x: Obj, o: Obj)
    requires At(fs, d, n).Some? && d' in fs && Holds(Renamed(fs, d, n, d', n'), x, o)
    ensures Holds(fs, x, o) || At(fs, d, n) == Some(o)
  {
    var k :| At(Renamed(fs, d, n, d', n'), x, k) == Some(o);
  }

  lemma TakingSpares(fs: Fs, d: Obj, n: string, o: Obj)
    requires d in fs && At(fs, d, n) != Some(o)
    ensures forall x | Holds(fs, x, o) :: Holds(Minus(fs, d, n), x, o)
  {
    forall x | Holds(fs, x, o) ensures Holds(Minus(fs, d, n), x, o) {
      var k :| At(fs, x, k) == Some(o);
      assert At(Minus(fs, d, n), x, k) == Some(o);
    }
  }

  lemma TakingAdds(fs: Fs, d: Obj, n: string, x: Obj, o: Obj)
    requires d in fs && Holds(Minus(fs, d, n), x, o)
    ensures Holds(fs, x, o)
  {
    var k :| At(Minus(fs, d, n), x, k) == Some(o);
  }

  lemma NothingGoes(fs: Fs)
    ensures Departed(fs, fs) == iset{}
  {}

  lemma NothingComes(fs: Fs, into: iset<Obj>)
    ensures Brought(fs, fs, into) == iset{}
  {}
}
