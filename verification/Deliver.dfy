/**
 * From the staging directory to the destination: what stands under the name
 * after an undisturbed retrieval is the restored subtree, entry by entry.
 */
module Delivery {
  import opened Wrappers
  import opened Records
  import opened Publication
  import opened Retrieve

  /** Following names down from `x`. */
  function Follow(fs: Fs, x: Obj, path: seq<string>): Option<Obj>
    decreases |path|
  {
    if path == [] then Some(x)
    else match At(fs, x, path[0]) case None => None case Some(y) => Follow(fs, y, path[1..])
  }

  predicate Names(path: seq<string>) {
    forall n | n in path :: n != "" && '/' !in n
  }

  function Slashed(path: seq<string>): string
    requires path != []
  {
    if |path| == 1 then path[0] else path[0] + "/" + Slashed(path[1..])
  }

  /** Below the directory `x`, whose inodes are what `image` says, stands exactly `tree`. */
  ghost predicate Shows(fs: Fs, image: map<Obj, Staged>, x: Obj, tree: map<string, Staged>, mode: nat) {
    && x in image && image[x] == StagedDir(mode)
    && forall path {:trigger Follow(fs, x, path)} | path != [] && Names(path) ::
         match Follow(fs, x, path)
         case None => Slashed(path) !in tree
         case Some(y) => y in image && Slashed(path) in tree && image[y] == tree[Slashed(path)]
  }

  lemma {:induction false} SameBelow(g: Fs, fs: Fs, x: Obj, y: Obj, path: seq<string>)
    requires y in Below(g, x) && forall z, k | z in Below(g, x) :: At(fs, z, k) == At(g, z, k)
    ensures Follow(fs, y, path) == Follow(g, y, path)
    decreases |path|
  {
    if path != [] && At(g, y, path[0]).Some? {
      BelowIsClosed(g, x);
      SameBelow(g, fs, x, At(g, y, path[0]).value, path[1..]);
    }
  }

  /**
   * The stage held the manifest's subtree, and publishing it changed no more than
   * `Publisher.Publish` promises: then the name stands for that subtree, with
   * every path, byte, target and mode.
   */
  lemma RestoredIsInPlace(p: Publisher, g: Fs, image: map<Obj, Staged>, entries: map<string, Entry>, root: string)
    requires p.Delivered(g, TheStage) && At(g, p.dest, p.stageName) == Some(p.stage) && p.dest !in Below(g, p.stage)
    requires root in entries && Shows(g, image, p.stage, Restored(entries, root), Permissions(entries[root].mode))
    ensures At(p.fs, p.dest, p.name) == Some(p.stage)
    ensures Shows(p.fs, image, p.stage, Restored(entries, root), Permissions(entries[root].mode))
  {
    hide Restored, Below;
    forall z, k | z in Below(g, p.stage) ensures At(p.fs, z, k) == At(g, z, k) {
      AsideIsElsewhere(p, g, z);
    }
    BelowItself(g, p.stage);
    forall path ensures Follow(p.fs, p.stage, path) == Follow(g, p.stage, path) {
      SameBelow(g, p.fs, p.stage, p.stage, path);
    }
  }

  lemma AsideIsElsewhere(p: Publisher, g: Fs, z: Obj)
    requires p.Delivered(g, TheStage) && At(g, p.dest, p.stageName) == Some(p.stage) && z in Below(g, p.stage)
    ensures Some(z) != p.aside
  {
    var path :| Reaches(g, p.stage, z, path);
    ReachedIsNamed(g, p.stage, z, path);
  }

  lemma {:induction false} ReachedIsNamed(g: Fs, x: Obj, z: Obj, path: seq<string>)
    requires Reaches(g, x, z, path)
    ensures z == x || exists d, k :: At(g, d, k) == Some(z)
    decreases |path|
  {
    if path != [] { ReachedIsNamed(g, At(g, x, path[0]).value, z, path[1..]); }
  }
}
