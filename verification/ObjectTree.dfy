/**
 * One storage folder in OPFS: real directories under a key namespace that is
 * flat to its callers. Writing creates a key's directories, deleting prunes
 * the ones it leaves empty, and listing walks them all.
 */
module ObjectTree {
  import opened Prelude
  import opened StoragePaths

  /** Names below the folder's handle, which is `[]` and is not itself an entry. */
  type Path = seq<string>

  datatype Tree = Tree(dirs: set<Path>, files: set<Path>)

  function Parent(path: Path): Path
    requires path != []
  {
    path[..|path| - 1]
  }

  function Name(path: Path): string
    requires path != []
  {
    path[|path| - 1]
  }

  /** Every entry has its directory, no name is both kinds, and names hold no '/'. */
  ghost predicate WellFormed(t: Tree)
  {
    && t.dirs !! t.files
    && (forall p :: p in t.dirs || p in t.files ==>
          && p != [] && (Parent(p) == [] || Parent(p) in t.dirs)
          && (forall i :: 0 <= i < |p| ==> '/' !in p[i] && p[i] != ""))
  }

  predicate Empty(t: Tree, dir: Path)
  {
    && (forall p | p in t.dirs :: p == [] || Parent(p) != dir)
    && (forall p | p in t.files :: p == [] || Parent(p) != dir)
  }

  datatype Removal = Removed | NotFound | NotEmpty

  /** `removeEntry` without `recursive`: a file, or a directory that is empty. */
  function RemoveEntry(t: Tree, path: Path): (r: (Tree, Removal))
  {
    if path in t.files then (t.(files := t.files - {path}), Removed)
    else if path !in t.dirs then (t, NotFound)
    else if Empty(t, path) then (t.(dirs := t.dirs - {path}), Removed)
    else (t, NotEmpty)
  }

  /** `pruneEmptyDirs`, from the directory at `depth` up, while they can be removed. */
  function Prune(t: Tree, dirs: Path, depth: nat): Tree
    requires depth <= |dirs|
    decreases depth
  {
    if depth == 0 then t
    else
      var (after, removal) := RemoveEntry(t, dirs[..depth]);
      if removal.Removed? then Prune(after, dirs, depth - 1) else t
  }

  /** The tree a delete prunes: the entry gone, and the sidecar unless that is `refused`. */
  function Bare(t: Tree, dirs: Path, leaf: string, refused: bool): Tree
  {
    var gone := RemoveEntry(t, dirs + [leaf]).0;
    if refused then gone else RemoveEntry(gone, dirs + [MetaName(leaf)]).0
  }

  /** `storageDelete` below its folder. `refused`: the sidecar could not be removed. */
  function Delete(t: Tree, dirs: Path, leaf: string, refused: bool): (r: (Tree, Removal))
  {
    var removal := RemoveEntry(t, dirs + [leaf]).1;
    if !removal.Removed? then (t, removal) else (Prune(Bare(t, dirs, leaf, refused), dirs, |dirs|), Removed)
  }

  /** The keys a listing of the folder finds: every file that is no sidecar, joined. */
  ghost function ListedKeys(t: Tree): set<string>
  {
    set p | p in t.files && p != [] && !IsMetaName(Name(p)) :: Join(p)
  }

  // ─── Pruning ────────────────────────────────────────────────────────────

  lemma RemoveKeepsShape(t: Tree, path: Path)
    requires WellFormed(t)
    ensures WellFormed(RemoveEntry(t, path).0)
  {
  }

  /** The directories of a path deeper than `k`, down to `depth`. */
  function Below(dirs: Path, k: nat, depth: nat): set<Path>
    requires depth <= |dirs|
  {
    set j | k < j <= depth :: dirs[..j]
  }

  /** A key's own directories. */
  function OnPath(dirs: Path): set<Path>
  {
    Below(dirs, 0, |dirs|)
  }

  /**
   * Pruning removes, from the deepest up, directories with nothing left in
   * them: the key's own path from depth `k` down, where the directory at `k`,
   * if it is not the folder itself, still holds something. No file goes.
   */
  lemma {:induction false} PruneSpec(t: Tree, dirs: Path, depth: nat) returns (k: nat)
    requires t.dirs !! t.files && depth <= |dirs|
    requires forall j :: 1 <= j <= depth ==> dirs[..j] in t.dirs
    ensures k <= depth
    ensures var after := Prune(t, dirs, depth);
            && after.files == t.files
            && after.dirs == t.dirs - Below(dirs, k, depth)
            && (forall j :: 1 <= j <= k ==> dirs[..j] in after.dirs)
            && (k > 0 ==> !Empty(after, dirs[..k]))
    decreases depth
  {
    if depth == 0 {
      k := 0;
    } else {
      var (after, removal) := RemoveEntry(t, dirs[..depth]);
      if removal.Removed? {
        forall j | 1 <= j <= depth - 1 ensures dirs[..j] in after.dirs {
          assert |dirs[..j]| != |dirs[..depth]|;
        }
        k := PruneSpec(after, dirs, depth - 1);
        assert Below(dirs, k, depth) == Below(dirs, k, depth - 1) + {dirs[..depth]};
      } else {
        k := depth;
        assert Below(dirs, k, depth) == {};
      }
    }
  }

  lemma {:induction false} PruneKeepsShape(t: Tree, dirs: Path, depth: nat)
    requires WellFormed(t) && depth <= |dirs|
    ensures WellFormed(Prune(t, dirs, depth))
    decreases depth
  {
    if depth > 0 {
      RemoveKeepsShape(t, dirs[..depth]);
      PruneKeepsShape(RemoveEntry(t, dirs[..depth]).0, dirs, depth - 1);
    }
  }

  /** A directory pruning removes held nothing but the next one on the path. */
  lemma PrunedHeldNothing(t: Tree, dirs: Path, j: nat, p: Path)
    requires WellFormed(t) && (forall i :: 1 <= i <= |dirs| ==> dirs[..i] in t.dirs)
    requires 1 <= j <= |dirs| && dirs[..j] !in Prune(t, dirs, |dirs|).dirs
    requires p in t.dirs + t.files && Parent(p) == dirs[..j]
    ensures j < |dirs| && p == dirs[..j + 1] && p in t.dirs
  {
    var k := PruneSpec(t, dirs, |dirs|);
    var after := Prune(t, dirs, |dirs|);
    PruneKeepsShape(t, dirs, |dirs|);
    assert p !in after.dirs && p !in after.files;
    var i :| k < i <= |dirs| && p == dirs[..i];
    assert |Parent(p)| == i - 1;
  }

  /** No directory of a pruned path is left empty. */
  lemma NoneLeftEmpty(t: Tree, dirs: Path, j: nat)
    requires WellFormed(t) && (forall i :: 1 <= i <= |dirs| ==> dirs[..i] in t.dirs)
    requires 1 <= j <= |dirs| && dirs[..j] in Prune(t, dirs, |dirs|).dirs
    ensures !Empty(Prune(t, dirs, |dirs|), dirs[..j])
  {
    var after := Prune(t, dirs, |dirs|);
    var k := PruneSpec(t, dirs, |dirs|);
    if j < k {
      assert dirs[..j + 1] in after.dirs && Parent(dirs[..j + 1]) == dirs[..j];
    }
  }

  // ─── Deleting and listing ───────────────────────────────────────────────

  lemma {:induction false} DirsAbove(t: Tree, path: Path, j: nat)
    requires WellFormed(t) && path in t.dirs + t.files && 1 <= j < |path|
    ensures path[..j] in t.dirs
    decreases |path|
  {
    if j < |path| - 1 {
      DirsAbove(t, Parent(path), j);
      assert Parent(path)[..j] == path[..j];
    }
  }

  lemma JoinInjective(t: Tree, p: Path, q: Path)
    requires WellFormed(t) && p in t.files && q != []
    requires forall i :: 0 <= i < |q| ==> '/' !in q[i]
    requires Join(p) == Join(q)
    ensures p == q
  {
    SplitJoin(p);
    SplitJoin(q);
  }

  lemma BareShape(t: Tree, dirs: Path, leaf: string, refused: bool)
    requires WellFormed(t) && RemoveEntry(t, dirs + [leaf]).1.Removed?
    ensures var bare := Bare(t, dirs, leaf, refused);
            && WellFormed(bare)
            && bare.files == t.files - {dirs + [leaf]} - (if refused then {} else {dirs + [MetaName(leaf)]})
            && (forall j :: 1 <= j <= |dirs| ==> dirs[..j] in bare.dirs)
  {
    var target, sidecar := dirs + [leaf], dirs + [MetaName(leaf)];
    RemoveKeepsShape(t, target);
    RemoveKeepsShape(RemoveEntry(t, target).0, sidecar);
    forall j | 1 <= j <= |dirs| ensures dirs[..j] in Bare(t, dirs, leaf, refused).dirs {
      DirsAbove(t, target, j);
      assert target[..j] == dirs[..j];
      assert |dirs[..j]| < |target|;
    }
  }

  /** The tree after a delete whose entry was there: shape, files and directories. */
  lemma DeleteShape(t: Tree, dirs: Path, leaf: string, refused: bool)
    requires WellFormed(t) && RemoveEntry(t, dirs + [leaf]).1.Removed?
    ensures var after := Delete(t, dirs, leaf, refused).0;
            && WellFormed(after)
            && after.files == t.files - {dirs + [leaf]} - (if refused then {} else {dirs + [MetaName(leaf)]})
            && after.dirs >= t.dirs - OnPath(dirs) - {dirs + [leaf], dirs + [MetaName(leaf)]}
            && (forall j :: 1 <= j <= |dirs| && dirs[..j] in after.dirs ==> !Empty(after, dirs[..j]))
  {
    var bare := Bare(t, dirs, leaf, refused);
    BareShape(t, dirs, leaf, refused);
    var k := PruneSpec(bare, dirs, |dirs|);
    PruneKeepsShape(bare, dirs, |dirs|);
    forall j | 1 <= j <= |dirs| && dirs[..j] in Prune(bare, dirs, |dirs|).dirs
      ensures !Empty(Prune(bare, dirs, |dirs|), dirs[..j])
    {
      NoneLeftEmpty(bare, dirs, j);
    }
  }

  /**
   * Deleting a key: refused with the tree untouched unless the key's own name
   * is there to remove; otherwise exactly that key leaves the listing (none
   * does when the name was an empty directory), and with it its sidecar, unless
   * that could not be removed, and no other file. No directory on the key's
   * path is left empty, and none off it goes.
   */
  lemma DeleteRemovesTheKey(t: Tree, key: string, refused: bool)
    requires WellFormed(t) && SplitKey(key).Some?
    ensures var SplitKeyResult(dirs, leaf) := SplitKey(key).value;
            var (after, removal) := Delete(t, dirs, leaf, refused);
            && WellFormed(after)
            && (removal.Removed? <==> dirs + [leaf] in t.files || (dirs + [leaf] in t.dirs && Empty(t, dirs + [leaf])))
            && (!removal.Removed? ==> after == t)
            && (removal.Removed? ==>
                  && after.files == t.files - {dirs + [leaf]} - (if refused then {} else {dirs + [MetaName(leaf)]})
                  && ListedKeys(after) == ListedKeys(t) - {key}
                  && after.dirs >= t.dirs - OnPath(dirs) - {dirs + [leaf], dirs + [MetaName(leaf)]}
                  && (forall j :: 1 <= j <= |dirs| && dirs[..j] in after.dirs ==> !Empty(after, dirs[..j])))
  {
    var SplitKeyResult(dirs, leaf) := SplitKey(key).value;
    if RemoveEntry(t, dirs + [leaf]).1.Removed? {
      DeleteShape(t, dirs, leaf, refused);
      SplitThenJoin(key);
      SidecarIsNeverASegment(leaf, leaf);
      Unlisted(t, Delete(t, dirs, leaf, refused).0, dirs + [leaf], dirs + [MetaName(leaf)]);
    }
  }

  /** The object's file gone, and perhaps its sidecar. */
  ghost predicate Unstored(t: Tree, after: Tree, target: Path, sidecar: Path)
  {
    && target != [] && (forall i :: 0 <= i < |target| ==> '/' !in target[i])
    && sidecar != [] && IsMetaName(Name(sidecar)) && !IsMetaName(Name(target))
    && (after.files == t.files - {target} || after.files == t.files - {target} - {sidecar})
  }

  lemma OthersStayListed(t: Tree, after: Tree, target: Path, sidecar: Path, k: string)
    requires Unstored(t, after, target, sidecar) && k in ListedKeys(t) && k != Join(target)
    ensures k in ListedKeys(after)
  {
  }

  lemma ListedStayedStored(t: Tree, after: Tree, target: Path, sidecar: Path, k: string)
    requires WellFormed(t) && Unstored(t, after, target, sidecar) && k in ListedKeys(after)
    ensures k in ListedKeys(t) && k != Join(target)
  {
    var p :| p in after.files && p != [] && !IsMetaName(Name(p)) && k == Join(p);
    if k == Join(target) { JoinInjective(t, p, target); }
  }

  lemma Unlisted(t: Tree, after: Tree, target: Path, sidecar: Path)
    requires WellFormed(t) && Unstored(t, after, target, sidecar)
    ensures ListedKeys(after) == ListedKeys(t) - {Join(target)}
  {
    forall k | k in ListedKeys(t) && k != Join(target) ensures k in ListedKeys(after) {
      OthersStayListed(t, after, target, sidecar, k);
    }
    forall k | k in ListedKeys(after) ensures k in ListedKeys(t) && k != Join(target) {
      ListedStayedStored(t, after, target, sidecar, k);
    }
  }

  // ─── Putting ────────────────────────────────────────────────────────────

  /** `getKeyParent` with `create`: the directories of the path, from the top, up to one that is a file. */
  function MakeDirs(t: Tree, dirs: Path, depth: nat): (r: (Tree, bool))
    requires depth <= |dirs|
  {
    if depth == 0 then (t, true)
    else
      var (above, made) := MakeDirs(t, dirs, depth - 1);
      if !made || dirs[..depth] in above.files then (above, false)
      else (above.(dirs := above.dirs + {dirs[..depth]}), true)
  }

  /** `getFileHandle` with `create`: the name is a file, unless it is a directory. */
  function MakeFile(t: Tree, path: Path): (r: (Tree, bool))
  {
    if path in t.dirs then (t, false) else (t.(files := t.files + {path}), true)
  }

  /** `storagePut` below its folder: the directories, the object, the sidecar. */
  function Put(t: Tree, dirs: Path, leaf: string): (r: (Tree, bool))
  {
    var (housed, made) := MakeDirs(t, dirs, |dirs|);
    if !made then (housed, false)
    else
      var (written, ok) := MakeFile(housed, dirs + [leaf]);
      if !ok then (written, false) else MakeFile(written, dirs + [MetaName(leaf)])
  }

  /** A directory of the path is taken by a file, or one of its two files by a directory. */
  predicate Clashes(t: Tree, dirs: Path, leaf: string)
  {
    || (exists j :: 1 <= j <= |dirs| && dirs[..j] in t.files)
    || dirs + [leaf] in t.dirs || dirs + [MetaName(leaf)] in t.dirs
  }

  lemma {:induction false} MakeDirsIs(t: Tree, dirs: Path, depth: nat)
    requires depth <= |dirs|
    ensures var (after, made) := MakeDirs(t, dirs, depth);
            && (made <==> forall j :: 1 <= j <= depth ==> dirs[..j] !in t.files)
            && after.files == t.files
            && t.dirs <= after.dirs <= t.dirs + Below(dirs, 0, depth)
            && (made ==> after.dirs == t.dirs + Below(dirs, 0, depth))
  {
    if depth > 0 {
      MakeDirsIs(t, dirs, depth - 1);
      assert Below(dirs, 0, depth) == Below(dirs, 0, depth - 1) + {dirs[..depth]};
    } else {
      assert Below(dirs, 0, 0) == {};
    }
  }

  /** Once a directory cannot be made, none below it is. */
  lemma {:induction false} MakeDirsStops(t: Tree, dirs: Path, depth: nat)
    requires depth <= |dirs| && !MakeDirs(t, dirs, depth).1
    ensures MakeDirs(t, dirs, |dirs|) == MakeDirs(t, dirs, depth)
    decreases |dirs| - depth
  {
    if depth < |dirs| { MakeDirsStops(t, dirs, depth + 1); }
  }

  /**
   * A put goes through if and only if no name it needs is taken by the other
   * kind of entry. Then the key's directories, its object and its sidecar are
   * there, and everything that was; nothing else is.
   */
  lemma PutIff(t: Tree, dirs: Path, leaf: string)
    ensures var (after, ok) := Put(t, dirs, leaf);
            && (ok <==> !Clashes(t, dirs, leaf))
            && (ok ==>
                  && after.dirs == t.dirs + OnPath(dirs)
                  && after.files == t.files + {dirs + [leaf], dirs + [MetaName(leaf)]})
            && t.dirs <= after.dirs && t.files <= after.files
  {
    MakeDirsIs(t, dirs, |dirs|);
    assert dirs + [leaf] !in OnPath(dirs) && dirs + [MetaName(leaf)] !in OnPath(dirs) by {
      assert forall j :: 0 < j <= |dirs| ==> |dirs[..j]| < |dirs + [leaf]|;
    }
  }

  /** A put that goes through leaves a well-formed tree. */
  lemma PutKeepsShape(t: Tree, key: string)
    requires WellFormed(t) && SplitKey(key).Some?
    requires !Clashes(t, SplitKey(key).value.dirs, SplitKey(key).value.leaf)
    ensures WellFormed(Put(t, SplitKey(key).value.dirs, SplitKey(key).value.leaf).0)
  {
    var SplitKeyResult(dirs, leaf) := SplitKey(key).value;
    var after := Put(t, dirs, leaf).0;
    PutIff(t, dirs, leaf);
    KeyNames(key);
    forall p | p in after.dirs || p in after.files
      ensures p != [] && (Parent(p) == [] || Parent(p) in after.dirs)
      ensures forall i :: 0 <= i < |p| ==> '/' !in p[i] && p[i] != ""
    {
      if p in OnPath(dirs) {
        var j :| 0 < j <= |dirs| && p == dirs[..j];
        assert Parent(p) == dirs[..j - 1];
        assert j > 1 ==> Parent(p) in OnPath(dirs);
      } else if p == dirs + [leaf] || p == dirs + [MetaName(leaf)] {
        assert Parent(p) == dirs;
        assert dirs == dirs[..|dirs|];
      }
    }
  }

  /** A key's names hold no separator and are not empty, and neither is its sidecar's. */
  lemma KeyNames(key: string)
    requires SplitKey(key).Some?
    ensures var SplitKeyResult(dirs, leaf) := SplitKey(key).value;
            && (forall i :: 0 <= i < |dirs| ==> '/' !in dirs[i] && dirs[i] != "")
            && '/' !in leaf && leaf != "" && '/' !in MetaName(leaf) && MetaName(leaf) != ""
  {
    var segments := Split(key);
    forall i | 0 <= i < |segments| ensures '/' !in segments[i] && segments[i] != "" {
      assert ValidSegment(segments[i]);
    }
    assert '/' !in META_SUFFIX;
  }

  /** A put that goes through adds exactly its key to the listing: its sidecar is not listed. */
  lemma PutAddsTheKey(t: Tree, key: string)
    requires WellFormed(t) && SplitKey(key).Some?
    ensures var SplitKeyResult(dirs, leaf) := SplitKey(key).value;
            var (after, ok) := Put(t, dirs, leaf);
            ok ==> ListedKeys(after) == ListedKeys(t) + {key}
  {
    var SplitKeyResult(dirs, leaf) := SplitKey(key).value;
    var (after, ok) := Put(t, dirs, leaf);
    if ok {
      var target, sidecar := dirs + [leaf], dirs + [MetaName(leaf)];
      PutIff(t, dirs, leaf);
      SplitThenJoin(key);
      SidecarIsNeverASegment(leaf, leaf);
      assert Name(target) == leaf && Name(sidecar) == MetaName(leaf);
      assert target in after.files;
      forall k | k in ListedKeys(t) ensures k in ListedKeys(after) {
        var p :| p in t.files && p != [] && !IsMetaName(Name(p)) && k == Join(p);
        assert p in after.files;
      }
    }
  }

  /** A key put is there to delete, and deleting it takes both its files with it. */
  lemma PutThenDelete(t: Tree, key: string)
    requires WellFormed(t) && SplitKey(key).Some?
    ensures var SplitKeyResult(dirs, leaf) := SplitKey(key).value;
            var (put, ok) := Put(t, dirs, leaf);
            ok ==>
              var (after, removal) := Delete(put, dirs, leaf, false);
              && removal.Removed?
              && after.files == t.files - {dirs + [leaf], dirs + [MetaName(leaf)]}
              && ListedKeys(after) == ListedKeys(t) - {key}
  {
    var SplitKeyResult(dirs, leaf) := SplitKey(key).value;
    var (put, ok) := Put(t, dirs, leaf);
    if ok {
      PutIff(t, dirs, leaf);
      PutKeepsShape(t, key);
      PutAddsTheKey(t, key);
      DeleteRemovesTheKey(put, key, false);
    }
  }

  // ─── In place ───────────────────────────────────────────────────────────

  class Folder {
    var dirs: set<Path>
    var files: set<Path>

    ghost function State(): Tree
      reads this
    {
      Tree(dirs, files)
    }

    constructor ()
      ensures State() == Tree({}, {})
    {
      dirs, files := {}, {};
    }

    method Remove(path: Path) returns (removal: Removal)
      modifies this
      ensures (State(), removal) == RemoveEntry(old(State()), path)
    {
      if path in files {
        files := files - {path};
        return Removed;
      }
      if path !in dirs {
        return NotFound;
      }
      if !Empty(Tree(dirs, files), path) {
        return NotEmpty;
      }
      dirs := dirs - {path};
      return Removed;
    }

    /** `None`: the key is refused; otherwise whether the object and its sidecar could be made. */
    method StoragePut(key: string) returns (made: Option<bool>)
      modifies this
      ensures SplitKey(key).None? ==> made.None? && State() == old(State())
      ensures SplitKey(key).Some? ==>
                var SplitKeyResult(above, leaf) := SplitKey(key).value;
                made.Some? && (State(), made.value) == Put(old(State()), above, leaf)
    {
      var split := SplitKey(key);
      if split.None? {
        return None;
      }
      var SplitKeyResult(above, leaf) := split.value;
      var depth := 0;
      while depth < |above|
        invariant depth <= |above|
        invariant MakeDirs(old(State()), above, depth) == (State(), true)
      {
        if above[..depth + 1] in files {
          MakeDirsStops(old(State()), above, depth + 1);
          return Some(false);
        }
        dirs := dirs + {above[..depth + 1]};
        depth := depth + 1;
      }
      if above + [leaf] in dirs {
        return Some(false);
      }
      files := files + {above + [leaf]};
      if above + [MetaName(leaf)] in dirs {
        return Some(false);
      }
      files := files + {above + [MetaName(leaf)]};
      return Some(true);
    }

    /** `None`: the key is refused; otherwise what became of the object's entry. */
    method StorageDelete(key: string, refused: bool) returns (removal: Option<Removal>)
      requires WellFormed(State())
      modifies this
      ensures SplitKey(key).None? ==> removal.None? && State() == old(State())
      ensures SplitKey(key).Some? ==>
                var SplitKeyResult(above, leaf) := SplitKey(key).value;
                removal.Some? && (State(), removal.value) == Delete(old(State()), above, leaf, refused)
    {
      var split := SplitKey(key);
      if split.None? {
        return None;
      }
      var SplitKeyResult(above, leaf) := split.value;
      var outcome := Remove(above + [leaf]);
      if !outcome.Removed? {
        return Some(outcome);
      }
      if !refused {
        var _ := Remove(above + [MetaName(leaf)]);
      }
      PruneEmptyDirs(above);
      return Some(outcome);
    }

    method PruneEmptyDirs(above: Path)
      modifies this
      ensures State() == Prune(old(State()), above, |above|)
    {
      var depth: nat := |above|;
      while depth > 0
        invariant depth <= |above|
        invariant Prune(State(), above, depth) == Prune(old(State()), above, |above|)
      {
        var removal := Remove(above[..depth]);
        if !removal.Removed? {
          return;
        }
        depth := depth - 1;
      }
    }
  }
}
