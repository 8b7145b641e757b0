// The write probe of the installer: rollbackWritableProbe creates the
// installation directory, writes a file there and takes everything back.
module WriteProbe {
  import opened Options

  // The segments below the drive.
  type Path = seq<string>

  datatype Kind = Folder | Document

  type Tree = map<Path, Kind>

  datatype Problem =
    | CannotInspect
    | NoParent
    | ParentInaccessible
    | CannotCreate
    | CannotWrite
    | ProbeFailed
    | RollbackFailed

  function Parent(p: Path): Path
    requires p != []
  {
    p[..|p| - 1]
  }

  // Everything lies in a folder.
  ghost predicate WellFormed(t: Tree) {
    forall p {:trigger p in t} :: p in t && p != [] ==> Parent(p) in t && t[Parent(p)] == Folder
  }

  predicate IsEmpty(t: Tree, directory: Path) {
    forall p {:trigger p in t} :: p in t && p != [] ==> Parent(p) != directory
  }

  // The length of the deepest prefix that exists, or -1.
  function Depth(t: Tree, directory: Path): (k: int)
    ensures -1 <= k <= |directory|
    ensures k >= 0 ==> directory[..k] in t
    decreases |directory|
  {
    if directory in t then (assert directory[..|directory|] == directory; |directory|)
    else if directory == [] then -1
    else
      var k := Depth(t, Parent(directory));
      assert k >= 0 ==> Parent(directory)[..k] == directory[..k];
      k
  }

  // The tree with the folders of the chain from depth k to depth j added.
  function Extended(t: Tree, directory: Path, k: nat, j: nat): Tree
    requires j <= |directory|
  {
    if j <= k then t else Extended(t, directory, k, j - 1)[directory[..j] := Folder]
  }

  lemma {:induction false} DeeperIsMissing(t: Tree, directory: Path, i: nat)
    requires Depth(t, directory) < i <= |directory|
    ensures directory[..i] !in t
    decreases |directory|
  {
    assert directory !in t;
    if i == |directory| {
      assert directory[..i] == directory;
    } else {
      DeeperIsMissing(t, Parent(directory), i);
      assert Parent(directory)[..i] == directory[..i];
    }
  }

  lemma {:induction false} ExtendedHas(t: Tree, directory: Path, k: nat, j: nat, p: Path)
    requires k <= j <= |directory|
    ensures p in Extended(t, directory, k, j) <==> p in t || (k < |p| <= j && p == directory[..|p|])
    ensures p in Extended(t, directory, k, j) && !(k < |p| <= j && p == directory[..|p|]) ==>
              p in t && Extended(t, directory, k, j)[p] == t[p]
    ensures k < |p| <= j && p == directory[..|p|] ==>
              p in Extended(t, directory, k, j) && Extended(t, directory, k, j)[p] == Folder
  {
    if k < j {
      ExtendedHas(t, directory, k, j - 1, p);
    }
  }

  // Of the chain, exactly the deepest folder is empty, and removing it shortens
  // the chain by one.
  lemma ChainEnd(t: Tree, directory: Path, k: nat, j: nat)
    requires WellFormed(t) && Depth(t, directory) == k < j <= |directory|
    ensures IsEmpty(Extended(t, directory, k, j), directory[..j])
    ensures Extended(t, directory, k, j) - {directory[..j]} == Extended(t, directory, k, j - 1)
  {
    var all, shorter, end := Extended(t, directory, k, j), Extended(t, directory, k, j - 1), directory[..j];
    DeeperIsMissing(t, directory, j);
    forall p | p in all && p != []
      ensures Parent(p) != end
    {
      ExtendedHas(t, directory, k, j, p);
    }
    ExtendedHas(t, directory, k, j - 1, end);
  }

  lemma ChainMiddle(t: Tree, directory: Path, k: nat, j: nat, i: nat)
    requires k < i < j <= |directory|
    ensures !IsEmpty(Extended(t, directory, k, j), directory[..i])
  {
    var p := directory[..i + 1];
    ExtendedHas(t, directory, k, j, p);
    assert Parent(p) == directory[..i];
  }

  lemma ChainAt(t: Tree, directory: Path, k: nat, j: nat, i: nat)
    requires WellFormed(t) && Depth(t, directory) == k <= j <= |directory| && k < i <= |directory|
    ensures var all := Extended(t, directory, k, j);
            && (directory[..i] in all <==> i <= j)
            && (i <= j ==> (IsEmpty(all, directory[..i]) <==> i == j))
            && (i == j ==> all - {directory[..i]} == Extended(t, directory, k, j - 1))
  {
    ExtendedHas(t, directory, k, j, directory[..i]);
    DeeperIsMissing(t, directory, i);
    if i == j {
      ChainEnd(t, directory, k, j);
    } else if i < j {
      ChainMiddle(t, directory, k, j, i);
    }
  }

  lemma ChainChanges(t: Tree, directory: Path, k: nat, j: nat)
    requires Depth(t, directory) == k <= j <= |directory|
    ensures Extended(t, directory, k, j) == t <==> j == k
  {
    if k < j {
      DeeperIsMissing(t, directory, j);
      ExtendedHas(t, directory, k, j, directory[..j]);
    }
  }

  // -------------------------------------------------------------------- the disk

  class Disk {
    var tree: Tree
    // Some call failed that could have succeeded.
    ghost var faulted: bool
    // The attributes of a folder that is there could not be queried.
    ghost var blinded: bool
    // Files that have been written.
    ghost var written: set<Path>

    method Attempt() returns (ok: bool)
      modifies `faulted
      ensures faulted == (old(faulted) || !ok)
    {
      ok := *;
      faulted := faulted || !ok;
    }

    // create_directories: from the first missing prefix down, stopping at a failure.
    method CreateDirectories(directory: Path, k: nat) returns (ok: bool, ghost j: nat)
      requires WellFormed(tree) && Depth(tree, directory) == k <= |directory|
      modifies `tree, `faulted
      ensures k <= j <= |directory| && tree == Extended(old(tree), directory, k, j)
      ensures ok ==> j == |directory|
      ensures faulted == (old(faulted) || !ok)
    {
      var i := k;
      while i < |directory|
        invariant k <= i <= |directory| && tree == Extended(old(tree), directory, k, i)
        invariant faulted == old(faulted)
      {
        ok := Attempt();
        if !ok {
          return false, i;
        }
        i := i + 1;
        tree := tree[directory[..i] := Folder];
      }
      return true, i;
    }

    // RemoveDirectoryW, which takes empty directories only.
    method RemoveDirectory(directory: Path) returns (ok: bool)
      modifies `tree, `faulted
      ensures tree == if ok then old(tree) - {directory} else old(tree)
      ensures ok ==> IsEmpty(old(tree), directory)
      ensures !ok && IsEmpty(old(tree), directory) ==> faulted
      ensures old(faulted) ==> faulted
    {
      if !IsEmpty(tree, directory) {
        return false;
      }
      ok := Attempt();
      if ok {
        tree := tree - {directory};
      }
    }

    // GetFileAttributesW != INVALID_FILE_ATTRIBUTES.
    method HasAttributes(directory: Path) returns (has: bool)
      modifies `faulted, `blinded
      ensures has ==> directory in tree
      ensures !has && directory in tree ==> blinded && faulted
      ensures blinded == (old(blinded) || (directory in tree && !has))
      ensures old(faulted) ==> faulted
    {
      if directory !in tree {
        return false;
      }
      has := Attempt();
      blinded := blinded || !has;
    }
  }

  // One round: the folder at depth i goes if it is there, seen, empty, and removable.
  method RemoveOne(disk: Disk, directory: Path, ghost before: Tree, k: nat, i: nat, ghost left: nat)
    returns (removed: bool, ghost left': nat)
    requires WellFormed(before) && Depth(before, directory) == k <= left <= |directory| && k < i <= |directory|
    requires disk.tree == Extended(before, directory, k, left)
    modifies disk`tree, disk`faulted, disk`blinded
    ensures k <= left' <= |directory| && disk.tree == Extended(before, directory, k, left')
    ensures left != i ==> left' == left
    ensures left == i ==>
              (left' == i - 1 && removed && disk.blinded == old(disk.blinded))
              || (left' == i && (!removed || disk.blinded) && disk.faulted)
    ensures left < i ==> removed && disk.blinded == old(disk.blinded)
    ensures old(disk.faulted) ==> disk.faulted
    ensures old(disk.blinded) ==> disk.blinded
  {
    var created := directory[..i];
    ChainAt(before, directory, k, left, i);
    left', removed := left, true;
    var has := disk.HasAttributes(created);
    if has {
      removed := disk.RemoveDirectory(created);
      if removed {
        left' := left - 1;
      }
    }
  }

  // removeCreatedDirectories over the chain, deepest first.
  method RemoveCreated(disk: Disk, directory: Path, ghost before: Tree, k: nat, ghost j: nat) returns (removed: bool)
    requires WellFormed(before) && Depth(before, directory) == k <= j <= |directory|
    requires disk.tree == Extended(before, directory, k, j) && !disk.blinded
    modifies disk`tree, disk`faulted, disk`blinded
    ensures removed ==> (disk.tree == before <==> !disk.blinded)
    ensures !removed || disk.blinded ==> disk.faulted
    ensures old(disk.faulted) ==> disk.faulted
  {
    removed := true;
    var i := |directory|;
    ghost var left := j;
    while i > k
      invariant k <= i <= |directory| && k <= left <= |directory|
      invariant disk.tree == Extended(before, directory, k, left)
      invariant if removed && !disk.blinded then left <= i else left > i
      invariant !removed || disk.blinded ==> disk.faulted
      invariant old(disk.faulted) ==> disk.faulted
    {
      var taken;
      taken, left := RemoveOne(disk, directory, before, k, i, left);
      removed := removed && taken;
      i := i - 1;
    }
    ChainChanges(before, directory, k, left);
  }

  // The deepest part of the path that is there is a folder and the name is free.
  predicate CanTake(t: Tree, directory: Path, name: string) {
    var k := Depth(t, directory);
    k >= 0 && t[directory[..k]] == Folder && directory + [name] !in t
  }

  // The deepest part of the path that is there.
  predicate EndsAt(t: Tree, directory: Path, k: nat) {
    k <= |directory| && directory[..k] in t && forall j :: k < j <= |directory| ==> directory[..j] !in t
  }

  lemma DeepestIsFound(t: Tree, directory: Path, k: nat)
    ensures EndsAt(t, directory, k) <==> Depth(t, directory) == k
    ensures Depth(t, directory) < 0 <==> forall j :: 0 <= j <= |directory| ==> directory[..j] !in t
  {
    var d := Depth(t, directory);
    forall i: nat | d < i <= |directory|
      ensures directory[..i] !in t
    {
      DeeperIsMissing(t, directory, i);
    }
  }

  // What the probe says when no call fails of its own accord: nothing, if it can
  // take the path; otherwise that no part of the path is there, that the deepest
  // part is no folder, or that the probe file cannot be made.
  ghost predicate IsVerdict(t: Tree, directory: Path, name: string, problem: Option<Problem>) {
    match problem
    case None =>
      directory + [name] !in t && exists k :: 0 <= k && EndsAt(t, directory, k) && t[directory[..k]] == Folder
    case Some(NoParent) => forall j :: 0 <= j <= |directory| ==> directory[..j] !in t
    case Some(ParentInaccessible) => exists k :: 0 <= k && EndsAt(t, directory, k) && t[directory[..k]] == Document
    case Some(CannotWrite) =>
      directory + [name] in t && exists k :: 0 <= k && EndsAt(t, directory, k) && t[directory[..k]] == Folder
    case _ => false
  }

  // The probe file goes when its handle is closed.
  method Probe(disk: Disk, file: Path) returns (problem: Option<Problem>)
    modifies disk`faulted, disk`written
    ensures problem == None ==> file in disk.written
    ensures problem.Some? ==> (file in disk.tree && problem == Some(CannotWrite)) || disk.faulted
    ensures problem == None ==> file !in disk.tree
    ensures old(disk.faulted) ==> disk.faulted
  {
    var created := disk.Attempt();
    if !created || file in disk.tree {
      return Some(CannotWrite);
    }
    var complete := disk.Attempt();
    if !complete {
      return Some(ProbeFailed);
    }
    disk.written := disk.written + {file};
    return None;
  }

  // The deepest prefix that exists, found by going up; -1 if none does.
  method FindExisting(disk: Disk, directory: Path) returns (inspected: bool, k: int)
    modifies disk`faulted
    ensures old(disk.faulted) ==> disk.faulted
    ensures inspected ==> k == Depth(disk.tree, directory)
    ensures !inspected ==> disk.faulted
  {
    var cursor := directory;
    while true
      invariant cursor <= directory && Depth(disk.tree, cursor) == Depth(disk.tree, directory)
      invariant old(disk.faulted) ==> disk.faulted
      decreases |cursor|
    {
      var ok := disk.Attempt();
      if cursor in disk.tree {
        return ok, |cursor|;
      }
      if !ok {
        return false, -1;
      }
      if cursor == [] {
        return true, -1;
      }
      cursor := Parent(cursor);
    }
  }

  method RollbackWritableProbe(disk: Disk, directory: Path, name: string) returns (problem: Option<Problem>)
    requires WellFormed(disk.tree) && !disk.blinded && !disk.faulted
    modifies disk
    // Unless it reports that the rollback failed, the probe leaves the tree as it
    // was, exactly if no folder it had made was hidden from the rollback.
    ensures problem != Some(RollbackFailed) ==> (disk.tree == old(disk.tree) <==> !disk.blinded)
    ensures problem == None ==> directory + [name] in disk.written
    ensures !disk.faulted ==>
              disk.tree == old(disk.tree) && !disk.blinded
              && (problem == None <==> CanTake(old(disk.tree), directory, name))
              && IsVerdict(old(disk.tree), directory, name, problem)
  {
    ghost var before := disk.tree;
    var inspected, k := FindExisting(disk, directory);
    DeepestIsFound(before, directory, if k < 0 then 0 else k);
    if !inspected {
      return Some(CannotInspect);
    }
    if k < 0 {
      return Some(NoParent);
    }
    var checked := disk.Attempt();
    if !checked || disk.tree[directory[..k]] != Folder {
      return Some(ParentInaccessible);
    }
    var created, j := disk.CreateDirectories(directory, k);
    if !created {
      var undone := RemoveCreated(disk, directory, before, k, j);
      return Some(if undone then CannotCreate else RollbackFailed);
    }
    var probe := directory + [name];
    ExtendedHas(before, directory, k, j, probe);
    problem := Probe(disk, probe);
    var removed := RemoveCreated(disk, directory, before, k, j);
    if !removed {
      return Some(RollbackFailed);
    }
  }
}
