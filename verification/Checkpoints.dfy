/** Workspace checkpoints (crates/checkpoints/src/store.rs): a snapshot is a copy of the workspace below
    the checkpoints root, and a restore clears the workspace and copies the snapshot back. */
module Checkpoints {
  import opened Prelude
  import opened Disk

  // Where a snapshot goes.
  function Destination(root: Place, workspace: string, id: string): (r: Place) {
    root + [workspace, id]
  }

  predicate DirectChild(top: Place, p: Place) { top < p && |p| == |top| + 1 }

  predicate Apart(a: Place, b: Place) { !(a <= b) && !(b <= a) }

  // The checkpoints root lies beside the workspace or directly inside it.
  predicate WellPlaced(workspace: Place, root: Place) {
    Apart(workspace, root) || DirectChild(workspace, root)
  }

  ghost predicate CanCreate(fs: Tree, workspace: Place, root: Place, dest: Place) {
    && !FileOnWay(fs, root)
    && IsDir(WithDirs(fs, root), workspace) && !FileOnWay(WithDirs(fs, root), dest)
  }

  ghost function Created(fs: Tree, workspace: Place, root: Place, dest: Place): (r: Tree) {
    Copied(WithDirs(fs, root), workspace, dest, root)
  }

  ghost function Restored(fs: Tree, workspace: Place, root: Place, dest: Place): (r: Tree) {
    Copied(Cleared(fs, workspace, root), dest, workspace, root)
  }

  // Two prefixes of one place are comparable.
  lemma Comparable(a: Place, b: Place, p: Place)
    requires a <= p && b <= p
    ensures a <= b || b <= a
    ensures |a| <= |b| ==> a <= b
  {
    if |a| <= |b| { assert a == p[..|a|] && b == p[..|b|] && a == b[..|a|]; } else { assert b == p[..|b|] && b == a[..|b|]; }
  }

  /** A copy into the checkpoints root never walks over its own output, however deep the root lies inside
      the workspace. */
  lemma CreateFits(fs: Tree, workspace: Place, root: Place, dest: Place)
    requires WellFormed(fs) && IsDir(fs, root) && root < dest && dest !in fs && !(root <= workspace)
    ensures Fits(fs, workspace, dest, root)
  {
    forall p: Place ensures FreeFor(fs, workspace, dest, root, p) {
      if p in fs && InRegion(workspace, root, p) {
        var q := Moved(workspace, dest, p);
        OutputIsHidden(workspace, root, dest, q);
        if q in fs { Above(fs, dest, q); }
      }
    }
    forall q | q <= dest ensures MadeOutside(fs, workspace, root, q) {
      if q !in fs && workspace <= q {
        Comparable(q, root, dest);
        Comparable(workspace, root, dest);
        if q <= root { Above(fs, q, root); }
      }
    }
  }

  lemma Above(fs: Tree, p: Place, q: Place)
    requires WellFormed(fs) && q in fs && p <= q
    ensures p in fs
  {
    assert p == q[..|p|];
    if |p| < |q| { AncestorsExist(fs, q, |p|); } else { assert p == q; }
  }

  lemma OutputIsHidden(workspace: Place, root: Place, dest: Place, q: Place)
    requires root < dest <= q && !(root <= workspace)
    ensures !InRegion(workspace, root, q)
  {
    if workspace <= q { Comparable(workspace, root, q); }
  }

  lemma ClearedWellFormed(fs: Tree, dir: Place, exclude: Place)
    requires WellFormed(fs)
    ensures WellFormed(Cleared(fs, dir, exclude))
    ensures IsDir(fs, dir) ==> IsDir(Cleared(fs, dir, exclude), dir)
  {
    var c := Cleared(fs, dir, exclude);
    forall p: Place ensures HasParent(c, p) {
      assert HasParent(fs, p);
      if p in c && p != [] {
        var up := p[..|p| - 1];
        if dir < up { assert up[..|dir| + 1] == p[..|dir| + 1]; }
      }
    }
  }

  /** Clearing spares a snapshot exactly when it lies outside the directory or the checkpoints root is one
      of its direct entries; deeper inside, it goes with everything else. */
  lemma ClearSparesIff(fs: Tree, workspace: Place, root: Place, dest: Place)
    requires root < dest && dest in fs
    ensures dest in Cleared(fs, workspace, root) <==> !(workspace < dest) || DirectChild(workspace, root)
  {
    if workspace < dest && |workspace| + 1 <= |dest| {
      assert root == dest[..|root|];
      if DirectChild(workspace, root) { assert dest[..|workspace| + 1] == root; }
    }
  }

  lemma RestoreFits(fs: Tree, workspace: Place, root: Place, dest: Place)
    requires WellFormed(fs) && IsDir(fs, workspace) && root < dest && !(root <= workspace)
    requires DirectChild(workspace, root) ==> dest + [root[|workspace|]] !in fs
    requires dest in Cleared(fs, workspace, root)
    ensures Fits(Cleared(fs, workspace, root), dest, workspace, root)
  {
    var c := Cleared(fs, workspace, root);
    ClearedWellFormed(fs, workspace, root);
    ClearSparesIff(fs, workspace, root, dest);
    forall p: Place ensures FreeFor(c, dest, workspace, root, p) {
      if p in c && dest <= p && p != dest { RestoreFree(fs, workspace, root, dest, p); }
      if p == dest { assert Moved(dest, workspace, p) == workspace; }
    }
    forall q | q <= workspace ensures MadeOutside(c, dest, root, q) {
      Above(c, q, workspace);
    }
  }

  lemma EntryName(workspace: Place, root: Place, q: Place)
    requires workspace < q && q[..|workspace| + 1] == root
    ensures DirectChild(workspace, root) && root[|workspace|] == q[|workspace|]
  {
  }

  lemma OnlyInDirectChild(workspace: Place, root: Place, dest: Place, q: Place)
    requires root < dest <= q && workspace < q && !(root <= workspace)
    requires !(workspace < dest) || DirectChild(workspace, root)
    ensures q[..|workspace| + 1] == root
  {
    Comparable(workspace, dest, q);
    assert workspace != dest && q[..|root|] == root;
  }

  // A node of the snapshot goes to a place that was cleared and is not in the snapshot.
  lemma RestoreFree(fs: Tree, workspace: Place, root: Place, dest: Place, p: Place)
    requires WellFormed(fs) && IsDir(fs, workspace) && root < dest && !(root <= workspace)
    requires DirectChild(workspace, root) ==> dest + [root[|workspace|]] !in fs
    requires p in fs && dest < p && (!(workspace < dest) || DirectChild(workspace, root))
    ensures !(dest <= Moved(dest, workspace, p)) && Moved(dest, workspace, p) !in Cleared(fs, workspace, root)
  {
    var q := Moved(dest, workspace, p);
    assert workspace < q && q[|workspace|] == p[|dest|];
    assert q[..|workspace| + 1] == workspace + [p[|dest|]];
    FirstName(fs, dest, p);
    if dest <= q { OnlyInDirectChild(workspace, root, dest, q); }
    if q[..|workspace| + 1] == root { EntryName(workspace, root, q); }
  }

  // The round trip ------------------------------------------------------------------------------------------

  // What a snapshot holds: the workspace without the checkpoints root.
  lemma SnapshotHolds(fs: Tree, workspace: Place, root: Place, dest: Place, q: Place)
    requires WellFormed(fs) && IsDir(fs, workspace) && CanCreate(fs, workspace, root, dest)
    requires WellPlaced(workspace, root) && root < dest && dest !in fs && workspace <= q
    ensures var t, p := Created(fs, workspace, root, dest), Moved(workspace, dest, q);
            && (p in t <==> q in fs && !(root <= q))
            && (p in t ==> t[p] == fs[q])
  {
    var made, t, p := WithDirs(fs, root), Created(fs, workspace, root, dest), Moved(workspace, dest, q);
    WithDirsWellFormed(fs, root);
    MovedBack(workspace, dest, q);
    assert !(dest <= root);
    if p in made { Above(made, dest, p); }
    if q in made && |q| > |workspace| { FirstName(made, workspace, q); }
    if q != workspace { assert |p| > |dest| && p[|dest|] == q[|workspace|]; } else { assert p == dest; }
    if root <= q { Comparable(workspace, root, q); }
    if q in made && q !in fs { Comparable(workspace, q, root); assert q == root || q == workspace; }
  }

  lemma RestoredAt(fs: Tree, workspace: Place, root: Place, dest: Place, later: Tree, q: Place)
    requires WellFormed(fs) && IsDir(fs, workspace) && CanCreate(fs, workspace, root, dest)
    requires WellPlaced(workspace, root) && root < dest && dest !in fs
    requires WellFormed(later) && IsDir(later, workspace)
    requires forall p | dest <= p :: AgreeAt(later, Created(fs, workspace, root, dest), p)
    ensures AgreeAt(Restored(later, workspace, root, dest), if workspace <= q && !(root <= q) then fs else later, q)
  {
    var c := Cleared(later, workspace, root);
    ClearedWellFormed(later, workspace, root);
    CopiedAt(c, dest, workspace, root, q);
    if workspace <= q {
      var p := Moved(workspace, dest, q);
      SnapshotHolds(fs, workspace, root, dest, q);
      MovedBack(workspace, dest, q);
      RootIsKept(workspace, root, p);
      assert AgreeAt(later, Created(fs, workspace, root, dest), p);
      if root <= q { RootIsKept(workspace, root, q); } else if q != workspace { OthersAreCleared(workspace, root, q); }
    }
  }

  lemma RootIsKept(workspace: Place, root: Place, p: Place)
    requires WellPlaced(workspace, root) && root <= p
    ensures Kept(workspace, root, p)
  {
    if workspace < p {
      Comparable(workspace, root, p);
      assert root == p[..|root|];
    }
  }

  lemma OthersAreCleared(workspace: Place, root: Place, p: Place)
    requires workspace < p && !(root <= p)
    ensures !Kept(workspace, root, p)
  {
  }

  // A copy onto an existing directory, place by place.
  lemma CopiedAt(fs: Tree, src: Place, dest: Place, exclude: Place, q: Place)
    requires WellFormed(fs) && IsDir(fs, dest)
    ensures var t := Copied(fs, src, dest, exclude);
            if dest <= q && Moved(dest, src, q) in fs && InRegion(src, exclude, Moved(dest, src, q))
            then q in t && t[q] == fs[Moved(dest, src, q)]
            else AgreeAt(t, fs, q)
  {
    WithDirsOfDir(fs, dest);
    if dest <= q && Moved(dest, src, q) in fs && |q| > |dest| { FirstName(fs, src, Moved(dest, src, q)); }
  }

  /** Create, then any changes outside this snapshot, other checkpoints included, then restore: below the workspace stands exactly
      what stood there when the snapshot was taken, and everything else, all checkpoints included, is as it
      was before the restore. */
  lemma RoundTrip(fs: Tree, workspace: Place, root: Place, dest: Place, later: Tree)
    requires WellFormed(fs) && IsDir(fs, workspace) && CanCreate(fs, workspace, root, dest)
    requires WellPlaced(workspace, root) && root < dest && dest !in fs
    requires WellFormed(later) && IsDir(later, workspace)
    requires forall p | dest <= p :: AgreeAt(later, Created(fs, workspace, root, dest), p)
    ensures forall q | workspace <= q && !(root <= q) :: AgreeAt(Restored(later, workspace, root, dest), fs, q)
    ensures forall q | !(workspace <= q) || root <= q :: AgreeAt(Restored(later, workspace, root, dest), later, q)
  {
    var back := Restored(later, workspace, root, dest);
    forall q | workspace <= q && !(root <= q) ensures AgreeAt(back, fs, q) {
      RestoredAt(fs, workspace, root, dest, later, q);
    }
    forall q | !(workspace <= q) || root <= q ensures AgreeAt(back, later, q) {
      RestoredAt(fs, workspace, root, dest, later, q);
    }
  }

  /** A root deeper inside the workspace defeats it: clearing takes every snapshot and leaves the workspace
      empty, so there is nothing left to copy back. */
  lemma DeepRootLosesAll(fs: Tree, workspace: Place, root: Place, q: Place)
    requires workspace < root && |root| > |workspace| + 1 && workspace < q
    ensures q !in Cleared(fs, workspace, root)
  {
  }

  // The store ----------------------------------------------------------------------------------------------------

  datatype Metadata = Metadata(checkpointId: string, workspaceId: string, snapshot: Place, absolute: bool)

  datatype Error = NotFound | WorkspaceMismatch | SnapshotMissing | SnapshotPathNotAbsolute | Io | Storage

  datatype WorkspaceRoot = WorkspaceRoot(workspaceId: string, place: Place)

  // Why a snapshot cannot be used.
  function Unusable(fs: Tree, m: Metadata): (r: Option<Error>) {
    if !m.absolute then Some(SnapshotPathNotAbsolute)
    else if m.snapshot !in fs then Some(SnapshotMissing)
    else None
  }

  function Refusal(fs: Tree, rows: map<string, Metadata>, id: string, workspace: WorkspaceRoot): (r: Option<Error>) {
    if id !in rows then Some(NotFound)
    else if rows[id].workspaceId != workspace.workspaceId then Some(WorkspaceMismatch)
    else Unusable(fs, rows[id])
  }

  class FilesystemCheckpointStore {
    const root: Place
    const disk: FileTree
    var rows: map<string, Metadata>

    constructor (root: Place, disk: FileTree)
      ensures this.root == root && this.disk == disk && rows == map[]
    {
      this.root := root;
      this.disk := disk;
      rows := map[];
    }

    // Rows whose path is absolute were written by Create; a snapshot holds nothing under the name of a
    // checkpoints root that is an entry of its own workspace.
    ghost predicate Valid(workspace: WorkspaceRoot)
      reads this, disk
    {
      && WellFormed(disk.nodes) && !(root <= workspace.place)
      && forall id | id in rows :: SnapshotSane(workspace.place, rows[id])
    }

    ghost predicate SnapshotSane(workspace: Place, m: Metadata)
      reads disk
    {
      m.absolute ==>
        && root < m.snapshot
        && (DirectChild(workspace, root) ==> m.snapshot + [root[|workspace|]] !in disk.nodes)
    }

    // The id is an unused one, and the row insert may fail.
    method Create(workspace: WorkspaceRoot, id: string, stored: bool) returns (r: Result<Metadata, Error>)
      requires WellFormed(disk.nodes) && !(root <= workspace.place)
      requires Destination(root, workspace.workspaceId, id) !in disk.nodes && id !in rows
      modifies this`rows, disk
      ensures var dest := Destination(root, workspace.workspaceId, id);
              && (r.Ok? <==> CanCreate(old(disk.nodes), workspace.place, root, dest) && stored)
              && (r.Ok? ==> r.value == Metadata(id, workspace.workspaceId, dest, true) && rows == old(rows)[id := r.value])
              && (CanCreate(old(disk.nodes), workspace.place, root, dest) ==>
                    disk.nodes == Created(old(disk.nodes), workspace.place, root, dest))
      ensures r.Err? ==> rows == old(rows)
    {
      var dest := Destination(root, workspace.workspaceId, id);
      var made := disk.CreateDirAll(root);
      if !made { return Err(Io); }
      WithDirsWellFormed(old(disk.nodes), root);
      CreateFits(disk.nodes, workspace.place, root, dest);
      if workspace.place <= dest { Comparable(workspace.place, root, dest); }
      var copied := disk.CopyDirRecursive(workspace.place, dest, root);
      if !copied { return Err(Io); }
      if !stored { return Err(Storage); }
      r := Ok(Metadata(id, workspace.workspaceId, dest, true));
      rows := rows[id := r.value];
    }

    /** Restore refuses without touching anything unless the row, its workspace and its snapshot are there;
        then it succeeds exactly when clearing spares the snapshot, and otherwise has emptied the workspace. */
    method Restore(id: string, workspace: WorkspaceRoot) returns (r: Result<(), Error>)
      requires Valid(workspace)
      modifies disk
      ensures var refusal := Refusal(old(disk.nodes), rows, id, workspace);
              refusal.Some? ==> r == Err(refusal.value) && disk.nodes == old(disk.nodes)
      ensures id !in rows ==> r == Err(NotFound) && disk.nodes == old(disk.nodes)
      ensures id in rows && rows[id].workspaceId != workspace.workspaceId ==>
                r == Err(WorkspaceMismatch) && disk.nodes == old(disk.nodes)
      ensures id in rows && rows[id].workspaceId == workspace.workspaceId && !rows[id].absolute ==>
                r == Err(SnapshotPathNotAbsolute) && disk.nodes == old(disk.nodes)
      ensures id in rows && rows[id].workspaceId == workspace.workspaceId && rows[id].absolute
              && rows[id].snapshot !in old(disk.nodes) ==>
                r == Err(SnapshotMissing) && disk.nodes == old(disk.nodes)
      ensures Refusal(old(disk.nodes), rows, id, workspace).None? ==>
                var fs, dest := old(disk.nodes), rows[id].snapshot;
                && (r.Ok? <==> IsDir(fs, workspace.place) && IsDir(fs, dest) &&
                               (!(workspace.place < dest) || DirectChild(workspace.place, root)))
                && disk.nodes == (if r.Ok? then Restored(fs, workspace.place, root, dest)
                                  else if IsDir(fs, workspace.place) then Cleared(fs, workspace.place, root)
                                  else fs)
    {
      if id !in rows { return Err(NotFound); }
      var m := rows[id];
      if m.workspaceId != workspace.workspaceId { return Err(WorkspaceMismatch); }
      if !m.absolute { return Err(SnapshotPathNotAbsolute); }
      if m.snapshot !in disk.nodes { return Err(SnapshotMissing); }
      assert SnapshotSane(workspace.place, m);
      var cleared := disk.ClearDirExcluding(workspace.place, root);
      if !cleared { return Err(Io); }
      AfterClear(old(disk.nodes), workspace.place, root, m.snapshot);
      var copied := disk.CopyDirRecursive(m.snapshot, workspace.place, root);
      if !copied { return Err(Io); }
      return Ok(());
    }

    method Delete(id: string) returns (r: Result<(), Error>)
      modifies this`rows, disk
      ensures id !in old(rows) ==> r == Err(NotFound)
      ensures id in old(rows) && !old(rows)[id].absolute ==> r == Err(SnapshotPathNotAbsolute)
      ensures r.Ok? ==> id in old(rows) && rows == old(rows) - {id} && disk.nodes == Without(old(disk.nodes), old(rows)[id].snapshot)
      ensures r.Err? ==> rows == old(rows) && disk.nodes == old(disk.nodes)
    {
      if id !in rows { return Err(NotFound); }
      var m := rows[id];
      if !m.absolute { return Err(SnapshotPathNotAbsolute); }
      if m.snapshot in disk.nodes && disk.nodes[m.snapshot].File? { return Err(Io); }
      disk.RemoveDirAll(m.snapshot);
      rows := rows - {id};
      return Ok(());
    }

    /** Startup reports exactly the rows whose restore would be refused for their snapshot, with the reason. */
    method UnusableSnapshots() returns (unusable: map<string, Error>)
      ensures forall id :: id in unusable <==> id in rows && Unusable(disk.nodes, rows[id]).Some?
      ensures forall id | id in unusable ::
                Refusal(disk.nodes, rows, id, WorkspaceRoot(rows[id].workspaceId, [])) == Some(unusable[id])
    {
      unusable := map[];
      var todo := rows.Keys;
      while todo != {}
        invariant todo <= rows.Keys
        invariant forall id :: id in unusable <==> id in rows.Keys - todo && Unusable(disk.nodes, rows[id]).Some?
        invariant forall id | id in unusable :: Unusable(disk.nodes, rows[id]) == Some(unusable[id])
        decreases |todo|
      {
        var id :| id in todo;
        todo := todo - {id};
        var reason := Unusable(disk.nodes, rows[id]);
        if reason.Some? { unusable := unusable[id := reason.value]; }
      }
    }
  }

  // What the copy of a restore finds.
  lemma AfterClear(fs: Tree, workspace: Place, root: Place, dest: Place)
    requires WellFormed(fs) && IsDir(fs, workspace) && dest in fs && root < dest && !(root <= workspace)
    requires DirectChild(workspace, root) ==> dest + [root[|workspace|]] !in fs
    ensures var c := Cleared(fs, workspace, root);
            && WellFormed(c) && WithDirs(c, workspace) == c && !FileOnWay(c, workspace)
            && !(dest <= workspace)
            && (IsDir(c, dest) <==> IsDir(fs, dest) && (!(workspace < dest) || DirectChild(workspace, root)))
            && (IsDir(c, dest) ==> Fits(c, dest, workspace, root))
  {
    ClearedWellFormed(fs, workspace, root);
    WithDirsOfDir(Cleared(fs, workspace, root), workspace);
    ClearSparesIff(fs, workspace, root, dest);
    if dest in Cleared(fs, workspace, root) { RestoreFits(fs, workspace, root, dest); }
  }

  /** What Create makes is sane for every later restore of that workspace. */
  lemma CreatedIsSane(fs: Tree, workspace: Place, root: Place, dest: Place)
    requires WellFormed(fs) && IsDir(fs, workspace) && CanCreate(fs, workspace, root, dest)
    requires DirectChild(workspace, root) && root < dest && dest !in fs
    ensures dest + [root[|workspace|]] !in Created(fs, workspace, root, dest)
  {
    assert root == workspace + [root[|workspace|]];
    SnapshotHolds(fs, workspace, root, dest, root);
    assert Moved(workspace, dest, root) == dest + [root[|workspace|]];
  }

  /** Deleting one checkpoint leaves every node of every other. */
  lemma DeleteIsLocal(fs: Tree, root: Place, w1: string, id1: string, w2: string, id2: string, p: Place)
    requires id1 != id2 && Destination(root, w2, id2) <= p
    ensures AgreeAt(Without(fs, Destination(root, w1, id1)), fs, p)
  {
    assert p[|root| + 1] == id2;
  }
}
