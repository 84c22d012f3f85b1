/** The part of the file system the WAL depends on: the folders leading to it, the file at
    its path, and what a power loss may leave there. */
module Disk {
  import opened Outcomes
  import opened Records

  /** What stands at the WAL path. A file whose content never reached the disk is torn. */
  datatype File = NoFile | Torn | Image(version: int, batches: seq<Record>)

  /** One folder on the way to the WAL, with the state of its entry in its parent. */
  datatype Folder = Missing | NotAFolder | Unsynced | Synced

  /** `folders` runs from the outermost ancestor to the folder holding the WAL. `file` is what
      a process reads; `mayRemain` are the files a power loss may leave in that folder. */
  datatype Disk = Disk(folders: seq<Folder>, file: File, mayRemain: set<File>)

  predicate Present(folder: Folder) {
    folder.Unsynced? || folder.Synced?
  }

  ghost predicate WellFormed(d: Disk) {
    && |d.folders| >= 1
    && (forall i, j :: 0 <= i < j < |d.folders| && !Present(d.folders[i]) ==> d.folders[j].Missing?)
    && d.file != Torn && Torn !in d.mayRemain
    && (!Present(d.folders[|d.folders| - 1]) ==> d.file == NoFile && d.mayRemain <= {NoFile})
  }

  /** Every file a restart after a power loss may find at the path. Losing the entry of any
      folder on the way loses the file with it. */
  function Survivors(d: Disk): set<File> {
    d.mayRemain + {d.file} + (if Unsynced in d.folders then {NoFile} else {})
  }

  /** What a restart reads out of a file it accepts. */
  function Reload(file: File): seq<Record> {
    if file.Image? then file.batches else []
  }

  /** The file that writeLocked leaves for these records. */
  function ImageOf(wal: seq<Record>): File {
    if wal == [] then NoFile else Image(1, wal)
  }

  /** os.Rename over the path; `lasting` is what of the new file has reached the disk. */
  function Replace(d: Disk, visible: File, lasting: File): Disk {
    d.(file := visible, mayRemain := d.mayRemain + {d.file, lasting})
  }

  /** syncDir of the folder holding the WAL: its present content is what remains.
      A platform without directory sync reports success and changes nothing. */
  function SyncContent(d: Disk, syncs: bool): Disk {
    if syncs then d.(mayRemain := {d.file}) else d
  }

  /** syncDir of the parent of folder `i`. */
  function SyncEntry(d: Disk, i: nat, syncs: bool): Disk
    requires i < |d.folders|
  {
    if syncs then d.(folders := d.folders[i := Synced]) else d
  }

  /** `t` is `d` with some missing folders created: nothing that existed changed. */
  ghost predicate Extends(d: Disk, t: Disk) {
    && WellFormed(t)
    && t.file == d.file && t.mayRemain == d.mayRemain && |t.folders| == |d.folders|
    && forall i :: 0 <= i < |d.folders| ==>
         t.folders[i] == d.folders[i] || (d.folders[i].Missing? && Present(t.folders[i]))
  }

  ghost predicate AllExtend(d: Disk, trail: seq<Disk>) {
    forall i :: 0 <= i < |trail| ==> Extends(d, trail[i])
  }

  /** Creating folders leaves nothing new for a power loss to uncover. */
  lemma ExtendingAddsNoSurvivor(d: Disk, t: Disk)
    requires WellFormed(d) && Extends(d, t)
    ensures Survivors(t) <= Survivors(d)
  {
    if Unsynced in t.folders && Unsynced !in d.folders {
      var i :| 0 <= i < |t.folders| && t.folders[i] == Unsynced;
      assert d.folders[i].Missing?;
      var last := |d.folders| - 1;
      assert i < last ==> d.folders[last].Missing?;
    }
  }

  function EndOf(d: Disk, trail: seq<Disk>): Disk {
    if trail == [] then d else trail[|trail| - 1]
  }

  /** What goes wrong in the file operations of one write, each named by the folder it concerns
      where there are several. */
  datatype Faults = Faults(
    stat: set<int>,      // folders that cannot be inspected
    mkdir: set<int>,     // folders that cannot be created
    entry: set<int>,     // folders whose entry cannot be synced, their parent being opened for it
    temporary: bool,     // the temporary file cannot be created
    write: bool, sync: bool, close: bool,
    rename: bool, remove: bool,
    content: bool)       // the folder of the WAL cannot be synced

  const NO_FAULTS: Faults := Faults({}, {}, {}, false, false, false, false, false, false, false)

  /** The innermost folder that exists, -1 if none does. */
  function Root(folders: seq<Folder>): (root: int)
    ensures -1 <= root < |folders|
    ensures root >= 0 ==> !folders[root].Missing?
    ensures forall i :: root < i < |folders| ==> folders[i].Missing?
  {
    if folders == [] then -1
    else if !folders[|folders| - 1].Missing? then |folders| - 1
    else Root(folders[..|folders| - 1])
  }

  /** None of the folders after `root` up to `i` is concerned. */
  predicate Spared(faults: set<int>, root: int, i: int) {
    forall j :: root < j <= i ==> j !in faults
  }

  /** The way to the WAL can be walked: no folder fails to be inspected, and it ends at one. */
  predicate Walkable(folders: seq<Folder>, faults: Faults) {
    && Root(folders) >= 0 && Present(folders[Root(folders)])
    && Spared(faults.stat, Root(folders) - 1, |folders| - 1)
  }

  /** ensureDurableDirectory returns no error. */
  predicate Prepares(folders: seq<Folder>, syncs: bool, faults: Faults) {
    && Walkable(folders, faults)
    && Spared(faults.mkdir, Root(folders), |folders| - 1)
    && (syncs ==> Spared(faults.entry, Root(folders), |folders| - 1))
  }

  /** The folders as ensureDurableDirectory leaves them: created up to the first that cannot be,
      and if all are there, synced up to the first that cannot be. */
  function FolderAfter(folders: seq<Folder>, syncs: bool, faults: Faults, i: int): Folder
    requires 0 <= i < |folders|
  {
    var root, last := Root(folders), |folders| - 1;
    if i <= root || !Walkable(folders, faults) || !Spared(faults.mkdir, root, i) then folders[i]
    else if syncs && Spared(faults.mkdir, root, last) && Spared(faults.entry, root, i) then Synced
    else Unsynced
  }

  function FoldersAfter(folders: seq<Folder>, syncs: bool, faults: Faults): (after: seq<Folder>)
    ensures |after| == |folders|
    ensures forall i :: 0 <= i < |folders| ==> after[i] == FolderAfter(folders, syncs, faults, i)
  {
    seq(|folders|, i requires 0 <= i < |folders| => FolderAfter(folders, syncs, faults, i))
  }

  lemma RootIs(folders: seq<Folder>, root: int)
    requires -1 <= root < |folders|
    requires root >= 0 ==> !folders[root].Missing?
    requires forall i :: root < i < |folders| ==> folders[i].Missing?
    ensures Root(folders) == root
  {
  }

  /** os.MkdirAll for the folders from `first` inward: it may fail part of the way. */
  method MakeAll(d: Disk, first: nat, faults: Faults) returns (after: Disk, err: Option<Error>, ghost trail: seq<Disk>)
    requires WellFormed(d) && 1 <= first <= |d.folders|
    requires forall i :: 0 <= i < first ==> Present(d.folders[i])
    requires forall i :: first <= i < |d.folders| ==> d.folders[i].Missing?
    ensures Extends(d, after) && AllExtend(d, trail)
    ensures after == EndOf(d, trail)
    ensures err.Some? ==> err.value.Plain?
    ensures err.None? <==> Spared(faults.mkdir, first - 1, |d.folders| - 1)
    ensures forall i :: first <= i < |d.folders| ==>
      after.folders[i] == if Spared(faults.mkdir, first - 1, i) then Unsynced else Missing
  {
    after, err, trail := d, None, [];
    var i := first;
    while i < |d.folders|
      invariant first <= i <= |d.folders|
      invariant Extends(d, after) && AllExtend(d, trail)
      invariant after == EndOf(d, trail)
      invariant Spared(faults.mkdir, first - 1, i - 1)
      invariant forall j :: first <= j < i ==> after.folders[j].Unsynced?
      invariant forall j :: i <= j < |d.folders| ==> after.folders[j].Missing?
    {
      if i in faults.mkdir {
        err := Some(Plain("create persistence directory"));
        return;
      }
      after := after.(folders := after.folders[i := Unsynced]);
      trail := trail + [after];
      i := i + 1;
    }
  }

  /** The syncs of the parents of the folders just created, listed innermost first. */
  method SyncEntries(d: Disk, made: Disk, missing: seq<int>, syncs: bool, faults: Faults)
    returns (after: Disk, err: Option<Error>, ghost trail: seq<Disk>)
    requires Extends(d, made) && |missing| < |d.folders|
    requires forall j :: 0 <= j < |missing| ==> missing[j] == |d.folders| - 1 - j && d.folders[missing[j]].Missing?
    requires forall i :: 0 <= i < |d.folders| ==> Present(made.folders[i])
    requires forall j :: 0 <= j < |missing| ==> made.folders[missing[j]].Unsynced?
    ensures Extends(d, after) && AllExtend(d, trail)
    ensures after == EndOf(made, trail)
    ensures err.Some? ==> err.value.Plain?
    ensures var root := |d.folders| - 1 - |missing|;
      && (err.None? <==> (syncs ==> Spared(faults.entry, root, |d.folders| - 1)))
      && forall i :: 0 <= i < |d.folders| ==>
           after.folders[i] == if root < i && syncs && Spared(faults.entry, root, i) then Synced else made.folders[i]
  {
    after, err, trail := made, None, [];
    var n := |d.folders|;
    var index := |missing| - 1;
    while index >= 0
      invariant -1 <= index < |missing|
      invariant Extends(d, after) && AllExtend(d, trail)
      invariant after == EndOf(made, trail)
      invariant syncs ==> Spared(faults.entry, n - 1 - |missing|, n - 2 - index)
      invariant forall i :: 0 <= i < n ==>
        after.folders[i] == if n - 1 - |missing| < i < n - 1 - index && syncs then Synced else made.folders[i]
    {
      if syncs && missing[index] in faults.entry {
        err := Some(Plain("sync new persistence directory parent"));
        return;
      }
      after := SyncEntry(after, missing[index], syncs);
      trail := trail + [after];
      index := index - 1;
    }
  }

  lemma NothingExtends(d: Disk)
    requires WellFormed(d)
    ensures Extends(d, d) && AllExtend(d, []) && EndOf(d, []) == d
  {
  }

  lemma TrailsJoin(d: Disk, first: seq<Disk>, more: seq<Disk>)
    requires AllExtend(d, first) && AllExtend(d, more)
    ensures AllExtend(d, first + more) && EndOf(d, first + more) == EndOf(EndOf(d, first), more)
  {
  }

  /** How ensureDurableDirectory leaves the folders, and whether it returns no error: failing
      after having created one, it leaves an entry unsynced. */
  ghost predicate PreparedAs(before: seq<Folder>, syncs: bool, faults: Faults, after: seq<Folder>, ok: bool) {
    && (ok <==> Prepares(before, syncs, faults))
    && after == FoldersAfter(before, syncs, faults)
    && (!ok && after != before ==> Unsynced in after)
    && (ok ==> forall i :: 0 <= i < |before| ==>
          Present(after[i]) && (before[i].Missing? ==> after[i] == if syncs then Synced else Unsynced))
  }

  lemma NotWalked(d: Disk, syncs: bool, faults: Faults, current: nat)
    requires WellFormed(d) && current < |d.folders|
    requires forall i :: current < i < |d.folders| ==> d.folders[i].Missing?
    requires current in faults.stat || d.folders[current].NotAFolder? || (d.folders[current].Missing? && current == 0)
    ensures PreparedAs(d.folders, syncs, faults, d.folders, false)
  {
    var root := Root(d.folders);
    assert root <= current;
    if current in faults.stat {
      assert !Spared(faults.stat, root - 1, |d.folders| - 1);
    }
  }

  lemma PartlyMade(d: Disk, syncs: bool, faults: Faults, current: nat, after: seq<Folder>)
    requires WellFormed(d) && current < |d.folders| == |after| && Present(d.folders[current])
    requires forall i :: current < i < |d.folders| ==> d.folders[i].Missing?
    requires Spared(faults.stat, current - 1, |d.folders| - 1) && !Spared(faults.mkdir, current, |d.folders| - 1)
    requires forall i :: 0 <= i <= current ==> after[i] == d.folders[i]
    requires forall i :: current < i < |d.folders| ==> after[i] == if Spared(faults.mkdir, current,
        i) then Unsynced else Missing
    ensures PreparedAs(d.folders, syncs, faults, after, false)
  {
    RootIs(d.folders, current);
    if after != d.folders {
      assert exists i :: 0 <= i < |after| && after[i] != d.folders[i];
    }
  }

  lemma AllMade(d: Disk, syncs: bool, faults: Faults, current: nat, after: seq<Folder>, ok: bool)
    requires WellFormed(d) && current < |d.folders| == |after| && Present(d.folders[current])
    requires forall i :: current < i < |d.folders| ==> d.folders[i].Missing?
    requires Spared(faults.stat, current - 1, |d.folders| - 1) && Spared(faults.mkdir, current, |d.folders| - 1)
    requires forall i :: 0 <= i <= current ==> after[i] == d.folders[i]
    requires forall i :: current < i < |d.folders| ==>
      after[i] == if syncs && Spared(faults.entry, current, i) then Synced else Unsynced
    requires ok <==> (syncs ==> Spared(faults.entry, current, |d.folders| - 1))
    ensures PreparedAs(d.folders, syncs, faults, after, ok)
  {
    RootIs(d.folders, current);
    if !ok {
      var j :| current < j <= |d.folders| - 1 && j in faults.entry;
      assert after[j] == Unsynced;
    }
  }

  /** ensureDurableDirectory: walk up to the first existing folder, create what is missing and
      sync the parent of every folder this call created, outermost first. */
  method EnsureDurableDirectory(d: Disk, syncs: bool, faults: Faults)
    returns (after: Disk, err: Option<Error>, ghost trail: seq<Disk>)
    requires WellFormed(d)
    ensures Extends(d, after) && AllExtend(d, trail)
    ensures after == EndOf(d, trail)
    ensures err.Some? ==> err.value.Plain?
    ensures PreparedAs(d.folders, syncs, faults, after.folders, err.None?)
  {
    hide PreparedAs, Spared, Root, AllExtend, EndOf;
    NothingExtends(d);
    var missing, current, walked := WalkUp(d, faults);
    after, err, trail := d, None, [];
    if !walked {
      NotWalked(d, syncs, faults, current);
      err := Some(Plain("inspect persistence directory"));
      return;
    }
    if d.folders[current].NotAFolder? {
      NotWalked(d, syncs, faults, current);
      err := Some(Plain("persistence parent is not a directory"));
      return;
    }
    if d.folders[current].Missing? {
      NotWalked(d, syncs, faults, current);
      err := Some(Plain("no existing parent for persistence directory"));
      return;
    }
    after, err, trail := MakeAll(d, current + 1, faults);
    if err.Some? {
      PartlyMade(d, syncs, faults, current, after.folders);
      return;
    }
    ghost var made;
    after, err, made := SyncEntries(d, after, missing, syncs, faults);
    TrailsJoin(d, trail, made);
    trail := trail + made;
    AllMade(d, syncs, faults, current, after.folders, err.None?);
  }

  /** The walk up: the missing folders, innermost first, and the folder it ended at. */
  method WalkUp(d: Disk, faults: Faults) returns (missing: seq<int>, current: nat, walked: bool)
    requires WellFormed(d)
    ensures current < |d.folders| && |missing| == |d.folders| - 1 - current
    ensures forall j :: 0 <= j < |missing| ==> missing[j] == |d.folders| - 1 - j
    ensures forall i :: current < i < |d.folders| ==> d.folders[i].Missing?
    ensures walked <==> Spared(faults.stat, current - 1, |d.folders| - 1)
    ensures walked && d.folders[current].Missing? ==> current == 0
    ensures !walked ==> current in faults.stat
  {
    var n := |d.folders|;
    missing, current := [], n - 1;
    while current !in faults.stat && d.folders[current].Missing? && current > 0
      invariant 0 <= current < n
      invariant |missing| == n - 1 - current
      invariant forall j :: 0 <= j < |missing| ==> missing[j] == n - 1 - j
      invariant forall i :: current < i < n ==> d.folders[i].Missing?
      invariant Spared(faults.stat, current, n - 1)
      decreases current
    {
      missing := missing + [current];
      current := current - 1;
    }
    walked := current !in faults.stat;
  }
}
