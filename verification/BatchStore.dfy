/** The WAL store: an ordered set of records in memory, mirrored by one file. */
module BatchStore {
  import opened Outcomes
  import opened Records
  import opened Disk
  import opened WriteAhead

  /** The records in log order. */
  function Arrange(order: seq<string>, records: map<string, Record>): (wal: seq<Record>)
    requires forall i :: 0 <= i < |order| ==> order[i] in records
    ensures |wal| == |order|
    ensures forall i :: 0 <= i < |order| ==> wal[i] == records[order[i]]
  {
    seq(|order|, i requires 0 <= i < |order| => records[order[i]])
  }

  ghost predicate Consistent(order: seq<string>, records: map<string, Record>) {
    && (forall i, j :: 0 <= i < j < |order| ==> order[i] != order[j])
    && (forall i :: 0 <= i < |order| ==> order[i] in records)
    && (forall id :: id in records ==> id in order)
    && (forall id :: id in records ==> records[id].batchId == id && ValidRecord(records[id]))
  }

  lemma ArrangedFacts(order: seq<string>, records: map<string, Record>)
    requires Consistent(order, records)
    ensures AllValid(Arrange(order, records)) && DistinctIds(Arrange(order, records))
    ensures forall id :: id in records <==> HasId(Arrange(order, records), id)
  {
    var wal := Arrange(order, records);
    forall id | id in records ensures HasId(wal, id) {
      var i :| 0 <= i < |order| && order[i] == id;
      assert wal[i].batchId == id;
    }
  }

  lemma EmptyTogether(order: seq<string>, records: map<string, Record>)
    requires Consistent(order, records)
    ensures order == [] <==> |records| == 0
  {
    if order == [] {
      assert records.Keys == {};
    } else {
      assert order[0] in records.Keys;
    }
  }

  lemma AppendRecord(order: seq<string>, records: map<string, Record>, r: Record)
    requires Consistent(order, records) && r.batchId !in records && ValidRecord(r)
    ensures Consistent(order + [r.batchId], records[r.batchId := r])
    ensures Arrange(order + [r.batchId], records[r.batchId := r]) == Arrange(order, records) + [r]
  {
    var order', records' := order + [r.batchId], records[r.batchId := r];
    assert order'[|order|] == r.batchId;
    forall id | id in records' ensures id in order' {
      if id != r.batchId { assert id in order; }
    }
  }

  lemma UndoAppend(order: seq<string>, records: map<string, Record>, r: Record)
    requires r.batchId !in records
    ensures (order + [r.batchId])[..|order + [r.batchId]| - 1] == order
    ensures records[r.batchId := r] - {r.batchId} == records
  {
  }

  lemma UndoPause(records: map<string, Record>, id: string, paused: Record)
    requires id in records
    ensures records[id := paused][id := records[id]] == records
  {
  }

  lemma RemoveKeepsConsistent(order: seq<string>, records: map<string, Record>, k: nat)
    requires Consistent(order, records) && k < |order|
    ensures Consistent(order[..k] + order[k + 1..], records - {order[k]})
  {
    var order', records' := order[..k] + order[k + 1..], records - {order[k]};
    forall i, j | 0 <= i < j < |order'| ensures order'[i] != order'[j] {
      var i', j' := if i < k then i else i + 1, if j < k then j else j + 1;
      assert order'[i] == order[i'] && order'[j] == order[j'];
    }
    forall i | 0 <= i < |order'| ensures order'[i] in records' {
      assert order'[i] == order[if i < k then i else i + 1];
    }
    forall id | id in records' ensures id in order' {
      var i :| 0 <= i < |order| && order[i] == id;
      assert order'[if i < k then i else i - 1] == id;
    }
  }

  lemma RemoveRecord(order: seq<string>, records: map<string, Record>, k: nat)
    requires Consistent(order, records) && k < |order|
    ensures Consistent(order[..k] + order[k + 1..], records - {order[k]})
    ensures var wal := Arrange(order, records);
      && wal[k].batchId == order[k]
      && Arrange(order[..k] + order[k + 1..], records - {order[k]}) == Without(wal, order[k])
      && Total(Without(wal, order[k])) == Total(wal) - records[order[k]].eventCount
  {
    RemoveKeepsConsistent(order, records, k);
    ArrangedFacts(order, records);
    var order', records', wal := order[..k] + order[k + 1..], records - {order[k]}, Arrange(order, records);
    WithoutAt(wal, k);
    TotalWithoutAt(wal, k);
    var after := Arrange(order', records');
    forall i | 0 <= i < |after| ensures after[i] == (wal[..k] + wal[k + 1..])[i] {
      assert order'[i] == order[if i < k then i else i + 1];
    }
    assert after == wal[..k] + wal[k + 1..];
  }

  lemma PauseRecord(order: seq<string>, records: map<string, Record>, id: string, untilMS: int)
    requires Consistent(order, records) && id in records
    ensures var records' := records[id := records[id].(pausedUntilMS := untilMS)];
      && Consistent(order, records')
      && Arrange(order, records') == Paused(Arrange(order, records), id, untilMS)
      && Total(Arrange(order, records')) == Total(Arrange(order, records))
  {
    hide Total;
    TotalPaused(Arrange(order, records), id, untilMS);
  }

  /** What one run of writeLocked did: the disk went from `d0` to `d1` and the journal from
      `s0` to `s1`. A power loss at any step in between uncovers nothing but what it could
      have uncovered before, or the whole new file. */
  ghost predicate Written(d0: Disk, s0: seq<Step>, d1: Disk, s1: seq<Step>, target: File, committed: bool) {
    && WellFormed(d1)
    && d1.file == (if committed then target else d0.file)
    && (!committed ==> d1.mayRemain == d0.mayRemain)
    && Rewrite(s0, s1, d0.file, d1.file)
    && |s0| <= |s1|
    && (if |s0| == |s1| then d1 == d0 else s1[|s1| - 1] == Moved(d1))
    && Uncovers(s0, s1, Survivors(d0) + {target})
    && (Unsynced in d0.folders ==> Unsynced in d1.folders)
  }

  /** At every new step a power loss leaves one of these files. */
  ghost predicate Uncovers(s0: seq<Step>, s1: seq<Step>, files: set<File>) {
    forall i :: |s0| <= i < |s1| ==> s1[i].Moved? && Survivors(s1[i].disk) <= files
  }

  /** After a power loss the file is the one the process saw. */
  ghost predicate Lasting(d: Disk) {
    Survivors(d) == {d.file}
  }

  /** The state of a store: memory is what a reload of the file would give, in order, and
      the pending total is its event count, within the limit. */
  ghost predicate Mirrored(enabled: bool, limit: int, order: seq<string>, records: map<string, Record>, pending: int,
                           disk: Disk, origin: Disk, steps: seq<Step>)
  {
    && limit >= 1
    && Consistent(order, records)
    && pending == Total(Arrange(order, records)) <= limit
    && WellFormed(disk) && disk == DiskAfter(origin, steps)
    && (enabled ==> Reload(disk.file) == Arrange(order, records))
    && (enabled && disk.file.Image? ==> disk.file.version == 1)
    && (!enabled ==> order == [])
    && (enabled ==> Restartable(limit, origin, disk))
  }

  /** The files newFileBatchStore accepts under an event limit. */
  ghost predicate Loadable(file: File, limit: int) {
    && limit >= 1
    && (file == NoFile ||
        (file.Image? && file.version == 1 && AllValid(file.batches) && DistinctIds(file.batches)
         && Total(file.batches) <= limit))
  }

  /** Whatever a power loss leaves now was there before this process, or a restart loads it. */
  ghost predicate Restartable(limit: int, origin: Disk, disk: Disk) {
    forall file :: file in Survivors(disk) ==> file in Survivors(origin) || Loadable(file, limit)
  }

  lemma WrittenStaysRestartable(limit: int, origin: Disk, d0: Disk, s0: seq<Step>, d1: Disk, s1: seq<Step>,
                                target: File, committed: bool)
    requires Written(d0, s0, d1, s1, target, committed)
    requires Restartable(limit, origin, d0) && Loadable(target, limit)
    ensures Restartable(limit, origin, d1)
  {
    assert Survivors(d1) <= Survivors(d0) + {target};
  }

  /** A write that took effect mirrors the new memory. */
  lemma CommitMirrors(limit: int, order: seq<string>, records: map<string, Record>, pending: int,
                      origin: Disk, d0: Disk, s0: seq<Step>, d1: Disk, s1: seq<Step>)
    requires Consistent(order, records) && limit >= 1
    requires pending == Total(Arrange(order, records)) <= limit
    requires d0 == DiskAfter(origin, s0) && Restartable(limit, origin, d0)
    requires Written(d0, s0, d1, s1, ImageOf(Arrange(order, records)), true)
    ensures Mirrored(true, limit, order, records, pending, d1, origin, s1)
  {
    ArrangedFacts(order, records);
    WrittenStaysRestartable(limit, origin, d0, s0, d1, s1, ImageOf(Arrange(order, records)), true);
    DiskAfterWritten(origin, d0, s0, d1, s1, ImageOf(Arrange(order, records)), true);
  }

  /** A write that did not commit leaves the old memory mirrored; `tried` and `held` are the
      memory it attempted to write. */
  lemma RollbackMirrors(limit: int, order: seq<string>, records: map<string, Record>, pending: int,
                        origin: Disk, d0: Disk, s0: seq<Step>, d1: Disk, s1: seq<Step>,
                        tried: seq<string>, held: map<string, Record>)
    requires Mirrored(true, limit, order, records, pending, d0, origin, s0)
    requires Consistent(tried, held) && Total(Arrange(tried, held)) <= limit
    requires Written(d0, s0, d1, s1, ImageOf(Arrange(tried, held)), false)
    ensures Mirrored(true, limit, order, records, pending, d1, origin, s1)
  {
    var target := ImageOf(Arrange(tried, held));
    ArrangedFacts(tried, held);
    WrittenStaysRestartable(limit, origin, d0, s0, d1, s1, target, false);
    DiskAfterWritten(origin, d0, s0, d1, s1, target, false);
  }

  lemma DiskAfterWritten(origin: Disk, d0: Disk, s0: seq<Step>, d1: Disk, s1: seq<Step>, target: File, committed: bool)
    requires Written(d0, s0, d1, s1, target, committed) && DiskAfter(origin, s0) == d0
    ensures DiskAfter(origin, s1) == d1 && s0 <= s1
  {
    if |s0| == |s1| { assert s1 == s0; }
  }

  function MovesOf(trail: seq<Disk>): (moves: seq<Step>)
    ensures |moves| == |trail|
    ensures forall i :: 0 <= i < |trail| ==> moves[i] == Moved(trail[i])
  {
    seq(|trail|, i requires 0 <= i < |trail| => Moved(trail[i]))
  }

  class FileBatchStore {
    const path: string
    const maxPendingEvents: int
    const syncs: bool              // the platform can sync a directory
    var pending: int
    var records: map<string, Record>
    var order: seq<string>
    var disk: Disk
    ghost const origin: Disk       // the disk this process started from
    ghost var steps: seq<Step>     // everything posted and written since

    constructor (path: string, limit: int, syncs: bool, disk: Disk,
                 order: seq<string>, records: map<string, Record>, pending: int)
      ensures this.path == path && maxPendingEvents == limit && this.syncs == syncs
      ensures this.disk == disk == origin && steps == []
      ensures this.order == order && this.records == records && this.pending == pending
    {
      this.path, this.maxPendingEvents, this.syncs := path, limit, syncs;
      this.order, this.records, this.pending := order, records, pending;
      this.disk, this.origin, this.steps := disk, disk, [];
    }

    predicate Enabled() {
      path != ""
    }

    ghost predicate Valid()
      reads this
    {
      Mirrored(Enabled(), maxPendingEvents, order, records, pending, disk, origin, steps)
    }

    /** The pending records, oldest first. */
    ghost function Wal(): seq<Record>
      requires Valid()
      reads this
    {
      Arrange(order, records)
    }

    /** What a valid store stands for. */
    lemma Facts()
      requires Valid()
      ensures Consistent(order, records) && Wal() == Arrange(order, records)
      ensures AllValid(Wal()) && DistinctIds(Wal())
      ensures PendingEvents() == Total(Wal()) >= |Wal()|
      ensures disk == DiskAfter(origin, steps) && WellFormed(disk)
      ensures Enabled() ==> Restartable(maxPendingEvents, origin, disk)
      ensures pending == Total(Wal()) <= maxPendingEvents
      ensures if Enabled() then Reload(disk.file) == Wal() else Wal() == []
    {
      ArrangedFacts(order, records);
      WalEventsCount(Wal());
    }

    /** The records in log order, read off the two fields. */
    method Listed() returns (out: seq<Record>)
      requires Consistent(order, records)
      ensures out == Arrange(order, records)
    {
      out := [];
      for i := 0 to |order|
        invariant out == Arrange(order, records)[..i]
      {
        if order[i] in records {
          out := out + [records[order[i]]];
        }
      }
    }

    /** snapshot */
    method Snapshot() returns (out: seq<Record>)
      requires Valid()
      ensures out == Wal()
    {
      out := [];
      if Enabled() { out := Listed(); }
    }

    /** pendingEvents */
    function PendingEvents(): int
      reads this
    {
      if Enabled() then pending else 0
    }

    /** writeLocked when no record is left: the file goes. */
    method RemoveFile(faults: Faults) returns (committed: bool, err: Option<Error>)
      requires WellFormed(disk)
      modifies this`disk, this`steps
      ensures Written(old(disk), old(steps), disk, steps, NoFile, committed)
      ensures Fell(old(disk), disk, NoFile, syncs, faults, committed, err)
      ensures err.None? && syncs && old(disk.file) != NoFile ==> Lasting(disk)
    {
      if disk.file == NoFile {
        return true, None;           // os.IsNotExist
      }
      if faults.remove {
        return false, Some(Plain("remove empty persistence file"));
      }
      disk := Replace(disk, NoFile, NoFile);
      steps := steps + [Moved(disk)];
      if syncs && faults.content {
        return true, Some(Plain("sync persistence directory"));
      }
      disk := SyncContent(disk, syncs);
      steps := steps + [Moved(disk)];
      return true, None;
    }

    /** os.Rename of the temporary file over the WAL, then the sync of its folder. */
    method Install(target: File, lasting: File, faults: Faults) returns (committed: bool, err: Option<Error>)
      requires WellFormed(disk) && Present(disk.folders[|disk.folders| - 1])
      requires target.Image? && lasting == target
      modifies this`disk, this`steps
      ensures Written(old(disk), old(steps), disk, steps, target, committed)
      ensures committed == !faults.rename && (err.None? <==> !faults.rename && !(syncs && faults.content))
      ensures err.Some? ==> err.value.Plain?
      ensures committed && err.Some? ==> old(disk.file) in disk.mayRemain
      ensures disk.folders == old(disk.folders)
      ensures err.None? && syncs ==> disk.mayRemain == {target}
    {
      if faults.rename { return false, Some(Plain("replace persistence state")); }
      disk := Replace(disk, target, lasting);
      steps := steps + [Moved(disk)];
      if syncs && faults.content { return true, Some(Plain("sync persistence directory")); }
      disk := SyncContent(disk, syncs);
      steps := steps + [Moved(disk)];
      return true, None;
    }

    /** writeLocked when records are left: a synced temporary file takes the WAL's place. */
    method ReplaceFile(batches: seq<Record>, faults: Faults) returns (committed: bool, err: Option<Error>)
      requires WellFormed(disk)
      modifies this`disk, this`steps
      ensures Written(old(disk), old(steps), disk, steps, Image(1, batches), committed)
      ensures Fell(old(disk), disk, Image(1, batches), syncs, faults, committed, err)
      ensures Secured(old(disk), disk, syncs, err)
    {
      hide Written, PreparedAs, Prepares, FoldersAfter, Extends, AllExtend, EndOf, Survivors;
      var target := Image(1, batches);
      ghost var d0 := disk;
      ghost var trail;
      disk, err, trail := EnsureDurableDirectory(disk, syncs, faults);
      steps := steps + MovesOf(trail);
      QuietWritten(d0, old(steps), disk, trail, target);
      FoldersPrepared(d0, disk, syncs, faults, err.None?);
      if err.Some? { return false, err; }
      var temporary;
      temporary, err := WriteTemporary(batches, faults);
      if err.Some? { return false, err; }
      ghost var prepared, before := disk, steps;
      committed, err := Install(target, temporary, faults);
      WrittenInTwo(d0, old(steps), prepared, before, disk, steps, target, committed);
      if err.None? && syncs { InstalledIsSecured(d0, prepared, disk); }
    }

    /** Create, write, sync and close the temporary file: what of it has reached the disk. */
    method WriteTemporary(batches: seq<Record>, faults: Faults) returns (lasting: File, err: Option<Error>)
      ensures lasting == if faults.temporary || faults.write || faults.sync then Torn else Image(1, batches)
      ensures err.None? <==> TemporaryWorks(faults)
      ensures err.Some? ==> err.value.Plain?
    {
      lasting, err := Torn, None;
      if faults.temporary { return Torn, Some(Plain("create persistence temp file")); }
      if !faults.write && !faults.sync { lasting := Image(1, batches); }
      if faults.write || faults.sync || faults.close { err := Some(Plain("write persistence state")); }
    }

    /** writeLocked: the file at the path becomes the records in memory, or nothing changes. */
    method WriteLocked(faults: Faults) returns (committed: bool, err: Option<Error>)
      requires Consistent(order, records) && WellFormed(disk)
      modifies this`disk, this`steps
      ensures Written(old(disk), old(steps), disk, steps, ImageOf(Arrange(order, records)), committed)
      ensures Fell(old(disk), disk, ImageOf(Arrange(order, records)), syncs, faults, committed, err)
      ensures order != [] || old(disk.file) != NoFile ==> Secured(old(disk), disk, syncs, err)
    {
      hide Written, Fell;
      EmptyTogether(order, records);
      if |records| == 0 {
        committed, err := RemoveFile(faults);
      } else {
        var batches := Listed();
        committed, err := ReplaceFile(batches, faults);
      }
    }

    /** The undo of put: the last record leaves again. */
    method TakeBack(record: Record, ghost before: seq<string>, ghost held: map<string, Record>)
      requires record.batchId !in held
      requires order == before + [record.batchId] && records == held[record.batchId := record]
      modifies this`order, this`records, this`pending
      ensures order == before && records == held && pending == old(pending) - record.eventCount
    {
      UndoAppend(before, held, record);
      records := records - {record.batchId};
      order := order[..|order| - 1];
      pending := pending - record.eventCount;
    }

    /** put, past its checks: append in memory, write, and undo if the write did not commit. */
    method Append(record: Record, faults: Faults) returns (err: Option<Error>)
      requires Valid() && Enabled() && record.batchId !in records && Refusal(record).None?
      modifies this
      ensures Valid()
      ensures err.Some? ==> FileFailure(err.value)
      ensures Wal() == if TookEffect(err) then old(Wal()) + [record] else old(Wal())
      ensures Written(old(disk), old(steps), disk, steps, ImageOf(old(Wal()) + [record]), TookEffect(err))
      ensures Obeyed(old(disk), disk, ImageOf(old(Wal()) + [record]), syncs, faults, err)
      ensures Secured(old(disk), disk, syncs, err)
    {
      hide Mirrored, Written, Total, Arrange, Reload, Lasting, Restartable, WellFormed, Obeyed, Fell, Survivors,
           Consistent, ImageOf, AllValid;
      Facts();
      ghost var wal := Wal();
      AppendRecord(order, records, record);
      TotalConcat(wal, [record]);
      TotalOfOne(record);
      order := order + [record.batchId];
      records := records[record.batchId := record];
      pending := pending + record.eventCount;
      ghost var tried, held := order, records;
      var committed, failure := WriteLocked(faults);
      FallOf(old(disk), disk, ImageOf(Arrange(order, records)), syncs, faults, committed, failure);
      err := MutationResult(committed, failure);
      if failure.Some? && !committed {
        TakeBack(record, old(order), old(records));
        RollbackMirrors(maxPendingEvents, order, records, pending, origin, old(disk), old(steps), disk, steps, tried,
                        held);
        return;
      }
      CommitMirrors(maxPendingEvents, order, records, pending, origin, old(disk), old(steps), disk, steps);
    }

    /** put */
    method Put(record: Record, faults: Faults) returns (err: Option<Error>)
      requires Valid()
      modifies this
      ensures Valid()
      ensures !Enabled() ==> err.None? && unchanged(this)
      ensures Enabled() && record.batchId in old(records) ==>
        && unchanged(this)
        && err == (if old(records)[record.batchId] == record then None else Some(Collision(record.batchId)))
      ensures Enabled() && record.batchId !in old(records) && old(Refusal(record)).Some? ==>
        unchanged(this) && err == old(Refusal(record))
      ensures Enabled() && record.batchId !in old(records) && old(Refusal(record)).None? ==>
        && (err.Some? ==> FileFailure(err.value))
        && Wal() == (if TookEffect(err) then old(Wal()) + [record] else old(Wal()))
        && Written(old(disk), old(steps), disk, steps, ImageOf(old(Wal()) + [record]), TookEffect(err))
        && Obeyed(old(disk), disk, ImageOf(old(Wal()) + [record]), syncs, faults, err)
        && Secured(old(disk), disk, syncs, err)
    {
      if !Enabled() { return None; }
      if record.batchId in records {
        if records[record.batchId] == record { return None; }
        return Some(Collision(record.batchId));
      }
      if !ValidRecord(record) { return Some(InvalidRecord); }
      if record.eventCount < 1 || pending + record.eventCount > maxPendingEvents {
        return Some(LimitExceeded(maxPendingEvents));
      }
      err := Append(record, faults);
    }

    /** The index of an id in the order; -1 if it is not there. */
    method IndexOf(batchId: string) returns (index: int)
      ensures -1 <= index < |order|
      ensures index == -1 ==> forall i :: 0 <= i < |order| ==> order[i] != batchId
      ensures index >= 0 ==> order[index] == batchId
    {
      for i := 0 to |order|
        invariant forall j :: 0 <= j < i ==> order[j] != batchId
      {
        if order[i] == batchId { return i; }
      }
      return -1;
    }

    /** The first half of acknowledge: the record leaves memory. */
    method TakeOut(record: Record, index: nat)
      requires Consistent(order, records) && pending == Total(Arrange(order, records))
      requires index < |order| && order[index] == record.batchId && records[order[index]] == record
      modifies this`order, this`records, this`pending
      ensures order == old(order)[..index] + old(order)[index + 1..]
      ensures records == old(records) - {record.batchId}
      ensures pending == old(pending) - record.eventCount
      ensures Consistent(order, records) && pending == Total(Arrange(order, records))
      ensures Arrange(order, records) == Without(old(Arrange(order, records)), record.batchId)
    {
      hide *;
      RemoveRecord(order, records, index);
      records := records - {record.batchId};
      order := order[..index] + order[index + 1..];
      pending := pending - record.eventCount;
    }

    /** The undo of acknowledge: append a blank, shift right from the old place, fill it. */
    method PutBack(record: Record, index: nat, ghost before: seq<string>, ghost held: map<string, Record>)
      requires index < |before| && before[index] == record.batchId
      requires record.batchId in held && held[record.batchId] == record
      requires order == before[..index] + before[index + 1..] && records == held - {record.batchId}
      modifies this`order, this`records, this`pending
      ensures order == before && records == held && pending == old(pending) + record.eventCount
    {
      records := records[record.batchId := record];
      order := order + [""];
      order := order[..index + 1] + order[index..|order| - 1];
      order := order[index := record.batchId];
      pending := pending + record.eventCount;
      assert order == before;
      assert records == held;
    }

    /** acknowledge, past its checks. */
    method Remove(batchId: string, faults: Faults) returns (err: Option<Error>)
      requires Valid() && Enabled() && batchId in records
      modifies this
      ensures Valid()
      ensures err.Some? ==> FileFailure(err.value)
      ensures Wal() == if TookEffect(err) then Without(old(Wal()), batchId) else old(Wal())
      ensures Written(old(disk), old(steps), disk, steps, ImageOf(Without(old(Wal()), batchId)), TookEffect(err))
      ensures Obeyed(old(disk), disk, ImageOf(Without(old(Wal()), batchId)), syncs, faults, err)
      ensures Secured(old(disk), disk, syncs, err)
    {
      hide Mirrored, Written, Without, Total, Arrange, Reload, Lasting, Restartable, WellFormed;
      ghost var wal := Wal();
      Facts();
      var record := records[batchId];
      var index := IndexOf(batchId);
      assert index >= 0 by { assert batchId in order; }
      NoFileMeansNoRecord(wal, disk.file);
      TakeOut(record, index);
      assert pending <= maxPendingEvents;
      ghost var tried, held := order, records;
      var committed, failure := WriteLocked(faults);
      FallOf(old(disk), disk, ImageOf(Arrange(order, records)), syncs, faults, committed, failure);
      err := MutationResult(committed, failure);
      if failure.Some? && !committed {
        PutBack(record, index, old(order), old(records));
        RollbackMirrors(maxPendingEvents, order, records, pending, origin, old(disk), old(steps), disk, steps, tried,
                        held);
        return;
      }
      CommitMirrors(maxPendingEvents, order, records, pending, origin, old(disk), old(steps), disk, steps);
    }

    /** acknowledge */
    method Acknowledge(batchId: string, faults: Faults) returns (err: Option<Error>)
      requires Valid()
      modifies this
      ensures Valid()
      ensures !Enabled() || batchId !in old(records) ==> err.None? && unchanged(this)
      ensures Enabled() && batchId in old(records) ==>
        && (err.Some? ==> FileFailure(err.value))
        && Wal() == (if TookEffect(err) then Without(old(Wal()), batchId) else old(Wal()))
        && Written(old(disk), old(steps), disk, steps, ImageOf(Without(old(Wal()), batchId)), TookEffect(err))
        && Obeyed(old(disk), disk, ImageOf(Without(old(Wal()), batchId)), syncs, faults, err)
        && Secured(old(disk), disk, syncs, err)
    {
      if !Enabled() { return None; }
      if batchId !in records { return None; }
      err := Remove(batchId, faults);
    }

    /** pause, past its checks. */
    method SetPause(batchId: string, untilMS: int, faults: Faults) returns (err: Option<Error>)
      requires Valid() && Enabled() && batchId in records
      modifies this
      ensures Valid()
      ensures err.Some? ==> FileFailure(err.value)
      ensures Wal() == if TookEffect(err) then Paused(old(Wal()), batchId, untilMS) else old(Wal())
      ensures Written(old(disk), old(steps), disk, steps, ImageOf(Paused(old(Wal()), batchId, untilMS)),
                      TookEffect(err))
      ensures Obeyed(old(disk), disk, ImageOf(Paused(old(Wal()), batchId, untilMS)), syncs, faults, err)
      ensures Secured(old(disk), disk, syncs, err)
    {
      hide Mirrored, Written, Paused, Total, Arrange, Reload, Lasting, Restartable, WellFormed;
      Facts();
      ghost var wal := Wal();
      var previous := records[batchId];
      PauseRecord(order, records, batchId, untilMS);
      UndoPause(records, batchId, previous.(pausedUntilMS := untilMS));
      NoFileMeansNoRecord(wal, disk.file);
      records := records[batchId := previous.(pausedUntilMS := untilMS)];
      ghost var tried, held := order, records;
      var committed, failure := WriteLocked(faults);
      FallOf(old(disk), disk, ImageOf(Arrange(order, records)), syncs, faults, committed, failure);
      err := MutationResult(committed, failure);
      if failure.Some? && !committed {
        records := records[batchId := previous];
        RollbackMirrors(maxPendingEvents, order, records, pending, origin, old(disk), old(steps), disk, steps, tried,
                        held);
        return;
      }
      CommitMirrors(maxPendingEvents, order, records, pending, origin, old(disk), old(steps), disk, steps);
    }

    /** pause */
    method Pause(batchId: string, untilMS: int, faults: Faults) returns (err: Option<Error>)
      requires Valid()
      modifies this
      ensures Valid()
      ensures !Enabled() || batchId !in old(records) ==> err.None? && unchanged(this)
      ensures Enabled() && batchId in old(records) ==>
        && (err.Some? ==> FileFailure(err.value))
        && Wal() == (if TookEffect(err) then Paused(old(Wal()), batchId, untilMS) else old(Wal()))
        && Written(old(disk), old(steps), disk, steps, ImageOf(Paused(old(Wal()), batchId, untilMS)), TookEffect(err))
        && Obeyed(old(disk), disk, ImageOf(Paused(old(Wal()), batchId, untilMS)), syncs, faults, err)
        && Secured(old(disk), disk, syncs, err)
    {
      if !Enabled() { return None; }
      if batchId !in records { return None; }
      err := SetPause(batchId, untilMS, faults);
    }

    /** The error put answers a new record with before touching anything. */
    ghost function Refusal(record: Record): Option<Error>
      reads this
    {
      if !ValidRecord(record) then Some(InvalidRecord)
      else if pending + record.eventCount > maxPendingEvents then Some(LimitExceeded(maxPendingEvents))
      else None
    }
  }

  lemma NoFileMeansNoRecord(wal: seq<Record>, file: File)
    requires Reload(file) == wal && wal != []
    ensures file != NoFile
  {
  }

  /** A history of writes to one disk: write `i` led from `disks[i]` to `disks[i + 1]`. */
  ghost predicate History(disks: seq<Disk>, journals: seq<seq<Step>>, targets: seq<File>, took: seq<bool>) {
    && |disks| == |journals| == |targets| + 1 == |took| + 1
    && forall i :: 0 <= i < |targets| ==> Written(disks[i], journals[i], disks[i + 1], journals[i + 1], targets[i],
                                                  took[i])
  }

  /** A folder sync that failed once is never made up for: the folder exists from then on, so
      no later call syncs its entry. However many writes follow, and however well they go, none
      that installs a file outlives a power loss. */
  lemma {:induction false} FailedFolderSyncIsNeverRepaired(
      disks: seq<Disk>, journals: seq<seq<Step>>, targets: seq<File>, took: seq<bool>, k: nat)
    requires History(disks, journals, targets, took) && k < |disks|
    requires Unsynced in disks[0].folders
    ensures Unsynced in disks[k].folders && NoFile in Survivors(disks[k])
    ensures k > 0 && took[k - 1] && targets[k - 1].Image? ==> !Lasting(disks[k])
  {
    if k > 0 {
      FailedFolderSyncIsNeverRepaired(disks, journals, targets, took, k - 1);
      assert Written(disks[k - 1], journals[k - 1], disks[k - 1 + 1], journals[k - 1 + 1], targets[k - 1], took[k - 1]);
    }
  }

  /** A folder whose entry cannot be synced when it is created: the call fails and leaves it
      there, and the next call, without any fault, finds nothing to create and nothing to sync. */
  lemma UnsyncedFolderIsAccepted()
    ensures var faults := NO_FAULTS.(entry := {1}); var before, after := [Synced, Missing], [Synced, Unsynced];
      && !Prepares(before, true, faults) && FoldersAfter(before, true, faults) == after
      && Prepares(after, true, NO_FAULTS) && FoldersAfter(after, true, NO_FAULTS) == after
  {
    var before: seq<Folder>, after: seq<Folder> := [Synced, Missing], [Synced, Unsynced];
    var faults := NO_FAULTS.(entry := {1});
    RootIs(before, 0);
    RootIs(after, 1);
    assert 1 in faults.entry;
    assert !Spared(faults.entry, 0, 1);
  }

  /** The run that belies the required syncs: on a platform that syncs directories, a store is
      opened whose folder does not exist yet. The first put creates the folder, cannot sync its
      entry and fails; the second put meets no fault and returns no error, and yet a power loss
      may then leave no WAL at all. */
  method PutTwiceIntoNewFolder(first: Record, second: Record, path: string, limit: int)
    returns (store: FileBatchStore, err1: Option<Error>, err2: Option<Error>)
    requires path != "" && ValidRecord(first) && ValidRecord(second)
    requires first.eventCount <= limit && second.eventCount <= limit
    ensures fresh(store) && store.Valid() && store.Enabled() && store.syncs
    ensures err1.Some? && FileFailure(err1.value) && !err1.value.committed
    ensures err2.None? && store.Wal() == [second] && store.disk.file == Image(1, [second])
    ensures NoFile in Survivors(store.disk)
  {
    hide Mirrored, Written, Fell, Secured, Prepares, FoldersAfter, Root, Consistent;
    var disk := Disk([Synced, Missing], NoFile, {NoFile});
    var loaded, failure; ghost var at;
    loaded, failure, at := Open(path, limit, true, disk, true);
    store := loaded;
    store.Facts();
    UnsyncedFolderIsAccepted();
    NothingKept(store.order, store.records);
    err1 := store.Put(first, NO_FAULTS.(entry := {1}));
    store.Facts();
    NothingKept(store.order, store.records);
    TotalOfOne(second);
    err2 := store.Put(second, NO_FAULTS);
    store.Facts();
    FileOf(store);
    assert store.disk.folders[1] == Unsynced;
  }

  /** A put that fails after its commit point: the record is in the WAL, so the write-ahead law
      lets the next recovery pass post it, and a power loss may still uncover the file without
      it. No folder entry is unsynced: what is missing is the sync of the rename alone. */
  method PutWithoutDirectorySync(record: Record, path: string, limit: int)
    returns (store: FileBatchStore, err: Option<Error>)
    requires path != "" && ValidRecord(record) && record.eventCount <= limit
    ensures fresh(store) && store.Valid() && store.Enabled() && store.syncs && Unsynced !in store.disk.folders
    ensures err.Some? && FileFailure(err.value) && err.value.committed
    ensures store.Wal() == [record] && NoFile in Survivors(store.disk)
    ensures Lawful(store.origin, store.steps, Posted(record.body, NoReply, Background))
    ensures !Answered(store.steps, record.body)
  {
    hide Mirrored, Written, Fell, Secured, Prepares, FoldersAfter, Root, Consistent, Answered;
    var disk := Disk([Synced], NoFile, {NoFile});
    var loaded, failure; ghost var at;
    loaded, failure, at := Open(path, limit, true, disk, true);
    store := loaded;
    store.Facts();
    SyncedFolderStays();
    NothingKept(store.order, store.records);
    err := store.Put(record, NO_FAULTS.(content := true));
    store.Facts();
    WritingAnswersNothing(disk, store.disk, store.steps, ImageOf([record]), true, record.body);
    assert [] + [record] == [record] && store.Wal()[0].body == record.body;
  }

  lemma WritingAnswersNothing(d0: Disk, d1: Disk, steps: seq<Step>, target: File, committed: bool, body: Body)
    requires Written(d0, [], d1, steps, target, committed)
    ensures !Answered(steps, body)
  {
  }

  lemma SyncedFolderStays()
    ensures Prepares([Synced], true, NO_FAULTS.(content := true))
    ensures FoldersAfter([Synced], true, NO_FAULTS.(content := true)) == [Synced]
  {
    RootIs([Synced], 0);
  }

  lemma NothingKept(order: seq<string>, records: map<string, Record>)
    requires Consistent(order, records) && Arrange(order, records) == []
    ensures forall id: string :: id !in records
    ensures Total([]) == 0
  {
  }

  lemma TotalOfOne(r: Record)
    ensures Total([r]) == r.eventCount
  {
  }

  lemma FileOf(store: FileBatchStore)
    requires store.Valid() && store.Enabled() && store.Wal() != []
    ensures store.disk.file == Image(1, store.Wal())
  {
  }

  /** persistenceMutationResult */
  function MutationResult(committed: bool, failure: Option<Error>): (err: Option<Error>)
    ensures err.Some? ==> failure.Some? && err == Some(Mutation(committed, failure.value))
    ensures failure.Some? || committed ==> (TookEffect(err) <==> committed)
  {
    if failure.None? then None else Some(Mutation(committed, failure.value))
  }

  /** The mutation is in memory and on disk: it succeeded, or failed after its commit point. */
  predicate TookEffect(err: Option<Error>) {
    err.None? || Committed(err.value)
  }

  predicate TemporaryWorks(faults: Faults) {
    !faults.temporary && !faults.write && !faults.sync && !faults.close
  }

  /** The write gets past its commit point. */
  predicate Commits(d: Disk, target: File, syncs: bool, faults: Faults) {
    if target == NoFile then d.file == NoFile || !faults.remove
    else Prepares(d.folders, syncs, faults) && TemporaryWorks(faults) && !faults.rename
  }

  /** The write returns no error. */
  predicate Succeeds(d: Disk, target: File, syncs: bool, faults: Faults) {
    Commits(d, target, syncs, faults) && ((target == NoFile && d.file == NoFile) || !(syncs && faults.content))
  }

  /** The folders after the write. */
  function FoldersOf(d: Disk, target: File, syncs: bool, faults: Faults): seq<Folder> {
    if target == NoFile then d.folders else FoldersAfter(d.folders, syncs, faults)
  }

  /** What the faults make of one run of writeLocked: nothing but they decide. */
  ghost predicate Fell(d0: Disk, d1: Disk, target: File, syncs: bool, faults: Faults, committed: bool,
                       err: Option<Error>) {
    && (committed <==> Commits(d0, target, syncs, faults))
    && (err.None? <==> Succeeds(d0, target, syncs, faults))
    && (err.Some? ==> err.value.Plain?)
    && (committed && err.Some? ==> d0.file in d1.mayRemain)
    && d1.folders == FoldersOf(d0, target, syncs, faults)
  }

  /** The same for a whole put, acknowledge or pause. */
  ghost predicate Obeyed(d0: Disk, d1: Disk, target: File, syncs: bool, faults: Faults, err: Option<Error>) {
    && (TookEffect(err) <==> Commits(d0, target, syncs, faults))
    && (err.None? <==> Succeeds(d0, target, syncs, faults))
    && (TookEffect(err) && err.Some? ==> d0.file in d1.mayRemain)
    && d1.folders == FoldersOf(d0, target, syncs, faults)
  }

  lemma FoldersPrepared(d0: Disk, d1: Disk, syncs: bool, faults: Faults, ok: bool)
    requires WellFormed(d0) && Extends(d0, d1) && PreparedAs(d0.folders, syncs, faults, d1.folders, ok)
    ensures ok <==> Prepares(d0.folders, syncs, faults)
    ensures d1.folders == FoldersAfter(d0.folders, syncs, faults) && |d1.folders| == |d0.folders| >= 1 && WellFormed(d1)
    ensures d1.file == d0.file
    ensures ok ==> Present(d1.folders[|d1.folders| - 1])
    ensures ok && syncs ==> forall i :: 0 <= i < |d0.folders| ==>
      d1.folders[i] == if d0.folders[i].Missing? then Synced else d0.folders[i]
  {
  }

  lemma FallOf(d0: Disk, d1: Disk, target: File, syncs: bool, faults: Faults, committed: bool, failure: Option<Error>)
    requires Fell(d0, d1, target, syncs, faults, committed, failure)
    ensures Obeyed(d0, d1, target, syncs, faults, MutationResult(committed, failure))
    ensures MutationResult(committed, failure).Some? ==> FileFailure(MutationResult(committed, failure).value)
    ensures TookEffect(MutationResult(committed, failure)) <==> committed
    ensures failure.None? ==> committed
  {
  }

  /** Without an error, on a platform that syncs directories, a power loss finds the new file
      if and only if every folder that was there before had its entry synced. */
  ghost predicate Secured(d0: Disk, d1: Disk, syncs: bool, err: Option<Error>) {
    err.None? && syncs ==> (Lasting(d1) <==> d1.file == NoFile || Unsynced !in d0.folders)
  }

  /** After the folder syncs of one call, only a folder entry some earlier call left unsynced
      can still take the file away. */
  lemma InstalledIsSecured(d0: Disk, prepared: Disk, d1: Disk)
    requires |prepared.folders| == |d0.folders|
    requires forall i :: 0 <= i < |d0.folders| ==>
      prepared.folders[i] == if d0.folders[i].Missing? then Synced else d0.folders[i]
    requires d1.folders == prepared.folders && d1.file.Image? && d1.mayRemain == {d1.file}
    ensures Secured(d0, d1, true, None)
  {
    if Unsynced in d0.folders {
      var i :| 0 <= i < |d0.folders| && d0.folders[i] == Unsynced;
      assert d1.folders[i] == Unsynced;
      assert NoFile in Survivors(d1);
    }
  }

  /** Creating folders on the way changes neither the file nor what may survive. */
  lemma QuietWritten(d0: Disk, s0: seq<Step>, d1: Disk, trail: seq<Disk>, target: File)
    requires WellFormed(d0) && Extends(d0, d1) && AllExtend(d0, trail) && d1 == EndOf(d0, trail)
    ensures Written(d0, s0, d1, s0 + MovesOf(trail), target, false)
  {
    var quiet := MovesOf(trail);
    forall i | 0 <= i < |trail| ensures Survivors(trail[i]) <= Survivors(d0) {
      ExtendingAddsNoSurvivor(d0, trail[i]);
    }
  }

  lemma RewriteInTwo(s0: seq<Step>, s1: seq<Step>, s2: seq<Step>, old_: File, new_: File)
    requires Rewrite(s0, s1, old_, old_) && Rewrite(s1, s2, old_, new_)
    ensures Rewrite(s0, s2, old_, new_)
  {
    assert forall i :: 0 <= i < |s1| ==> s2[i] == s2[..|s1|][i] == s1[i];
    assert s2[..|s0|] == s1[..|s0|];
  }

  lemma UncoversInTwo(s0: seq<Step>, s1: seq<Step>, s2: seq<Step>, files: set<File>, fewer: set<File>)
    requires Uncovers(s0, s1, files) && Uncovers(s1, s2, fewer) && fewer <= files && |s1| <= |s2| && s2[..|s1|] == s1
    ensures Uncovers(s0, s2, files)
  {
    forall i | |s0| <= i < |s2| ensures s2[i].Moved? && Survivors(s2[i].disk) <= files {
      if i < |s1| { assert s2[i] == s2[..|s1|][i] == s1[i]; }
    }
  }

  /** A run of writeLocked is a quiet part followed by the installation of the new file. */
  lemma WrittenInTwo(d0: Disk, s0: seq<Step>, d1: Disk, s1: seq<Step>, d2: Disk, s2: seq<Step>, target: File,
                     committed: bool)
    requires Written(d0, s0, d1, s1, target, false) && Written(d1, s1, d2, s2, target, committed)
    ensures Written(d0, s0, d2, s2, target, committed)
  {
    RewriteInTwo(s0, s1, s2, d0.file, d2.file);
    assert Survivors(d1) <= Survivors(d0) + {target};
    UncoversInTwo(s0, s1, s2, Survivors(d0) + {target}, Survivors(d1) + {target});
  }

  datatype OpenError = BadLimit | ReadFailed | InvalidFile | InvalidEntry | DuplicateEntry | OverLimit

  /** Record `at` is the first at fault, and that is the fault: it is no record, or its id was there
      before, or with it the limit is exceeded. */
  ghost predicate FailsAt(batches: seq<Record>, limit: int, at: nat, err: OpenError) {
    && at < |batches|
    && AllValid(batches[..at]) && DistinctIds(batches[..at]) && Total(batches[..at]) <= limit
    && match err
       case InvalidEntry => !ValidRecord(batches[at])
       case DuplicateEntry => ValidRecord(batches[at]) && HasId(batches[..at], batches[at].batchId)
       case OverLimit =>
         && ValidRecord(batches[at]) && !HasId(batches[..at], batches[at].batchId)
         && Total(batches[..at]) + batches[at].eventCount > limit
       case _ => false
  }

  /** The loop of newFileBatchStore over the records of the file. */
  method LoadRecords(batches: seq<Record>, limit: int)
    returns (order: seq<string>, records: map<string, Record>, pending: int, err: Option<OpenError>, ghost at: nat)
    requires limit >= 1
    ensures err.Some? ==> FailsAt(batches, limit, at, err.value)
    ensures err.None? <==> AllValid(batches) && DistinctIds(batches) && Total(batches) <= limit
    ensures err.None? ==> Consistent(order, records) && Arrange(order, records) == batches && pending == Total(batches)
  {
    hide Arrange, ValidRecord, Total, DistinctIds, HasId;
    order, records, pending, err, at := [], map[], 0, None, 0;
    NothingLoaded(batches);
    assert batches[..0] == [];
    for i := 0 to |batches|
      invariant Consistent(order, records) && Arrange(order, records) == batches[..i]
      invariant pending == Total(batches[..i]) <= limit
    {
      var record := batches[i];
      at := i;
      LoadedSoFar(order, records, batches, i);
      if !ValidRecord(record) { err := Some(InvalidEntry); return; }
      if record.batchId in records {
        RepeatedId(order, records, batches, i);
        err := Some(DuplicateEntry);
        return;
      }
      AppendRecord(order, records, record);
      OneMoreLoaded(batches, i);
      order := order + [record.batchId];
      records := records[record.batchId := record];
      pending := pending + record.eventCount;
      if pending > limit {
        PrefixTotal(batches, i + 1);
        err := Some(OverLimit);
        return;
      }
    }
    assert batches[..|batches|] == batches;
    ArrangedFacts(order, records);
  }

  lemma LoadedSoFar(order: seq<string>, records: map<string, Record>, batches: seq<Record>, i: nat)
    requires Consistent(order, records) && i < |batches| && Arrange(order, records) == batches[..i]
    ensures AllValid(batches[..i]) && DistinctIds(batches[..i])
    ensures HasId(batches[..i], batches[i].batchId) <==> batches[i].batchId in records
  {
    ArrangedFacts(order, records);
  }

  lemma NothingLoaded(batches: seq<Record>)
    ensures Arrange([], map[]) == [] && Total([]) == 0
  {
  }

  lemma OneMoreLoaded(batches: seq<Record>, i: nat)
    requires i < |batches|
    ensures batches[..i + 1] == batches[..i] + [batches[i]]
    ensures Total(batches[..i + 1]) == Total(batches[..i]) + batches[i].eventCount
  {
    TotalConcat(batches[..i], [batches[i]]);
  }

  lemma RepeatedId(order: seq<string>, records: map<string, Record>, batches: seq<Record>, i: nat)
    requires Consistent(order, records) && i < |batches| && Arrange(order, records) == batches[..i]
    requires batches[i].batchId in records
    ensures !DistinctIds(batches)
  {
    ArrangedFacts(order, records);
    var j :| 0 <= j < |batches[..i]| && batches[..i][j].batchId == batches[i].batchId;
    assert batches[j].batchId == batches[i].batchId;
  }

  /** os.ReadFile finds the file or finds that there is none. A path that leads through a
      regular file is neither: that error is no os.IsNotExist. */
  predicate CanRead(disk: Disk, readable: bool) {
    readable && NotAFolder !in disk.folders
  }

  /** newFileBatchStore. `readable` is false when something else keeps the path from being read. */
  method Open(path: string, limit: int, syncs: bool, disk: Disk, readable: bool)
    returns (store: FileBatchStore?, err: Option<OpenError>, ghost at: nat)
    requires WellFormed(disk)
    ensures store != null <==> err.None?
    ensures err.Some? ==>
      if limit < 1 then err == Some(BadLimit)
      else if !(readable && NotAFolder !in disk.folders) then err == Some(ReadFailed)
      else if !disk.file.Image? || disk.file.version != 1 then err == Some(InvalidFile)
      else FailsAt(disk.file.batches, limit, at, err.value)
    ensures store != null <==>
      limit >= 1 && (path == "" || (readable && NotAFolder !in disk.folders && Loadable(disk.file, limit)))
    ensures store != null ==>
      && fresh(store) && store.Valid() && store.path == path && store.maxPendingEvents == limit && store.syncs == syncs
      && store.disk == disk == store.origin && store.steps == []
      && store.Wal() == if path == "" then [] else Reload(disk.file)
  {
    store, err, at := null, None, 0;
    if limit < 1 { return null, Some(BadLimit), 0; }
    if path == "" {
      store := new FileBatchStore(path, limit, syncs, disk, [], map[], 0);
      return;
    }
    if !CanRead(disk, readable) { return null, Some(ReadFailed), 0; }
    if disk.file == NoFile {
      store := new FileBatchStore(path, limit, syncs, disk, [], map[], 0);
      return;
    }
    if !disk.file.Image? || disk.file.version != 1 { return null, Some(InvalidFile), 0; }
    var order, records, pending;
    order, records, pending, err, at := LoadRecords(disk.file.batches, limit);
    if err.Some? { return null, err, at; }
    store := new FileBatchStore(path, limit, syncs, disk, order, records, pending);
  }

  lemma PrefixTotal(batches: seq<Record>, k: nat)
    requires k <= |batches|
    ensures AllValid(batches) ==> Total(batches[..k]) <= Total(batches)
  {
    if AllValid(batches) {
      assert batches == batches[..k] + batches[k..];
      TotalConcat(batches[..k], batches[k..]);
      WalEventsCount(batches[k..]);
    }
  }

  /** Restart round trip: what any run of the store left on disk loads again, to the very
      records in memory, if and only if the new limit covers the pending events. */
  lemma ReopenRoundTrip(store: FileBatchStore, limit: int)
    requires store.Valid() && store.Enabled()
    ensures Reload(store.disk.file) == store.Wal()
    ensures Loadable(store.disk.file, limit) <==> limit >= 1 && store.pending <= limit
  {
    ArrangedFacts(store.order, store.records);
    WalEventsCount(store.Wal());
  }
}
