/** Events, batches and the records the write-ahead log (WAL) keeps for them. */
module Records {

  datatype Event = Event(eventId: string, fields: string)

  datatype BatchPayload = BatchPayload(batchId: string, sentAt: int, events: seq<Event>)

  /** A serialized request body. JSON encoding is an injective codec: distinct payloads have
      distinct encodings, and text that is no encoded batch decodes to none. */
  datatype Body = EmptyBody | Unreadable(text: string) | Encoded(payload: BatchPayload)

  datatype Record = Record(batchId: string, body: Body, eventCount: int, pausedUntilMS: int)

  /** durableRecord */
  function RecordOf(payload: BatchPayload): Record {
    Record(payload.batchId, Encoded(payload), |payload.events|, 0)
  }

  /** validateDurableRecord */
  predicate ValidRecord(r: Record) {
    && r.batchId != "" && r.eventCount >= 1 && r.body != EmptyBody
    && r.body.Encoded?
    && r.body.payload.batchId == r.batchId
    && |r.body.payload.events| == r.eventCount
  }

  /** The number of events a list of records stands for. */
  function Total(wal: seq<Record>): int {
    if wal == [] then 0 else wal[0].eventCount + Total(wal[1..])
  }

  ghost predicate AllValid(wal: seq<Record>) {
    forall i :: 0 <= i < |wal| ==> ValidRecord(wal[i])
  }

  ghost predicate DistinctIds(wal: seq<Record>) {
    forall i, j :: 0 <= i < j < |wal| ==> wal[i].batchId != wal[j].batchId
  }

  /** The events a list of valid records carries, in log order. */
  function WalEvents(wal: seq<Record>): seq<Event>
    requires AllValid(wal)
  {
    if wal == [] then [] else wal[0].body.payload.events + WalEvents(wal[1..])
  }

  /** Some record of the log carries exactly this body. */
  ghost predicate Holds(wal: seq<Record>, body: Body) {
    exists i :: 0 <= i < |wal| && wal[i].body == body
  }

  ghost predicate HasId(wal: seq<Record>, batchId: string) {
    exists i :: 0 <= i < |wal| && wal[i].batchId == batchId
  }

  /** The log with the record of that id taken out; the others keep their order. */
  function Without(wal: seq<Record>, batchId: string): seq<Record> {
    if wal == [] then []
    else if wal[0].batchId == batchId then wal[1..]
    else [wal[0]] + Without(wal[1..], batchId)
  }

  /** The log with the pause of the record of that id replaced. */
  function Paused(wal: seq<Record>, batchId: string, untilMS: int): (after: seq<Record>)
    ensures |after| == |wal|
    ensures forall i :: 0 <= i < |wal| ==>
      after[i] == if wal[i].batchId == batchId then wal[i].(pausedUntilMS := untilMS) else wal[i]
  {
    seq(|wal|, i requires 0 <= i < |wal| =>
      if wal[i].batchId == batchId then wal[i].(pausedUntilMS := untilMS) else wal[i])
  }

  lemma {:induction false} TotalConcat(a: seq<Record>, b: seq<Record>)
    ensures Total(a + b) == Total(a) + Total(b)
  {
    if a == [] {
      assert a + b == b;
    } else {
      assert (a + b)[1..] == a[1..] + b;
      TotalConcat(a[1..], b);
    }
  }

  lemma {:induction false} WalEventsConcat(a: seq<Record>, b: seq<Record>)
    requires AllValid(a) && AllValid(b)
    ensures AllValid(a + b)
    ensures WalEvents(a + b) == WalEvents(a) + WalEvents(b)
  {
    if a == [] {
      assert a + b == b;
    } else {
      assert (a + b)[1..] == a[1..] + b;
      WalEventsConcat(a[1..], b);
    }
  }

  lemma {:induction false} WalEventsCount(wal: seq<Record>)
    requires AllValid(wal)
    ensures |WalEvents(wal)| == Total(wal) >= |wal|
  {
    if wal != [] { WalEventsCount(wal[1..]); }
  }

  lemma {:induction false} WithoutAt(wal: seq<Record>, k: nat)
    requires DistinctIds(wal) && k < |wal|
    ensures Without(wal, wal[k].batchId) == wal[..k] + wal[k + 1..]
  {
    if k > 0 {
      WithoutAt(wal[1..], k - 1);
      assert wal[..k] + wal[k + 1..] == [wal[0]] + (wal[1..][..k - 1] + wal[1..][k..]);
    }
  }

  lemma {:induction false} WithoutAbsent(wal: seq<Record>, batchId: string)
    requires !HasId(wal, batchId)
    ensures Without(wal, batchId) == wal
  {
    if wal != [] {
      forall i | 0 <= i < |wal[1..]| ensures wal[1..][i].batchId != batchId { assert wal[1..][i] == wal[i + 1]; }
      WithoutAbsent(wal[1..], batchId);
    }
  }

  lemma {:induction false} TotalWithoutAt(wal: seq<Record>, k: nat)
    requires k < |wal|
    ensures Total(wal[..k] + wal[k + 1..]) == Total(wal) - wal[k].eventCount
  {
    var left, right := wal[..k], wal[k + 1..];
    assert wal == left + wal[k..];
    TotalConcat(left, right);
    TotalConcat(left, wal[k..]);
    assert wal[k..][1..] == right;
  }

  /** A record just appended is the one that is taken out or paused. */
  lemma LastTakenOrPaused(wal: seq<Record>, r: Record, untilMS: int)
    requires DistinctIds(wal + [r])
    ensures Without(wal + [r], r.batchId) == wal
    ensures Paused(wal + [r], r.batchId, untilMS) == wal + [r.(pausedUntilMS := untilMS)]
  {
    WithoutAt(wal + [r], |wal|);
    assert forall i :: 0 <= i < |wal| ==> (wal + [r])[i].batchId != (wal + [r])[|wal|].batchId;
  }

  lemma PausedAbsent(wal: seq<Record>, batchId: string, untilMS: int)
    requires !HasId(wal, batchId)
    ensures Paused(wal, batchId, untilMS) == wal
  {
    forall i | 0 <= i < |wal| ensures wal[i].batchId != batchId { assert HasId(wal, wal[i].batchId); }
  }

  lemma {:induction false} TotalPaused(wal: seq<Record>, batchId: string, untilMS: int)
    ensures Total(Paused(wal, batchId, untilMS)) == Total(wal)
  {
    if wal != [] {
      TotalPaused(wal[1..], batchId, untilMS);
      assert Paused(wal, batchId, untilMS)[1..] == Paused(wal[1..], batchId, untilMS);
    }
  }

  lemma {:induction false} WalEventsPaused(wal: seq<Record>, batchId: string, untilMS: int)
    requires AllValid(wal)
    ensures AllValid(Paused(wal, batchId, untilMS))
    ensures WalEvents(Paused(wal, batchId, untilMS)) == WalEvents(wal)
  {
    if wal != [] {
      WalEventsPaused(wal[1..], batchId, untilMS);
      assert Paused(wal, batchId, untilMS)[1..] == Paused(wal[1..], batchId, untilMS);
    }
  }
}
