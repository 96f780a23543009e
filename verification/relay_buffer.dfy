/** The relay's replay buffer: a table of events with ever-growing sequence numbers, pruned by age,
    and the alarm that prunes it when no event does. */
module RelayBuffer {
  import opened Prelude

  const BUFFER_TTL_MS := 5 * 60 * 1000
  const SLACK_MS := 1000

  datatype Row = Row(seqNo: int, ts: int, body: string)

  /** What a subscriber is sent. Verification challenges carry cursor 0 and are never stored. */
  datatype Frame = Frame(cursor: int, body: string)

  /** The table, the last number its AUTOINCREMENT gave out, and the pending alarm. */
  datatype Buffer = Buffer(rows: seq<Row>, lastSeq: int, alarm: Option<int>)

  function FrameOf(r: Row): Frame { Frame(r.seqNo, r.body) }

  /** DELETE FROM events WHERE ts < cutoff. */
  function Keep(rows: seq<Row>, cutoff: int): seq<Row> {
    if rows == [] then []
    else
      var front, last := rows[..|rows| - 1], rows[|rows| - 1];
      if last.ts >= cutoff then Keep(front, cutoff) + [last] else Keep(front, cutoff)
  }

  /** SELECT .. WHERE seq > cursor AND ts >= cutoff ORDER BY seq ASC, on a table in seq order. */
  function Replayable(rows: seq<Row>, cursor: int, cutoff: int): (frames: seq<Frame>)
    ensures forall f :: f in frames <==> exists r :: r in rows && r.seqNo > cursor && r.ts >= cutoff && f == FrameOf(r)
  {
    if rows == [] then []
    else
      var front, last := rows[..|rows| - 1], rows[|rows| - 1];
      assert rows == front + [last];
      if last.seqNo > cursor && last.ts >= cutoff then Replayable(front, cursor, cutoff) + [FrameOf(last)]
      else Replayable(front, cursor, cutoff)
  }

  /** SELECT MIN(ts). */
  function MinTs(rows: seq<Row>): (min: Option<int>)
    ensures min.None? <==> rows == []
    ensures min.Some? ==> exists r :: r in rows && r.ts == min.value
    ensures min.Some? ==> forall r <- rows :: min.value <= r.ts
  {
    if rows == [] then None
    else
      var front, last := rows[..|rows| - 1], rows[|rows| - 1];
      assert rows == front + [last];
      var m := MinTs(front);
      if m.Some? && m.value <= last.ts then m else Some(last.ts)
  }

  function Max(a: int, b: int): int { if a < b then b else a }

  function PruneExpired(b: Buffer, now: int, ttl: int): Buffer { b.(rows := Keep(b.rows, now - ttl)) }

  /** An empty table leaves the alarm as it is. */
  function ScheduleNextPrune(b: Buffer, now: int, ttl: int): Buffer {
    var min := MinTs(b.rows);
    if min.None? then b else b.(alarm := Some(Max(min.value + ttl + SLACK_MS, now + SLACK_MS)))
  }

  function StoreEvent(b: Buffer, ts: int, body: string): Buffer {
    b.(rows := b.rows + [Row(b.lastSeq + 1, ts, body)], lastSeq := b.lastSeq + 1)
  }

  /** An event that is not a verification challenge arrives at ts. */
  function Ingest(b: Buffer, ts: int, body: string, ttl: int): Buffer {
    ScheduleNextPrune(StoreEvent(PruneExpired(b, ts, ttl), ts, body), ts, ttl)
  }

  /** The alarm goes off: the runtime clears it, the handler prunes and schedules the next one, with
      one clock reading for each. */
  function Alarm(b: Buffer, now: int, later: int, ttl: int): Buffer {
    ScheduleNextPrune(PruneExpired(b.(alarm := None), now, ttl), later, ttl)
  }

  // ---------- the table ----------

  lemma {:induction false} Kept(rows: seq<Row>, cutoff: int)
    ensures forall r :: r in Keep(rows, cutoff) <==> r in rows && r.ts >= cutoff
    ensures |Keep(rows, cutoff)| <= |rows|
  {
    if rows != [] {
      var front, last := rows[..|rows| - 1], rows[|rows| - 1];
      assert rows == front + [last];
      Kept(front, cutoff);
    }
  }

  predicate SeqsAscend(rows: seq<Row>) { forall i, j | 0 <= i < j < |rows| :: rows[i].seqNo < rows[j].seqNo }

  predicate Issued(rows: seq<Row>, lastSeq: int) { forall r <- rows :: 1 <= r.seqNo <= lastSeq }

  /** Sequence numbers ascend strictly and never pass the last one given out. */
  predicate InSeqOrder(b: Buffer) { SeqsAscend(b.rows) && Issued(b.rows, b.lastSeq) }

  lemma {:induction false} KeepAscends(rows: seq<Row>, cutoff: int)
    requires SeqsAscend(rows)
    ensures SeqsAscend(Keep(rows, cutoff))
  {
    if rows != [] {
      var front, last := rows[..|rows| - 1], rows[|rows| - 1];
      KeepAscends(front, cutoff);
      Kept(front, cutoff);
      forall r <- Keep(front, cutoff) ensures r.seqNo < last.seqNo {
        var i :| 0 <= i < |front| && front[i] == r;
      }
    }
  }

  lemma AppendAscends(rows: seq<Row>, lastSeq: int, r: Row)
    requires SeqsAscend(rows) && Issued(rows, lastSeq) && r.seqNo == lastSeq + 1 && lastSeq >= 0
    ensures SeqsAscend(rows + [r]) && Issued(rows + [r], lastSeq + 1)
  {
    forall i | 0 <= i < |rows| ensures rows[i].seqNo < r.seqNo { assert rows[i] in rows; }
  }

  lemma ScheduleKeepsRows(b: Buffer, now: int, ttl: int)
    ensures var b' := ScheduleNextPrune(b, now, ttl); b'.rows == b.rows && b'.lastSeq == b.lastSeq
  {
  }

  lemma IngestShape(b: Buffer, ts: int, body: string, ttl: int)
    ensures var b' := Ingest(b, ts, body, ttl);
            b'.lastSeq == b.lastSeq + 1 && b'.rows == Keep(b.rows, ts - ttl) + [Row(b.lastSeq + 1, ts, body)]
  {
    ScheduleKeepsRows(StoreEvent(PruneExpired(b, ts, ttl), ts, body), ts, ttl);
  }

  lemma KeepIssued(rows: seq<Row>, lastSeq: int, cutoff: int)
    requires Issued(rows, lastSeq)
    ensures Issued(Keep(rows, cutoff), lastSeq)
  {
    Kept(rows, cutoff);
  }

  /** A number is never given out twice, pruned or not. */
  lemma IngestKeepsOrder(b: Buffer, ts: int, body: string, ttl: int)
    requires InSeqOrder(b) && b.lastSeq >= 0
    ensures var b' := Ingest(b, ts, body, ttl);
            && InSeqOrder(b')
            && b'.lastSeq == b.lastSeq + 1
            && b'.rows == Keep(b.rows, ts - ttl) + [Row(b.lastSeq + 1, ts, body)]
  {
    KeepAscends(b.rows, ts - ttl);
    KeepIssued(b.rows, b.lastSeq, ts - ttl);
    AppendAscends(Keep(b.rows, ts - ttl), b.lastSeq, Row(b.lastSeq + 1, ts, body));
    IngestShape(b, ts, body, ttl);
  }

  lemma AlarmKeepsOrder(b: Buffer, now: int, later: int, ttl: int)
    requires InSeqOrder(b)
    ensures var b' := Alarm(b, now, later, ttl);
            InSeqOrder(b') && b'.lastSeq == b.lastSeq && b'.rows == Keep(b.rows, now - ttl)
  {
    KeepAscends(b.rows, now - ttl);
    KeepIssued(b.rows, b.lastSeq, now - ttl);
    ScheduleKeepsRows(PruneExpired(b.(alarm := None), now, ttl), later, ttl);
  }

  /** Replay sends in sequence order, and only rows past the cursor. */
  lemma {:induction false} ReplayAscends(rows: seq<Row>, cursor: int, cutoff: int)
    requires SeqsAscend(rows)
    ensures var fs := Replayable(rows, cursor, cutoff);
            && (forall i, j | 0 <= i < j < |fs| :: fs[i].cursor < fs[j].cursor)
            && (forall f <- fs :: f.cursor > cursor)
  {
    if rows != [] {
      var front, last := rows[..|rows| - 1], rows[|rows| - 1];
      ReplayAscends(front, cursor, cutoff);
      forall f <- Replayable(front, cursor, cutoff) ensures f.cursor < last.seqNo {
        var r :| r in front && f == FrameOf(r);
        var i :| 0 <= i < |front| && front[i] == r;
      }
    }
  }

  // ---------- the alarm ----------

  /** While the table holds a row an alarm is pending, at least a second after `reading`, the last clock
      reading of a constructor or an alarm, and no later than a second after the later of it and the
      oldest row's expiry. */
  predicate AlarmCovers(b: Buffer, ttl: int, reading: int) {
    MinTs(b.rows).Some? ==>
      && b.alarm.Some?
      && reading + SLACK_MS <= b.alarm.value <= Max(MinTs(b.rows).value + ttl, reading) + SLACK_MS
  }

  /** After an arrival the bound is the oldest row's expiry alone: what had expired is gone. */
  lemma IngestCovers(b: Buffer, ts: int, body: string, ttl: int, reading: int)
    requires ttl > 0 && reading <= ts
    ensures var b' := Ingest(b, ts, body, ttl);
            && AlarmCovers(b', ttl, reading)
            && MinTs(b'.rows).Some?
            && b'.alarm == Some(MinTs(b'.rows).value + ttl + SLACK_MS)
            && b'.alarm.value >= ts + SLACK_MS
  {
    var stored := StoreEvent(PruneExpired(b, ts, ttl), ts, body);
    Kept(b.rows, ts - ttl);
    assert forall r <- stored.rows :: r.ts >= ts - ttl;
  }

  lemma AlarmReschedules(b: Buffer, now: int, later: int, ttl: int)
    ensures AlarmCovers(Alarm(b, now, later, ttl), ttl, later)
  {
    BootCovers(PruneExpired(b.(alarm := None), now, ttl), later, ttl);
  }

  /** When the alarm goes off, exactly the rows that have not expired are left, and an alarm is
      pending again if there are any. If the oldest row was past its time, the table shrank. */
  lemma AlarmPrunes(b: Buffer, now: int, later: int, ttl: int)
    ensures var b' := Alarm(b, now, later, ttl);
            && AlarmCovers(b', ttl, later)
            && (forall r :: r in b'.rows <==> r in b.rows && r.ts >= now - ttl)
            && (MinTs(b.rows).Some? && MinTs(b.rows).value + ttl < now ==> |b'.rows| < |b.rows|)
  {
    AlarmReschedules(b, now, later, ttl);
    ScheduleKeepsRows(PruneExpired(b.(alarm := None), now, ttl), later, ttl);
    Kept(b.rows, now - ttl);
    if MinTs(b.rows).Some? && MinTs(b.rows).value + ttl < now { OldestDrops(b.rows, now - ttl); }
  }

  lemma OldestDrops(rows: seq<Row>, cutoff: int)
    requires MinTs(rows).Some? && MinTs(rows).value < cutoff
    ensures |Keep(rows, cutoff)| < |rows|
  {
    var oldest :| oldest in rows && oldest.ts == MinTs(rows).value;
    KeepDrops(rows, cutoff, oldest);
  }

  lemma {:induction false} KeepDrops(rows: seq<Row>, cutoff: int, r: Row)
    requires r in rows && r.ts < cutoff
    ensures |Keep(rows, cutoff)| < |rows|
  {
    var front, last := rows[..|rows| - 1], rows[|rows| - 1];
    assert rows == front + [last];
    if last.ts >= cutoff { KeepDrops(front, cutoff, r); } else { Kept(front, cutoff); }
  }

  /** A constructor only schedules, from its own clock reading. */
  lemma BootCovers(b: Buffer, now: int, ttl: int)
    ensures AlarmCovers(ScheduleNextPrune(b, now, ttl), ttl, now)
  {
  }

  /** Pruning between schedules leaves the alarm in time. */
  lemma PruneCovers(b: Buffer, now: int, ttl: int, reading: int)
    requires AlarmCovers(b, ttl, reading)
    ensures AlarmCovers(PruneExpired(b, now, ttl), ttl, reading)
  {
    OldestRises(b.rows, now - ttl);
  }

  lemma OldestRises(rows: seq<Row>, cutoff: int)
    ensures MinTs(Keep(rows, cutoff)).Some? ==>
              MinTs(rows).Some? && MinTs(rows).value <= MinTs(Keep(rows, cutoff)).value
  {
    var kept := Keep(rows, cutoff);
    Kept(rows, cutoff);
    if MinTs(kept).Some? {
      var oldest :| oldest in kept && oldest.ts == MinTs(kept).value;
      assert oldest in rows;
    }
  }
}
