/** The two ends of the relay as the programs run them: the object that stores and forwards events,
    and the client that replays them locally. */
module RelayEnds {
  import opened Prelude
  import opened RelayBuffer

  /** A subscriber's socket. It accepts `budget` more sends and is dead after that: no send succeeds
      once one has failed. */
  class Socket {
    var sent: seq<Frame>
    var budget: nat

    constructor (budget: nat)
      ensures sent == [] && this.budget == budget
    {
      sent, this.budget := [], budget;
    }

    method Send(f: Frame) returns (ok: bool)
      modifies this
      ensures ok <==> old(budget) > 0
      ensures sent == (if ok then old(sent) + [f] else old(sent)) && budget == (if ok then old(budget) - 1 else 0)
    {
      ok := budget > 0;
      if ok { sent, budget := sent + [f], budget - 1; }
    }
  }

  /** How an ingest is answered. Waiting: the challenge went out and its response is awaited. */
  datatype Reply = Accepted202 | Unavailable503 | Waiting

  /** Sent to one socket: it got the frame, if it was alive. */
  function SentTo(sent: seq<Frame>, budget: nat, f: Frame): seq<Frame> { if budget > 0 then sent + [f] else sent }

  class RelayDO {
    const bufferTtlMs: int
    var rows: seq<Row>
    var lastSeq: int
    var alarm: Option<int>

    ghost function Value(): Buffer
      reads this
    {
      Buffer(rows, lastSeq, alarm)
    }

    /** Starts over storage that may already hold a table and an alarm. */
    constructor (stored: Buffer, configuredTtl: Option<int>, now: int)
      ensures bufferTtlMs == if configuredTtl.Some? && configuredTtl.value > 0 then
                configuredTtl.value else BUFFER_TTL_MS
      ensures Value() == RelayBuffer.ScheduleNextPrune(stored, now, bufferTtlMs)
    {
      var ttl := BUFFER_TTL_MS;
      if configuredTtl.Some? && configuredTtl.value > 0 { ttl := configuredTtl.value; }
      bufferTtlMs := ttl;
      rows, lastSeq, alarm := stored.rows, stored.lastSeq, stored.alarm;
      new;
      ScheduleNextPrune(now);
    }

    method PruneExpired(now: int)
      modifies this
      ensures Value() == RelayBuffer.PruneExpired(old(Value()), now, bufferTtlMs)
    {
      rows := Keep(rows, now - bufferTtlMs);
    }

    method ScheduleNextPrune(now: int)
      modifies this
      ensures Value() == RelayBuffer.ScheduleNextPrune(old(Value()), now, bufferTtlMs)
    {
      var min := MinTs(rows);
      if min.None? { return; }
      var at := min.value + bufferTtlMs + SLACK_MS;
      if at < now + SLACK_MS { at := now + SLACK_MS; }
      alarm := Some(at);
    }

    method StoreEvent(ts: int, body: string) returns (cursor: int)
      modifies this
      ensures Value() == RelayBuffer.StoreEvent(old(Value()), ts, body) && cursor == lastSeq
    {
      lastSeq := lastSeq + 1;
      rows := rows + [Row(lastSeq, ts, body)];
      cursor := lastSeq;
    }

    method Broadcast(f: Frame, sockets: seq<Socket>)
      requires forall i, j | 0 <= i < j < |sockets| :: sockets[i] != sockets[j]
      modifies sockets
      ensures forall i | 0 <= i < |sockets| ::
                sockets[i].sent == SentTo(old(sockets[i].sent), old(sockets[i].budget), f)
    {
      var k := 0;
      while k < |sockets|
        invariant 0 <= k <= |sockets|
        invariant forall i | 0 <= i < k ::
                    sockets[i].sent == SentTo(old(sockets[i].sent), old(sockets[i].budget), f)
        invariant forall i | k <= i < |sockets| ::
                    sockets[i].sent == old(sockets[i].sent) && sockets[i].budget == old(sockets[i].budget)
      {
        var ok := sockets[k].Send(f);
        k := k + 1;
      }
    }

    method Ingest(ts: int, body: string, requiresResponse: bool, sockets: seq<Socket>) returns (r: Reply)
      requires forall i, j | 0 <= i < j < |sockets| :: sockets[i] != sockets[j]
      modifies this, sockets
      ensures Value() == if requiresResponse then RelayBuffer.PruneExpired(old(Value()), ts, bufferTtlMs)
                         else RelayBuffer.Ingest(old(Value()), ts, body, bufferTtlMs)
      ensures var f := Frame(if requiresResponse then 0 else old(lastSeq) + 1, body);
              forall i | 0 <= i < |sockets| ::
                sockets[i].sent == if requiresResponse && i > 0 then old(sockets[i].sent)
                                   else SentTo(old(sockets[i].sent), old(sockets[i].budget), f)
      ensures r == if !requiresResponse then Accepted202
                   else if sockets == [] || old(sockets[0].budget) == 0 then Unavailable503 else Waiting
    {
      var cursor := Receive(ts, body, requiresResponse);
      var f := Frame(cursor, body);
      if sockets == [] { return if requiresResponse then Unavailable503 else Accepted202; }
      if requiresResponse {
        var ok := sockets[0].Send(f);
        return if ok then Waiting else Unavailable503;
      }
      Broadcast(f, sockets);
      r := Accepted202;
    }

    /** The part of ingest before the sockets: prune, store, schedule. */
    method Receive(ts: int, body: string, requiresResponse: bool) returns (cursor: int)
      modifies this
      ensures Value() == if requiresResponse then RelayBuffer.PruneExpired(old(Value()), ts, bufferTtlMs)
                         else RelayBuffer.Ingest(old(Value()), ts, body, bufferTtlMs)
      ensures cursor == if requiresResponse then 0 else old(lastSeq) + 1
    {
      PruneExpired(ts);
      cursor := 0;
      if !requiresResponse {
        cursor := StoreEvent(ts, body);
        ScheduleNextPrune(ts);
      }
    }

    /** Sends the rows past the cursor, in order, until a send fails. */
    method Replay(ws: Socket, cursor: int, now: int)
      modifies ws
      ensures var due := Replayable(rows, cursor, now - bufferTtlMs);
              ws.sent == old(ws.sent) + due[..if old(ws.budget) < |due| then old(ws.budget) else |due|]
    {
      var due := Replayable(rows, cursor, now - bufferTtlMs);
      var k := 0;
      while k < |due|
        invariant 0 <= k <= |due| && k <= old(ws.budget)
        invariant ws.sent == old(ws.sent) + due[..k] && ws.budget == old(ws.budget) - k
      {
        var ok := ws.Send(due[k]);
        if !ok { return; }
        assert due[..k + 1] == due[..k] + [due[k]];
        k := k + 1;
      }
    }

    method Alarm(now: int, later: int)
      modifies this
      ensures Value() == RelayBuffer.Alarm(old(Value()), now, later, bufferTtlMs)
    {
      alarm := None;
      PruneExpired(now);
      ScheduleNextPrune(later);
    }
  }

  // ---------- the client ----------

  /** What happens to one frame: does it decode, how the local callback answers, and whether the
      result can be sent back. */
  datatype Outcome = Outcome(decodes: bool, dispatchErr: bool, status: int, sendErr: bool)

  /** The local handler took the event. */
  predicate TakenLocally(o: Outcome) { o.decodes && !o.dispatchErr && o.status < 400 }

  /** The session goes on, and the cursor may advance. */
  predicate Succeeds(o: Outcome) { TakenLocally(o) && !o.sendErr }

  function Advanced(lastCursor: int, cursor: int): int {
    if cursor <= 0 then lastCursor else Max(lastCursor, cursor)
  }

  class RelayClient {
    var lastCursor: int

    constructor ()
      ensures lastCursor == 0
    {
      lastCursor := 0;
    }

    method AdvanceCursor(cursor: int)
      modifies this
      ensures lastCursor == Advanced(old(lastCursor), cursor)
    {
      if cursor <= 0 { return; }
      if cursor <= lastCursor { return; }
      lastCursor := cursor;
    }

    /** An error ends the session and leaves the cursor where it was: a frame that does not decode, a local
        callback that fails or answers 400 or more, or a result that cannot be sent back. */
    method HandleFrame(f: Frame, o: Outcome) returns (failed: bool)
      modifies this
      ensures failed <==> !o.decodes || o.dispatchErr || o.status >= 400 || o.sendErr
      ensures failed <==> !Succeeds(o)
      ensures failed || f.cursor <= 0 ==> lastCursor == old(lastCursor)
      ensures !failed && f.cursor > 0 ==>
                lastCursor >= f.cursor && lastCursor >= old(lastCursor) && lastCursor in {f.cursor, old(lastCursor)}
      ensures lastCursor == if failed then old(lastCursor) else Advanced(old(lastCursor), f.cursor)
    {
      if !o.decodes { return true; }
      if o.sendErr { return true; }
      if o.dispatchErr { return true; }
      if o.status >= 400 { return true; }
      AdvanceCursor(f.cursor);
      failed := false;
    }
  }
}
