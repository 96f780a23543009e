/** Every run of the relay system keeps its promise: the client's cursor never passes an event that
    was neither taken nor expired, and expired events do not stay in the buffer. */
module RelaySafety {
  import opened Prelude
  import opened RelayBuffer
  import opened RelayEnds
  import opened RelaySystem

  // ---------- the table ----------

  lemma TableStays(w: World, w': World)
    requires Later(w, w') && w'.stored == w.stored && TableExact(w)
    requires w'.buffer.rows == w.buffer.rows && w'.buffer.lastSeq == w.buffer.lastSeq
    ensures TableExact(w')
  {
    forall t | 1 <= t <= |w'.stored| ensures InTable(w', t) || w'.stored[t - 1].ts < w'.now - w'.ttl {
      assert InTable(w, t) || w.stored[t - 1].ts < w.now - w.ttl;
    }
  }

  lemma PruneKeepsTable(w: World, w': World, cutoff: int)
    requires Later(w, w') && w'.stored == w.stored && TableExact(w) && cutoff <= w'.now - w.ttl
    requires w'.buffer.rows == Keep(w.buffer.rows, cutoff) && w'.buffer.lastSeq == w.buffer.lastSeq
    ensures TableExact(w')
  {
    Kept(w.buffer.rows, cutoff);
    KeepAscends(w.buffer.rows, cutoff);
    forall t | 1 <= t <= |w'.stored| ensures InTable(w', t) || w'.stored[t - 1].ts < w'.now - w'.ttl {
      assert InTable(w, t) || w.stored[t - 1].ts < w.now - w.ttl;
    }
  }

  /** What an arrival does, without how: prune, then a row and a frame under the next number. */
  lemma ArriveShape(w: World, body: string)
    requires TableExact(w)
    ensures var w' := ArriveStep(w, body);
            && w'.buffer.rows == Keep(w.buffer.rows, w.now - w.ttl) + [Row(|w.stored| + 1, w.now, body)]
            && w'.buffer.lastSeq == |w.stored| + 1
            && InSeqOrder(w'.buffer)
            && w'.pending == w.pending + [Frame(|w.stored| + 1, body)]
  {
    IngestKeepsOrder(w.buffer, w.now, body, w.ttl);
  }

  lemma AppendKeepsTable(w: World, w': World, row: Row)
    requires w'.stored == w.stored + [Event(row.ts, row.body)] && row.seqNo == |w'.stored|
    requires w'.now == w.now && w'.ttl == w.ttl
    requires RowsAreEvents(w) && MissingExpired(w)
    requires w'.buffer.rows == Keep(w.buffer.rows, w.now - w.ttl) + [row]
    ensures RowsAreEvents(w') && MissingExpired(w')
  {
    Kept(w.buffer.rows, w.now - w.ttl);
    forall r <- w'.buffer.rows
      ensures 1 <= r.seqNo <= |w'.stored| && Event(r.ts, r.body) == w'.stored[r.seqNo - 1]
    {
      if r != row { assert r in w.buffer.rows; }
    }
    forall t | 1 <= t <= |w'.stored| ensures InTable(w', t) || w'.stored[t - 1].ts < w'.now - w'.ttl {
      if t <= |w.stored| { assert InTable(w, t) || w.stored[t - 1].ts < w.now - w.ttl; }
    }
  }

  lemma ArriveKeepsTable(w: World, body: string)
    requires TableExact(w)
    ensures TableExact(ArriveStep(w, body))
  {
    ArriveShape(w, body);
    AppendKeepsTable(w, ArriveStep(w, body), Row(|w.stored| + 1, w.now, body));
  }

  // ---------- the session ----------

  lemma HasMore(line: seq<Frame>, more: seq<Frame>, n: int, n': int, t: int)
    requires n <= n' && Has(line, n, t)
    ensures Has(line + more, n', t)
  {
    var j :| 0 <= j < n && j < |line| && line[j].cursor == t;
    assert (line + more)[j].cursor == t;
  }

  lemma ArriveExtendsLine(w: World, w': World, line: seq<Frame>, f: Frame)
    requires Later(w, w') && w'.stored == w.stored + [Event(w.now, f.body)] && f.cursor == |w'.stored|
    requires AllGenuine(w, line) && Gapless(w, line) && Complete(w, line)
    ensures Gapless(w', line + [f]) && Complete(w', line + [f])
  {
    var line' := line + [f];
    assert line'[|line|] == f;
    forall t | 1 <= t <= |w'.stored| ensures Done(w', t) || Has(line', |line'|, t) {
      if t <= |w.stored| {
        DoneStays(w, w', t);
        if Has(line, |line|, t) { HasMore(line, [f], |line|, |line'|, t); }
      }
    }
    forall i, t | 0 <= i < |line'| && 1 <= t <= line'[i].cursor && t <= |w'.stored|
      ensures Done(w', t) || Has(line', i + 1, t)
    {
      if i < |line| {
        assert Genuine(w, line[i]);
        DoneStays(w, w', t);
        if Has(line, i + 1, t) { HasMore(line, [f], i + 1, i + 1, t); }
      }
    }
  }

  lemma AppendKeepsSession(w: World, w': World, f: Frame)
    requires Later(w, w') && w'.stored == w.stored + [Event(w.now, f.body)] && f.cursor == |w'.stored|
    requires w'.pending == w.pending + [f] && w'.conn == w.conn && SessionSafe(w)
    ensures SessionSafe(w')
  {
    GenuineStays(w, w', w.pending);
    if w.conn.Some? {
      var queue := w.conn.value.queue;
      GenuineStays(w, w', queue);
      if w.conn.value.dead {
        GaplessStays(w, w', queue);
      } else {
        assert AllGenuine(w, queue + w.pending);
        ArriveExtendsLine(w, w', queue + w.pending, f);
        assert queue + w'.pending == (queue + w.pending) + [f];
      }
    }
  }

  lemma ArriveKeepsSession(w: World, body: string)
    requires SessionSafe(w) && TableExact(w)
    ensures SessionSafe(ArriveStep(w, body))
  {
    ArriveShape(w, body);
    AppendKeepsSession(w, ArriveStep(w, body), Frame(|w.stored| + 1, body));
  }

  /** A challenge in the line leaves the events' places in order. */
  lemma InsertChallenge(w: World, a: seq<Frame>, b: seq<Frame>, f: Frame)
    requires f.cursor == 0 && Gapless(w, a + b) && Complete(w, a + b)
    ensures Gapless(w, a + [f] + b) && Complete(w, a + [f] + b)
  {
    var line, line' := a + b, a + [f] + b;
    forall t | 1 <= t <= |w.stored| ensures Done(w, t) || Has(line', |line'|, t) {
      if Has(line, |line|, t) { HasShifts(a, b, f, |line|, t); }
    }
    forall i, t | 0 <= i < |line'| && 1 <= t <= line'[i].cursor && t <= |w.stored|
      ensures Done(w, t) || Has(line', i + 1, t)
    {
      var k := if i < |a| then i else i - 1;
      assert i != |a|;
      assert line[k] == line'[i];
      if Has(line, k + 1, t) { HasShifts(a, b, f, k + 1, t); }
    }
  }

  lemma HasShifts(a: seq<Frame>, b: seq<Frame>, f: Frame, n: int, t: int)
    requires 0 <= n <= |a + b| && Has(a + b, n, t)
    ensures Has(a + [f] + b, if n <= |a| then n else n + 1, t)
  {
    var line, line' := a + b, a + [f] + b;
    var j :| 0 <= j < n && j < |line| && line[j].cursor == t;
    if j < |a| { assert line'[j] == line[j]; } else { assert line'[j + 1] == line[j]; }
  }

  lemma PrefixOfLine(w: World, a: seq<Frame>, b: seq<Frame>)
    requires Gapless(w, a + b)
    ensures Gapless(w, a)
  {
    forall i, t | 0 <= i < |a| && 1 <= t <= a[i].cursor && t <= |w.stored| ensures Done(w, t) || Has(a, i + 1, t) {
      assert (a + b)[i] == a[i];
      if Has(a + b, i + 1, t) {
        var j :| 0 <= j < i + 1 && (a + b)[j].cursor == t;
        assert a[j].cursor == t;
      }
    }
  }

  lemma ChallengeKeepsSession(w: World, body: string, toClient: bool)
    requires SessionSafe(w)
    ensures SessionSafe(ChallengeStep(w, body, toClient))
  {
    var w' := ChallengeStep(w, body, toClient);
    var mid := w.(buffer := w'.buffer);
    SessionStays(w, mid);
    if toClient && w.conn.Some? && !w.conn.value.dead {
      InsertChallenge(mid, w.conn.value.queue, w.pending, Frame(0, body));
      SessionOf(mid, w');
    }
  }

  /** Only the events, the taken frames, the clock and the line matter to a session's safety. */
  lemma SessionOf(w: World, w': World)
    requires Later(w, w') && w'.stored == w.stored && w'.pending == w.pending && w'.conn.Some? && !w'.conn.value.dead
    requires AllGenuine(w, w.pending) && AllGenuine(w, w'.conn.value.queue)
    requires Gapless(w, w'.conn.value.queue + w.pending) && Complete(w, w'.conn.value.queue + w.pending)
    requires AllGenuine(w, w'.conn.value.queue + w.pending)
    ensures SessionSafe(w')
  {
    GenuineStays(w, w', w.pending);
    GenuineStays(w, w', w'.conn.value.queue);
    GaplessStays(w, w', w'.conn.value.queue + w.pending);
    CompleteStays(w, w', w'.conn.value.queue + w.pending);
  }

  lemma BroadcastKeepsSession(w: World, ok: bool)
    requires w.pending != [] && SessionSafe(w)
    ensures SessionSafe(BroadcastStep(w, ok))
  {
    var w' := BroadcastStep(w, ok);
    GenuineStays(w, w', w.pending);
    assert forall f <- w'.pending :: f in w.pending;
    if w.conn.Some? {
      var Conn(queue, dead) := w.conn.value;
      GenuineStays(w, w', queue);
      var line := queue + w.pending;
      if dead {
        GaplessStays(w, w', queue);
      } else {
        assert AllGenuine(w, line);
        GaplessStays(w, w', line);
        CompleteStays(w, w', line);
        if ok {
          assert (queue + [w.pending[0]]) + w.pending[1..] == line;
        } else {
          PrefixOfLine(w', queue, w.pending);
        }
      }
    }
  }

  lemma DueInOrder(w: World, due: seq<Frame>)
    requires PrefixSafe(w) && Complete(w, due)
    requires forall i, j | 0 <= i < j < |due| :: due[i].cursor < due[j].cursor
    ensures Gapless(w, due)
  {
    forall i, t | 0 <= i < |due| && 1 <= t <= due[i].cursor && t <= |w.stored|
      ensures Done(w, t) || Has(due, i + 1, t)
    {
      if Has(due, |due|, t) {
        var j :| 0 <= j < |due| && due[j].cursor == t;
        assert j <= i;
      }
    }
  }

  lemma DueIsComplete(w: World, due: seq<Frame>)
    requires PrefixSafe(w) && TableExact(w) && due == Replayable(w.buffer.rows, w.cursor, w.now - w.ttl)
    ensures Complete(w, due)
  {
    forall t | 1 <= t <= |w.stored| ensures Done(w, t) || Has(due, |due|, t) {
      if t > w.cursor && InTable(w, t) && w.stored[t - 1].ts >= w.now - w.ttl {
        var f := FrameOf(Row(t, w.stored[t - 1].ts, w.stored[t - 1].body));
        assert f in due;
        var j :| 0 <= j < |due| && due[j] == f;
      }
    }
  }

  /** A new session's line: everything past the cursor that has not expired, in order. */
  lemma ReplayIsComplete(w: World, due: seq<Frame>)
    requires PrefixSafe(w) && TableExact(w) && due == Replayable(w.buffer.rows, w.cursor, w.now - w.ttl)
    ensures Complete(w, due) && Gapless(w, due) && AllGenuine(w, due)
  {
    ReplayAscends(w.buffer.rows, w.cursor, w.now - w.ttl);
    DueIsComplete(w, due);
    DueInOrder(w, due);
    forall f <- due ensures Genuine(w, f) { assert f in due; }
  }

  lemma {:induction false} HasInFront(line: seq<Frame>, more: seq<Frame>, t: int)
    requires Has(line, |line|, t)
    ensures Has(line + more, |line + more|, t)
  {
    HasMore(line, more, |line|, |line + more|, t);
  }

  /** Frames whose broadcast is still to come may repeat what replay sent; that harms nothing. */
  lemma AppendPending(w: World, due: seq<Frame>, pending: seq<Frame>)
    requires Complete(w, due) && Gapless(w, due)
    ensures Complete(w, due + pending) && Gapless(w, due + pending)
  {
    var line := due + pending;
    forall t | 1 <= t <= |w.stored| ensures Done(w, t) || Has(line, |line|, t) {
      if Has(due, |due|, t) { HasInFront(due, pending, t); }
    }
    forall i, t | 0 <= i < |line| && 1 <= t <= line[i].cursor && t <= |w.stored|
      ensures Done(w, t) || Has(line, i + 1, t)
    {
      if i < |due| {
        if Has(due, i + 1, t) { HasMore(due, pending, i + 1, i + 1, t); }
      } else if Has(due, |due|, t) {
        HasMore(due, pending, |due|, i + 1, t);
      }
    }
  }

  lemma SubscribeKeepsSession(w: World, sends: nat)
    requires w.conn.None? && PrefixSafe(w) && SessionSafe(w) && TableExact(w)
    ensures SessionSafe(SubscribeStep(w, sends))
  {
    var w' := SubscribeStep(w, sends);
    var due := Replayable(w.buffer.rows, w.cursor, w.now - w.ttl);
    ReplayIsComplete(w, due);
    GenuineStays(w, w', w.pending);
    GenuineStays(w, w', due);
    if sends < |due| {
      assert due[..sends] + due[sends..] == due;
      PrefixOfLine(w, due[..sends], due[sends..]);
      GaplessStays(w, w', due[..sends]);
    } else {
      AppendPending(w, due, w.pending);
      assert AllGenuine(w, due + w.pending);
      GaplessStays(w, w', due + w.pending);
      CompleteStays(w, w', due + w.pending);
    }
  }

  /** The head of the line may be taken: every event below it is done. */
  lemma HeadIsNext(w: World, line: seq<Frame>, t: int)
    requires line != [] && Gapless(w, line) && 1 <= t <= line[0].cursor && t <= |w.stored|
    ensures Done(w, t) || t == line[0].cursor
  {
    if Has(line, 1, t) {
      var j :| 0 <= j < 1 && line[j].cursor == t;
    } else {
      assert Has(line, 0 + 1, t) || Done(w, t);
    }
  }

  lemma TailIsGapless(w: World, w': World, line: seq<Frame>)
    requires Later(w, w') && w'.stored == w.stored
    requires line != [] && Gapless(w, line) && line[0] in w'.accepted && Genuine(w', line[0])
    ensures Gapless(w', line[1..])
  {
    var rest := line[1..];
    forall i, t | 0 <= i < |rest| && 1 <= t <= rest[i].cursor && t <= |w'.stored|
      ensures Done(w', t) || Has(rest, i + 1, t)
    {
      assert line[i + 1] == rest[i];
      assert Done(w, t) || Has(line, i + 1 + 1, t);
      DoneStays(w, w', t);
      if Has(line, i + 2, t) { TailHas(w', line, i + 2, t); }
    }
  }

  lemma TailIsComplete(w: World, w': World, line: seq<Frame>)
    requires Later(w, w') && w'.stored == w.stored
    requires line != [] && Complete(w, line) && line[0] in w'.accepted && Genuine(w', line[0])
    ensures Complete(w', line[1..])
  {
    forall t | 1 <= t <= |w'.stored| ensures Done(w', t) || Has(line[1..], |line[1..]|, t) {
      DoneStays(w, w', t);
      if Has(line, |line|, t) { TailHas(w', line, |line|, t); }
    }
  }

  lemma TailHas(w: World, line: seq<Frame>, n: int, t: int)
    requires line != [] && Has(line, n, t) && 1 <= t <= |w.stored| && line[0] in w.accepted && Genuine(w, line[0])
    ensures Done(w, t) || Has(line[1..], n - 1, t)
  {
    var j :| 0 <= j < n && j < |line| && line[j].cursor == t;
    if j == 0 {
      assert line[0] == Frame(t, w.stored[t - 1].body);
    } else {
      assert line[1..][j - 1].cursor == t;
    }
  }

  lemma QueueIsGapless(w: World)
    requires w.conn.Some? && SessionSafe(w)
    ensures Gapless(w, w.conn.value.queue) && AllGenuine(w, w.conn.value.queue)
  {
    if !w.conn.value.dead { PrefixOfLine(w, w.conn.value.queue, w.pending); }
  }

  lemma DeliverShape(w: World, o: Outcome)
    requires w.conn.Some? && w.conn.value.queue != []
    ensures var w' := DeliverStep(w, o);
            var f := w.conn.value.queue[0];
            && Later(w, w') && w'.stored == w.stored && w'.pending == w.pending
            && (w'.cursor == w.cursor || (f in w'.accepted && f.cursor == w'.cursor))
            && (Succeeds(o) ==> f in w'.accepted && w'.conn == Some(Conn(w.conn.value.queue[1..], w.conn.value.dead)))
            && (!Succeeds(o) ==> w'.conn == None)
            && w.cursor <= w'.cursor
            && w'.passed == PassedUpTo(w.passed, w'.cursor, Passage(w'.now, w'.accepted, |w'.handled|))
  {
  }

  lemma TakenKeepsPrefix(w: World, w': World, line: seq<Frame>)
    requires Later(w, w') && w'.stored == w.stored && PrefixSafe(w)
    requires line != [] && Gapless(w, line) && Genuine(w, line[0])
    requires w'.cursor == w.cursor || (line[0] in w'.accepted && line[0].cursor == w'.cursor)
    ensures PrefixSafe(w')
  {
    assert w'.cursor <= |w'.stored|;
    forall t | 1 <= t <= w'.cursor ensures Done(w', t) {
      DoneStays(w, w', t);
      if t > w.cursor {
        HeadIsNext(w, line, t);
        if t == line[0].cursor { assert line[0] == Frame(t, w'.stored[t - 1].body); }
      }
    }
  }

  lemma DeliverKeepsPrefix(w: World, o: Outcome)
    requires w.conn.Some? && w.conn.value.queue != [] && PrefixSafe(w) && SessionSafe(w)
    ensures PrefixSafe(DeliverStep(w, o))
  {
    QueueIsGapless(w);
    DeliverShape(w, o);
    TakenKeepsPrefix(w, DeliverStep(w, o), w.conn.value.queue);
  }

  /** What the cursor passes is recorded as it stands. */
  lemma DeliverKeepsHistory(w: World, w': World)
    requires Later(w, w') && w'.stored == w.stored && HistorySafe(w) && PrefixSafe(w') && w.cursor <= w'.cursor
    requires w'.passed == PassedUpTo(w.passed, w'.cursor, Passage(w'.now, w'.accepted, |w'.handled|))
    ensures HistorySafe(w')
  {
    forall t | 1 <= t <= w'.cursor ensures DoneInTime(w', t) {
      if t <= w.cursor { assert DoneInTime(w, t) && w'.passed[t - 1] == w.passed[t - 1]; }
      else { assert Done(w', t) && w'.passed[t - 1] == Passage(w'.now, w'.accepted, |w'.handled|); }
    }
  }

  lemma TakenKeepsSession(w: World, w': World)
    requires w.conn.Some? && w.conn.value.queue != [] && SessionSafe(w)
    requires Later(w, w') && w'.stored == w.stored && w'.pending == w.pending
    requires w.conn.value.queue[0] in w'.accepted
    requires w'.conn == Some(Conn(w.conn.value.queue[1..], w.conn.value.dead))
    ensures SessionSafe(w')
  {
    var Conn(queue, dead) := w.conn.value;
    GenuineStays(w, w', w.pending);
    GenuineStays(w, w', queue);
    assert Genuine(w', queue[0]);
    assert forall f <- queue[1..] :: f in queue;
    if dead {
      TailIsGapless(w, w', queue);
    } else {
      var line := queue + w.pending;
      TailIsGapless(w, w', line);
      TailIsComplete(w, w', line);
      assert line[1..] == queue[1..] + w.pending;
    }
  }

  lemma DeliverKeepsSession(w: World, o: Outcome)
    requires w.conn.Some? && w.conn.value.queue != [] && SessionSafe(w)
    ensures SessionSafe(DeliverStep(w, o))
  {
    var w' := DeliverStep(w, o);
    DeliverShape(w, o);
    GenuineStays(w, w', w.pending);
    if Succeeds(o) { TakenKeepsSession(w, w'); }
  }

  // ---------- every step ----------

  lemma BufferStepKeeps(w: World, w': World, cutoff: int)
    requires Inv(w) && w' == w.(buffer := w'.buffer, now := w'.now, reading := w'.reading) && w.now <= w'.now
    requires w'.buffer.lastSeq == w.buffer.lastSeq && cutoff <= w'.now - w.ttl
    requires w'.buffer.rows == w.buffer.rows || w'.buffer.rows == Keep(w.buffer.rows, cutoff)
    ensures PrefixSafe(w') && HistorySafe(w') && SessionSafe(w') && TableExact(w')
  {
    PrefixStays(w, w');
    HistoryStays(w, w');
    SessionStays(w, w');
    if w'.buffer.rows == w.buffer.rows { TableStays(w, w'); } else { PruneKeepsTable(w, w', cutoff); }
  }

  lemma ArriveKeeps(w: World, body: string)
    requires Inv(w)
    ensures Inv(ArriveStep(w, body))
  {
    var w' := ArriveStep(w, body);
    ArriveKeepsTable(w, body);
    ArriveKeepsSession(w, body);
    PrefixStays(w, w');
    HistoryStays(w, w');
    IngestCovers(w.buffer, w.now, body, w.ttl, w.reading);
  }

  lemma ChallengeKeeps(w: World, body: string, toClient: bool)
    requires Inv(w)
    ensures Inv(ChallengeStep(w, body, toClient))
  {
    var w' := ChallengeStep(w, body, toClient);
    ChallengeKeepsSession(w, body, toClient);
    PrefixStays(w, w');
    HistoryStays(w, w');
    PruneKeepsTable(w, w', w.now - w.ttl);
    PruneCovers(w.buffer, w.now, w.ttl, w.reading);
  }

  lemma AlarmKeepsHistory(w: World, w': World, later: int)
    requires Inv(w) && w.now <= later
    requires w' == w.(buffer := w'.buffer, now := later, reading := later)
    requires w'.buffer == RelayBuffer.Alarm(w.buffer, w.now, later, w.ttl)
    ensures PrefixSafe(w') && HistorySafe(w') && SessionSafe(w') && TableExact(w')
  {
    AlarmKeepsOrder(w.buffer, w.now, later, w.ttl);
    BufferStepKeeps(w, w', w.now - w.ttl);
  }

  lemma AlarmKeeps(w: World, later: int)
    requires Inv(w) && Enabled(w, AlarmFires(later))
    ensures Inv(Step(w, AlarmFires(later)))
  {
    AlarmKeepsHistory(w, Step(w, AlarmFires(later)), later);
    AlarmReschedules(w.buffer, w.now, later, w.ttl);
  }

  lemma BootKeeps(w: World, w': World)
    requires Inv(w)
    requires w' == w.(buffer := RelayBuffer.ScheduleNextPrune(w.buffer, w.now, w.ttl), reading := w.now)
    ensures Inv(w')
  {
    ScheduleKeepsRows(w.buffer, w.now, w.ttl);
    BufferStepKeeps(w, w', w.now - w.ttl);
    BootCovers(w.buffer, w.now, w.ttl);
  }

  /** Every step keeps the invariant. */
  lemma StepKeeps(w: World, a: Action)
    requires Inv(w) && Enabled(w, a)
    ensures Inv(Step(w, a))
  {
    match a
    case Tick(t) => BufferStepKeeps(w, Step(w, a), w.now - w.ttl);
    case Arrive(body) => ArriveKeeps(w, body);
    case Challenge(body, toClient) => ChallengeKeeps(w, body, toClient);
    case Broadcast(ok) =>
      BroadcastKeepsSession(w, ok);
      PrefixStays(w, Step(w, a));
      HistoryStays(w, Step(w, a));
      TableStays(w, Step(w, a));
    case Subscribe(sends) =>
      SubscribeKeepsSession(w, sends);
      PrefixStays(w, Step(w, a));
      HistoryStays(w, Step(w, a));
      TableStays(w, Step(w, a));
    case Deliver(o) =>
      DeliverKeepsPrefix(w, o);
      DeliverKeepsSession(w, o);
      DeliverShape(w, o);
      DeliverKeepsHistory(w, Step(w, a));
      TableStays(w, Step(w, a));
    case Disconnect =>
      PrefixStays(w, Step(w, a));
      HistoryStays(w, Step(w, a));
      GenuineStays(w, Step(w, a), w.pending);
      TableStays(w, Step(w, a));
    case AlarmFires(later) => AlarmKeeps(w, later);
    case Restart =>
      BootKeeps(w, w.(buffer := RelayBuffer.ScheduleNextPrune(w.buffer, w.now, w.ttl), reading := w.now));
      PrefixStays(w, Step(w, a));
      HistoryStays(w, Step(w, a));
      var booted := w.(buffer := RelayBuffer.ScheduleNextPrune(w.buffer, w.now, w.ttl), reading := w.now);
      TableStays(booted, Step(w, a));
    case Wake => BootKeeps(w, Step(w, a));
  }

  // ---------- whole runs ----------

  predicate Possible(w: World, actions: seq<Action>)
    decreases |actions|
  {
    actions != [] ==> Enabled(w, actions[0]) && Possible(Step(w, actions[0]), actions[1..])
  }

  function Run(w: World, actions: seq<Action>): World
    requires Possible(w, actions)
    decreases |actions|
  {
    if actions == [] then w else Run(Step(w, actions[0]), actions[1..])
  }

  lemma {:induction false} RunKeeps(w: World, actions: seq<Action>)
    requires Inv(w) && Possible(w, actions)
    ensures Inv(Run(w, actions))
    decreases |actions|
  {
    if actions != [] {
      StepKeeps(w, actions[0]);
      RunKeeps(Step(w, actions[0]), actions[1..]);
    }
  }

  // ---------- what was handled ----------

  /** The frame decoded, and the local callback answered it with a status below 400. */
  predicate AnsweredOk(h: Handled) { h.outcome.decodes && !h.outcome.dispatchErr && h.outcome.status < 400 }

  /** And the answer could be sent back. */
  predicate SentBack(h: Handled) { AnsweredOk(h) && !h.outcome.sendErr }

  /** One of the first n frames handled was f, and it was answered. */
  predicate Answered(handled: seq<Handled>, n: nat, f: Frame) {
    exists k :: 0 <= k < n && k < |handled| && handled[k].frame == f && AnsweredOk(handled[k])
  }

  /** Nothing counts as taken, now or at an earlier passage, that had not been answered by then. */
  predicate TakenIsAnswered(w: World) {
    && (forall f <- w.accepted :: Answered(w.handled, |w.handled|, f))
    && forall p <- w.passed :: p.upTo <= |w.handled| && forall f <- p.taken :: Answered(w.handled, p.upTo, f)
  }

  /** The cursor is the highest number that was answered and sent back. */
  predicate CursorIsHighest(w: World) {
    && w.cursor >= 0
    && (forall h <- w.handled :: SentBack(h) ==> h.frame.cursor <= w.cursor)
    && (w.cursor > 0 ==> exists h <- w.handled :: SentBack(h) && h.frame.cursor == w.cursor)
  }

  lemma AnsweredMore(handled: seq<Handled>, h: Handled, n: nat, n': nat, f: Frame)
    requires Answered(handled, n, f) && n <= n'
    ensures Answered(handled + [h], n', f)
  {
    var k :| 0 <= k < n && k < |handled| && handled[k].frame == f && AnsweredOk(handled[k]);
    assert (handled + [h])[k] == handled[k];
  }

  lemma DeliverAnswered(w: World, o: Outcome)
    requires w.conn.Some? && w.conn.value.queue != [] && TakenIsAnswered(w)
    ensures TakenIsAnswered(DeliverStep(w, o))
  {
    var w', h := DeliverStep(w, o), Handled(w.conn.value.queue[0], o);
    forall f <- w'.accepted ensures Answered(w'.handled, |w'.handled|, f) {
      if f in w.accepted { AnsweredMore(w.handled, h, |w.handled|, |w'.handled|, f); }
      else { assert w'.handled[|w.handled|] == h; }
    }
    forall p <- w'.passed
      ensures p.upTo <= |w'.handled| && forall f <- p.taken :: Answered(w'.handled, p.upTo, f)
    {
      if p in w.passed {
        forall f <- p.taken ensures Answered(w'.handled, p.upTo, f) { AnsweredMore(w.handled, h, p.upTo, p.upTo, f); }
      } else {
        assert p == Passage(w'.now, w'.accepted, |w'.handled|);
      }
    }
  }

  lemma DeliverHighest(w: World, o: Outcome)
    requires w.conn.Some? && w.conn.value.queue != [] && CursorIsHighest(w)
    ensures CursorIsHighest(DeliverStep(w, o))
  {
    var w', h := DeliverStep(w, o), Handled(w.conn.value.queue[0], o);
    assert h in w'.handled && forall g :: g in w'.handled <==> g in w.handled || g == h;
    assert SentBack(h) <==> Succeeds(o);
  }

  lemma {:induction false} RunRecords(w: World, actions: seq<Action>)
    requires Possible(w, actions) && TakenIsAnswered(w) && CursorIsHighest(w)
    ensures TakenIsAnswered(Run(w, actions)) && CursorIsHighest(Run(w, actions))
    decreases |actions|
  {
    if actions != [] {
      if actions[0].Deliver? {
        DeliverAnswered(w, actions[0].o);
        DeliverHighest(w, actions[0].o);
      }
      RunRecords(Step(w, actions[0]), actions[1..]);
    }
  }

  /** After any run the client's cursor is the highest number of a frame that decoded, was answered with
      a status below 400 and had its answer sent back; it stands at 0 if there was none. */
  lemma CursorIsExact(ttl: int, now: int, actions: seq<Action>)
    requires Possible(Start(ttl, now), actions)
    ensures CursorIsHighest(Run(Start(ttl, now), actions))
  {
    RunRecords(Start(ttl, now), actions);
  }

  /** Prefix safety: after any run, whatever was lost, repeated, rejected, pruned or restarted on the
      way, every event up to the client's cursor had, when the cursor moved past it, been answered by the
      local handler with a status below 400, in the body it was stored with, or its time to live was over. */
  lemma CursorIsSafe(ttl: int, now: int, actions: seq<Action>, t: int)
    requires ttl > 0 && Possible(Start(ttl, now), actions)
    ensures var w := Run(Start(ttl, now), actions);
            && |w.passed| == w.cursor <= |w.stored|
            && (1 <= t <= w.cursor ==>
                  && w.passed[t - 1].at <= w.now && w.passed[t - 1].upTo <= |w.handled|
                  && (|| Answered(w.handled, w.passed[t - 1].upTo, Frame(t, w.stored[t - 1].body))
                      || w.stored[t - 1].ts < w.passed[t - 1].at - ttl))
  {
    assert Inv(Start(ttl, now));
    RunKeeps(Start(ttl, now), actions);
    RunRecords(Start(ttl, now), actions);
    TtlIsFixed(Start(ttl, now), actions);
    var w := Run(Start(ttl, now), actions);
    if 1 <= t <= w.cursor {
      assert DoneInTime(w, t);
      assert w.passed[t - 1] in w.passed;
    }
  }

  /** Buffer expiry: after any run, a buffered row means a pending alarm, due no later than a second after
      the later of the oldest row's expiry and the last clock reading of a constructor or an alarm, and no
      earlier than a second after that reading, so that an alarm never sets itself off again at once. */
  lemma BufferExpires(ttl: int, now: int, actions: seq<Action>)
    requires ttl > 0 && Possible(Start(ttl, now), actions)
    ensures var w := Run(Start(ttl, now), actions);
            && AlarmCovers(w.buffer, ttl, w.reading) && w.reading <= w.now
            && InSeqOrder(w.buffer) && w.buffer.lastSeq == |w.stored|
  {
    assert Inv(Start(ttl, now));
    RunKeeps(Start(ttl, now), actions);
    TtlIsFixed(Start(ttl, now), actions);
  }

  lemma {:induction false} TtlIsFixed(w: World, actions: seq<Action>)
    requires Possible(w, actions)
    ensures Run(w, actions).ttl == w.ttl
    decreases |actions|
  {
    if actions != [] { TtlIsFixed(Step(w, actions[0]), actions[1..]); }
  }
}
