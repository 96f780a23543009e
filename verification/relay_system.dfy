/** The relay and its client as one system, and what the client's cursor promises. */
module RelaySystem {
  import opened Prelude
  import opened RelayBuffer
  import opened RelayEnds

  datatype Event = Event(ts: int, body: string)

  /** The client's session: frames sent and not yet handled, in order, and whether a send has failed. */
  datatype Conn = Conn(queue: seq<Frame>, dead: bool)

  /** A frame the client handled, and how that went. */
  datatype Handled = Handled(frame: Frame, outcome: Outcome)

  /** The moment the cursor moved past a number: the clock, what had been taken by then, and how many
      frames had been handled. */
  datatype Passage = Passage(at: int, taken: set<Frame>, upTo: nat)

  /** stored, accepted and passed are history: event n was given sequence number n + 1; accepted holds
      what the local handler took; handled lists every frame with its outcome; passed[n] is when the cursor
      moved past number n + 1. pending are events stored whose broadcast has not happened yet; broadcasts
      happen in the order of storing.
      reading is the last clock reading of a constructor or an alarm. */
  datatype World = World(
    ttl: int,
    now: int,
    stored: seq<Event>,
    buffer: Buffer,
    reading: int,
    pending: seq<Frame>,
    conn: Option<Conn>,
    cursor: int,
    accepted: set<Frame>,
    handled: seq<Handled>,
    passed: seq<Passage>)

  datatype Action =
    | Tick(t: int)
    | Arrive(body: string)
    | Challenge(body: string, toClient: bool)
    | Broadcast(ok: bool)
    | Subscribe(sends: nat)
    | Deliver(o: Outcome)
    | Disconnect
    | AlarmFires(later: int)
    | Restart
    | Wake

  function Start(ttl: int, now: int): World {
    World(ttl, now, [], Buffer([], 0, None), now, [], None, 0, {}, [], [])
  }

  /** Which actions a state allows. */
  predicate Enabled(w: World, a: Action) {
    match a
    case Tick(t) => t >= w.now
    case Broadcast(_) => w.pending != []
    case Subscribe(_) => w.conn.None?
    case Deliver(_) => w.conn.Some? && w.conn.value.queue != []
    case AlarmFires(later) => w.buffer.alarm.Some? && w.buffer.alarm.value <= w.now <= later
    case Wake => w.pending == []
    case _ => true
  }

  function Sending(c: Option<Conn>, f: Frame, ok: bool): Option<Conn> {
    match c
    case None => None
    case Some(Conn(queue, dead)) => Some(if ok && !dead then Conn(queue + [f], false) else Conn(queue, true))
  }

  /** The event is stored with the clock's reading; its broadcast is a step of its own. */
  function ArriveStep(w: World, body: string): World {
    var b := RelayBuffer.Ingest(w.buffer, w.now, body, w.ttl);
    w.(buffer := b, stored := w.stored + [Event(w.now, body)], pending := w.pending + [Frame(b.lastSeq, body)])
  }

  /** A challenge only prunes the buffer; it goes to one socket, which may be the client's. */
  function ChallengeStep(w: World, body: string, toClient: bool): World {
    w.(buffer := RelayBuffer.PruneExpired(w.buffer, w.now, w.ttl),
       conn := if toClient && w.conn.Some? && !w.conn.value.dead then Sending(w.conn, Frame(0, body), true) else w.conn)
  }

  function BroadcastStep(w: World, ok: bool): World
    requires w.pending != []
  {
    w.(pending := w.pending[1..], conn := Sending(w.conn, w.pending[0], ok))
  }

  /** Replay to a new session, of which the first `sends` sends succeed. */
  function SubscribeStep(w: World, sends: nat): World {
    var due := Replayable(w.buffer.rows, w.cursor, w.now - w.ttl);
    w.(conn := Some(if sends < |due| then Conn(due[..sends], true) else Conn(due, false)))
  }

  /** Every number up to n has been passed, the new ones just now. */
  function PassedUpTo(passed: seq<Passage>, n: int, p: Passage): seq<Passage> {
    if n <= |passed| then passed else passed + seq(n - |passed|, _ => p)
  }

  /** The client handles the next frame. Whatever fails ends the session. */
  function DeliverStep(w: World, o: Outcome): World
    requires w.conn.Some? && w.conn.value.queue != []
  {
    var Conn(queue, dead) := w.conn.value;
    var f := queue[0];
    var accepted := if TakenLocally(o) then w.accepted + {f} else w.accepted;
    var cursor := if Succeeds(o) then Advanced(w.cursor, f.cursor) else w.cursor;
    w.(accepted := accepted,
       handled := w.handled + [Handled(f, o)],
       cursor := cursor,
       passed := PassedUpTo(w.passed, cursor, Passage(w.now, accepted, |w.handled| + 1)),
       conn := if Succeeds(o) then Some(Conn(queue[1..], dead)) else None)
  }

  function Step(w: World, a: Action): World
    requires Enabled(w, a)
  {
    match a
    case Tick(t) => w.(now := t)
    case Arrive(body) => ArriveStep(w, body)
    case Challenge(body, toClient) => ChallengeStep(w, body, toClient)
    case Broadcast(ok) => BroadcastStep(w, ok)
    case Subscribe(sends) => SubscribeStep(w, sends)
    case Deliver(o) => DeliverStep(w, o)
    case Disconnect => w.(conn := None)
    case AlarmFires(later) =>
      w.(buffer := RelayBuffer.Alarm(w.buffer, w.now, later, w.ttl), now := later, reading := later)
    case Restart =>
      w.(buffer := RelayBuffer.ScheduleNextPrune(w.buffer, w.now, w.ttl), reading := w.now, pending := [], conn := None)
    case Wake => w.(buffer := RelayBuffer.ScheduleNextPrune(w.buffer, w.now, w.ttl), reading := w.now)
  }

  // ---------- the invariant ----------

  /** Event number t was taken by the local handler, or its time to live is over. */
  predicate Done(w: World, t: int)
    requires 1 <= t <= |w.stored|
  {
    Frame(t, w.stored[t - 1].body) in w.accepted || w.stored[t - 1].ts < w.now - w.ttl
  }

  /** One of the first n frames of the line carries number t. */
  predicate Has(line: seq<Frame>, n: int, t: int) { exists j :: 0 <= j < n && j < |line| && line[j].cursor == t }

  predicate Genuine(w: World, f: Frame) {
    f.cursor == 0 || (1 <= f.cursor <= |w.stored| && f.body == w.stored[f.cursor - 1].body)
  }

  predicate AllGenuine(w: World, line: seq<Frame>) { forall f <- line :: Genuine(w, f) }

  /** By the time a frame is handled, every event up to its number is done or was handled before it. */
  predicate Gapless(w: World, line: seq<Frame>) {
    forall i, t | 0 <= i < |line| && 1 <= t <= line[i].cursor && t <= |w.stored| :: Done(w, t) || Has(line, i + 1, t)
  }

  /** Every event is done or still on its way. */
  predicate Complete(w: World, line: seq<Frame>) {
    forall t | 1 <= t <= |w.stored| :: Done(w, t) || Has(line, |line|, t)
  }

  /** The rows of the table are events under their own numbers. */
  predicate RowsAreEvents(w: World) {
    forall r <- w.buffer.rows :: 1 <= r.seqNo <= |w.stored| && Event(r.ts, r.body) == w.stored[r.seqNo - 1]
  }

  /** Every event that is not in the table has expired. */
  predicate MissingExpired(w: World) {
    forall t | 1 <= t <= |w.stored| :: InTable(w, t) || w.stored[t - 1].ts < w.now - w.ttl
  }

  predicate TableExact(w: World) {
    InSeqOrder(w.buffer) && w.buffer.lastSeq == |w.stored| && RowsAreEvents(w) && MissingExpired(w)
  }

  predicate InTable(w: World, t: int)
    requires 1 <= t <= |w.stored|
  {
    Row(t, w.stored[t - 1].ts, w.stored[t - 1].body) in w.buffer.rows
  }

  /** The promise: every event up to the client's cursor was taken, or had expired first. */
  predicate PrefixSafe(w: World) {
    w.cursor <= |w.stored| && forall t | 1 <= t <= w.cursor :: Done(w, t)
  }

  /** Event number t had been taken, or had expired, when the cursor moved past it. */
  predicate DoneInTime(w: World, t: int)
    requires 1 <= t <= |w.stored| && t <= |w.passed|
  {
    var p := w.passed[t - 1];
    Frame(t, w.stored[t - 1].body) in p.taken || w.stored[t - 1].ts < p.at - w.ttl
  }

  /** The same promise as it stood at each moment of the run. */
  predicate HistorySafe(w: World) {
    && |w.passed| == w.cursor <= |w.stored|
    && (forall p <- w.passed :: p.at <= w.now && p.taken <= w.accepted)
    && forall t | 1 <= t <= w.cursor :: DoneInTime(w, t)
  }

  predicate SessionSafe(w: World) {
    && AllGenuine(w, w.pending)
    && match w.conn
       case None => true
       case Some(Conn(queue, dead)) =>
         && AllGenuine(w, queue)
         && (if dead then Gapless(w, queue) else Gapless(w, queue + w.pending) && Complete(w, queue + w.pending))
  }

  predicate AlarmSafe(w: World) { w.ttl > 0 && w.reading <= w.now && AlarmCovers(w.buffer, w.ttl, w.reading) }

  predicate Inv(w: World) {
    PrefixSafe(w) && HistorySafe(w) && SessionSafe(w) && TableExact(w) && AlarmSafe(w)
  }

  // ---------- what growing history keeps ----------

  /** w' has seen no less than w: the same events, maybe more, a clock no earlier, no fewer taken. */
  predicate Later(w: World, w': World) {
    && |w.stored| <= |w'.stored| && w'.stored[..|w.stored|] == w.stored
    && w'.ttl == w.ttl && w.now <= w'.now && w.accepted <= w'.accepted
  }

  lemma DoneStays(w: World, w': World, t: int)
    requires Later(w, w') && 1 <= t <= |w.stored|
    ensures Done(w, t) ==> Done(w', t)
  {
    assert w'.stored[t - 1] == w'.stored[..|w.stored|][t - 1];
  }

  lemma GenuineStays(w: World, w': World, line: seq<Frame>)
    requires Later(w, w') && AllGenuine(w, line)
    ensures AllGenuine(w', line)
  {
    forall f <- line ensures Genuine(w', f) {
      if f.cursor != 0 { assert w'.stored[f.cursor - 1] == w'.stored[..|w.stored|][f.cursor - 1]; }
    }
  }

  lemma GaplessStays(w: World, w': World, line: seq<Frame>)
    requires Later(w, w') && Gapless(w, line) && AllGenuine(w, line)
    ensures Gapless(w', line)
  {
    forall i, t | 0 <= i < |line| && 1 <= t <= line[i].cursor && t <= |w'.stored|
      ensures Done(w', t) || Has(line, i + 1, t)
    {
      assert Genuine(w, line[i]);
      DoneStays(w, w', t);
    }
  }

  lemma CompleteStays(w: World, w': World, line: seq<Frame>)
    requires Later(w, w') && w'.stored == w.stored && Complete(w, line)
    ensures Complete(w', line)
  {
    forall t | 1 <= t <= |w'.stored| ensures Done(w', t) || Has(line, |line|, t) { DoneStays(w, w', t); }
  }

  lemma PrefixStays(w: World, w': World)
    requires Later(w, w') && PrefixSafe(w) && w'.cursor == w.cursor
    ensures PrefixSafe(w')
  {
    forall t | 1 <= t <= w'.cursor ensures Done(w', t) { DoneStays(w, w', t); }
  }

  lemma HistoryStays(w: World, w': World)
    requires Later(w, w') && HistorySafe(w) && w'.cursor == w.cursor && w'.passed == w.passed
    ensures HistorySafe(w')
  {
    forall t | 1 <= t <= w'.cursor ensures DoneInTime(w', t) {
      assert DoneInTime(w, t) && w'.stored[t - 1] == w'.stored[..|w.stored|][t - 1];
    }
  }

  /** Steps that leave the line of frames and the events alone keep the session safe. */
  lemma SessionStays(w: World, w': World)
    requires Later(w, w') && w'.stored == w.stored && SessionSafe(w) && w'.conn == w.conn && w'.pending == w.pending
    ensures SessionSafe(w')
  {
    GenuineStays(w, w', w.pending);
    if w.conn.Some? {
      var queue := w.conn.value.queue;
      GenuineStays(w, w', queue);
      if w.conn.value.dead {
        GaplessStays(w, w', queue);
      } else {
        GaplessStays(w, w', queue + w.pending);
        CompleteStays(w, w', queue + w.pending);
      }
    }
  }
}
