/** Why a socket has to stay dead after a failed send: the relay swallows the failure, so a frame that
    still gets through afterwards would carry the client's cursor past a lost one. */
module RelayLossy {
  import opened Prelude
  import opened RelayBuffer
  import opened RelayEnds
  import opened RelaySystem
  import opened RelaySafety

  /** What arrives of a line of frames, given which sends succeed. */
  function Heard(line: seq<Frame>, oks: seq<bool>): seq<Frame>
    requires |oks| == |line|
  {
    if line == [] then []
    else
      var k := |line| - 1;
      Heard(line[..k], oks[..k]) + if oks[k] then [line[k]] else []
  }

  predicate NoneAfterFailure(oks: seq<bool>) { forall i, j | 0 <= i < j < |oks| :: oks[j] ==> oks[i] }

  /** The frames of events that are not done yet, in the order of their numbers. */
  predicate Awaited(w: World, line: seq<Frame>) {
    && (forall f <- line :: 1 <= f.cursor <= |w.stored| && !Done(w, f.cursor))
    && forall i, j | 0 <= i < j < |line| :: line[i].cursor < line[j].cursor
  }

  lemma {:induction false} HeardIs(line: seq<Frame>, oks: seq<bool>)
    requires |oks| == |line|
    ensures forall f :: f in Heard(line, oks) <==> exists k :: 0 <= k < |line| && oks[k] && line[k] == f
  {
    if line != [] {
      var n := |line| - 1;
      HeardIs(line[..n], oks[..n]);
      forall f ensures f in Heard(line, oks) <==> exists k :: 0 <= k < |line| && oks[k] && line[k] == f {
        if f in Heard(line[..n], oks[..n]) {
          var k :| 0 <= k < n && oks[..n][k] && line[..n][k] == f;
          assert oks[k] && line[k] == f;
        }
        if k :| 0 <= k < |line| && oks[k] && line[k] == f {
          if k < n { assert oks[..n][k] && line[..n][k] == f; }
        }
      }
    }
  }

  /** With no success after a failure, what arrives is a prefix. */
  lemma {:induction false} HeardPrefix(line: seq<Frame>, oks: seq<bool>) returns (k: nat)
    requires |oks| == |line| && NoneAfterFailure(oks)
    ensures k <= |line| && Heard(line, oks) == line[..k] && (k < |line| ==> !oks[|line| - 1])
  {
    if line == [] { k := 0; }
    else {
      var n := |line| - 1;
      k := HeardPrefix(line[..n], oks[..n]);
      assert n > 0 && oks[n] ==> oks[..n][n - 1];
      if oks[n] {
        k := n + 1;
        assert line[..n] + [line[n]] == line[..k];
      } else {
        assert line[..n][..k] == line[..k];
      }
    }
  }

  lemma LostIsPassed(w: World, line: seq<Frame>, oks: seq<bool>, i: int, j: int)
    requires |oks| == |line| && Awaited(w, line) && 0 <= i < j < |line| && oks[j] && !oks[i]
    ensures !Gapless(w, Heard(line, oks))
  {
    var heard, t := Heard(line, oks), line[i].cursor;
    HeardIs(line, oks);
    assert line[i] in line && line[j] in heard;
    var x :| 0 <= x < |heard| && heard[x] == line[j];
    forall f <- heard ensures f.cursor != t {
      var k :| 0 <= k < |line| && oks[k] && line[k] == f;
      assert k < i || i < k;
    }
    assert !Has(heard, x + 1, t);
  }

  /** On frames the client waits for, the line it hears is without gaps if and only if no send succeeded
      after a failed one. */
  lemma DeadSocketExact(w: World, line: seq<Frame>, oks: seq<bool>)
    requires |oks| == |line| && Awaited(w, line) && Gapless(w, line)
    ensures Gapless(w, Heard(line, oks)) <==> NoneAfterFailure(oks)
  {
    if NoneAfterFailure(oks) {
      var k := HeardPrefix(line, oks);
      assert line[..k] + line[k..] == line;
      PrefixOfLine(w, line[..k], line[k..]);
    } else {
      var i, j :| 0 <= i < j < |oks| && oks[j] && !oks[i];
      LostIsPassed(w, line, oks, i, j);
    }
  }

  // ---------- a run over such a socket ----------

  /** Two events wait to be broadcast to a subscribed client. */
  function TwoWaiting(ttl: int, now: int, a: string, b: string): World {
    Step(Step(Step(Start(ttl, now), Subscribe(0)), Arrive(a)), Arrive(b))
  }

  /** Both frames are sent, and only some sends succeed. */
  function SentLoosely(w: World, oks: seq<bool>): World
    requires w.conn.Some? && |oks| == |w.pending|
  {
    w.(pending := [], conn := Some(Conn(w.conn.value.queue + Heard(w.pending, oks), false)))
  }

  lemma ArriveAdds(w: World, body: string)
    ensures var w' := Step(w, Arrive(body));
            && w'.stored == w.stored + [Event(w.now, body)]
            && w'.buffer.lastSeq == w.buffer.lastSeq + 1
            && w'.pending == w.pending + [Frame(w'.buffer.lastSeq, body)]
            && w'.conn == w.conn && w'.cursor == w.cursor && w'.accepted == w.accepted && w'.now == w.now
            && w'.ttl == w.ttl
  {
    IngestShape(w.buffer, w.now, body, w.ttl);
  }

  /** Two events are stored, and their frames are on their way to the client. */
  ghost predicate Waits(w: World, ttl: int, now: int, a: string, b: string) {
    && w.stored == [Event(now, a), Event(now, b)] && w.accepted == {} && w.cursor == 0 && w.now == now
    && w.ttl == ttl && w.pending == [Frame(1, a), Frame(2, b)] && w.conn == Some(Conn([], false))
  }

  lemma TwoWaitingShape(ttl: int, now: int, a: string, b: string)
    ensures Waits(TwoWaiting(ttl, now, a, b), ttl, now, a, b)
  {
    var w1 := Step(Start(ttl, now), Subscribe(0));
    assert w1.conn == Some(Conn([], false)) && w1.buffer.lastSeq == 0;
    ArriveAdds(w1, a);
    ArriveAdds(Step(w1, Arrive(a)), b);
  }

  lemma HeardSecond(a: Frame, b: Frame)
    ensures Heard([a, b], [false, true]) == [b]
  {
    var line, oks := [a, b], [false, true];
    assert line[..1] == [a] && oks[..1] == [false] && line[..1][..0] == [] && oks[..1][..0] == [];
    assert Heard(line[..1], oks[..1]) == [];
  }

  lemma SecondTaken(w: World, ttl: int, now: int, a: string, b: string, o: Outcome)
    requires Waits(w, ttl, now, a, b) && ttl > 0 && Succeeds(o)
    ensures var w' := SentLoosely(w, [false, true]);
            && w'.conn == Some(Conn([Frame(2, b)], false))
            && DeliverStep(w', o).cursor == 2 && !PrefixSafe(DeliverStep(w', o))
  {
    HeardSecond(Frame(1, a), Frame(2, b));
    var w' := DeliverStep(SentLoosely(w, [false, true]), o);
    assert w'.accepted == {Frame(2, b)} && w'.stored[0] == Event(now, a);
    assert !Done(w', 1);
  }

  /** The first send fails, the second does not: the client takes event 2, its cursor moves to 2, and
      event 1, neither taken nor expired, will never be replayed to it. */
  lemma LaterFramePasses(ttl: int, now: int, a: string, b: string, o: Outcome)
    requires ttl > 0 && Succeeds(o)
    ensures TwoWaiting(ttl, now, a, b).conn.Some? && |TwoWaiting(ttl, now, a, b).pending| == 2
    ensures var w := SentLoosely(TwoWaiting(ttl, now, a, b), [false, true]);
            && w.conn == Some(Conn([Frame(2, b)], false))
            && DeliverStep(w, o).cursor == 2 && !PrefixSafe(DeliverStep(w, o))
  {
    TwoWaitingShape(ttl, now, a, b);
    SecondTaken(TwoWaiting(ttl, now, a, b), ttl, now, a, b, o);
  }
}
