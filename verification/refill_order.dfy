/** When it matters how late a commit arrives for a sequence that is already resolved: one that was
    given up and then fetched after all, or one that is reported again with other media. */
module RefillOrder {
  import opened Prelude
  import opened Ledgers
  import opened LedgerFacts
  import opened Checkpoints
  import opened Accountants
  import opened Confluence

  // ---------- gap lists ----------

  lemma {:induction false} WithoutBoth(gaps: seq<Gap>, s: int, t: int)
    ensures WithoutSingle(WithoutSingle(gaps, s), t) == WithoutSingle(WithoutSingle(gaps, t), s)
  {
    if gaps != [] {
      var rest, g := gaps[..|gaps| - 1], gaps[|gaps| - 1];
      WithoutBoth(rest, s, t);
      assert (WithoutSingle(rest, s) + [g])[..|WithoutSingle(rest, s)|] == WithoutSingle(rest, s);
      assert (WithoutSingle(rest, t) + [g])[..|WithoutSingle(rest, t)|] == WithoutSingle(rest, t);
    }
  }

  /** Below the cut a single gap may go before or after it, if nothing else covers its sequence. */
  lemma {:induction false} TrimWithout(gaps: seq<Gap>, s: int, b: int)
    requires s > b || !GapCovered(WithoutSingle(gaps, s), s)
    ensures TrimGaps(WithoutSingle(gaps, s), b) ==
            if s > b then TrimGaps(gaps, b) else WithoutSingle(TrimGaps(gaps, b), s)
  {
    if gaps != [] {
      var rest, g := gaps[..|gaps| - 1], gaps[|gaps| - 1];
      assert forall h :: h in WithoutSingle(rest, s) ==> h in WithoutSingle(gaps, s);
      assert s <= b ==> !GapCovered(WithoutSingle(rest, s), s);
      TrimWithout(rest, s, b);
      assert (WithoutSingle(rest, s) + [g])[..|WithoutSingle(rest, s)|] == WithoutSingle(rest, s);
      if s <= b && !g.SingleAt(s) {
        assert g in WithoutSingle(gaps, s) && !g.Covers(s);
        var cut := TrimGaps(rest, b) + [CutGap(g, b)];
        assert cut[..|cut| - 1] == TrimGaps(rest, b);
      }
    }
  }

  // ---------- the noted ledger, with and without the commit ----------

  lemma TwoCommits(l: Ledger, s: int, m: Media, t: int, m': Media)
    requires s != t
    ensures WithCommit(WithCommit(l, s, m), t, m') == WithCommit(WithCommit(l, t, m'), s, m)
  {
    var a, b := WithCommit(WithCommit(l, s, m), t, m'), WithCommit(WithCommit(l, t, m'), s, m);
    WithoutBoth(l.gaps, s, t);
    assert a.resolved == b.resolved;
    assert a.buffered == b.buffered;
    assert a.accounting == b.accounting;
  }

  lemma CommitAndGap(l: Ledger, s: int, m: Media, t: int, reason: GapReason)
    requires s != t
    ensures WithGap(WithCommit(l, s, m), t, reason) == WithCommit(WithGap(l, t, reason), s, m)
  {
    if t !in l.resolved {
      var g := Gap(t, t, reason);
      assert (l.gaps + [g])[..|l.gaps|] == l.gaps;
      assert l.resolved + {s} + {t} == l.resolved + {t} + {s};
    }
  }

  lemma NoteOneFilled(l: Ledger, o: Outcome, s: int, m: Media)
    requires o.s != s
    ensures NoteOne(WithCommit(l, s, m), o) == WithCommit(NoteOne(l, o), s, m)
  {
    match o
    case Committed(t, m') => TwoCommits(l, s, m, t, m');
    case _ => CommitAndGap(l, s, m, o.s, GapOf(o).reason);
  }

  lemma {:induction false} NoteAllFilled(l: Ledger, os: seq<Outcome>, s: int, m: Media)
    requires forall o <- os :: o.s != s
    ensures NoteAll(WithCommit(l, s, m), os) == WithCommit(NoteAll(l, os), s, m)
  {
    if os != [] {
      var k := |os| - 1;
      assert forall o <- os[..k] :: o in os;
      NoteAllFilled(l, os[..k], s, m);
      NoteOneFilled(NoteAll(l, os[..k]), os[k], s, m);
    }
  }

  /** s is lost, by a gap of its own and no other. */
  predicate LostOnce(l: Ledger, s: int) {
    HasSingle(l.gaps, s) && !GapCovered(WithoutSingle(l.gaps, s), s) && s !in l.buffered
  }

  lemma NoteOneLost(l: Ledger, o: Outcome, s: int)
    requires LostOnce(l, s) && o.s != s
    ensures LostOnce(NoteOne(l, o), s)
  {
    var g :| g in l.gaps && g.SingleAt(s);
    if o.Committed? {
      assert g in WithoutSingle(l.gaps, o.s);
      WithoutBoth(l.gaps, o.s, s);
      forall h | h in WithoutSingle(WithoutSingle(l.gaps, o.s), s) ensures !h.Covers(s) {
        assert h in WithoutSingle(l.gaps, s);
      }
    } else if o.s !in l.resolved {
      var h := Gap(o.s, o.s, GapOf(o).reason);
      assert g in l.gaps + [h];
      assert (l.gaps + [h])[..|l.gaps|] == l.gaps;
      GapCoveredSnoc(WithoutSingle(l.gaps, s), h);
    }
  }

  lemma {:induction false} NoteAllLost(l: Ledger, os: seq<Outcome>, s: int)
    requires LostOnce(l, s) && forall o <- os :: o.s != s
    ensures LostOnce(NoteAll(l, os), s)
  {
    if os != [] {
      var k := |os| - 1;
      assert forall o <- os[..k] :: o in os;
      NoteAllLost(l, os[..k], s);
      NoteOneLost(NoteAll(l, os[..k]), os[k], s);
    }
  }

  /** The running totals with and without the commit of a lost sequence. */
  lemma {:induction false} FilledTotals(n: Ledger, s: int, m: Media, t: int)
    requires s > n.frontier && s !in n.buffered
    ensures TotalAt(WithCommit(n, s, m), t) == if t < s then TotalAt(n, t) else Plus(TotalAt(n, t), m)
    decreases t - n.frontier
  {
    if t > n.frontier { FilledTotals(n, s, m, t - 1); }
  }

  /** What StopMeaning says determines where the frontier stops. */
  lemma {:induction false} StopUnique(l: Ledger, t0: int, lim: Limits, f: int, crossed: bool)
    requires t0 <= f && forall x | t0 < x <= f :: x in l.resolved
    requires forall x | t0 < x < f :: !Reached(TotalAt(l, x), lim)
    requires if crossed then t0 < f && Reached(TotalAt(l, f), lim)
             else f + 1 !in l.resolved && (t0 < f ==> !Reached(TotalAt(l, f), lim))
    ensures Stop(l, t0, lim) == (f, crossed)
    decreases f - t0
  {
    if t0 < f && !Reached(TotalAt(l, t0 + 1), lim) { StopUnique(l, t0 + 1, lim, f, crossed); }
  }

  // ---------- first or last ----------

  /** The frontier of the batch. */
  function Stops(n: Ledger, lim: Limits): int { Stop(n, n.frontier, lim).0 }

  /** A frontier that stops below s stops there with and without the commit. */
  lemma StopsBelow(n: Ledger, s: int, m: Media, lim: Limits)
    requires s in n.resolved && Stops(n, lim) < s
    ensures Stop(WithCommit(n, s, m), n.frontier, lim) == Stop(n, n.frontier, lim)
  {
    var n' := WithCommit(n, s, m);
    var (t, crossed) := Stop(n, n.frontier, lim);
    StopMeaning(n, n.frontier, lim);
    assert n'.resolved == n.resolved;
    forall x | x < s ensures TotalAt(n', x) == TotalAt(n, x) { TotalAtBelow(n, Committed(s, m), x); }
    StopUnique(n', n.frontier, lim, t, crossed);
  }

  lemma SealWithout(n: Ledger, s: int, m: Media, t: int)
    requires n.frontier <= t < s && s in n.resolved
    ensures Seal(MoveTo(WithCommit(n, s, m), t), t) == Seal(MoveTo(n, t), t)
  {
    var a, b := Seal(MoveTo(WithCommit(n, s, m), t), t), Seal(MoveTo(n, t), t);
    TrimWithout(n.gaps, s, t);
    TotalAtBelow(n, Committed(s, m), t);
    assert a.buffered == b.buffered;
    assert a.accounting == b.accounting;
    assert a.resolved == b.resolved;
  }

  lemma {:induction false} MediaAfterAllFilled(media: map<int, Media>, os: seq<Outcome>, s: int, m: Media)
    requires forall o <- os :: o.s != s
    ensures MediaAfterAll(media[s := m], os) == MediaAfterAll(media, os)[s := m]
  {
    if os != [] {
      assert forall o <- os[..|os| - 1] :: o in os;
      MediaAfterAllFilled(media, os[..|os| - 1], s, m);
    }
  }

  /** A part that is being fetched, and a sequence above its frontier that it has resolved. */
  predicate Resolved(p: Part, s: int) { s > p.c.ledger.frontier && s in p.c.ledger.resolved }

  lemma EarlyCommit(p: Part, s: int, m: Media, lim: Limits)
    requires PartInv(p) && !ShouldSkipSegmentFetch(p.c) && Resolved(p, s)
    ensures Apply(p, Seen(Committed(s, m)), lim) == Part(p.c.(ledger := WithCommit(p.c.ledger, s, m)), p.media[s := m])
  {
    var l := WithCommit(p.c.ledger, s, m);
    assert l.resolved == p.c.ledger.resolved;
    assert Stop(l, l.frontier, lim) == (l.frontier, false);
  }

  /** What the batch with the commit noted first comes to. */
  function CutAll(c: Checkpoint, n: Ledger, media: map<int, Media>, lim: Limits): Part {
    var (l, crossed) := Advance(n, lim);
    CutIfCrossed(Part(c.(ledger := l), media), crossed)
  }

  lemma CommitFirst(p: Part, os: seq<Outcome>, s: int, m: Media, lim: Limits)
    requires PartInv(p) && !ShouldSkipSegmentFetch(p.c) && FreshStream(p, os) && Resolved(p, s)
    ensures var n, media := NoteAll(p.c.ledger, os), MediaAfterAll(p.media, os);
            Play(Apply(p, Seen(Committed(s, m)), lim), os, lim) == CutAll(p.c, WithCommit(n, s, m), media[s := m], lim)
  {
    var q := Apply(p, Seen(Committed(s, m)), lim);
    EarlyCommit(p, s, m, lim);
    ApplyKeeps(p, Seen(Committed(s, m)), lim);
    assert q.c.ledger.resolved == p.c.ledger.resolved;
    StreamIsBatch(q, os, lim);
    NoteAllFilled(p.c.ledger, os, s, m);
    MediaAfterAllFilled(p.media, os, s, m);
  }

  lemma CommitLast(p: Part, os: seq<Outcome>, lim: Limits)
    requires PartInv(p) && !ShouldSkipSegmentFetch(p.c) && FreshStream(p, os)
    ensures Play(p, os, lim) == CutAll(p.c, NoteAll(p.c.ledger, os), MediaAfterAll(p.media, os), lim)
  {
    StreamIsBatch(p, os, lim);
  }

  /** A part that stands at t, and the same part sealed there. */
  function Sealed(c: Checkpoint, l: Ledger, media: map<int, Media>, t: int): Part {
    Part(SealSplit(c.(ledger := l, split := c.split.(pending := true, threshold := true)), t), MediaUpTo(media, t))
  }

  lemma CutAt(c: Checkpoint, n: Ledger, media: map<int, Media>, lim: Limits)
    requires !c.split.pending && AboveFrontier(n) && n.started && n.frontier + 1 >= n.partStart
    ensures var (t, crossed) := Stop(n, n.frontier, lim);
            CutAll(c, n, media, lim) ==
            if crossed then Sealed(c, MoveTo(n, t), media, t) else Part(c.(ledger := MoveTo(n, t)), media)
  {
    AdvanceIsMove(n, lim);
    StopMeaning(n, n.frontier, lim);
  }

  /** A stream that stops below s has the same effect before the commit and after it. */
  lemma StopsBelowSame(c: Checkpoint, n: Ledger, media: map<int, Media>, s: int, m: Media, lim: Limits)
    requires !c.split.pending && !c.split.threshold && AboveFrontier(n) && n.started
    requires n.frontier + 1 >= n.partStart && s in n.resolved && Stops(n, lim) < s
    ensures CutAll(c, WithCommit(n, s, m), media[s := m], lim) ==
            Apply(CutAll(c, n, media, lim), Seen(Committed(s, m)), lim)
  {
    var t := Stops(n, lim);
    NoteAboveFrontier(n, Committed(s, m));
    CutAt(c, n, media, lim);
    CutAt(c, WithCommit(n, s, m), media[s := m], lim);
    StopMeaning(n, n.frontier, lim);
    StopsBelow(n, s, m, lim);
    if Stop(n, n.frontier, lim).1 {
      SealWithout(n, s, m, t);
      assert MediaUpTo(media[s := m], t) == MediaUpTo(media, t);
    } else {
      EarlyOpen(c, n, media, s, m, t, lim);
    }
  }

  lemma EarlyOpen(c: Checkpoint, n: Ledger, media: map<int, Media>, s: int, m: Media, t: int, lim: Limits)
    requires n.frontier <= t < s && s in n.resolved && t + 1 !in n.resolved && !c.split.threshold
    ensures Apply(Part(c.(ledger := MoveTo(n, t)), media), Seen(Committed(s, m)), lim) ==
            Part(c.(ledger := MoveTo(WithCommit(n, s, m), t)), media[s := m])
  {
    NoteAfterMove(n, Committed(s, m), t);
    var l := MoveTo(WithCommit(n, s, m), t);
    assert s in MoveTo(n, t).resolved && l.resolved == MoveTo(n, t).resolved;
    assert Stop(l, t, lim) == (t, false);
  }

  // ---------- a stream that passes the sequence ----------

  lemma MoveFilled(n: Ledger, s: int, m: Media, t: int)
    requires n.frontier < s <= t && s !in n.buffered
    ensures MoveTo(WithCommit(n, s, m), t) ==
            MoveTo(n, t).(gaps := WithoutSingle(n.gaps, s), total := Plus(TotalAt(n, t), m))
  {
    var a, b := MoveTo(WithCommit(n, s, m), t), MoveTo(n, t);
    FilledTotals(n, s, m, t);
    assert a.buffered == b.buffered;
    assert a.accounting == b.accounting;
    assert a.resolved == b.resolved;
  }

  /** A refill below the frontier leaves the ledger as if the commit had come in time. */
  lemma LateRefill(n: Ledger, s: int, m: Media, t: int, lim: Limits)
    requires LostOnce(n, s) && n.frontier < s <= t
    ensures var l := MoveTo(WithCommit(n, s, m), t);
            Commit(MoveTo(n, t), s, m, lim) == (l, if Reached(l.total, lim) then Some(t) else None)
  {
    MoveFilled(n, s, m, t);
  }

  lemma TrimKeepsSingle(gaps: seq<Gap>, s: int, t: int)
    requires HasSingle(gaps, s) && s <= t
    ensures HasSingle(TrimGaps(gaps, t), s)
  {
    var g :| g in gaps && g.SingleAt(s);
    assert CutGap(g, t) == g && g in TrimGaps(gaps, t);
  }

  lemma SealedRefill(n: Ledger, s: int, m: Media, t: int, lim: Limits)
    requires LostOnce(n, s) && n.frontier < s <= t
    ensures Commit(Seal(MoveTo(n, t), t), s, m, lim).0 == Seal(MoveTo(WithCommit(n, s, m), t), t)
  {
    TrimKeepsSingle(n.gaps, s, t);
    TrimWithout(n.gaps, s, t);
    MoveFilled(n, s, m, t);
  }

  /** With the commit counted, no ceiling is reached from s to before t. */
  predicate NoneReached(n: Ledger, s: int, m: Media, t: int, lim: Limits) {
    forall x | s <= x < t :: !Reached(TotalAt(WithCommit(n, s, m), x), lim)
  }

  lemma StopsAt(n: Ledger, s: int, m: Media, lim: Limits)
    requires s > n.frontier && s in n.resolved && s !in n.buffered && s <= Stops(n, lim)
    requires m.bytes >= 0 && m.seconds >= 0.0 && NoneReached(n, s, m, Stops(n, lim), lim)
    ensures var n', t := WithCommit(n, s, m), Stops(n, lim);
            && Stop(n', n.frontier, lim) == (t, Reached(TotalAt(n', t), lim))
            && (Stop(n, n.frontier, lim).1 ==> Reached(TotalAt(n', t), lim))
  {
    var n' := WithCommit(n, s, m);
    var (t, crossed) := Stop(n, n.frontier, lim);
    StopMeaning(n, n.frontier, lim);
    assert n'.resolved == n.resolved;
    forall x ensures TotalAt(n', x) == if x < s then TotalAt(n, x) else Plus(TotalAt(n, x), m) {
      FilledTotals(n, s, m, x);
    }
    StopUnique(n', n.frontier, lim, t, Reached(TotalAt(n', t), lim));
  }

  lemma StopsBefore(n: Ledger, s: int, m: Media, lim: Limits)
    requires s > n.frontier && s in n.resolved && s <= Stops(n, lim) && !NoneReached(n, s, m, Stops(n, lim), lim)
    ensures Stops(WithCommit(n, s, m), lim) < Stops(n, lim)
  {
    var n', t := WithCommit(n, s, m), Stops(n, lim);
    StopMeaning(n', n.frontier, lim);
    var x :| s <= x < t && Reached(TotalAt(n', x), lim);
    assert Stops(n', lim) >= t ==> x < Stops(n', lim);
  }

  lemma SealedCommit(c: Checkpoint, l: Ledger, l': Ledger, media: map<int, Media>, s: int, m: Media, t: int,
                     lim: Limits)
    requires Commit(Seal(l, t), s, m, lim).0 == Seal(l', t) && HasSingle(Seal(l, t).gaps, s) && s <= t
    ensures Apply(Sealed(c, l, media, t), Seen(Committed(s, m)), lim) == Sealed(c, l', media[s := m], t)
  {
    assert MediaUpTo(media[s := m], t) == MediaUpTo(media, t)[s := m];
  }

  /** A refill of a part already sealed at t. */
  lemma LateSealed(c: Checkpoint, n: Ledger, media: map<int, Media>, s: int, m: Media, t: int, lim: Limits)
    requires LostOnce(n, s) && n.frontier < s <= t
    ensures Apply(Sealed(c, MoveTo(n, t), media, t), Seen(Committed(s, m)), lim) ==
            Sealed(c, MoveTo(WithCommit(n, s, m), t), media[s := m], t)
  {
    SealedRefill(n, s, m, t, lim);
    TrimKeepsSingle(n.gaps, s, t);
    SealedCommit(c, MoveTo(n, t), MoveTo(WithCommit(n, s, m), t), media, s, m, t, lim);
  }

  /** A refill of a part that stands at t. */
  lemma LateOpen(c: Checkpoint, n: Ledger, media: map<int, Media>, s: int, m: Media, t: int, lim: Limits)
    requires LostOnce(n, s) && n.frontier < s <= t && n.started && n.frontier + 1 >= n.partStart
    requires !c.split.pending && !c.split.threshold
    ensures var l := MoveTo(WithCommit(n, s, m), t);
            Apply(Part(c.(ledger := MoveTo(n, t)), media), Seen(Committed(s, m)), lim) ==
            if Reached(l.total, lim) then Sealed(c, l, media[s := m], t) else Part(c.(ledger := l), media[s := m])
  {
    LateRefill(n, s, m, t, lim);
  }

  lemma StopsAboveSame(c: Checkpoint, n: Ledger, media: map<int, Media>, s: int, m: Media, lim: Limits)
    requires !c.split.pending && !c.split.threshold && AboveFrontier(n) && n.started
    requires n.frontier + 1 >= n.partStart && n.frontier < s <= Stops(n, lim) && s in n.resolved && LostOnce(n, s)
    requires m.bytes >= 0 && m.seconds >= 0.0 && NoneReached(n, s, m, Stops(n, lim), lim)
    ensures CutAll(c, WithCommit(n, s, m), media[s := m], lim) ==
            Apply(CutAll(c, n, media, lim), Seen(Committed(s, m)), lim)
  {
    var t := Stops(n, lim);
    NoteAboveFrontier(n, Committed(s, m));
    CutAt(c, n, media, lim);
    CutAt(c, WithCommit(n, s, m), media[s := m], lim);
    StopsAt(n, s, m, lim);
    if Stop(n, n.frontier, lim).1 { LateSealed(c, n, media, s, m, t, lim); }
    else { LateOpen(c, n, media, s, m, t, lim); }
  }

  lemma StopsAboveDiffer(c: Checkpoint, n: Ledger, media: map<int, Media>, s: int, m: Media, lim: Limits)
    requires !c.split.pending && !c.split.threshold && AboveFrontier(n) && n.started
    requires n.frontier + 1 >= n.partStart && n.frontier < s <= Stops(n, lim) && s in n.resolved && LostOnce(n, s)
    requires !NoneReached(n, s, m, Stops(n, lim), lim)
    ensures CutAll(c, WithCommit(n, s, m), media[s := m], lim).c.ledger.frontier <
            Apply(CutAll(c, n, media, lim), Seen(Committed(s, m)), lim).c.ledger.frontier
  {
    var t := Stops(n, lim);
    NoteAboveFrontier(n, Committed(s, m));
    CutAt(c, n, media, lim);
    CutAt(c, WithCommit(n, s, m), media[s := m], lim);
    StopsBefore(n, s, m, lim);
    if Stop(n, n.frontier, lim).1 { LateSealed(c, n, media, s, m, t, lim); }
    else { LateOpen(c, n, media, s, m, t, lim); }
  }

  // ---------- exactly when the order matters ----------

  /** What the noted stream looks like to a sequence of the part it does not report. */
  lemma NotedFacts(p: Part, os: seq<Outcome>, s: int)
    requires PartInv(p) && !ShouldSkipSegmentFetch(p.c) && FreshStream(p, os) && Resolved(p, s)
    ensures var n := NoteAll(p.c.ledger, os);
            && Sound(n, MediaAfterAll(p.media, os)) && AboveFrontier(n) && s in n.resolved
            && n.frontier == p.c.ledger.frontier && n.partStart == p.c.ledger.partStart && n.started
            && (Conserved(p.c.ledger, p.media) ==> Conserved(n, MediaAfterAll(p.media, os)))
            && forall o <- os :: o.s != s
  {
    NoteAllShape(p.c.ledger, os);
    NoteAllKeeps(p.c.ledger, p.media, os);
  }

  lemma LastStops(p: Part, os: seq<Outcome>, lim: Limits)
    requires PartInv(p) && !ShouldSkipSegmentFetch(p.c) && FreshStream(p, os)
    ensures Play(p, os, lim).c.ledger.frontier == Stops(NoteAll(p.c.ledger, os), lim)
  {
    NoteAllShape(p.c.ledger, os);
    NoteAllKeeps(p.c.ledger, p.media, os);
    CommitLast(p, os, lim);
    CutAt(p.c, NoteAll(p.c.ledger, os), MediaAfterAll(p.media, os), lim);
  }

  /** The committed media reach no ceiling anywhere from s to before t. */
  predicate BelowCeilings(media: map<int, Media>, start: int, s: int, t: int, lim: Limits) {
    forall x | s <= x < t :: !Reached(Total(media, start, x), lim)
  }

  lemma ReachedOnMedia(n: Ledger, media: map<int, Media>, s: int, m: Media, t: int, lim: Limits)
    requires Sound(n, media) && Conserved(n, media) && s > n.frontier
    ensures NoneReached(n, s, m, t, lim) <==> BelowCeilings(media[s := m], n.partStart, s, t, lim)
  {
    WithCommitKeeps(n, media, s, m);
    forall x | s <= x < t
      ensures Reached(TotalAt(WithCommit(n, s, m), x), lim) <==> Reached(Total(media[s := m], n.partStart, x), lim)
    {
      TotalAtIsTotal(WithCommit(n, s, m), media[s := m], x);
    }
    if !NoneReached(n, s, m, t, lim) {
      var x :| s <= x < t && Reached(TotalAt(WithCommit(n, s, m), x), lim);
      assert Reached(Total(media[s := m], n.partStart, x), lim);
    } else {
      var media', start := media[s := m], n.partStart;
      forall x | s <= x < t ensures !Reached(Total(media', start, x), lim) {
        assert !Reached(TotalAt(WithCommit(n, s, m), x), lim);
      }
    }
  }

  /** Refilling a lost sequence before or after a fresh stream comes to the same part if and only if,
      with the refill counted, no ceiling is reached before the place where the stream alone stops. */
  lemma RefillOrderExact(p: Part, os: seq<Outcome>, s: int, m: Media, lim: Limits)
    requires PartInv(p) && !ShouldSkipSegmentFetch(p.c) && FreshStream(p, os) && Conserved(p.c.ledger, p.media)
    requires s > p.c.ledger.frontier && LostOnce(p.c.ledger, s) && m.bytes >= 0 && m.seconds >= 0.0
    ensures var media, stop := MediaAfterAll(p.media, os)[s := m], Play(p, os, lim).c.ledger.frontier;
            Play(Apply(p, Seen(Committed(s, m)), lim), os, lim) == Apply(Play(p, os, lim), Seen(Committed(s, m)), lim)
            <==> BelowCeilings(media, p.c.ledger.partStart, s, stop, lim)
  {
    var n, media := NoteAll(p.c.ledger, os), MediaAfterAll(p.media, os);
    SingleIsCovered(p.c.ledger.gaps, s);
    NotedFacts(p, os, s);
    NoteAllLost(p.c.ledger, os, s);
    CommitFirst(p, os, s, m, lim);
    CommitLast(p, os, lim);
    LastStops(p, os, lim);
    ReachedOnMedia(n, media, s, m, Stops(n, lim), lim);
    if Stops(n, lim) < s { StopsBelowSame(p.c, n, media, s, m, lim); }
    else if NoneReached(n, s, m, Stops(n, lim), lim) { StopsAboveSame(p.c, n, media, s, m, lim); }
    else { StopsAboveDiffer(p.c, n, media, s, m, lim); }
  }

  lemma CommitAgain(n: Ledger, s: int, m: Media)
    requires s in n.resolved && s in n.buffered && s in n.accounting && n.accounting[s] == m && !HasSingle(n.gaps, s)
    ensures WithCommit(n, s, m) == n
  {
    WithoutSingleNone(n.gaps, s);
  }

  lemma {:induction false} NoteAllKeepsEntry(l: Ledger, os: seq<Outcome>, s: int)
    requires s in l.accounting && s in l.buffered && !GapCovered(l.gaps, s) && forall o <- os :: o.s != s
    ensures var n := NoteAll(l, os);
            s in n.accounting && n.accounting[s] == l.accounting[s] && s in n.buffered && !GapCovered(n.gaps, s)
  {
    if os != [] {
      var k := |os| - 1;
      assert forall o <- os[..k] :: o in os;
      NoteAllKeepsEntry(l, os[..k], s);
      var n, o := NoteAll(l, os[..k]), os[k];
      if o.Committed? { WithoutSingleCovers(n.gaps, o.s, s); }
      else if o.s !in n.resolved { GapCoveredSnoc(n.gaps, Gap(o.s, o.s, GapOf(o).reason)); }
    }
  }

  /** A commit of what is already counted below the frontier is ignored. */
  lemma LateRepeat(c: Checkpoint, n: Ledger, media: map<int, Media>, s: int, m: Media, lim: Limits)
    requires !c.split.pending && !c.split.threshold && AboveFrontier(n) && n.started && n.frontier + 1 >= n.partStart
    requires n.frontier < s <= Stops(n, lim) && !GapCovered(n.gaps, s)
    ensures var q := CutAll(c, n, media, lim);
            Apply(q, Seen(Committed(s, m)), lim) == q && (s in media ==> s in q.media && q.media[s] == media[s])
  {
    var t := Stops(n, lim);
    CutAt(c, n, media, lim);
    SingleIsCovered(n.gaps, s);
    SingleIsCovered(TrimGaps(n.gaps, t), s);
    TrimCovers(n.gaps, t, s);
  }

  /** The commit of a buffered sequence with other media moves the stop, but never to below it. */
  lemma StopsNotBelow(n: Ledger, s: int, m: Media, lim: Limits)
    requires s > n.frontier && s in n.resolved && s in n.buffered && s in n.accounting && !HasSingle(n.gaps, s)
    requires Stops(n, lim) >= s
    ensures Stops(WithCommit(n, s, m), lim) >= s
  {
    var n', m0 := WithCommit(n, s, m), n.accounting[s];
    CommitAgain(n, s, m0);
    TwoMedia(n, s, m, m0);
    if Stops(n', lim) < s { StopsBelow(n', s, m0, lim); }
  }

  lemma TwoMedia(n: Ledger, s: int, m: Media, m': Media)
    ensures WithCommit(WithCommit(n, s, m), s, m') == WithCommit(n, s, m')
  {
    var a, b := WithCommit(WithCommit(n, s, m), s, m'), WithCommit(n, s, m');
    WithoutSingleNone(WithoutSingle(n.gaps, s), s);
    assert a.gaps == b.gaps;
    assert a.resolved == b.resolved;
    assert a.buffered == b.buffered;
    assert a.accounting == b.accounting;
  }

  lemma OtherMedia(c: Checkpoint, n: Ledger, media: map<int, Media>, s: int, m: Media, lim: Limits)
    requires !c.split.pending && !c.split.threshold && AboveFrontier(n) && n.started && n.frontier + 1 >= n.partStart
    requires n.frontier < s <= Stops(n, lim) && !GapCovered(n.gaps, s) && s in n.resolved && s in n.buffered
    requires s in n.accounting && s in media && media[s] != m
    ensures CutAll(c, WithCommit(n, s, m), media[s := m], lim) !=
            Apply(CutAll(c, n, media, lim), Seen(Committed(s, m)), lim)
  {
    SingleIsCovered(n.gaps, s);
    NoteAboveFrontier(n, Committed(s, m));
    CutAt(c, WithCommit(n, s, m), media[s := m], lim);
    StopsNotBelow(n, s, m, lim);
    LateRepeat(c, n, media, s, m, lim);
    assert CutAll(c, WithCommit(n, s, m), media[s := m], lim).media[s] == m;
  }

  /** Reporting a buffered sequence again, before or after a fresh stream, comes to the same part if and
      only if the stream stops below it or the media are those it was reported with. */
  lemma RepeatOrderExact(p: Part, os: seq<Outcome>, s: int, m: Media, lim: Limits)
    requires PartInv(p) && !ShouldSkipSegmentFetch(p.c) && FreshStream(p, os)
    requires s in p.c.ledger.accounting && !GapCovered(p.c.ledger.gaps, s)
    ensures Play(Apply(p, Seen(Committed(s, m)), lim), os, lim) == Apply(Play(p, os, lim), Seen(Committed(s, m)), lim)
            <==> Play(p, os, lim).c.ledger.frontier < s || p.media[s] == m
  {
    var n, media := NoteAll(p.c.ledger, os), MediaAfterAll(p.media, os);
    NotedFacts(p, os, s);
    NoteAllKeepsEntry(p.c.ledger, os, s);
    CommitFirst(p, os, s, m, lim);
    CommitLast(p, os, lim);
    LastStops(p, os, lim);
    SingleIsCovered(n.gaps, s);
    if Stops(n, lim) < s { StopsBelowSame(p.c, n, media, s, m, lim); }
    else if p.media[s] == m {
      CommitAgain(n, s, m);
      LateRepeat(p.c, n, media, s, m, lim);
      assert media[s := m] == media;
    } else {
      OtherMedia(p.c, n, media, s, m, lim);
    }
  }
}
