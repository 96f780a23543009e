/** What every outcome keeps true of a part's ledger. */
module LedgerFacts {
  import opened Prelude
  import opened Ledgers

  // ---------- sums of committed media ----------

  lemma {:induction false} TotalFrame(media: map<int, Media>, media': map<int, Media>, lo: int, hi: int)
    requires forall s | lo <= s <= hi ::
               (s in media <==> s in media') && (s in media ==> media[s] == media'[s])
    ensures Total(media, lo, hi) == Total(media', lo, hi)
    decreases hi - lo + 1
  {
    if lo <= hi { TotalFrame(media, media', lo, hi - 1); }
  }

  /** Writing one sequence's media changes the total by the difference at that sequence. */
  lemma {:induction false} TotalUpdate(media: map<int, Media>, s: int, m: Media, lo: int, hi: int)
    requires lo <= s <= hi
    ensures var before := if s in media then media[s] else NO_MEDIA;
            Plus(Total(media[s := m], lo, hi), before) == Plus(Total(media, lo, hi), m)
    decreases hi - lo + 1
  {
    if s == hi { TotalFrame(media, media[s := m], lo, hi - 1); }
    else { TotalUpdate(media, s, m, lo, hi - 1); }
  }

  // ---------- gap lists ----------

  lemma WithoutSingleCovers(gaps: seq<Gap>, s: int, t: int)
    ensures t != s ==> (GapCovered(WithoutSingle(gaps, s), t) <==> GapCovered(gaps, t))
    ensures !HasSingle(gaps, s) ==> (GapCovered(WithoutSingle(gaps, s), t) <==> GapCovered(gaps, t))
    ensures !HasSingle(WithoutSingle(gaps, s), s)
  {
    var gaps' := WithoutSingle(gaps, s);
    if GapCovered(gaps, t) {
      var g :| g in gaps && g.Covers(t);
      if !g.SingleAt(s) { assert g in gaps'; }
    }
  }

  lemma TrimCovers(gaps: seq<Gap>, boundary: int, t: int)
    ensures GapCovered(TrimGaps(gaps, boundary), t) <==> t <= boundary && GapCovered(gaps, t)
  {
    var gaps' := TrimGaps(gaps, boundary);
    if t <= boundary && GapCovered(gaps, t) {
      var g :| g in gaps && g.Covers(t);
      assert CutGap(g, boundary) in gaps' && CutGap(g, boundary).Covers(t);
    }
    if GapCovered(gaps', t) {
      var g :| g in gaps' && g.Covers(t);
      var h :| h in gaps && h.first <= boundary && g == CutGap(h, boundary);
      assert h.Covers(t);
    }
  }

  // ---------- the frontier ----------

  lemma {:induction false} TotalAtIsTotal(l: Ledger, media: map<int, Media>, t: int)
    requires Anchored(l, media) && BufferExact(l, media) && Conserved(l, media) && l.frontier <= t
    ensures TotalAt(l, t) == Total(media, l.partStart, t)
    decreases t - l.frontier
  {
    if l.frontier < t { TotalAtIsTotal(l, media, t - 1); }
  }

  lemma MoveToKeeps(l: Ledger, media: map<int, Media>, t: int)
    requires Sound(l, media) && l.frontier <= t
    requires forall s | l.frontier < s <= t :: s in l.resolved
    ensures Sound(MoveTo(l, t), media)
  {
    var l' := MoveTo(l, t);
    assert BufferExact(l', media);
    assert ResolvedExact(l');
    assert NoHole(l', media);
  }

  lemma {:induction false} StopMeaning(l: Ledger, t: int, lim: Limits)
    requires l.frontier <= t
    ensures var (f, crossed) := Stop(l, t, lim);
            && t <= f
            && (forall s | t < s <= f :: s in l.resolved)
            && (forall s | t < s < f :: !Reached(TotalAt(l, s), lim))
            && (crossed ==> t < f && Reached(TotalAt(l, f), lim))
            && (!crossed ==> f + 1 !in l.resolved && (t < f ==> !Reached(TotalAt(l, f), lim)))
    decreases |Above(l.resolved, t)|
  {
    if t + 1 in l.resolved && !Reached(TotalAt(l, t + 1), lim) {
      AboveShrinks(l.resolved, t);
      StopMeaning(l, t + 1, lim);
    }
  }

  /** With the ceilings off nothing ever crosses. */
  lemma {:induction false} NeverCrosses(l: Ledger, t: int)
    ensures !Stop(l, t, NO_LIMITS).1
    decreases |Above(l.resolved, t)|
  {
    if t + 1 in l.resolved {
      AboveShrinks(l.resolved, t);
      NeverCrosses(l, t + 1);
    }
  }

  lemma AdvanceKeeps(l: Ledger, media: map<int, Media>, lim: Limits)
    requires Sound(l, media)
    ensures Sound(Advance(l, lim).0, media)
    ensures Conserved(l, media) ==> Conserved(Advance(l, lim).0, media)
  {
    var (t, _) := Stop(l, l.frontier, lim);
    StopMeaning(l, l.frontier, lim);
    MoveToKeeps(l, media, t);
    if Conserved(l, media) { TotalAtIsTotal(l, media, t); }
  }

  /** A frontier that stops without crossing a ceiling leaves nothing resolved right above it. */
  lemma AdvanceSettles(l: Ledger, lim: Limits)
    ensures var (l', crossed) := Advance(l, lim);
            && (crossed.None? ==> Settled(l'))
            && (crossed.Some? ==> crossed.value == l'.frontier > l.frontier)
            && l'.gaps == l.gaps && l'.partStart == l.partStart && l.frontier <= l'.frontier
            && l'.buffered <= l.buffered
  {
    StopMeaning(l, l.frontier, lim);
  }

  /** What Advance computes, in terms of the committed media alone: the frontier stops at the
      first ceiling crossing of the running total, or before the first unresolved sequence. */
  lemma AdvanceMeaning(l: Ledger, media: map<int, Media>, lim: Limits)
    requires Anchored(l, media) && BufferExact(l, media) && Conserved(l, media)
    ensures var (l', crossed) := Advance(l, lim);
            && l.frontier <= l'.frontier
            && l'.gaps == l.gaps && l'.partStart == l.partStart
            && (forall s | l.frontier < s <= l'.frontier :: s in l.resolved)
            && (forall s | l.frontier < s < l'.frontier :: !Reached(Total(media, l.partStart, s), lim))
            && (crossed.None? ==> Settled(l'))
            && (l.frontier < l'.frontier ==> (crossed.Some? <==> Reached(l'.total, lim)))
            && (crossed.Some? ==> crossed.value == l'.frontier > l.frontier)
  {
    StopMeaning(l, l.frontier, lim);
    var (t, crossed) := Stop(l, l.frontier, lim);
    forall s | l.frontier <= s <= t ensures TotalAt(l, s) == Total(media, l.partStart, s) {
      TotalAtIsTotal(l, media, s);
    }
    assert t + 1 !in l.resolved ==> Settled(MoveTo(l, t));
  }

  // ---------- every step keeps the invariant ----------

  lemma FreshPartKeeps(start: int)
    ensures Inv(FreshPart(start), map[])
  {
  }

  /** The condition under which a commit keeps the accounting exact, checkable before the call:
      it must not add media below the frontier for a sequence that is already counted. */
  predicate CountsOnce(l: Ledger, media: map<int, Media>, s: int) {
    s <= l.frontier && HasSingle(l.gaps, s) && s in media ==> media[s] == NO_MEDIA
  }

  /** The ledger with a refetched sequence at or below the frontier. */
  function Refilled(l: Ledger, s: int, m: Media): Ledger {
    l.(gaps := WithoutSingle(l.gaps, s), total := Plus(l.total, m))
  }

  lemma RefilledSound(l: Ledger, media: map<int, Media>, s: int, m: Media)
    requires Sound(l, media) && l.partStart <= s <= l.frontier
    ensures Sound(Refilled(l, s, m), media[s := m])
  {
    var l', media' := Refilled(l, s, m), media[s := m];
    forall t ensures t != s ==> (GapCovered(l'.gaps, t) <==> GapCovered(l.gaps, t)) {
      WithoutSingleCovers(l.gaps, s, t);
    }
    assert Anchored(l', media');
    assert BufferExact(l', media');
    assert ResolvedExact(l');
    assert NoHole(l', media');
  }

  lemma RefilledConserved(l: Ledger, media: map<int, Media>, s: int, m: Media)
    requires Conserved(l, media) && l.partStart <= s <= l.frontier && HasSingle(l.gaps, s)
    ensures Conserved(Refilled(l, s, m), media[s := m]) <==> CountsOnce(l, media, s)
  {
    TotalUpdate(media, s, m, l.partStart, l.frontier);
    var before := if s in media then media[s] else NO_MEDIA;
    PlusNothing(Total(media[s := m], l.partStart, l.frontier), before, Plus(l.total, m));
  }

  lemma PlusNothing(a: Media, b: Media, sum: Media)
    requires Plus(a, b) == sum
    ensures a == sum <==> b == NO_MEDIA
  {
  }

  lemma CommitBelowKeeps(l: Ledger, media: map<int, Media>, s: int, m: Media, lim: Limits)
    requires Sound(l, media) && s <= l.frontier && HasSingle(l.gaps, s)
    ensures Sound(Commit(l, s, m, lim).0, media[s := m])
    ensures Conserved(l, media) ==>
              (Conserved(Commit(l, s, m, lim).0, media[s := m]) <==> CountsOnce(l, media, s))
  {
    assert Commit(l, s, m, lim).0 == Refilled(l, s, m);
    RefilledSound(l, media, s, m);
    if Conserved(l, media) { RefilledConserved(l, media, s, m); }
  }

  lemma WithCommitKeeps(l: Ledger, media: map<int, Media>, s: int, m: Media)
    requires Sound(l, media) && s > l.frontier
    ensures Sound(WithCommit(l, s, m), media[s := m])
    ensures Conserved(l, media) ==> Conserved(WithCommit(l, s, m), media[s := m])
  {
    var l', media' := WithCommit(l, s, m), media[s := m];
    forall t ensures t != s ==> (GapCovered(l'.gaps, t) <==> GapCovered(l.gaps, t)) {
      WithoutSingleCovers(l.gaps, s, t);
    }
    assert BufferExact(l', media');
    assert ResolvedExact(l');
    assert NoHole(l', media');
    TotalFrame(media, media', l.partStart, l.frontier);
  }

  lemma WithGapKeeps(l: Ledger, media: map<int, Media>, s: int, reason: GapReason)
    requires Sound(l, media) && s > l.frontier
    ensures Sound(WithGap(l, s, reason), media)
  {
    GapCoveredSnoc(l.gaps, Gap(s, s, reason));
  }

  lemma WithRollKeeps(l: Ledger, media: map<int, Media>, start: int, to: int, reason: GapReason)
    requires Sound(l, media) && l.frontier < start <= to
    ensures Sound(WithRoll(l, start, to, reason), media)
  {
    GapCoveredSnoc(l.gaps, Gap(start, to, reason));
  }

  /** Every commit keeps the sequences accounted for. The part total stays the media committed
      at or below the frontier exactly when no sequence's media is counted twice. */
  lemma CommitKeeps(l: Ledger, media: map<int, Media>, s: int, m: Media, lim: Limits)
    requires Sound(l, media)
    ensures Sound(Commit(l, s, m, lim).0, MediaAfterCommit(l, media, s, m))
    ensures Conserved(l, media) ==>
              (Conserved(Commit(l, s, m, lim).0, MediaAfterCommit(l, media, s, m)) <==> CountsOnce(l, media, s))
  {
    if s > l.frontier {
      WithCommitKeeps(l, media, s, m);
      AdvanceKeeps(WithCommit(l, s, m), media[s := m], lim);
    } else if HasSingle(l.gaps, s) {
      CommitBelowKeeps(l, media, s, m, lim);
    }
  }

  lemma SkipKeeps(l: Ledger, media: map<int, Media>, s: int, reason: GapReason, lim: Limits)
    requires Sound(l, media)
    ensures Sound(Skip(l, s, reason, lim).0, media)
    ensures Conserved(l, media) ==> Conserved(Skip(l, s, reason, lim).0, media)
  {
    if s > l.frontier {
      WithGapKeeps(l, media, s, reason);
      AdvanceKeeps(WithGap(l, s, reason), media, lim);
    }
  }

  lemma RollKeeps(l: Ledger, media: map<int, Media>, from: int, to: int, reason: GapReason, lim: Limits)
    requires Sound(l, media)
    ensures Sound(Roll(l, from, to, reason, lim).0, media)
    ensures Conserved(l, media) ==> Conserved(Roll(l, from, to, reason, lim).0, media)
  {
    var start := if from <= l.frontier then l.frontier + 1 else from;
    if from <= to && start <= to {
      WithRollKeeps(l, media, start, to, reason);
      AdvanceKeeps(WithRoll(l, start, to, reason), media, lim);
    }
  }

  /** Sealing at the frontier leaves a part whose every sequence is media or gap, and nothing above. */
  lemma SealKeeps(l: Ledger, media: map<int, Media>)
    requires Sound(l, media)
    ensures var l' := Seal(l, l.frontier);
            && Sound(l', MediaUpTo(media, l.frontier))
            && (Conserved(l, media) ==> Conserved(l', MediaUpTo(media, l.frontier)))
            && l'.buffered == {} && l'.accounting == map[] && l'.resolved == {}
            && (forall t :: GapCovered(l'.gaps, t) <==> t <= l.frontier && GapCovered(l.gaps, t))
  {
    var l' := Seal(l, l.frontier);
    forall t ensures GapCovered(l'.gaps, t) <==> t <= l.frontier && GapCovered(l.gaps, t) {
      TrimCovers(l.gaps, l.frontier, t);
    }
    TotalFrame(media, MediaUpTo(media, l.frontier), l.partStart, l.frontier);
  }

  // ---------- the skip filter ----------

  /** SkipSet and the frontier test say the same as ShouldSkip, and both say "resolved". */
  lemma SkipIsResolved(l: Ledger, media: map<int, Media>, s: int)
    requires Sound(l, media)
    ensures ShouldSkip(l, s) <==> s <= l.frontier || s in l.resolved
    ensures l.partStart <= s && ShouldSkip(l, s) ==> s in media || GapCovered(l.gaps, s)
  {
  }

  /** Within a part the frontier never moves back and a skipped sequence stays skipped. */
  ghost predicate Grows(l: Ledger, l': Ledger) {
    && l.frontier <= l'.frontier
    && l'.partStart == l.partStart
    && (forall s :: ShouldSkip(l, s) ==> ShouldSkip(l', s))
  }

  lemma AdvanceGrows(l: Ledger, media: map<int, Media>, lim: Limits)
    requires Sound(l, media)
    ensures Grows(l, Advance(l, lim).0)
  {
    StopMeaning(l, l.frontier, lim);
    AdvanceKeeps(l, media, lim);
  }

  lemma CommitGrows(l: Ledger, media: map<int, Media>, s: int, m: Media, lim: Limits)
    requires Sound(l, media)
    ensures Grows(l, Commit(l, s, m, lim).0)
    ensures ShouldSkip(Commit(l, s, m, lim).0, s)
  {
    forall t ensures t != s ==> (GapCovered(WithoutSingle(l.gaps, s), t) <==> GapCovered(l.gaps, t)) {
      WithoutSingleCovers(l.gaps, s, t);
    }
    if s > l.frontier {
      assert Grows(l, WithCommit(l, s, m));
      WithCommitKeeps(l, media, s, m);
      AdvanceGrows(WithCommit(l, s, m), media[s := m], lim);
    }
  }

  lemma SkipGrows(l: Ledger, media: map<int, Media>, s: int, reason: GapReason, lim: Limits)
    requires Sound(l, media)
    ensures Grows(l, Skip(l, s, reason, lim).0)
    ensures ShouldSkip(Skip(l, s, reason, lim).0, s)
  {
    if s > l.frontier {
      GapCoveredSnoc(l.gaps, Gap(s, s, reason));
      WithGapKeeps(l, media, s, reason);
      assert Grows(l, WithGap(l, s, reason)) && ShouldSkip(WithGap(l, s, reason), s);
      AdvanceGrows(WithGap(l, s, reason), media, lim);
    }
  }

  lemma RollGrows(l: Ledger, media: map<int, Media>, from: int, to: int, reason: GapReason, lim: Limits)
    requires Sound(l, media)
    ensures Grows(l, Roll(l, from, to, reason, lim).0)
    ensures forall s | from <= s <= to :: ShouldSkip(Roll(l, from, to, reason, lim).0, s)
  {
    var start := if from <= l.frontier then l.frontier + 1 else from;
    if from <= to && start <= to {
      GapCoveredSnoc(l.gaps, Gap(start, to, reason));
      WithRollKeeps(l, media, start, to, reason);
      assert Grows(l, WithRoll(l, start, to, reason));
      AdvanceGrows(WithRoll(l, start, to, reason), media, lim);
    }
  }
}
