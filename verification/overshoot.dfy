/** By how much a part may exceed its ceilings, and what makes it exceed them by more. */
module Overshoots {
  import opened Prelude
  import opened Ledgers
  import opened LedgerFacts
  import opened Checkpoints
  import opened Accountants
  import opened Conservation

  /** Below each configured ceiling plus this media. */
  predicate WithinOne(total: Media, m: Media, lim: Limits) {
    && (lim.maxBytes > 0 ==> total.bytes < lim.maxBytes + m.bytes)
    && (lim.maxSeconds > 0 ==> total.seconds < lim.maxSeconds as real + m.seconds)
  }

  /** A part that has not been cut is below every ceiling; a part that has been is within its boundary
      segment of each. */
  predicate Bounded(p: Part, lim: Limits) {
    if p.c.split.boundarySet
    then p.c.split.boundary in p.media && WithinOne(p.c.ledger.total, p.media[p.c.split.boundary], lim)
    else !Reached(p.c.ledger.total, lim)
  }

  /** The commit fills a single gap that the frontier has already passed. */
  predicate Refills(l: Ledger, s: int) { s <= l.frontier && HasSingle(l.gaps, s) }

  /** Any outcome or roll but the two that escape the ceilings: an auth failure, and a refill. */
  predicate Orderly(p: Part, e: Event) {
    match e
    case Rolled(_, _) => true
    case Seen(o) => !o.AuthFailed? && (o.Committed? ==> !Refills(p.c.ledger, o.s))
  }

  // ---------- one advance ----------

  /** An advance that starts below the ceilings stops below them, or at the buffered segment that
      reached one. */
  lemma AdvanceWithin(l: Ledger, lim: Limits)
    requires !Reached(l.total, lim)
    ensures var (l', crossed) := Advance(l, lim);
            && (crossed.None? ==> !Reached(l'.total, lim))
            && (crossed.Some? ==> crossed.value == l'.frontier && l'.frontier in l.buffered
                                  && WithinOne(l'.total, AcctOf(l, l'.frontier), lim))
  {
    StopMeaning(l, l.frontier, lim);
    var (t, crossed) := Stop(l, l.frontier, lim);
    if crossed {
      assert !Reached(TotalAt(l, t - 1), lim);
      assert t in l.buffered;
    }
  }

  lemma CutBounded(p: Part, crossed: Option<int>, m: Media, lim: Limits)
    requires !p.c.split.pending && !p.c.split.boundarySet && p.c.ledger.started
    requires crossed.None? ==> !Reached(p.c.ledger.total, lim)
    requires crossed.Some? ==> crossed.value == p.c.ledger.frontier >= p.c.ledger.partStart
                               && crossed.value in p.media && p.media[crossed.value] == m
                               && WithinOne(p.c.ledger.total, m, lim)
    ensures Bounded(CutIfCrossed(p, crossed), lim)
  {
  }

  lemma AdvancedCutBounded(p: Part, l: Ledger, media: map<int, Media>, lim: Limits)
    requires !p.c.split.pending && !p.c.split.boundarySet && !Reached(l.total, lim) && Sound(l, media)
    ensures var (l', crossed) := Advance(l, lim); Bounded(CutIfCrossed(Part(p.c.(ledger := l'), media), crossed), lim)
  {
    var (l', crossed) := Advance(l, lim);
    AdvanceWithin(l, lim);
    AdvanceSettles(l, lim);
    CutBounded(Part(p.c.(ledger := l'), media), crossed, AcctOf(l, l'.frontier), lim);
  }

  lemma RollBounded(p: Part, from: int, to: int, lim: Limits)
    requires PartInv(p) && !p.c.split.pending && !Reached(p.c.ledger.total, lim)
    ensures Bounded(RollPart(p, from, to, lim), lim)
  {
    var l := p.c.ledger;
    var start := if from <= l.frontier then l.frontier + 1 else from;
    if from <= to && start <= to {
      WithRollKeeps(l, p.media, start, to, RestartWindowRolled);
      AdvancedCutBounded(p, WithRoll(l, start, to, RestartWindowRolled), p.media, lim);
    }
  }

  lemma CommitBounded(p: Part, s: int, m: Media, lim: Limits)
    requires PartInv(p) && !p.c.split.pending && !Reached(p.c.ledger.total, lim) && !Refills(p.c.ledger, s)
    ensures Bounded(CommitPart(p, s, m, lim), lim)
  {
    if s > p.c.ledger.frontier {
      WithCommitKeeps(p.c.ledger, p.media, s, m);
      AdvancedCutBounded(p, WithCommit(p.c.ledger, s, m), p.media[s := m], lim);
    }
  }

  /** Every orderly event on a part below its ceilings leaves it bounded. */
  lemma OrderlyIsBounded(p: Part, e: Event, lim: Limits)
    requires PartInv(p) && !p.c.split.pending && !Reached(p.c.ledger.total, lim) && Orderly(p, e)
    ensures Bounded(Apply(p, e, lim), lim)
  {
    match e
    case Rolled(from, to) => RollBounded(p, from, to, lim);
    case Seen(o) =>
      match o
      case Committed(s, m) => CommitBounded(p, s, m, lim);
      case GapAccepted(s) => SkipBounded(p, s, FetchFailure, lim);
      case AdSkipped(s) => SkipBounded(p, s, StitchedAd, lim);
      case MalformedSkip(s) => SkipBounded(p, s, Malformed, lim);
  }

  lemma SkipBounded(p: Part, s: int, reason: GapReason, lim: Limits)
    requires PartInv(p) && !p.c.split.pending && !Reached(p.c.ledger.total, lim)
    ensures Bounded(GapPart(p, s, reason, lim), lim)
  {
    if s > p.c.ledger.frontier {
      WithGapKeeps(p.c.ledger, p.media, s, reason);
      AdvancedCutBounded(p, WithGap(p.c.ledger, s, reason), p.media, lim);
    }
  }

  // ---------- whole streams ----------

  lemma {:induction false} NothingToFold(l: Ledger, t: int)
    requires l.buffered == {}
    ensures TotalAt(l, t) == l.total
    decreases t - l.frontier
  {
    if t > l.frontier { NothingToFold(l, t - 1); }
  }

  /** After the cut an orderly event changes neither the total nor the boundary segment. */
  lemma SealedStaysBounded(p: Part, e: Event, lim: Limits)
    requires PartInv(p) && p.c.split.boundarySet && Orderly(p, e) && Bounded(p, lim)
    ensures Bounded(Apply(p, e, lim), lim)
  {
    SealedStays(p, e, lim);
    match e
    case Rolled(from, to) =>
      var start := if from <= p.c.ledger.frontier then p.c.ledger.frontier + 1 else from;
      var l := WithRoll(p.c.ledger, start, to, RestartWindowRolled);
      NothingToFold(l, Stop(l, l.frontier, lim).0);
    case Seen(_) =>
  }

  /** Every event finds its part orderly. */
  predicate OrderlyStream(p: Part, es: seq<Event>, lim: Limits) {
    es != [] ==>
      var before := es[..|es| - 1];
      OrderlyStream(p, before, lim) && Orderly(After(p, before, lim), es[|es| - 1])
  }

  /** Overshoot: whatever the order, with window rolls and repeated outcomes but no auth failure and
      no refill, a part stays below its ceilings until it is cut and then exceeds none by more
      than its boundary segment. */
  lemma {:induction false} Overshoot(p: Part, es: seq<Event>, lim: Limits)
    requires PartInv(p) && !p.c.split.pending && !Reached(p.c.ledger.total, lim) && OrderlyStream(p, es, lim)
    ensures var q := After(p, es, lim);
            PartInv(q) && Bounded(q, lim) && (q.c.split.pending <==> q.c.split.boundarySet)
    decreases |es|
  {
    if es != [] {
      var before, e := es[..|es| - 1], es[|es| - 1];
      Overshoot(p, before, lim);
      var q := After(p, before, lim);
      ApplyKeeps(q, e, lim);
      ApplyShape(q, e, lim);
      if q.c.split.boundarySet { SealedStaysBounded(q, e, lim); } else { OrderlyIsBounded(q, e, lim); }
    }
  }

  // ---------- exactly when the bound survives ----------

  /** Being below the ceilings is needed: the next contiguous segment stays within the bound if and
      only if the part was below them before it. */
  lemma NextSegmentExact(p: Part, m: Media, lim: Limits)
    requires PartInv(p) && !p.c.split.pending && m.bytes >= 0 && m.seconds >= 0.0
    requires p.c.ledger.frontier + 1 !in p.c.ledger.resolved
    ensures Bounded(Apply(p, Seen(Committed(p.c.ledger.frontier + 1, m)), lim), lim) <==>
            !Reached(p.c.ledger.total, lim)
  {
    var l, s := p.c.ledger, p.c.ledger.frontier + 1;
    if Reached(l.total, lim) { ReachedCut(p, m, lim); }
    else { OrderlyIsBounded(p, Seen(Committed(s, m)), lim); }
  }

  lemma ReachedCut(p: Part, m: Media, lim: Limits)
    requires PartInv(p) && !p.c.split.pending && m.bytes >= 0 && m.seconds >= 0.0
    requires p.c.ledger.frontier + 1 !in p.c.ledger.resolved && Reached(p.c.ledger.total, lim)
    ensures !Bounded(Apply(p, Seen(Committed(p.c.ledger.frontier + 1, m)), lim), lim)
  {
    var l, s := p.c.ledger, p.c.ledger.frontier + 1;
    var w := WithCommit(l, s, m);
    assert TotalAt(w, s - 1) == l.total;
    assert TotalAt(w, s) == Plus(l.total, m);
    assert Stop(w, l.frontier, lim) == (s, true);
    var q := Part(p.c.(ledger := MoveTo(w, s)), p.media[s := m]);
    assert Apply(p, Seen(Committed(s, m)), lim) == CutIfCrossed(q, Some(s));
    assert s in MediaUpTo(q.media, s) && MediaUpTo(q.media, s)[s] == m;
  }

  /** A refill keeps the bound if and only if the committed media up to the frontier, with the refill,
      stays below the ceilings, or exceeds none by more than the segment at the frontier, where the part
      is then cut. */
  lemma RefillExact(p: Part, s: int, m: Media, lim: Limits)
    requires PartInv(p) && !p.c.split.pending && Refills(p.c.ledger, s)
    ensures var total, media, f := Plus(p.c.ledger.total, m), p.media[s := m], p.c.ledger.frontier;
            Bounded(Apply(p, Seen(Committed(s, m)), lim), lim) <==>
            (Reached(total, lim) ==> f in media && WithinOne(total, media[f], lim))
    ensures Conserved(p.c.ledger, p.media) && CountsOnce(p.c.ledger, p.media, s) ==>
              var media, f := p.media[s := m], p.c.ledger.frontier;
              var total := Total(media, p.c.ledger.partStart, f);
              Bounded(Apply(p, Seen(Committed(s, m)), lim), lim) <==>
              (Reached(total, lim) ==> f in media && WithinOne(total, media[f], lim))
  {
    var l := p.c.ledger;
    var g :| g in l.gaps && g.SingleAt(s);
    var q := Part(p.c.(ledger := Commit(l, s, m, lim).0), p.media[s := m]);
    assert l.frontier in MediaUpTo(q.media, l.frontier) <==> l.frontier in q.media;
    if Conserved(l, p.media) { RefilledConserved(l, p.media, s, m); }
  }

  /** e ends the contiguous run of committed and lost sequences that the loss of s completes. */
  ghost predicate RunEnds(p: Part, s: int, e: int) {
    var l := p.c.ledger;
    && l.frontier <= e
    && (forall t | l.frontier < t <= e :: t == s || t in p.media || GapCovered(l.gaps, t))
    && e + 1 != s && e + 1 !in p.media && !GapCovered(l.gaps, e + 1)
  }

  lemma PlusAssociates(a: Media, b: Media, c: Media)
    ensures Plus(Plus(a, b), c) == Plus(a, Plus(b, c))
  {
  }

  lemma {:induction false} FoldedMedia(l: Ledger, media: map<int, Media>, t: int)
    requires BufferExact(l, media) && l.frontier <= t
    ensures TotalAt(l, t) == Plus(l.total, Total(media, l.frontier + 1, t))
    decreases t - l.frontier
  {
    if l.frontier < t {
      FoldedMedia(l, media, t - 1);
      assert t in media <==> t in l.buffered;
      if t in media { PlusAssociates(l.total, Total(media, l.frontier + 1, t - 1), media[t]); }
    } else {
      assert Total(media, l.frontier + 1, t) == NO_MEDIA;
    }
  }

  /** Where the frontier stands after an auth failure. */
  function AuthStop(l: Ledger, s: int): int { Stop(WithGap(l, s, AuthError), l.frontier, NO_LIMITS).0 }

  lemma LostRunEnds(p: Part, s: int)
    requires PartInv(p) && s > p.c.ledger.frontier
    ensures RunEnds(p, s, AuthStop(p.c.ledger, s))
  {
    var l := WithGap(p.c.ledger, s, AuthError);
    StopMeaning(l, l.frontier, NO_LIMITS);
    NeverCrosses(l, l.frontier);
    assert forall t :: t in l.resolved <==> t in p.c.ledger.resolved || t == s;
  }

  lemma {:induction false} SameTotals(l: Ledger, l': Ledger, t: int)
    requires l'.frontier == l.frontier && l'.total == l.total
    requires l'.buffered == l.buffered && l'.accounting == l.accounting
    ensures TotalAt(l', t) == TotalAt(l, t)
    decreases t - l.frontier
  {
    if t > l.frontier { SameTotals(l, l', t - 1); }
  }

  lemma LostRunMedia(l: Ledger, media: map<int, Media>, s: int, e: int)
    requires Sound(l, media) && l.frontier <= e
    ensures TotalAt(WithGap(l, s, AuthError), e) == Plus(l.total, Total(media, l.frontier + 1, e))
  {
    SameTotals(l, WithGap(l, s, AuthError), e);
    FoldedMedia(l, media, e);
  }

  lemma LostRunTotal(l: Ledger, media: map<int, Media>, s: int, e: int)
    requires Sound(l, media) && l.frontier <= e && Conserved(l, media)
    ensures TotalAt(WithGap(l, s, AuthError), e) == Total(media, l.partStart, e)
  {
    SameTotals(l, WithGap(l, s, AuthError), e);
    TotalAtIsTotal(l, media, e);
  }

  lemma AuthFoldExact(p: Part, s: int, lim: Limits)
    requires PartInv(p) && !p.c.split.pending && s > p.c.ledger.frontier
    ensures Bounded(Apply(p, Seen(AuthFailed(s)), lim), lim) <==>
            !Reached(TotalAt(WithGap(p.c.ledger, s, AuthError), AuthStop(p.c.ledger, s)), lim)
  {
    var l := WithGap(p.c.ledger, s, AuthError);
    assert TotalAt(l, l.frontier) == l.total;
  }

  /** An auth failure keeps the bound if and only if the media committed up to the end of the run that it
      completes stays below the ceilings, for it never cuts. */
  lemma AuthFailureExact(p: Part, s: int, lim: Limits) returns (e: int)
    requires PartInv(p) && !p.c.split.pending && s > p.c.ledger.frontier
    ensures RunEnds(p, s, e)
    ensures Bounded(Apply(p, Seen(AuthFailed(s)), lim), lim) <==>
            !Reached(Plus(p.c.ledger.total, Total(p.media, p.c.ledger.frontier + 1, e)), lim)
    ensures Conserved(p.c.ledger, p.media) ==>
              (Bounded(Apply(p, Seen(AuthFailed(s)), lim), lim) <==>
               !Reached(Total(p.media, p.c.ledger.partStart, e), lim))
  {
    e := AuthStop(p.c.ledger, s);
    LostRunEnds(p, s);
    LostRunMedia(p.c.ledger, p.media, s, e);
    if Conserved(p.c.ledger, p.media) { LostRunTotal(p.c.ledger, p.media, s, e); }
    AuthFoldExact(p, s, lim);
  }

  // An auth failure is one of the two ways out: it folds a buffered commit past the ceiling uncut,
  // and the next small segment takes the blame. A refill, in AuthRefetchOvershoots, is the other.

  function BigWaits(): Ledger { WithCommit(FreshPart(0), 1, BIG) }

  function BigFolded(): Ledger { FreshPart(0).(frontier := 1, gaps := [Gap(0, 0, AuthError)], total := BIG) }

  lemma BigWaitsStep()
    ensures Apply(FreshAtZero(), Seen(Committed(1, BIG)), TEN_BYTES) ==
            Part(NEW_CHECKPOINT.(ledger := BigWaits()), map[1 := BIG])
  {
    assert WithoutSingle([], 1) == [];
    assert Stop(BigWaits(), -1, TEN_BYTES) == (-1, false);
  }

  lemma BigFoldedStep()
    ensures var p := Part(NEW_CHECKPOINT.(ledger := BigWaits()), map[1 := BIG]);
            Apply(p, Seen(AuthFailed(0)), TEN_BYTES) == WithLedger(p, BigFolded())
  {
    var l := WithGap(BigWaits(), 0, AuthError);
    assert l.resolved == {0, 1} && l.buffered == {1};
    assert TotalAt(l, -1) == NO_MEDIA;
    assert TotalAt(l, 0) == NO_MEDIA;
    assert TotalAt(l, 1) == Plus(NO_MEDIA, BIG);
    assert Stop(l, 1, NO_LIMITS) == (1, false);
    AboveShrinks(l.resolved, 0);
    assert Stop(l, 0, NO_LIMITS) == (1, false);
    AboveShrinks(l.resolved, -1);
    assert Stop(l, -1, NO_LIMITS) == (1, false);
    assert MoveTo(l, 1) == BigFolded();
  }

  /** A part of 101 bytes under a ceiling of 10, cut at a segment of one byte. */
  lemma AuthFoldOvershoots()
    ensures var p1 := Apply(FreshAtZero(), Seen(Committed(1, BIG)), TEN_BYTES);
            var p2 := Apply(p1, Seen(AuthFailed(0)), TEN_BYTES);
            var p3 := Apply(p2, Seen(Committed(2, SMALL)), TEN_BYTES);
            && !p2.c.split.pending && Reached(p2.c.ledger.total, TEN_BYTES)
            && PartInv(p2) && !Bounded(p3, TEN_BYTES)
  {
    BigWaitsStep();
    BigFoldedStep();
    FreshPartKeeps(0);
    var p1 := Apply(FreshAtZero(), Seen(Committed(1, BIG)), TEN_BYTES);
    ApplyKeeps(FreshAtZero(), Seen(Committed(1, BIG)), TEN_BYTES);
    ApplyKeeps(p1, Seen(AuthFailed(0)), TEN_BYTES);
    var p2 := Apply(p1, Seen(AuthFailed(0)), TEN_BYTES);
    NextSegmentExact(p2, SMALL, TEN_BYTES);
  }
}
