/** What the gaps of a part tell: every gap was reported, with its own reason, and every loss is recorded;
    and which of them a resumed process fetches again. */
module GapReasons {
  import opened Prelude
  import opened Ledgers
  import opened LedgerFacts
  import opened Checkpoints
  import opened Accountants
  import opened Conservation
  import opened Fetching

  // ---------- every gap was reported ----------

  /** The callback that such a gap comes from: a segment that could not be fetched, one inside an ad, a
      malformed or unauthorized one, or a range that the playlist rolled past, cut off below by what was
      counted before and above by the boundary. */
  predicate ReportsLoss(e: Event, g: Gap) {
    match g.reason
    case FetchFailure => e == Seen(GapAccepted(g.first)) && g.last == g.first
    case StitchedAd => e == Seen(AdSkipped(g.first)) && g.last == g.first
    case Malformed => e == Seen(MalformedSkip(g.first)) && g.last == g.first
    case AuthError => e == Seen(AuthFailed(g.first)) && g.last == g.first
    case RestartWindowRolled => e.Rolled? && e.from <= g.first <= g.last <= e.to
  }

  /** The same loss, perhaps cut short at a boundary. */
  predicate PartOf(g: Gap, h: Gap) { g.reason == h.reason && g.first == h.first <= g.last <= h.last }

  /** g was there before, or is what this callback reports. */
  ghost predicate Explained(gaps: seq<Gap>, e: Event, g: Gap) {
    ReportsLoss(e, g) || exists h <- gaps :: PartOf(g, h)
  }

  ghost predicate Ordered(gaps: seq<Gap>) { forall g <- gaps :: g.first <= g.last }

  lemma CutExplained(p: Part, crossed: Option<int>, e: Event, before: seq<Gap>)
    requires Ordered(p.c.ledger.gaps) && forall g <- p.c.ledger.gaps :: Explained(before, e, g)
    ensures forall g <- CutIfCrossed(p, crossed).c.ledger.gaps :: Explained(before, e, g)
  {
    if crossed.Some? {
      forall g <- TrimGaps(p.c.ledger.gaps, crossed.value) ensures Explained(before, e, g) {
        var h :| h in p.c.ledger.gaps && h.first <= crossed.value && g == CutGap(h, crossed.value);
        assert Explained(before, e, h);
        if k :| k in before && PartOf(h, k) { assert PartOf(g, k); }
      }
    }
  }

  lemma SkipExplained(p: Part, s: int, reason: GapReason, lim: Limits, e: Event)
    requires Ordered(p.c.ledger.gaps) && ReportsLoss(e, Gap(s, s, reason))
    ensures forall g <- GapPart(p, s, reason, lim).c.ledger.gaps :: Explained(p.c.ledger.gaps, e, g)
    ensures forall g <- Skip(p.c.ledger, s, reason, lim).0.gaps :: Explained(p.c.ledger.gaps, e, g)
  {
    var (l, crossed) := Skip(p.c.ledger, s, reason, lim);
    AdvanceSettles(WithGap(p.c.ledger, s, reason), lim);
    forall g <- l.gaps ensures Explained(p.c.ledger.gaps, e, g) {
      if g in p.c.ledger.gaps { assert PartOf(g, g); }
    }
    CutExplained(WithLedger(p, l), crossed, e, p.c.ledger.gaps);
  }

  lemma CommitExplained(p: Part, s: int, m: Media, lim: Limits, e: Event)
    requires Ordered(p.c.ledger.gaps)
    ensures forall g <- CommitPart(p, s, m, lim).c.ledger.gaps :: Explained(p.c.ledger.gaps, e, g)
  {
    var (l, crossed) := Commit(p.c.ledger, s, m, lim);
    AdvanceSettles(WithCommit(p.c.ledger, s, m), lim);
    forall g <- l.gaps ensures Explained(p.c.ledger.gaps, e, g) {
      assert g in p.c.ledger.gaps && PartOf(g, g);
    }
    CutExplained(Part(p.c.(ledger := l), MediaAfterCommit(p.c.ledger, p.media, s, m)), crossed, e, p.c.ledger.gaps);
  }

  lemma RollExplained(p: Part, from: int, to: int, lim: Limits)
    requires Ordered(p.c.ledger.gaps)
    ensures forall g <- RollPart(p, from, to, lim).c.ledger.gaps :: Explained(p.c.ledger.gaps, Rolled(from, to), g)
  {
    var (l, crossed) := Roll(p.c.ledger, from, to, RestartWindowRolled, lim);
    var start := if from <= p.c.ledger.frontier then p.c.ledger.frontier + 1 else from;
    AdvanceSettles(WithRoll(p.c.ledger, start, to, RestartWindowRolled), lim);
    forall g <- l.gaps ensures Explained(p.c.ledger.gaps, Rolled(from, to), g) {
      if g in p.c.ledger.gaps { assert PartOf(g, g); }
    }
    CutExplained(WithLedger(p, l), crossed, Rolled(from, to), p.c.ledger.gaps);
  }

  lemma ApplyExplained(p: Part, e: Event, lim: Limits)
    requires Ordered(p.c.ledger.gaps)
    ensures forall g <- Apply(p, e, lim).c.ledger.gaps :: Explained(p.c.ledger.gaps, e, g)
  {
    match e
    case Rolled(from, to) => RollExplained(p, from, to, lim);
    case Seen(o) =>
      if p.c.split.Sealed() && o.s > p.c.split.boundary {
        forall g <- p.c.ledger.gaps ensures Explained(p.c.ledger.gaps, e, g) { assert PartOf(g, g); }
      } else {
        match o
        case Committed(s, m) => CommitExplained(p, s, m, lim, e);
        case GapAccepted(s) => SkipExplained(p, s, FetchFailure, lim, e);
        case AdSkipped(s) => SkipExplained(p, s, StitchedAd, lim, e);
        case MalformedSkip(s) => SkipExplained(p, s, Malformed, lim, e);
        case AuthFailed(s) => SkipExplained(p, s, AuthError, NO_LIMITS, e);
      }
  }

  /** Whatever callbacks a fresh part has seen, in whatever order, sealed or not: each of its gaps was
      reported by one of them, for the reason it gives. */
  lemma {:induction false} GapsWereReported(p: Part, es: seq<Event>, lim: Limits)
    requires p.c.ledger.gaps == []
    ensures forall g <- After(p, es, lim).c.ledger.gaps :: g.first <= g.last && exists e <- es :: ReportsLoss(e, g)
    decreases |es|
  {
    if es != [] {
      var before, e := es[..|es| - 1], es[|es| - 1];
      GapsWereReported(p, before, lim);
      var q := After(p, before, lim);
      ApplyExplained(q, e, lim);
      forall g <- After(p, es, lim).c.ledger.gaps ensures g.first <= g.last && exists d <- es :: ReportsLoss(d, g) {
        assert Explained(q.c.ledger.gaps, e, g);
        if ReportsLoss(e, g) { assert e in es; }
        else {
          var h :| h in q.c.ledger.gaps && PartOf(g, h);
          var d :| d in before && ReportsLoss(d, h);
          assert d in es && ReportsLoss(d, g);
        }
      }
    }
  }

  // ---------- every loss is recorded ----------

  lemma CutKeepsGap(p: Part, crossed: Option<int>, g: Gap)
    requires g in p.c.ledger.gaps && g.first == g.last
    requires crossed.Some? ==> g.first <= crossed.value
    ensures g in CutIfCrossed(p, crossed).c.ledger.gaps
  {
    if crossed.Some? { assert CutGap(g, crossed.value) == g; }
  }

  lemma SkipRecords(p: Part, s: int, reason: GapReason, lim: Limits)
    requires Settled(p.c.ledger) && s > p.c.ledger.frontier && s !in p.c.ledger.resolved
    ensures Gap(s, s, reason) in GapPart(p, s, reason, lim).c.ledger.gaps
    ensures Gap(s, s, reason) in Skip(p.c.ledger, s, reason, lim).0.gaps
  {
    var l := WithGap(p.c.ledger, s, reason);
    var (l', crossed) := Skip(p.c.ledger, s, reason, lim);
    AdvanceSettles(l, lim);
    assert s > l.frontier + 1 ==> Stop(l, l.frontier, lim) == (l.frontier, false);
    CutKeepsGap(WithLedger(p, l'), crossed, Gap(s, s, reason));
  }

  lemma CutKeepsRoll(p: Part, crossed: Option<int>, g: Gap, s: int)
    requires g in p.c.ledger.gaps && g.first <= s <= g.last
    requires !p.c.split.boundarySet
    ensures var q := CutIfCrossed(p, crossed);
            || (q.c.split.boundarySet && s > q.c.split.boundary)
            || exists h <- q.c.ledger.gaps :: h.reason == g.reason && h.Covers(s)
  {
    if crossed.Some? && s <= crossed.value {
      var h := CutGap(g, crossed.value);
      assert h.Covers(s);
      assert !p.c.split.pending && HasPartContent(p.c) ==> h in CutIfCrossed(p, crossed).c.ledger.gaps;
    }
  }

  lemma RollRecords(p: Part, from: int, to: int, lim: Limits, s: int)
    requires from <= s <= to && s > p.c.ledger.frontier && !p.c.split.boundarySet
    ensures var q := RollPart(p, from, to, lim).c;
            || (q.split.boundarySet && s > q.split.boundary)
            || exists g <- q.ledger.gaps :: g.reason == RestartWindowRolled && g.Covers(s)
  {
    var (l, crossed) := Roll(p.c.ledger, from, to, RestartWindowRolled, lim);
    var start := if from <= p.c.ledger.frontier then p.c.ledger.frontier + 1 else from;
    AdvanceSettles(WithRoll(p.c.ledger, start, to, RestartWindowRolled), lim);
    CutKeepsRoll(WithLedger(p, l), crossed, Gap(start, to, RestartWindowRolled), s);
  }

  /** A loss of a sequence that was neither counted nor cut off is recorded, for the reason it was reported
      with. A rolled sequence is recorded even where it had been committed. */
  lemma LossIsRecorded(p: Part, e: Event, lim: Limits, s: int)
    requires PartInv(p) && !ShouldSkipSegmentFetch(p.c)
    requires s > p.c.ledger.frontier && (e.Seen? ==> s !in p.c.ledger.resolved && !e.o.Committed? && e.o.s == s)
    requires e.Rolled? ==> e.from <= s <= e.to
    ensures var q := Apply(p, e, lim).c;
            || (q.split.boundarySet && s > q.split.boundary)
            || exists g <- q.ledger.gaps :: g.Covers(s) && match e
               case Rolled(_, _) => g.reason == RestartWindowRolled
               case Seen(o) => ReportsLoss(e, g)
  {
    match e
    case Rolled(from, to) => RollRecords(p, from, to, lim, s);
    case Seen(o) =>
      match o
      case GapAccepted(_) => SkipRecords(p, s, FetchFailure, lim);
      case AdSkipped(_) => SkipRecords(p, s, StitchedAd, lim);
      case MalformedSkip(_) => SkipRecords(p, s, Malformed, lim);
      case AuthFailed(_) => SkipRecords(p, s, AuthError, NO_LIMITS);
  }

  // ---------- what a resumed process asks for ----------

  /** A part resumed in its fetch asks for the first sequence it has not accounted for, and for nothing
      before it but the segments that an expired token lost. */
  lemma ResumesAtFirstHole(p: Part)
    requires PartInv(p) && !ShouldSkipSegmentFetch(p.c)
    ensures var f := NewFetch(p.c);
            && f.startSeq >= p.c.ledger.partStart && !ShouldSkip(p.c.ledger, f.startSeq)
            && (forall s | s < f.startSeq :: ShouldSkip(p.c.ledger, s))
            && (forall s :: s in f.refetch <==> Gap(s, s, AuthError) in p.c.ledger.gaps)
            && f.agg == EMPTY_AGGREGATE && f.unresolved == {}
  {
    var f := NewFetch(p.c);
    SkipIsResolved(p.c.ledger, p.media, f.startSeq);
    forall s ensures s in f.refetch <==> Gap(s, s, AuthError) in p.c.ledger.gaps {
      if s in f.refetch {
        var g :| g in p.c.ledger.gaps && g.reason == AuthError && g.first == g.last && g.first == s;
        assert g == Gap(s, s, AuthError);
      }
    }
  }

  /** Only an expired token leaves a gap that is fetched again. */
  ghost predicate AuthSingles(gaps: seq<Gap>) { forall g <- gaps :: g.reason == AuthError ==> g.first == g.last }

  lemma CutAuthGaps(p: Part, crossed: Option<int>, s: int)
    requires AuthSingles(p.c.ledger.gaps) && !p.c.split.boundarySet
    ensures var q := CutIfCrossed(p, crossed);
            && AuthSingles(q.c.ledger.gaps)
            && (Gap(s, s, AuthError) in q.c.ledger.gaps <==>
                  Gap(s, s, AuthError) in p.c.ledger.gaps && !(q.c.split.boundarySet && s > q.c.split.boundary))
  {
    var g := Gap(s, s, AuthError);
    if crossed.Some? {
      forall h <- TrimGaps(p.c.ledger.gaps, crossed.value) | h.reason == AuthError
        ensures h.first == h.last && h in p.c.ledger.gaps && h.first <= crossed.value
      {
        var k :| k in p.c.ledger.gaps && k.first <= crossed.value && h == CutGap(k, crossed.value);
      }
      if g in p.c.ledger.gaps && s <= crossed.value { assert CutGap(g, crossed.value) == g; }
    }
  }

  lemma SkipAuthGaps(p: Part, s': int, reason: GapReason, lim: Limits, s: int)
    requires AuthSingles(p.c.ledger.gaps) && !p.c.split.boundarySet
    ensures var g := Gap(s, s, AuthError);
            var l := Skip(p.c.ledger, s', reason, lim).0;
            && AuthSingles(l.gaps)
            && (g in l.gaps <==> g in p.c.ledger.gaps
                                 || (reason == AuthError && s' == s > p.c.ledger.frontier && s !in p.c.ledger.resolved))
  {
    AdvanceSettles(WithGap(p.c.ledger, s', reason), lim);
  }

  lemma GapPartAuthGaps(p: Part, s': int, reason: GapReason, lim: Limits, s: int)
    requires AuthSingles(p.c.ledger.gaps) && !p.c.split.boundarySet && reason != AuthError
    ensures var q := GapPart(p, s', reason, lim);
            && AuthSingles(q.c.ledger.gaps)
            && (Gap(s, s, AuthError) in q.c.ledger.gaps <==>
                  Gap(s, s, AuthError) in p.c.ledger.gaps && !(q.c.split.boundarySet && s > q.c.split.boundary))
  {
    var (l, crossed) := Skip(p.c.ledger, s', reason, lim);
    SkipAuthGaps(p, s', reason, lim, s);
    CutAuthGaps(WithLedger(p, l), crossed, s);
  }

  lemma CommitAuthGaps(p: Part, s': int, m: Media, lim: Limits, s: int)
    requires AuthSingles(p.c.ledger.gaps) && !p.c.split.boundarySet
    ensures var q := CommitPart(p, s', m, lim);
            && AuthSingles(q.c.ledger.gaps)
            && (Gap(s, s, AuthError) in q.c.ledger.gaps <==>
                  Gap(s, s, AuthError) in p.c.ledger.gaps && s' != s
                  && !(q.c.split.boundarySet && s > q.c.split.boundary))
  {
    var l := p.c.ledger;
    var (l', crossed) := Commit(l, s', m, lim);
    AdvanceSettles(WithCommit(l, s', m), lim);
    assert Gap(s', s', AuthError) in l.gaps ==> HasSingle(l.gaps, s') by {
      if Gap(s', s', AuthError) in l.gaps { assert Gap(s', s', AuthError).SingleAt(s'); }
    }
    CutAuthGaps(Part(p.c.(ledger := l'), MediaAfterCommit(l, p.media, s', m)), crossed, s);
  }

  lemma RollAuthGaps(p: Part, from: int, to: int, lim: Limits, s: int)
    requires AuthSingles(p.c.ledger.gaps) && !p.c.split.boundarySet
    ensures var q := RollPart(p, from, to, lim);
            && AuthSingles(q.c.ledger.gaps)
            && (Gap(s, s, AuthError) in q.c.ledger.gaps <==>
                  Gap(s, s, AuthError) in p.c.ledger.gaps && !(q.c.split.boundarySet && s > q.c.split.boundary))
  {
    var (l, crossed) := Roll(p.c.ledger, from, to, RestartWindowRolled, lim);
    var start := if from <= p.c.ledger.frontier then p.c.ledger.frontier + 1 else from;
    AdvanceSettles(WithRoll(p.c.ledger, start, to, RestartWindowRolled), lim);
    CutAuthGaps(WithLedger(p, l), crossed, s);
  }

  /** What a callback does to the list of segments to fetch again: an expired token adds its segment, unless
      it is counted already; a commit takes its segment off; and the cut takes off what it leaves to the next
      part. Nothing else changes it. */
  lemma RefetchExact(p: Part, e: Event, lim: Limits, s: int)
    requires PartInv(p) && !ShouldSkipSegmentFetch(p.c) && AuthSingles(p.c.ledger.gaps)
    ensures var q := Apply(p, e, lim);
            && AuthSingles(q.c.ledger.gaps)
            && (Gap(s, s, AuthError) in q.c.ledger.gaps <==>
                  if e == Seen(AuthFailed(s)) && !ShouldSkip(p.c.ledger, s) then true
                  else Gap(s, s, AuthError) in p.c.ledger.gaps && !(e.Seen? && e.o.Committed? && e.o.s == s)
                       && !(q.c.split.boundarySet && s > q.c.split.boundary))
  {
    match e
    case Rolled(from, to) => RollAuthGaps(p, from, to, lim, s);
    case Seen(o) =>
      match o
      case Committed(s', m) => CommitAuthGaps(p, s', m, lim, s);
      case GapAccepted(s') => GapPartAuthGaps(p, s', FetchFailure, lim, s);
      case AdSkipped(s') => GapPartAuthGaps(p, s', StitchedAd, lim, s);
      case MalformedSkip(s') => GapPartAuthGaps(p, s', Malformed, lim, s);
      case AuthFailed(s') =>
        SkipAuthGaps(p, s', AuthError, NO_LIMITS, s);
        SkipIsResolved(p.c.ledger, p.media, s);
  }
}
