/** When the gap list counts each lost sequence once and no committed one, and what that is for: a
    part that a ceiling sealed is then never mistaken for an empty one. */
module ExactGaps {
  import opened Prelude
  import opened Ledgers
  import opened LedgerFacts
  import opened Checkpoints
  import opened Accountants
  import opened PartGuards

  /** No overlapping gaps, and none over a committed sequence. */
  ghost predicate ClearGaps(l: Ledger, media: map<int, Media>) {
    PairwiseDisjoint(l.gaps) && forall s | GapCovered(l.gaps, s) :: s !in media
  }

  /** The first sequence a range gap would record. */
  function RollStart(l: Ledger, from: int): int { if from <= l.frontier then l.frontier + 1 else from }

  /** A range gap finds nothing resolved where it is recorded: no buffered commit, no other gap. */
  predicate RollsUnresolved(l: Ledger, from: int, to: int) {
    from <= to ==> forall s <- l.resolved :: !(RollStart(l, from) <= s <= to)
  }

  /** A commit above the frontier fills a gap of its own or none, not a part of a range gap. */
  predicate CommitsOutsideRanges(l: Ledger, s: int) {
    s > l.frontier && GapCovered(l.gaps, s) ==> HasSingle(l.gaps, s)
  }

  // ---------- gap lists ----------

  lemma {:induction false} WithoutSingleDisjoint(gaps: seq<Gap>, s: int)
    requires PairwiseDisjoint(gaps)
    ensures PairwiseDisjoint(WithoutSingle(gaps, s))
    ensures HasSingle(gaps, s) ==> !GapCovered(WithoutSingle(gaps, s), s)
  {
    if gaps != [] {
      var rest, g := gaps[..|gaps| - 1], gaps[|gaps| - 1];
      assert gaps == rest + [g];
      DisjointSnoc(rest, g);
      WithoutSingleDisjoint(rest, s);
      WithoutSingleShrinks(rest, s);
      if g.SingleAt(s) {
        assert s in Range(g.first, g.End());
        assert !GapCovered(rest, s) by { assert s !in GapSeqs(rest) * Range(g.first, g.End()); }
      } else {
        DisjointSnoc(WithoutSingle(rest, s), g);
        GapCoveredSnoc(WithoutSingle(rest, s), g);
        SinglesStayOut(rest, g, s);
      }
    }
  }

  lemma WithoutSingleShrinks(gaps: seq<Gap>, s: int)
    ensures GapSeqs(WithoutSingle(gaps, s)) <= GapSeqs(gaps)
  {
    forall t | GapCovered(WithoutSingle(gaps, s), t) ensures GapCovered(gaps, t) {
      var g :| g in WithoutSingle(gaps, s) && g.Covers(t);
      assert g in gaps;
    }
  }

  lemma SinglesStayOut(rest: seq<Gap>, g: Gap, s: int)
    requires GapSeqs(rest) * Range(g.first, g.End()) == {} && !g.SingleAt(s)
    ensures HasSingle(rest + [g], s) ==> HasSingle(rest, s) && !g.Covers(s)
  {
    if HasSingle(rest + [g], s) {
      var h :| h in rest + [g] && h.SingleAt(s);
      assert h in rest && h.Covers(s);
      assert s in GapSeqs(rest);
    }
  }

  lemma {:induction false} TrimDisjoint(gaps: seq<Gap>, boundary: int)
    requires PairwiseDisjoint(gaps)
    ensures PairwiseDisjoint(TrimGaps(gaps, boundary))
  {
    if gaps != [] {
      var rest, g := gaps[..|gaps| - 1], gaps[|gaps| - 1];
      assert gaps == rest + [g];
      DisjointSnoc(rest, g);
      TrimDisjoint(rest, boundary);
      if g.first <= boundary {
        var cut := CutGap(g, boundary);
        DisjointSnoc(TrimGaps(rest, boundary), cut);
        forall t ensures t !in GapSeqs(TrimGaps(rest, boundary)) * Range(cut.first, cut.End()) {
          TrimCovers(rest, boundary, t);
          assert t !in GapSeqs(rest) * Range(g.first, g.End());
        }
      }
    }
  }

  // ---------- what each outcome does to clear gaps ----------

  /** A range gap keeps the gaps clear if and only if it finds nothing resolved. */
  lemma RollKeepsClear(l: Ledger, media: map<int, Media>, from: int, to: int, reason: GapReason, lim: Limits)
    requires Sound(l, media) && ClearGaps(l, media)
    ensures ClearGaps(Roll(l, from, to, reason, lim).0, media) <==> RollsUnresolved(l, from, to)
  {
    var start := RollStart(l, from);
    if from <= to && start <= to {
      var g := Gap(start, to, reason);
      assert Roll(l, from, to, reason, lim).0.gaps == l.gaps + [g];
      DisjointSnoc(l.gaps, g);
      GapCoveredSnoc(l.gaps, g);
      assert g.End() == to;
      if RollsUnresolved(l, from, to) {
        assert GapSeqs(l.gaps) * Range(start, to) == {};
      } else {
        var s :| s in l.resolved && start <= s <= to;
        assert g.Covers(s) && (s in media || s in GapSeqs(l.gaps) * Range(start, to));
      }
    }
  }

  /** A commit keeps the gaps clear if and only if it does not land inside a range gap. */
  lemma CommitKeepsClear(l: Ledger, media: map<int, Media>, s: int, m: Media, lim: Limits)
    requires Sound(l, media) && ClearGaps(l, media)
    ensures ClearGaps(Commit(l, s, m, lim).0, MediaAfterCommit(l, media, s, m)) <==> CommitsOutsideRanges(l, s)
  {
    var l', media' := Commit(l, s, m, lim).0, MediaAfterCommit(l, media, s, m);
    if s > l.frontier || HasSingle(l.gaps, s) {
      assert l'.gaps == WithoutSingle(l.gaps, s) && media' == media[s := m];
      WithoutSingleDisjoint(l.gaps, s);
      forall t ensures t != s ==> (GapCovered(l'.gaps, t) <==> GapCovered(l.gaps, t)) {
        WithoutSingleCovers(l.gaps, s, t);
      }
      WithoutSingleCovers(l.gaps, s, s);
      assert GapCovered(l'.gaps, s) <==> GapCovered(l.gaps, s) && !HasSingle(l.gaps, s);
    }
  }

  lemma SkipKeepsClear(l: Ledger, media: map<int, Media>, s: int, reason: GapReason, lim: Limits)
    requires Sound(l, media) && ClearGaps(l, media)
    ensures ClearGaps(Skip(l, s, reason, lim).0, media)
  {
    if s > l.frontier && s !in l.resolved {
      var g := Gap(s, s, reason);
      DisjointSnoc(l.gaps, g);
      GapCoveredSnoc(l.gaps, g);
      assert GapSeqs(l.gaps) * Range(s, s) == {};
    }
  }

  lemma SealKeepsClear(l: Ledger, media: map<int, Media>, boundary: int)
    requires ClearGaps(l, media)
    ensures ClearGaps(Seal(l, boundary), MediaUpTo(media, boundary))
  {
    TrimDisjoint(l.gaps, boundary);
    forall s ensures GapCovered(TrimGaps(l.gaps, boundary), s) <==> s <= boundary && GapCovered(l.gaps, s) {
      TrimCovers(l.gaps, boundary, s);
    }
  }

  // ---------- what each event does to a part ----------

  /** The gaps of a part count exactly its lost sequences; a sealed part has none above its boundary. */
  ghost predicate Exact(p: Part) {
    && ClearGaps(p.c.ledger, p.media)
    && (p.c.split.boundarySet ==> forall s | GapCovered(p.c.ledger.gaps, s) :: s <= p.c.split.boundary)
  }

  /** A callback that counts nothing twice: a commit does not land inside a range gap, and a roll that
      records anything finds nothing resolved and comes before the seal. */
  predicate CleanEvent(p: Part, e: Event) {
    match e
    case Rolled(from, to) =>
      from <= to && to > p.c.ledger.frontier ==> !p.c.split.boundarySet && RollsUnresolved(p.c.ledger, from, to)
    case Seen(o) =>
      o.Committed? && !(p.c.split.Sealed() && o.s > p.c.split.boundary) ==> CommitsOutsideRanges(p.c.ledger, o.s)
  }

  lemma CutKeepsExact(p: Part, crossed: Option<int>)
    requires ClearGaps(p.c.ledger, p.media)
    requires p.c.split.boundarySet ==>
               p.c.split.pending && forall s | GapCovered(p.c.ledger.gaps, s) :: s <= p.c.split.boundary
    ensures Exact(CutIfCrossed(p, crossed))
  {
    if crossed.Some? && !p.c.split.pending && HasPartContent(p.c) {
      var b := crossed.value;
      SealKeepsClear(p.c.ledger, p.media, b);
      forall s ensures GapCovered(TrimGaps(p.c.ledger.gaps, b), s) ==> s <= b { TrimCovers(p.c.ledger.gaps, b, s); }
    }
  }

  lemma CommitPartExact(p: Part, s: int, m: Media, lim: Limits)
    requires PartInv(p) && Exact(p) && CommitsOutsideRanges(p.c.ledger, s)
    requires p.c.split.boundarySet ==> s <= p.c.split.boundary
    ensures Exact(CommitPart(p, s, m, lim))
  {
    var l := p.c.ledger;
    CommitKeepsClear(l, p.media, s, m, lim);
    var (l', crossed) := Commit(l, s, m, lim);
    forall t ensures s <= l.frontier && GapCovered(l'.gaps, t) ==> GapCovered(l.gaps, t) {
      if s <= l.frontier && GapCovered(l'.gaps, t) { WithoutSingleShrinks(l.gaps, s); assert t in GapSeqs(l'.gaps); }
    }
    CutKeepsExact(Part(p.c.(ledger := l'), MediaAfterCommit(l, p.media, s, m)), crossed);
  }

  lemma GapPartExact(p: Part, s: int, reason: GapReason, lim: Limits)
    requires PartInv(p) && Exact(p)
    requires p.c.split.boundarySet ==> s <= p.c.split.boundary
    ensures Exact(GapPart(p, s, reason, lim)) && Exact(WithLedger(p, Skip(p.c.ledger, s, reason, lim).0))
  {
    SkipKeepsClear(p.c.ledger, p.media, s, reason, lim);
    var (l', crossed) := Skip(p.c.ledger, s, reason, lim);
    CutKeepsExact(WithLedger(p, l'), crossed);
  }

  lemma RollPartExact(p: Part, from: int, to: int, lim: Limits)
    requires PartInv(p) && Exact(p) && CleanEvent(p, Rolled(from, to))
    ensures Exact(RollPart(p, from, to, lim))
  {
    RollKeepsClear(p.c.ledger, p.media, from, to, RestartWindowRolled, lim);
    var (l', crossed) := Roll(p.c.ledger, from, to, RestartWindowRolled, lim);
    CutKeepsExact(WithLedger(p, l'), crossed);
  }

  /** A clean callback keeps the gaps exact. */
  lemma ApplyKeepsExact(p: Part, e: Event, lim: Limits)
    requires PartInv(p) && Exact(p) && CleanEvent(p, e)
    ensures Exact(Apply(p, e, lim))
  {
    match e
    case Rolled(from, to) => RollPartExact(p, from, to, lim);
    case Seen(o) =>
      if !(p.c.split.Sealed() && o.s > p.c.split.boundary) {
        match o
        case Committed(s, m) => CommitPartExact(p, s, m, lim);
        case GapAccepted(s) => GapPartExact(p, s, FetchFailure, lim);
        case AdSkipped(s) => GapPartExact(p, s, StitchedAd, lim);
        case MalformedSkip(s) => GapPartExact(p, s, Malformed, lim);
        case AuthFailed(s) => GapPartExact(p, s, AuthError, NO_LIMITS);
      }
  }

  /** After the seal a roll keeps the gaps exact if and only if it records nothing. */
  lemma SealedRollExact(p: Part, from: int, to: int, lim: Limits)
    requires PartInv(p) && Exact(p) && p.c.split.boundarySet
    ensures Exact(Apply(p, Rolled(from, to), lim)) <==> from > to || to <= p.c.ledger.frontier
    ensures Exact(Apply(p, Rolled(from, to), lim)) <==> CleanEvent(p, Rolled(from, to))
  {
    if from <= to && to > p.c.ledger.frontier {
      var g := Gap(RollStart(p.c.ledger, from), to, RestartWindowRolled);
      GapCoveredSnoc(p.c.ledger.gaps, g);
      assert Apply(p, Rolled(from, to), lim).c.ledger.gaps == p.c.ledger.gaps + [g] && g.Covers(to);
      assert GapCovered(p.c.ledger.gaps + [g], to);
    }
  }

  // ---------- a sealed part holds media ----------

  predicate MediaBelow(media: map<int, Media>, frontier: int) { exists s <- media.Keys :: s <= frontier }

  /** The part total rests on media at or below the frontier, and a crossing on a total. */
  ghost predicate Backed(l: Ledger, media: map<int, Media>, crossed: Option<int>) {
    && (l.total != NO_MEDIA ==> MediaBelow(media, l.frontier))
    && (crossed.Some? ==> l.total != NO_MEDIA && crossed.value == l.frontier)
  }

  /** Totals come from committed media at or below the frontier, and a seal needs a total. */
  ghost predicate Funded(p: Part) {
    Backed(p.c.ledger, p.media, None) && (p.c.split.boundarySet ==> p.media != map[])
  }

  lemma {:induction false} FoldedIsBuffered(l: Ledger, t: int)
    ensures TotalAt(l, t) != l.total ==> exists s :: s in l.buffered && s <= t
    decreases t - l.frontier
  {
    if t > l.frontier { FoldedIsBuffered(l, t - 1); }
  }

  lemma AdvanceBacked(l: Ledger, media: map<int, Media>, lim: Limits)
    requires BufferExact(l, media) && Backed(l, media, None)
    ensures var (l', crossed) := Advance(l, lim); Backed(l', media, crossed)
  {
    StopMeaning(l, l.frontier, lim);
    var (t, crossed) := Stop(l, l.frontier, lim);
    FoldedIsBuffered(l, t);
    if MediaBelow(media, l.frontier) {
      var s :| s in media.Keys && s <= l.frontier;
      assert s <= t;
    }
  }

  lemma CutFunded(p: Part, crossed: Option<int>)
    requires Backed(p.c.ledger, p.media, crossed)
    requires p.c.split.boundarySet ==> p.c.split.pending && p.media != map[]
    ensures Funded(CutIfCrossed(p, crossed))
  {
    if crossed.Some? && !p.c.split.pending && HasPartContent(p.c) {
      var s :| s in p.media.Keys && s <= p.c.ledger.frontier;
      assert s in MediaUpTo(p.media, crossed.value).Keys;
    }
  }

  lemma MoreMediaBelow(media: map<int, Media>, s: int, m: Media, frontier: int)
    ensures MediaBelow(media, frontier) ==> MediaBelow(media[s := m], frontier)
    ensures s <= frontier ==> MediaBelow(media[s := m], frontier)
  {
    assert s in media[s := m].Keys;
    if MediaBelow(media, frontier) {
      var t :| t in media.Keys && t <= frontier;
      assert t in media[s := m].Keys;
    }
  }

  lemma CommitAboveBacked(l: Ledger, media: map<int, Media>, s: int, m: Media, lim: Limits)
    requires Sound(l, media) && Backed(l, media, None) && s > l.frontier
    ensures var (l', crossed) := Advance(WithCommit(l, s, m), lim); Backed(l', media[s := m], crossed)
  {
    MoreMediaBelow(media, s, m, l.frontier);
    WithCommitKeeps(l, media, s, m);
    AdvanceBacked(WithCommit(l, s, m), media[s := m], lim);
  }

  lemma RefillBacked(l: Ledger, media: map<int, Media>, s: int, m: Media, lim: Limits)
    requires s <= l.frontier && HasSingle(l.gaps, s)
    ensures var (l', crossed) := Commit(l, s, m, lim); Backed(l', media[s := m], crossed)
  {
    MoreMediaBelow(media, s, m, l.frontier);
  }

  lemma CommitBacked(l: Ledger, media: map<int, Media>, s: int, m: Media, lim: Limits)
    requires Sound(l, media) && Backed(l, media, None)
    ensures var (l', crossed) := Commit(l, s, m, lim); Backed(l', MediaAfterCommit(l, media, s, m), crossed)
  {
    if s > l.frontier { CommitAboveBacked(l, media, s, m, lim); }
    else if HasSingle(l.gaps, s) { RefillBacked(l, media, s, m, lim); }
  }

  lemma CommitPartFunded(p: Part, s: int, m: Media, lim: Limits)
    requires PartInv(p) && Funded(p)
    ensures Funded(CommitPart(p, s, m, lim))
  {
    var l := p.c.ledger;
    CommitBacked(l, p.media, s, m, lim);
    var (l', crossed) := Commit(l, s, m, lim);
    var media' := MediaAfterCommit(l, p.media, s, m);
    assert p.media != map[] ==> media' != map[] by {
      if p.media != map[] {
        HasMember(p.media.Keys);
        var t :| t in p.media;
        assert t in media';
      }
    }
    CutFunded(Part(p.c.(ledger := l'), media'), crossed);
  }

  lemma GapPartFunded(p: Part, s: int, reason: GapReason, lim: Limits)
    requires PartInv(p) && Funded(p)
    ensures Funded(GapPart(p, s, reason, lim)) && Funded(WithLedger(p, Skip(p.c.ledger, s, reason, lim).0))
  {
    var (l', crossed) := Skip(p.c.ledger, s, reason, lim);
    AdvanceBacked(WithGap(p.c.ledger, s, reason), p.media, lim);
    CutFunded(WithLedger(p, l'), crossed);
  }

  lemma RollPartFunded(p: Part, from: int, to: int, lim: Limits)
    requires PartInv(p) && Funded(p)
    ensures Funded(RollPart(p, from, to, lim))
  {
    var (l', crossed) := Roll(p.c.ledger, from, to, RestartWindowRolled, lim);
    AdvanceBacked(WithRoll(p.c.ledger, RollStart(p.c.ledger, from), to, RestartWindowRolled), p.media, lim);
    CutFunded(WithLedger(p, l'), crossed);
  }

  lemma ApplyKeepsFunded(p: Part, e: Event, lim: Limits)
    requires PartInv(p) && Funded(p)
    ensures Funded(Apply(p, e, lim))
  {
    match e
    case Rolled(from, to) => RollPartFunded(p, from, to, lim);
    case Seen(o) =>
      match o
      case Committed(s, m) => CommitPartFunded(p, s, m, lim);
      case GapAccepted(s) => GapPartFunded(p, s, FetchFailure, lim);
      case AdSkipped(s) => GapPartFunded(p, s, StitchedAd, lim);
      case MalformedSkip(s) => GapPartFunded(p, s, Malformed, lim);
      case AuthFailed(s) => GapPartFunded(p, s, AuthError, NO_LIMITS);
  }

  // ---------- the guards on a sealed part ----------

  lemma SealedStandsAtBoundary(p: Part)
    requires PartInv(p) && Exact(p) && p.c.split.boundarySet
    ensures p.c.ledger.frontier == p.c.split.boundary
  {
    var next := p.c.split.boundary + 1;
    assert p.c.ledger.frontier >= next ==> next in p.media || GapCovered(p.c.ledger.gaps, next);
  }

  /** A part that a ceiling sealed is finalized, whatever the fetch reports and however it was
      resumed, when its gaps are exact. */
  lemma SealedIsFinalized(p: Part, r: JobResult, priorParts: int)
    requires PartInv(p) && Exact(p) && Funded(p) && p.c.split.boundarySet
    ensures Decide(priorParts, r, NoteFetched(p.c, r)) == RunPart
  {
    SealedStandsAtBoundary(p);
    CommittedMediaComplete(NoteFetched(p.c, r), p.media, r, priorParts);
  }

  // ---------- and when they are not ----------

  const LOW := Limits(10, 0)
  const HEAVY := Media(100, 0.0)

  /** The second part of a recording, after some re-anchors and perhaps some window rolls. */
  function SecondPart(reanchors: int, rolled: bool): Checkpoint {
    NEW_CHECKPOINT.(partIndex := 2, reanchors := reanchors, hadWindowRoll := rolled)
  }

  /** Anchored at base, with the commit of the next sequence still waiting for it. */
  function Waiting(base: int, reanchors: int, rolled: bool): Part {
    Part(SecondPart(reanchors, rolled).(ledger := WithCommit(FreshPart(base), base + 1, HEAVY)), map[base + 1 := HEAVY])
  }

  /** A restart finds that the playlist has rolled past the part's start: the range gap covers the
      buffered commit. */
  function RolledOver(base: int, reanchors: int, rolled: bool): Part {
    var b := base + 1;
    var l := FreshPart(base).(frontier := b, gaps := [Gap(base, b, RestartWindowRolled)], total := HEAVY);
    Part(SecondPart(reanchors, rolled).(ledger := l, split := Split(true, true, b, true, false)), map[b := HEAVY])
  }

  lemma WaitingIsReached(base: int, reanchors: int, rolled: bool)
    ensures var p := Part(SecondPart(reanchors, rolled).(ledger := FreshPart(base)), map[]);
            Apply(p, Seen(Committed(base + 1, HEAVY)), LOW) == Waiting(base, reanchors, rolled)
    ensures PartInv(Waiting(base, reanchors, rolled))
    ensures Exact(Waiting(base, reanchors, rolled)) && Funded(Waiting(base, reanchors, rolled))
  {
    var l := WithCommit(FreshPart(base), base + 1, HEAVY);
    assert WithoutSingle([], base + 1) == [];
    assert Stop(l, base - 1, LOW) == (base - 1, false);
    FreshPartKeeps(base);
    WithCommitKeeps(FreshPart(base), map[], base + 1, HEAVY);
    assert map[][base + 1 := HEAVY] == map[base + 1 := HEAVY];
  }

  /** The ledger with the commit waiting and the range recorded: the frontier stops after both. */
  lemma RolloverStops(base: int)
    ensures var l := WithRoll(WithCommit(FreshPart(base), base + 1, HEAVY), base, base + 1, RestartWindowRolled);
            && Stop(l, base - 1, LOW) == (base + 1, true) && TotalAt(l, base + 1) == HEAVY
            && l.resolved == {base, base + 1} && l.buffered == {base + 1}
  {
    var b := base + 1;
    var l := WithRoll(WithCommit(FreshPart(base), b, HEAVY), base, b, RestartWindowRolled);
    assert Range(base, b) == {base, b} && l.resolved == {base, b} && l.buffered == {b};
    assert TotalAt(l, base - 1) == NO_MEDIA;
    assert TotalAt(l, base) == NO_MEDIA;
    assert TotalAt(l, b) == Plus(NO_MEDIA, HEAVY);
    AboveShrinks(l.resolved, base - 1);
    assert Stop(l, base, LOW) == (b, true);
  }

  lemma RolloverSeals(base: int, reanchors: int, rolled: bool)
    ensures Apply(Waiting(base, reanchors, rolled), Rolled(base, base + 1), LOW) == RolledOver(base, reanchors, rolled)
  {
    var b, g := base + 1, Gap(base, base + 1, RestartWindowRolled);
    var l0 := WithCommit(FreshPart(base), b, HEAVY);
    var l := WithRoll(l0, base, b, RestartWindowRolled);
    RolloverStops(base);
    assert MoveTo(l, b) == FreshPart(base).(frontier := b, gaps := [g], total := HEAVY);
    var p := Waiting(base, reanchors, rolled);
    var q := Part(p.c.(ledger := MoveTo(l, b)), p.media);
    assert Apply(p, Rolled(base, b), LOW) == CutIfCrossed(q, Some(b));
    CutRolledOver(q, base, reanchors, rolled);
  }

  lemma CutRolledOver(q: Part, base: int, reanchors: int, rolled: bool)
    requires q == RolledOver(base, reanchors, rolled).(c := RolledOver(base, reanchors, rolled).c.(split := NO_SPLIT))
    ensures CutIfCrossed(q, Some(base + 1)) == RolledOver(base, reanchors, rolled)
  {
    var b, g := base + 1, Gap(base, base + 1, RestartWindowRolled);
    assert TrimGaps([], b) == [] && TrimGaps([g], b) == [g];
    assert MediaUpTo(q.media, b) == q.media;
    assert Seal(q.c.ledger, b) == q.c.ledger;
  }

  lemma RolledOverJudged(base: int, reanchors: int, rolled: bool, r: JobResult)
    requires r.segmentsDone <= 0 && !r.endList
    ensures var p := RolledOver(base, reanchors, rolled); Decide(1, r, NoteFetched(p.c, r)) == ReanchorEmpty
    ensures SynthesizeResult(RolledOver(base, reanchors, rolled).c) == JobResult(0, 2, base + 1, false)
  {
    var g := Gap(base, base + 1, RestartWindowRolled);
    assert GapSeqCount([]) == 0 && [g][..0] == [];
    assert GapSeqCount([g]) == 2;
  }

  lemma RolledOverNotExact(base: int, reanchors: int, rolled: bool)
    ensures !Exact(RolledOver(base, reanchors, rolled))
    ensures !CleanEvent(Waiting(base, reanchors, rolled), Rolled(base, base + 1))
  {
    var g := Gap(base, base + 1, RestartWindowRolled);
    assert g in [g] && g.Covers(base + 1);
    assert GapCovered(RolledOver(base, reanchors, rolled).c.ledger.gaps, base + 1);
    assert base + 1 in Waiting(base, reanchors, rolled).c.ledger.resolved;
  }

  /** A sealed part over a rolled-over commit keeps every invariant and holds media above its ceiling,
      and yet the loop takes it for empty, in the run that sealed it and after a restart. */
  lemma RolledOverSealLooksEmpty(base: int, reanchors: int, rolled: bool, last: int)
    ensures var w, p := Waiting(base, reanchors, rolled), RolledOver(base, reanchors, rolled);
            var r := SynthesizeResult(p.c);
            && PartInv(p) && Funded(p) && !Exact(p) && p.media == map[base + 1 := HEAVY]
            && !CleanEvent(w, Rolled(base, base + 1)) && Apply(w, Rolled(base, base + 1), LOW) == p
            && Decide(1, r, NoteFetched(p.c, r)) == ReanchorEmpty
    ensures var p, r := RolledOver(base, reanchors, rolled), JobResult(0, 0, last, false);
            Decide(1, r, NoteFetched(p.c, r)) == ReanchorEmpty
  {
    var w, e := Waiting(base, reanchors, rolled), Rolled(base, base + 1);
    WaitingIsReached(base, reanchors, rolled);
    RolloverSeals(base, reanchors, rolled);
    ApplyKeeps(w, e, LOW);
    ApplyKeepsFunded(w, e, LOW);
    RolledOverNotExact(base, reanchors, rolled);
    RolledOverJudged(base, reanchors, rolled, SynthesizeResult(RolledOver(base, reanchors, rolled).c));
    RolledOverJudged(base, reanchors, rolled, JobResult(0, 0, last, false));
  }

  // A second way: a roll that is recorded after the seal counts sequences above the boundary.

  /** Sealed at its first segment, with no loss at all. */
  function SealedWhole(): Part {
    Part(NEW_CHECKPOINT.(partIndex := 2, ledger := FreshPart(1).(frontier := 1, total := HEAVY),
                         split := Split(true, true, 1, true, false)),
         map[1 := HEAVY])
  }

  lemma LateRollShape()
    ensures var p := Apply(SealedWhole(), Rolled(2, 4), LOW);
            && p.c.ledger.gaps == [Gap(2, 4, RestartWindowRolled)] && p.c.ledger.frontier == 2
            && p.c.split == SealedWhole().c.split && p.media == SealedWhole().media
            && p.c.ledger.buffered == {} && p.c.ledger.partStart == 1 && p.c.ledger.started
            && !p.c.endListSeen
  {
    var l := WithRoll(SealedWhole().c.ledger, 2, 4, RestartWindowRolled);
    assert TotalAt(l, 1) == HEAVY;
    assert TotalAt(l, 2) == HEAVY;
    assert 2 in l.resolved;
    assert Stop(l, 1, LOW) == (2, true);
  }

  /** The part is whole, and after the late roll a restart takes it for empty. */
  lemma LateRollLooksEmpty()
    ensures var p := Apply(SealedWhole(), Rolled(2, 4), LOW);
            var r := SynthesizeResult(p.c);
            && PartInv(SealedWhole()) && Exact(SealedWhole()) && Funded(SealedWhole())
            && !CleanEvent(SealedWhole(), Rolled(2, 4)) && p.media == map[1 := HEAVY]
            && Decide(1, r, NoteFetched(p.c, r)) == ReanchorEmpty
  {
    LateRollShape();
    var g := Gap(2, 4, RestartWindowRolled);
    assert GapSeqCount([]) == 0 && [g][..0] == [];
    assert GapSeqCount([g]) == 3;
    assert !GapCovered([], 0);
    assert 1 in SealedWhole().media.Keys;
  }
}
