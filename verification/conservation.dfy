/** Whole streams of callbacks: with every sequence committed at most once, a part's totals are
    the sums of what it committed up to its frontier, whatever failed and was refetched. */
module Conservation {
  import opened Prelude
  import opened Ledgers
  import opened LedgerFacts
  import opened Checkpoints
  import opened Accountants

  /** A part after any events in any order: outcomes, auth failures and their refetches, rolls. */
  function After(p: Part, es: seq<Event>, lim: Limits): Part {
    if es == [] then p else Apply(After(p, es[..|es| - 1], lim), es[|es| - 1], lim)
  }

  function CommittedBy(es: seq<Event>): set<int> { set e, s | e in es && s in FilesOf(e) :: s }

  /** No event commits a sequence that the part or an earlier event has committed. */
  predicate CommitsOnce(p: Part, es: seq<Event>) {
    && (forall e <- es, s <- FilesOf(e) :: s !in p.media)
    && (forall i, j | 0 <= i < j < |es| :: FilesOf(es[i]) !! FilesOf(es[j]))
  }

  lemma CutConserves(p: Part, crossed: Option<int>)
    requires Inv(p.c.ledger, p.media)
    requires crossed.Some? ==> crossed.value == p.c.ledger.frontier
    ensures var p' := CutIfCrossed(p, crossed); Conserved(p'.c.ledger, p'.media)
  {
    SealKeeps(p.c.ledger, p.media);
  }

  lemma SkipConserves(p: Part, s: int, reason: GapReason, lim: Limits)
    requires PartInv(p) && Conserved(p.c.ledger, p.media)
    ensures var p' := GapPart(p, s, reason, lim); Conserved(p'.c.ledger, p'.media)
  {
    SkipKeeps(p.c.ledger, p.media, s, reason, lim);
    SkipNotes(p.c.ledger, p.media, s, reason, lim);
    var (l, crossed) := Skip(p.c.ledger, s, reason, lim);
    CutConserves(WithLedger(p, l), crossed);
  }

  lemma CommitConserves(p: Part, s: int, m: Media, lim: Limits)
    requires PartInv(p) && Conserved(p.c.ledger, p.media) && s !in p.media
    ensures var p' := CommitPart(p, s, m, lim); Conserved(p'.c.ledger, p'.media)
  {
    CommitKeeps(p.c.ledger, p.media, s, m, lim);
    CommitNotes(p.c.ledger, p.media, s, m, lim);
    var (l, crossed) := Commit(p.c.ledger, s, m, lim);
    CutConserves(Part(p.c.(ledger := l), MediaAfterCommit(p.c.ledger, p.media, s, m)), crossed);
  }

  lemma RollConserves(p: Part, from: int, to: int, lim: Limits)
    requires PartInv(p) && Conserved(p.c.ledger, p.media)
    ensures var p' := RollPart(p, from, to, lim); Conserved(p'.c.ledger, p'.media)
  {
    RollKeeps(p.c.ledger, p.media, from, to, RestartWindowRolled, lim);
    RollNotes(p.c.ledger, p.media, from, to, RestartWindowRolled, lim);
    var (l, crossed) := Roll(p.c.ledger, from, to, RestartWindowRolled, lim);
    CutConserves(WithLedger(p, l), crossed);
  }

  lemma ApplyConserves(p: Part, e: Event, lim: Limits)
    requires PartInv(p) && Conserved(p.c.ledger, p.media) && forall s <- FilesOf(e) :: s !in p.media
    ensures var p' := Apply(p, e, lim); Conserved(p'.c.ledger, p'.media)
  {
    match e
    case Rolled(from, to) => RollConserves(p, from, to, lim);
    case Seen(o) =>
      match o
      case Committed(s, m) => CommitConserves(p, s, m, lim);
      case GapAccepted(s) => SkipConserves(p, s, FetchFailure, lim);
      case AdSkipped(s) => SkipConserves(p, s, StitchedAd, lim);
      case MalformedSkip(s) => SkipConserves(p, s, Malformed, lim);
      case AuthFailed(s) => SkipKeeps(p.c.ledger, p.media, s, AuthError, NO_LIMITS);
  }

  lemma CommittedBySnoc(es: seq<Event>)
    requires es != []
    ensures CommittedBy(es) == CommittedBy(es[..|es| - 1]) + FilesOf(es[|es| - 1])
  {
    var k := |es| - 1;
    assert es == es[..k] + [es[k]];
    assert forall e <- es :: e == es[k] || e in es[..k];
  }

  /** Conservation: the part's bytes and seconds are exactly those of the sequences it committed at
      or below the frontier, and only what the stream committed is in its history. */
  lemma {:induction false} StreamConserves(p: Part, es: seq<Event>, lim: Limits)
    requires PartInv(p) && Conserved(p.c.ledger, p.media) && CommitsOnce(p, es)
    ensures var p' := After(p, es, lim);
            && PartInv(p')
            && p'.c.ledger.total == Total(p'.media, p'.c.ledger.partStart, p'.c.ledger.frontier)
            && p'.media.Keys <= p.media.Keys + CommittedBy(es)
    decreases |es|
  {
    if es != [] {
      var k := |es| - 1;
      var e, q := es[k], After(p, es[..k], lim);
      assert forall x <- es[..k] :: x in es;
      StreamConserves(p, es[..k], lim);
      CommittedBySnoc(es);
      assert CommittedBy(es[..k]) !! FilesOf(e);
      ApplyConserves(q, e, lim);
      ApplyKeeps(q, e, lim);
      ApplyShape(q, e, lim);
    }
  }

  // ---------- why the overshoot bound leaves auth failures out ----------

  lemma OneStep(l: Ledger, lim: Limits)
    requires l.frontier + 1 in l.resolved && l.frontier + 2 !in l.resolved
    requires !Reached(TotalAt(l, l.frontier + 1), lim)
    ensures Advance(l, lim) == (MoveTo(l, l.frontier + 1), None)
  {
    AboveShrinks(l.resolved, l.frontier);
    assert Stop(l, l.frontier + 1, lim) == (l.frontier + 1, false);
  }

  const TEN_BYTES := Limits(10, 0)
  const SMALL := Media(1, 0.0)
  const BIG := Media(100, 0.0)

  function FreshAtZero(): Part { Part(NEW_CHECKPOINT.(ledger := FreshPart(0)), map[]) }

  function AfterAuthGap(): Ledger {
    FreshPart(0).(frontier := 0, gaps := [Gap(0, 0, AuthError)])
  }

  function AfterSmall(): Ledger { AfterAuthGap().(frontier := 1, total := SMALL) }

  lemma AuthGapStep()
    ensures Apply(FreshAtZero(), Seen(AuthFailed(0)), TEN_BYTES) == WithLedger(FreshAtZero(), AfterAuthGap())
  {
    var a := WithGap(FreshPart(0), 0, AuthError);
    OneStep(a, NO_LIMITS);
    assert TotalAt(a, 0) == NO_MEDIA;
    assert MoveTo(a, 0) == AfterAuthGap();
  }

  lemma SmallStep()
    ensures Apply(WithLedger(FreshAtZero(), AfterAuthGap()), Seen(Committed(1, SMALL)), TEN_BYTES) ==
            Part(NEW_CHECKPOINT.(ledger := AfterSmall()), map[1 := SMALL])
  {
    var l1 := AfterAuthGap();
    WithoutSingleNone(l1.gaps, 1);
    var b := WithCommit(l1, 1, SMALL);
    assert TotalAt(b, 0) == NO_MEDIA;
    assert TotalAt(b, 1) == Plus(NO_MEDIA, SMALL);
    OneStep(b, TEN_BYTES);
    assert MoveTo(b, 1) == AfterSmall();
  }

  lemma BigCommit()
    ensures Commit(AfterSmall(), 0, BIG, TEN_BYTES) ==
            (AfterSmall().(gaps := [], total := Plus(SMALL, BIG)), Some(1))
  {
    var l := AfterSmall();
    assert l.gaps[0] in l.gaps && l.gaps[0].SingleAt(0);
    assert HasSingle(l.gaps, 0);
    assert WithoutSingle(l.gaps, 0) == [];
  }

  lemma BigCut(p: Part, p': Part)
    requires !p.c.split.pending && HasPartContent(p.c) && p' == CutIfCrossed(p, Some(1)) && 1 in p.media
    ensures p'.c.split.boundarySet && p'.c.split.boundary == 1
    ensures p'.c.ledger.total == p.c.ledger.total && 1 in p'.media && p'.media[1] == p.media[1]
  {
  }

  lemma BigStep()
    ensures var p := Part(NEW_CHECKPOINT.(ledger := AfterSmall()), map[1 := SMALL]);
            var r := Apply(p, Seen(Committed(0, BIG)), TEN_BYTES);
            && r.c.split.boundarySet && r.c.split.boundary == 1 && 1 in r.media && r.media[1] == SMALL
            && r.c.ledger.total == Plus(SMALL, BIG)
  {
    var p := Part(NEW_CHECKPOINT.(ledger := AfterSmall()), map[1 := SMALL]);
    BigCommit();
    var media := MediaAfterCommit(AfterSmall(), p.media, 0, BIG);
    var q := Part(p.c.(ledger := AfterSmall().(gaps := [], total := Plus(SMALL, BIG))), media);
    assert Apply(p, Seen(Committed(0, BIG)), TEN_BYTES) == CutIfCrossed(q, Some(1));
    BigCut(q, CutIfCrossed(q, Some(1)));
  }

  /** The frontier passes an auth gap, and its refetch adds its media below the frontier: the part is
      then cut at a boundary segment far smaller than the overshoot. */
  lemma AuthRefetchOvershoots()
    ensures var p1 := Apply(FreshAtZero(), Seen(AuthFailed(0)), TEN_BYTES);
            var p2 := Apply(p1, Seen(Committed(1, SMALL)), TEN_BYTES);
            var r := Apply(p2, Seen(Committed(0, BIG)), TEN_BYTES);
            && r.c.split.boundarySet && r.c.split.boundary == 1 && 1 in r.media && r.media[1] == SMALL
            && r.c.ledger.total.bytes > TEN_BYTES.maxBytes + SMALL.bytes
  {
    AuthGapStep();
    SmallStep();
    BigStep();
  }
}
