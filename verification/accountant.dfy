/** Every outcome of a fetch goes through the accountant, which records it and cuts the part at
    the first sequence that reaches a ceiling. */
module Accountants {
  import opened Prelude
  import opened Ledgers
  import opened LedgerFacts
  import opened Checkpoints
  import opened Resume
  import PartGuards

  /** The outcomes hls reports for one sequence. */
  datatype Outcome =
    | Committed(s: int, media: Media)
    | GapAccepted(s: int)
    | AdSkipped(s: int)
    | MalformedSkip(s: int)
    | AuthFailed(s: int)

  /** What a fetch callback sees: an outcome, or a range lost to a window roll. */
  datatype Event = Seen(o: Outcome) | Rolled(from: int, to: int)

  predicate HasPartContent(c: Checkpoint) {
    c.ledger.started && c.ledger.frontier >= c.ledger.partStart
  }

  /** The checkpoint of a part together with the media it has committed. */
  datatype Part = Part(c: Checkpoint, media: map<int, Media>)

  /** The effect of sealIfCrossed; sealing forgets the media above the boundary. */
  function CutIfCrossed(p: Part, crossed: Option<int>): Part {
    if crossed.None? || p.c.split.pending || !HasPartContent(p.c) then p
    else Part(SealSplit(p.c.(split := p.c.split.(pending := true, threshold := true)), crossed.value),
              MediaUpTo(p.media, crossed.value))
  }

  function WithLedger(p: Part, l: Ledger): Part { p.(c := p.c.(ledger := l)) }

  function CommitPart(p: Part, s: int, m: Media, lim: Limits): Part {
    var (l, crossed) := Commit(p.c.ledger, s, m, lim);
    CutIfCrossed(Part(p.c.(ledger := l), MediaAfterCommit(p.c.ledger, p.media, s, m)), crossed)
  }

  function GapPart(p: Part, s: int, reason: GapReason, lim: Limits): Part {
    var (l, crossed) := Skip(p.c.ledger, s, reason, lim);
    CutIfCrossed(WithLedger(p, l), crossed)
  }

  /** An auth failure is recorded without looking at the ceilings. */
  function AuthGapPart(p: Part, s: int): Part {
    WithLedger(p, Skip(p.c.ledger, s, AuthError, NO_LIMITS).0)
  }

  function RollPart(p: Part, from: int, to: int, lim: Limits): Part {
    var (l, crossed) := Roll(p.c.ledger, from, to, RestartWindowRolled, lim);
    CutIfCrossed(WithLedger(p, l), crossed)
  }

  /** OnEvent and the window-roll callbacks, outside a restart-gap split. */
  function Apply(p: Part, e: Event, lim: Limits): Part {
    match e
    case Rolled(from, to) => RollPart(p, from, to, lim)
    case Seen(o) =>
      if p.c.split.Sealed() && o.s > p.c.split.boundary then p
      else match o
           case Committed(s, m) => CommitPart(p, s, m, lim)
           case GapAccepted(s) => GapPart(p, s, FetchFailure, lim)
           case AdSkipped(s) => GapPart(p, s, StitchedAd, lim)
           case MalformedSkip(s) => GapPart(p, s, Malformed, lim)
           case AuthFailed(s) => AuthGapPart(p, s)
  }

  const NANOS_PER_SECOND := 1_000_000_000

  /** A restart lost more time than the configured threshold, on a part with content to finalize. */
  predicate ForcesSplit(from: int, to: int, targetNanos: int, thresholdSeconds: int, c: Checkpoint) {
    thresholdSeconds > 0 && (to - from + 1) * targetNanos > thresholdSeconds * NANOS_PER_SECOND && HasPartContent(c)
  }

  /** The roll that the first poll of a resumed attempt reports: a large one asks for a restart split
      before the ceilings are looked at. */
  function FirstPollRoll(p: Part, from: int, to: int, targetNanos: int, thresholdSeconds: int, lim: Limits): Part {
    var (l, crossed) := Roll(p.c.ledger, from, to, RestartWindowRolled, lim);
    var q := WithLedger(p, l);
    if ForcesSplit(from, to, targetNanos, thresholdSeconds, q.c)
    then q.(c := q.c.(split := q.c.split.(pending := true)))
    else CutIfCrossed(q, crossed)
  }

  // ---------- the accountant object ----------

  class PartThresholdAccountant {
    const resume: ResumeState
    const lim: Limits

    /** Whether onSeal fired, which checkpoints the split and cancels the run. */
    var fired: bool

    constructor (resume: ResumeState, lim: Limits)
      ensures this.resume == resume && this.lim == lim && !fired
    {
      this.resume, this.lim, fired := resume, lim, false;
    }

    ghost function Current(): Part
      reads resume
    {
      Part(resume.Value(), resume.media)
    }

    method Commit(s: int, m: Media)
      requires resume.Valid()
      modifies this, resume
      ensures resume.Valid() && Current() == CommitPart(old(Current()), s, m, lim)
    {
      var crossed := resume.NoteCommittedSegmentUntilThreshold(s, m, lim);
      var _ := SealIfCrossed(crossed);
    }

    method Gap(s: int, reason: GapReason)
      requires resume.Valid()
      modifies this, resume
      ensures resume.Valid() && Current() == GapPart(old(Current()), s, reason, lim)
    {
      var crossed := resume.NoteGapUntilThreshold(s, reason, lim);
      var _ := SealIfCrossed(crossed);
    }

    method AuthGap(s: int)
      requires resume.Valid()
      modifies resume
      ensures resume.Valid() && Current() == AuthGapPart(old(Current()), s)
    {
      var _ := resume.NoteGapUntilThreshold(s, AuthError, NO_LIMITS);
    }

    /** Records a lost range and leaves sealing to the caller, who weighs a restart split first. */
    method RecordRangeGap(from: int, to: int, reason: GapReason) returns (crossed: Option<int>)
      requires resume.Valid()
      modifies resume
      ensures resume.Valid()
      ensures var (l, c) := Roll(old(resume.PartLedger()), from, to, reason, lim);
              Current() == WithLedger(old(Current()), l) && crossed == c
    {
      crossed := resume.NoteRangeGapUntilThreshold(from, to, reason, lim);
    }

    method SealIfCrossed(crossed: Option<int>) returns (sealed: bool)
      requires resume.Valid()
      modifies this, resume
      ensures resume.Valid() && Current() == CutIfCrossed(old(Current()), crossed)
      ensures fired == (old(fired) || sealed)
      ensures sealed <==> crossed.Some? && !old(resume.split.pending) && HasPartContent(old(resume.Value()))
    {
      if crossed.None? || resume.split.pending
         || !(resume.anchor.started && resume.anchor.frontier >= resume.anchor.partStart) {
        return false;
      }
      resume.split := resume.split.(pending := true, threshold := true);
      resume.SealThresholdSplitBoundary(crossed.value);
      fired := true;
      return true;
    }

    /** OnEvent, the callback hls.Run invokes for every outcome. */
    method OnEvent(o: Outcome)
      requires resume.Valid()
      modifies this, resume
      ensures resume.Valid() && Current() == Apply(old(Current()), Seen(o), lim)
    {
      if resume.split.threshold && resume.split.boundarySet && o.s > resume.split.boundary { return; }
      match o {
        case Committed(s, m) => Commit(s, m);
        case GapAccepted(s) => Gap(s, FetchFailure);
        case AdSkipped(s) => Gap(s, StitchedAd);
        case MalformedSkip(s) => Gap(s, Malformed);
        case AuthFailed(s) => AuthGap(s);
      }
    }

    /** Mid-stream holes stay inside the current part. */
    method OnMidStreamWindowRoll(from: int, to: int)
      requires resume.Valid()
      modifies this, resume
      ensures resume.Valid() && Current() == Apply(old(Current()), Rolled(from, to), lim)
    {
      var crossed := RecordRangeGap(from, to, RestartWindowRolled);
      var _ := SealIfCrossed(crossed);
    }

    /** The roll at the first poll of a resumed attempt; forced is thresholdSplitFired. */
    method OnWindowRoll(from: int, to: int, targetNanos: int, thresholdSeconds: int) returns (forced: bool)
      requires resume.Valid()
      modifies this, resume
      ensures resume.Valid()
      ensures Current() == FirstPollRoll(old(Current()), from, to, targetNanos, thresholdSeconds, lim)
      ensures forced ==> Current().c.split.pending && fired == old(fired)
      ensures !forced ==> Current() == Apply(old(Current()), Rolled(from, to), lim)
    {
      var crossed := RecordRangeGap(from, to, RestartWindowRolled);
      forced := thresholdSeconds > 0 && (to - from + 1) * targetNanos > thresholdSeconds * NANOS_PER_SECOND
                && resume.anchor.started && resume.anchor.frontier >= resume.anchor.partStart;
      if forced {
        resume.split := resume.split.(pending := true);
        return;
      }
      var _ := SealIfCrossed(crossed);
    }
  }

  // ---------- what every event keeps ----------

  /** A part whose split, if any, came from a ceiling. */
  ghost predicate PartInv(p: Part) {
    var l, split := p.c.ledger, p.c.split;
    && Sound(l, p.media)
    && (split.boundarySet ==> split.pending && split.threshold)
    && (split.threshold ==> split.pending)
    && (split.boundarySet ==> l.partStart <= split.boundary <= l.frontier && l.buffered == {}
                              && forall s <- p.media.Keys :: s <= split.boundary)
    && (!ShouldSkipSegmentFetch(p.c) ==> Settled(l))
  }

  lemma CutIfCrossedKeeps(p: Part, crossed: Option<int>)
    requires if p.c.split.pending then PartInv(p)
             else Sound(p.c.ledger, p.media) && !p.c.split.threshold && !p.c.split.boundarySet
    requires crossed.None? && !ShouldSkipSegmentFetch(p.c) ==> Settled(p.c.ledger)
    requires crossed.Some? ==> crossed.value == p.c.ledger.frontier >= p.c.ledger.partStart
    ensures PartInv(CutIfCrossed(p, crossed))
  {
    if crossed.Some? && !p.c.split.pending { SealKeeps(p.c.ledger, p.media); }
  }

  /** What a note hands to the seal decision. */
  ghost predicate Noted(l: Ledger, media: map<int, Media>, l': Ledger, crossed: Option<int>) {
    && Sound(l', media)
    && l'.partStart == l.partStart && l.frontier <= l'.frontier
    && (Settled(l) && crossed.None? ==> Settled(l'))
    && (crossed.Some? ==> crossed.value == l'.frontier >= l'.partStart)
  }

  lemma CommitNotes(l: Ledger, media: map<int, Media>, s: int, m: Media, lim: Limits)
    requires Sound(l, media)
    ensures var (l', crossed) := Commit(l, s, m, lim);
            && Noted(l, MediaAfterCommit(l, media, s, m), l', crossed)
            && (s <= l.frontier ==> l'.buffered == l.buffered && l'.frontier == l.frontier)
  {
    CommitKeeps(l, media, s, m, lim);
    if s > l.frontier { AdvanceSettles(WithCommit(l, s, m), lim); }
  }

  lemma SkipNotes(l: Ledger, media: map<int, Media>, s: int, reason: GapReason, lim: Limits)
    requires Sound(l, media)
    ensures var (l', crossed) := Skip(l, s, reason, lim);
            && Noted(l, media, l', crossed) && (s <= l.frontier ==> l' == l && crossed.None?)
  {
    SkipKeeps(l, media, s, reason, lim);
    if s > l.frontier { AdvanceSettles(WithGap(l, s, reason), lim); }
  }

  lemma RollNotes(l: Ledger, media: map<int, Media>, from: int, to: int, reason: GapReason, lim: Limits)
    requires Sound(l, media)
    ensures var (l', crossed) := Roll(l, from, to, reason, lim);
            Noted(l, media, l', crossed) && l'.buffered <= l.buffered
  {
    RollKeeps(l, media, from, to, reason, lim);
    RollSettles(l, from, to, reason, lim);
  }

  lemma RollSettles(l: Ledger, from: int, to: int, reason: GapReason, lim: Limits)
    ensures var (l', crossed) := Roll(l, from, to, reason, lim);
            && l'.partStart == l.partStart && l.frontier <= l'.frontier && l'.buffered <= l.buffered
            && (Settled(l) && crossed.None? ==> Settled(l'))
            && (crossed.Some? ==> crossed.value == l'.frontier > l.frontier)
  {
    var start := if from <= l.frontier then l.frontier + 1 else from;
    AdvanceSettles(WithRoll(l, start, to, reason), lim);
  }

  lemma CommitPartKeeps(p: Part, s: int, m: Media, lim: Limits)
    requires PartInv(p)
    requires p.c.split.boundarySet ==> s <= p.c.split.boundary
    ensures PartInv(CommitPart(p, s, m, lim))
  {
    var l := p.c.ledger;
    CommitNotes(l, p.media, s, m, lim);
    var (l', crossed) := Commit(l, s, m, lim);
    CutIfCrossedKeeps(Part(p.c.(ledger := l'), MediaAfterCommit(l, p.media, s, m)), crossed);
  }

  lemma GapPartKeeps(p: Part, s: int, reason: GapReason, lim: Limits)
    requires PartInv(p)
    requires p.c.split.boundarySet ==> s <= p.c.split.boundary
    ensures PartInv(GapPart(p, s, reason, lim))
  {
    SkipNotes(p.c.ledger, p.media, s, reason, lim);
    var (l', crossed) := Skip(p.c.ledger, s, reason, lim);
    CutIfCrossedKeeps(WithLedger(p, l'), crossed);
  }

  lemma AuthGapPartKeeps(p: Part, s: int)
    requires PartInv(p)
    requires p.c.split.boundarySet ==> s <= p.c.split.boundary
    ensures PartInv(AuthGapPart(p, s))
  {
    SkipNotes(p.c.ledger, p.media, s, AuthError, NO_LIMITS);
    NeverCrosses(WithGap(p.c.ledger, s, AuthError), p.c.ledger.frontier);
  }

  lemma RollPartKeeps(p: Part, from: int, to: int, lim: Limits)
    requires PartInv(p)
    ensures PartInv(RollPart(p, from, to, lim))
  {
    RollNotes(p.c.ledger, p.media, from, to, RestartWindowRolled, lim);
    var (l', crossed) := Roll(p.c.ledger, from, to, RestartWindowRolled, lim);
    CutIfCrossedKeeps(WithLedger(p, l'), crossed);
  }

  /** Every callback keeps the frontier invariant, whatever order the workers finish in. */
  lemma ApplyKeeps(p: Part, e: Event, lim: Limits)
    requires PartInv(p)
    ensures PartInv(Apply(p, e, lim))
  {
    match e
    case Rolled(from, to) => RollPartKeeps(p, from, to, lim);
    case Seen(o) =>
      if !(p.c.split.Sealed() && o.s > p.c.split.boundary) {
        match o
        case Committed(s, m) => CommitPartKeeps(p, s, m, lim);
        case GapAccepted(s) => GapPartKeeps(p, s, FetchFailure, lim);
        case AdSkipped(s) => GapPartKeeps(p, s, StitchedAd, lim);
        case MalformedSkip(s) => GapPartKeeps(p, s, Malformed, lim);
        case AuthFailed(s) => AuthGapPartKeeps(p, s);
      }
  }

  /** Until the part is sealed, a callback forgets nothing. */
  ghost predicate Progress(p: Part, p': Part) {
    && p'.c.ledger.partStart == p.c.ledger.partStart
    && p.c.ledger.frontier <= p'.c.ledger.frontier
    && (!p'.c.split.boundarySet ==> Grows(p.c.ledger, p'.c.ledger))
  }

  lemma CutProgress(p: Part, p1: Part, crossed: Option<int>)
    requires !p1.c.split.boundarySet && Grows(p.c.ledger, p1.c.ledger)
    ensures Progress(p, CutIfCrossed(p1, crossed))
  {
  }

  lemma SkipProgress(p: Part, s: int, reason: GapReason, lim: Limits)
    requires PartInv(p) && !p.c.split.boundarySet
    ensures var p' := GapPart(p, s, reason, lim);
            Progress(p, p') && (!p'.c.split.boundarySet ==> ShouldSkip(p'.c.ledger, s))
  {
    SkipGrows(p.c.ledger, p.media, s, reason, lim);
    var (l, crossed) := Skip(p.c.ledger, s, reason, lim);
    CutProgress(p, WithLedger(p, l), crossed);
  }

  /** The callback resolves what it reports, and, until the part is sealed, forgets nothing. */
  lemma ApplyResolves(p: Part, e: Event, lim: Limits)
    requires PartInv(p) && !p.c.split.boundarySet
    ensures var p' := Apply(p, e, lim);
            && Progress(p, p')
            && (!p'.c.split.boundarySet && e.Seen? ==> ShouldSkip(p'.c.ledger, e.o.s))
            && (!p'.c.split.boundarySet && e.Rolled? ==>
                  forall s | e.from <= s <= e.to :: ShouldSkip(p'.c.ledger, s))
  {
    var l, media := p.c.ledger, p.media;
    match e
    case Rolled(from, to) =>
      RollGrows(l, media, from, to, RestartWindowRolled, lim);
      var (l', crossed) := Roll(l, from, to, RestartWindowRolled, lim);
      CutProgress(p, WithLedger(p, l'), crossed);
    case Seen(o) =>
      match o
      case Committed(s, m) =>
        CommitGrows(l, media, s, m, lim);
        var (l', crossed) := Commit(l, s, m, lim);
        CutProgress(p, Part(p.c.(ledger := l'), MediaAfterCommit(l, media, s, m)), crossed);
      case GapAccepted(s) => SkipProgress(p, s, FetchFailure, lim);
      case AdSkipped(s) => SkipProgress(p, s, StitchedAd, lim);
      case MalformedSkip(s) => SkipProgress(p, s, Malformed, lim);
      case AuthFailed(s) => SkipGrows(l, media, s, AuthError, NO_LIMITS);
  }

  /** The sequences an event leaves files for. */
  function FilesOf(e: Event): set<int> {
    if e.Seen? && e.o.Committed? then {e.o.s} else {}
  }

  /** Only the ledger and the split change, and only committed sequences gain media. */
  ghost predicate Shaped(p: Part, p': Part, files: set<int>) {
    && p'.c == p.c.(ledger := p'.c.ledger, split := p'.c.split)
    && p'.media.Keys <= p.media.Keys + files
    && (p.c.split.pending ==> p'.c.split == p.c.split)
    && (p'.c.split == p.c.split
        || p'.c.split == Split(true, true, p'.c.split.boundary, true, p.c.split.endListAtBoundary))
  }

  lemma CutShape(p: Part, l: Ledger, media: map<int, Media>, crossed: Option<int>, files: set<int>)
    requires media.Keys <= p.media.Keys + files
    ensures Shaped(p, CutIfCrossed(Part(p.c.(ledger := l), media), crossed), files)
  {
  }

  lemma ApplyShape(p: Part, e: Event, lim: Limits)
    ensures Shaped(p, Apply(p, e, lim), FilesOf(e))
  {
    var l := p.c.ledger;
    match e
    case Rolled(from, to) =>
      var (l', crossed) := Roll(l, from, to, RestartWindowRolled, lim);
      CutShape(p, l', p.media, crossed, {});
    case Seen(o) =>
      match o
      case Committed(s, m) =>
        var (l', crossed) := Commit(l, s, m, lim);
        CutShape(p, l', MediaAfterCommit(l, p.media, s, m), crossed, {s});
      case GapAccepted(s) =>
        var (l', crossed) := Skip(l, s, FetchFailure, lim);
        CutShape(p, l', p.media, crossed, {});
      case AdSkipped(s) =>
        var (l', crossed) := Skip(l, s, StitchedAd, lim);
        CutShape(p, l', p.media, crossed, {});
      case MalformedSkip(s) =>
        var (l', crossed) := Skip(l, s, Malformed, lim);
        CutShape(p, l', p.media, crossed, {});
      case AuthFailed(s) =>
  }

  /** A part is cut where its frontier stands. */
  lemma CutsAtFrontier(p: Part, e: Event, lim: Limits)
    requires PartInv(p) && !p.c.split.boundarySet
    ensures var p' := Apply(p, e, lim);
            p'.c.split.boundarySet ==> p'.c.split.boundary == p'.c.ledger.frontier
  {
    var l := p.c.ledger;
    match e
    case Rolled(from, to) => RollSettles(l, from, to, RestartWindowRolled, lim);
    case Seen(o) =>
      match o
      case Committed(s, m) => CommitNotes(l, p.media, s, m, lim);
      case GapAccepted(s) => GapCutsAtFrontier(p, s, FetchFailure, lim);
      case AdSkipped(s) => GapCutsAtFrontier(p, s, StitchedAd, lim);
      case MalformedSkip(s) => GapCutsAtFrontier(p, s, Malformed, lim);
      case AuthFailed(s) =>
  }

  lemma GapCutsAtFrontier(p: Part, s: int, reason: GapReason, lim: Limits)
    requires !p.c.split.boundarySet
    ensures var p' := GapPart(p, s, reason, lim);
            p'.c.split.boundarySet ==> p'.c.split.boundary == p'.c.ledger.frontier
  {
    AdvanceSettles(WithGap(p.c.ledger, s, reason), lim);
  }

  /** After the cut the anchor and the boundary stay, whatever still arrives. */
  lemma SealedStays(p: Part, e: Event, lim: Limits)
    requires PartInv(p) && p.c.split.boundarySet
    ensures var p' := Apply(p, e, lim);
            p'.c.split == p.c.split && p'.c.ledger.partStart == p.c.ledger.partStart
  {
    ApplyShape(p, e, lim);
    match e
    case Rolled(from, to) => RollSettles(p.c.ledger, from, to, RestartWindowRolled, lim);
    case Seen(o) =>
  }

  /** After the cut a report about one segment changes the part if and only if it is a commit that fills a
      loss at or below the boundary. It then adds the segment's media, and nothing else changes. */
  lemma SealedExact(p: Part, o: Outcome, lim: Limits)
    requires PartInv(p) && p.c.split.boundarySet
    ensures var l := p.c.ledger;
            var q := Apply(p, Seen(o), lim);
            var fills := o.Committed? && o.s <= p.c.split.boundary && HasSingle(l.gaps, o.s);
            && (q == p <==> !fills)
            && (fills ==>
                  && q.media == p.media[o.s := o.media]
                  && q.c == p.c.(ledger := l.(gaps := q.c.ledger.gaps, total := q.c.ledger.total))
                  && q.c.ledger.total == Plus(l.total, o.media)
                  && forall g :: g in q.c.ledger.gaps <==> g in l.gaps && !(g.first == o.s == g.last))
  {
    if o.Committed? && HasSingle(p.c.ledger.gaps, o.s) {
      var g :| g in p.c.ledger.gaps && g.SingleAt(o.s);
      assert g !in WithoutSingle(p.c.ledger.gaps, o.s);
    }
  }

  /** The restart lost more segments than the threshold lasts, on a part with content to finalize. */
  ghost predicate LosesTooMuch(from: int, to: int, targetNanos: int, thresholdSeconds: int, l: Ledger) {
    && thresholdSeconds > 0 && |Range(from, to)| * targetNanos > thresholdSeconds * 1_000_000_000
    && l.started && Range(l.partStart, l.frontier) != {}
  }

  lemma RangeCount(lo: int, hi: int)
    ensures |Range(lo, hi)| == if lo <= hi then hi - lo + 1 else 0
  {
    if lo <= hi { PartGuards.RangeSize(lo, hi); }
  }

  lemma ForcesSplitExact(from: int, to: int, targetNanos: int, thresholdSeconds: int, c: Checkpoint)
    requires targetNanos >= 0
    ensures ForcesSplit(from, to, targetNanos, thresholdSeconds, c) <==>
            LosesTooMuch(from, to, targetNanos, thresholdSeconds, c.ledger)
  {
    RangeCount(from, to);
    RangeCount(c.ledger.partStart, c.ledger.frontier);
    if to < from { NothingLost(to - from + 1, targetNanos); }
  }

  lemma NothingLost(n: int, k: int)
    requires n <= 0 && k >= 0
    ensures n * k <= 0
  {
  }

  /** A restart split goes before a ceiling: the lost range is resolved and nothing is forgotten or cut,
      even where the roll let the part total reach a ceiling. Without one the roll is an ordinary one. */
  lemma RestartSplitGoesFirst(p: Part, from: int, to: int, targetNanos: int, thresholdSeconds: int, lim: Limits)
    requires PartInv(p) && targetNanos >= 0
    ensures var q := FirstPollRoll(p, from, to, targetNanos, thresholdSeconds, lim);
            && PartInv(q) && q.c.ledger.partStart == p.c.ledger.partStart
            && (LosesTooMuch(from, to, targetNanos, thresholdSeconds, q.c.ledger) && !p.c.split.pending ==>
                  && q.c.split == NO_SPLIT.(pending := true, boundary := p.c.split.boundary,
                                            endListAtBoundary := p.c.split.endListAtBoundary)
                  && q.media == p.media && Grows(p.c.ledger, q.c.ledger)
                  && forall s | from <= s <= to :: ShouldSkip(q.c.ledger, s))
            && (!LosesTooMuch(from, to, targetNanos, thresholdSeconds, q.c.ledger) ==>
                  q == Apply(p, Rolled(from, to), lim))
  {
    var l := Roll(p.c.ledger, from, to, RestartWindowRolled, lim).0;
    var q := FirstPollRoll(p, from, to, targetNanos, thresholdSeconds, lim);
    ForcesSplitExact(from, to, targetNanos, thresholdSeconds, WithLedger(p, l).c);
    ForcesSplitExact(from, to, targetNanos, thresholdSeconds, q.c);
    RollNotes(p.c.ledger, p.media, from, to, RestartWindowRolled, lim);
    RollGrows(p.c.ledger, p.media, from, to, RestartWindowRolled, lim);
    RollPartKeeps(p, from, to, lim);
  }
}
