/** The decisions the part loop takes from a checkpoint and a fetch result. */
module PartGuards {
  import opened Prelude
  import opened Ledgers
  import opened LedgerFacts
  import opened Checkpoints

  /** What a fetch reports, live or synthesized from the checkpoint. */
  datatype JobResult = JobResult(
    segmentsDone: int,
    segmentsGaps: int,
    lastMediaSeq: int,
    endList: bool)

  function GapSeqCount(gaps: seq<Gap>): nat {
    if gaps == [] then 0
    else GapSeqCount(gaps[..|gaps| - 1]) + (gaps[|gaps| - 1].End() - gaps[|gaps| - 1].first + 1)
  }

  /** The final media sequence a finalized part's row records. */
  function PartEndMediaSeq(r: JobResult, c: Checkpoint): int {
    if c.split.Sealed() then c.split.boundary
    else if r.lastMediaSeq > c.ledger.frontier then r.lastMediaSeq
    else c.ledger.frontier
  }

  /** Sequences of [part start, last] that no gap accounts for, before clamping at zero. */
  function UngappedCount(l: Ledger, last: int): int {
    if l.started && last >= l.partStart then last - l.partStart + 1 - GapSeqCount(l.gaps) else 0
  }

  function SynthesizeResult(c: Checkpoint): JobResult {
    var last := PartEnd(c);
    var done := UngappedCount(c.ledger, last);
    JobResult(if done < 0 then 0 else done, GapSeqCount(c.ledger.gaps), last,
              c.endListSeen && !(c.split.Sealed() && !c.split.endListAtBoundary))
  }

  predicate HasCommittedMedia(r: JobResult) { r.segmentsDone > 0 }

  predicate ResumePartHasCommittedMedia(c: Checkpoint) {
    var l := c.ledger;
    || l.buffered != {}
    || (l.started && l.frontier >= l.partStart && l.frontier - l.partStart + 1 > GapSeqCount(l.gaps))
  }

  predicate CurrentPartHasCommittedMedia(r: JobResult, c: Checkpoint) {
    HasCommittedMedia(r) || ResumePartHasCommittedMedia(c)
  }

  predicate ThresholdSplitEndListAtBoundary(c: Checkpoint, r: JobResult) {
    r.endList && c.split.Sealed() && r.lastMediaSeq <= c.split.boundary
  }

  predicate ShouldPersistEndListSeen(c: Checkpoint, r: JobResult) {
    r.endList && !(c.split.Sealed() && r.lastMediaSeq > c.split.boundary)
  }

  predicate PendingSplitEndedAtBoundary(c: Checkpoint, r: JobResult) {
    && c.split.pending && c.endListSeen && r.endList
    && (c.split.Sealed() ==> c.split.endListAtBoundary && r.lastMediaSeq <= c.split.boundary)
  }

  /** The ENDLIST and window-roll bookkeeping after a fetch. */
  function NoteFetched(c: Checkpoint, r: JobResult): Checkpoint {
    c.(split := if ThresholdSplitEndListAtBoundary(c, r) then c.split.(endListAtBoundary := true) else c.split,
       endListSeen := c.endListSeen || ShouldPersistEndListSeen(c, r),
       hadWindowRoll := c.hadWindowRoll || exists g <- c.ledger.gaps :: g.reason == RestartWindowRolled)
  }

  datatype Verdict = FinishEmpty | ReanchorEmpty | FailEmpty | RunPart

  function Decide(priorParts: int, r: JobResult, c: Checkpoint): Verdict {
    var committed := CurrentPartHasCommittedMedia(r, c);
    if priorParts > 0 && r.endList && !committed then FinishEmpty
    else if priorParts > 0 && c.split.pending && !committed then ReanchorEmpty
    else if priorParts > 0 && !committed then FailEmpty
    else RunPart
  }

  /** Whatever asked for the split, a built part ends the run in its place if and only if its fetch saw
      ENDLIST, with no sequence past the boundary if it is sealed. */
  lemma SplitEndExact(c: Checkpoint, r: JobResult)
    ensures PendingSplitEndedAtBoundary(NoteFetched(c, r), r) <==>
            c.split.pending && r.endList && (c.split.Sealed() ==> r.lastMediaSeq <= c.split.boundary)
  {
  }

  // ---------- the empty-part guards against the truth ----------

  function CommittedSeqs(media: map<int, Media>, lo: int, hi: int): set<int> {
    set s | s in media && lo <= s <= hi
  }

  lemma {:induction false} RangeSize(lo: int, hi: int)
    requires lo <= hi + 1
    ensures |Range(lo, hi)| == hi - lo + 1
    decreases hi - lo + 1
  {
    if lo <= hi { RangeSize(lo, hi - 1); }
  }

  lemma Disjoint(a: set<int>, b: set<int>)
    ensures |a + b| + |a * b| == |a| + |b|
  {
    assert a + b == a + (b - a);
    assert b == (b - a) + (a * b);
  }

  ghost predicate PairwiseDisjoint(gaps: seq<Gap>) {
    forall i, j, s | 0 <= i < j < |gaps| :: !(gaps[i].Covers(s) && gaps[j].Covers(s))
  }

  lemma OverlapSnoc(rest: seq<Gap>, g: Gap)
    ensures PairwiseDisjoint(rest + [g]) ==> GapSeqs(rest) * Range(g.first, g.End()) == {}
  {
    var gaps := rest + [g];
    if PairwiseDisjoint(gaps) {
      forall s ensures !(GapCovered(rest, s) && g.Covers(s)) {
        if GapCovered(rest, s) {
          var h :| h in rest && h.Covers(s);
          var i :| 0 <= i < |rest| && rest[i] == h;
          assert gaps[i] == h && gaps[|rest|] == g;
        }
      }
    }
  }

  lemma DisjointSnoc(rest: seq<Gap>, g: Gap)
    ensures PairwiseDisjoint(rest + [g]) <==> PairwiseDisjoint(rest) && GapSeqs(rest) * Range(g.first, g.End()) == {}
  {
    var gaps := rest + [g];
    OverlapSnoc(rest, g);
    if PairwiseDisjoint(rest) && GapSeqs(rest) * Range(g.first, g.End()) == {} {
      forall i, j, s | 0 <= i < j < |gaps| ensures !(gaps[i].Covers(s) && gaps[j].Covers(s)) {
        assert gaps[i] == rest[i] && rest[i] in rest;
        assert s in GapSeqs(rest) * Range(g.first, g.End()) <==> GapCovered(rest, s) && g.Covers(s);
        assert gaps[j] == if j < |rest| then rest[j] else g;
      }
    }
    if PairwiseDisjoint(gaps) {
      forall i, j, s | 0 <= i < j < |rest| ensures !(rest[i].Covers(s) && rest[j].Covers(s)) {
        assert gaps[i] == rest[i] && gaps[j] == rest[j];
      }
    }
  }

  /** The gap count never falls short of the lost sequences, and is exact without overlaps. */
  lemma {:induction false} GapCountIsUpperBound(gaps: seq<Gap>)
    ensures |GapSeqs(gaps)| <= GapSeqCount(gaps)
    ensures |GapSeqs(gaps)| == GapSeqCount(gaps) <==> PairwiseDisjoint(gaps)
  {
    if gaps != [] {
      var k := |gaps| - 1;
      var g, rest := gaps[k], gaps[..k];
      assert gaps == rest + [g];
      GapCountIsUpperBound(rest);
      RangeSize(g.first, g.End());
      DisjointSnoc(rest, g);
      SizesOfUnion(GapSeqs(rest), Range(g.first, g.End()));
      assert GapSeqs(gaps) == GapSeqs(rest) + Range(g.first, g.End());
    }
  }

  lemma SizesOfUnion(a: set<int>, b: set<int>)
    ensures |a + b| <= |a| + |b|
    ensures |a + b| == |a| + |b| <==> a * b == {}
  {
    Disjoint(a, b);
  }

  /** No overlapping gaps, none outside [part start, last], none over a committed sequence. */
  ghost predicate GapsExact(l: Ledger, media: map<int, Media>, last: int) {
    && PairwiseDisjoint(l.gaps)
    && forall s | GapCovered(l.gaps, s) :: l.partStart <= s <= last && s !in media
  }

  /** The ungapped count never exceeds the committed sequences of the part, and equals their
      number exactly when the gaps are exact. */
  lemma UngappedIsLowerBound(l: Ledger, media: map<int, Media>, last: int)
    requires Sound(l, media) && l.partStart <= last <= l.frontier
    ensures UngappedCount(l, last) <= |CommittedSeqs(media, l.partStart, last)|
    ensures UngappedCount(l, last) == |CommittedSeqs(media, l.partStart, last)| <==> GapsExact(l, media, last)
  {
    var all, lost, done := Range(l.partStart, last), GapSeqs(l.gaps), CommittedSeqs(media, l.partStart, last);
    RangeSize(l.partStart, last);
    GapCountIsUpperBound(l.gaps);
    PartSets(l, media, last);
    Sizes(all, done, lost);
  }

  lemma PartSets(l: Ledger, media: map<int, Media>, last: int)
    requires NoHole(l, media) && last <= l.frontier
    ensures var all, lost, done := Range(l.partStart, last), GapSeqs(l.gaps), CommittedSeqs(media, l.partStart, last);
            && done <= all && all - done <= lost
            && (lost == all - done <==> forall s | GapCovered(l.gaps, s) :: l.partStart <= s <= last && s !in media)
  {
    var all, lost, done := Range(l.partStart, last), GapSeqs(l.gaps), CommittedSeqs(media, l.partStart, last);
    if lost == all - done {
      forall s | GapCovered(l.gaps, s) ensures l.partStart <= s <= last && s !in media { assert s in lost; }
    }
  }

  lemma Sizes(all: set<int>, done: set<int>, lost: set<int>)
    requires done <= all && all - done <= lost
    ensures |all| - |done| <= |lost|
    ensures |all| - |done| == |lost| <==> lost == all - done
  {
    var inside := all - done;
    assert all == done + inside;
    assert lost == inside + (lost - inside);
    if |lost - inside| == 0 { assert lost == inside; }
  }

  /** Soundness: a checkpoint that claims committed media has some. */
  lemma CommittedMediaSound(c: Checkpoint, media: map<int, Media>)
    requires Sound(c.ledger, media)
    ensures ResumePartHasCommittedMedia(c) ==> media != map[]
  {
    var l := c.ledger;
    if ResumePartHasCommittedMedia(c) && l.buffered == {} {
      UngappedIsLowerBound(l, media, l.frontier);
      assert CommittedSeqs(media, l.partStart, l.frontier) != {};
      HasMember(CommittedSeqs(media, l.partStart, l.frontier));
    } else if l.buffered != {} {
      HasMember(l.buffered);
    }
  }

  /** The sequences up to the frontier that were never committed. */
  function LostSeqs(l: Ledger, media: map<int, Media>): set<int> {
    Range(l.partStart, l.frontier) - CommittedSeqs(media, l.partStart, l.frontier)
  }

  lemma LostCount(l: Ledger, media: map<int, Media>)
    requires l.partStart <= l.frontier + 1
    ensures |CommittedSeqs(media, l.partStart, l.frontier)| + |LostSeqs(l, media)| == l.frontier - l.partStart + 1
  {
    var done := CommittedSeqs(media, l.partStart, l.frontier);
    RangeSize(l.partStart, l.frontier);
    assert Range(l.partStart, l.frontier) == done + LostSeqs(l, media);
  }

  /** Exactly when the guard sees media: something is buffered, or the committed sequences up to the
      frontier outnumber what the gap list counts beyond the lost ones. It counts nothing beyond
      them exactly when the gaps are exact. */
  lemma CommittedMediaExact(c: Checkpoint, media: map<int, Media>)
    requires Sound(c.ledger, media)
    ensures var l := c.ledger;
            var beyond := GapSeqCount(l.gaps) - |LostSeqs(l, media)|;
            && (ResumePartHasCommittedMedia(c) <==>
                  l.buffered != {} || |CommittedSeqs(media, l.partStart, l.frontier)| > beyond)
            && (l.partStart <= l.frontier ==> beyond >= 0 && (beyond == 0 <==> GapsExact(l, media, l.frontier)))
  {
    var l := c.ledger;
    LostCount(l, media);
    if l.partStart <= l.frontier { UngappedIsLowerBound(l, media, l.frontier); }
  }

  /** Completeness: with exact gaps up to the frontier the claim is an equivalence, so a sealed
      part that holds media is always finalized, never re-anchored as empty. */
  lemma CommittedMediaComplete(c: Checkpoint, media: map<int, Media>, r: JobResult, priorParts: int)
    requires Sound(c.ledger, media) && GapsExact(c.ledger, media, c.ledger.frontier)
    ensures ResumePartHasCommittedMedia(c) <==> media != map[]
    ensures media != map[] ==> Decide(priorParts, r, c) == RunPart
  {
    var l := c.ledger;
    CommittedMediaSound(c, media);
    if media != map[] && l.buffered == {} {
      HasMember(media.Keys);
      var s :| s in media;
      assert l.partStart <= s <= l.frontier;
      UngappedIsLowerBound(l, media, l.frontier);
      assert s in CommittedSeqs(media, l.partStart, l.frontier);
    }
  }

  /** A later part without media, after a fetch that counted nothing done, is never built. It ends the run
      if ENDLIST was seen; if not, it is re-anchored when it asked for a split, and fails the run otherwise. */
  lemma EmptyPartVerdict(c: Checkpoint, media: map<int, Media>, r: JobResult, priorParts: int)
    requires if c.ledger.started then Sound(c.ledger, media) && media == map[] else c.ledger.buffered == {}
    requires priorParts > 0 && r.segmentsDone <= 0
    ensures var verdict := Decide(priorParts, r, c);
            && (verdict == FinishEmpty <==> r.endList)
            && (verdict == ReanchorEmpty <==> !r.endList && c.split.pending)
            && (verdict == FailEmpty <==> !r.endList && !c.split.pending)
            && verdict != RunPart
  {
    if c.ledger.started { CommittedMediaSound(c, media); }
  }

  /** With exact gaps a part is built if and only if it is the first one, the fetch counted a segment done,
      or the part holds media. */
  lemma VerdictExact(c: Checkpoint, media: map<int, Media>, r: JobResult, priorParts: int)
    requires Sound(c.ledger, media) && GapsExact(c.ledger, media, c.ledger.frontier)
    ensures Decide(priorParts, r, c) == RunPart <==> priorParts <= 0 || r.segmentsDone > 0 || media != map[]
  {
    CommittedMediaComplete(c, media, r, priorParts);
  }

  /** The same for a part resumed after its fetch: what the checkpoint holds decides alone, and an empty
      one ends the run if and only if ENDLIST was seen, at its boundary if it is sealed. */
  lemma ResumedVerdictExact(c: Checkpoint, media: map<int, Media>, priorParts: int)
    requires Sound(c.ledger, media) && GapsExact(c.ledger, media, c.ledger.frontier) && PartEnd(c) <= c.ledger.frontier
    ensures var verdict := Decide(priorParts, SynthesizeResult(c), c);
            && (verdict == RunPart <==> priorParts <= 0 || media != map[])
            && (verdict == FinishEmpty <==>
                  priorParts > 0 && media == map[] && c.endListSeen && (c.split.Sealed() ==> c.split.endListAtBoundary))
            && (verdict == ReanchorEmpty <==>
                  priorParts > 0 && media == map[] && verdict != FinishEmpty && c.split.pending)
  {
    VerdictExact(c, media, SynthesizeResult(c), priorParts);
    SynthesizedDone(c, media);
    if media == map[] { assert CommittedSeqs(media, c.ledger.partStart, PartEnd(c)) == {}; }
  }

  /** The synthesized SegmentsDone never exceeds the committed sequences of [part start, last];
      when there are any, it equals their number exactly when the gaps are exact. */
  lemma SynthesizedDone(c: Checkpoint, media: map<int, Media>)
    requires Sound(c.ledger, media) && PartEnd(c) <= c.ledger.frontier
    ensures var done, n := SynthesizeResult(c).segmentsDone, |CommittedSeqs(media, c.ledger.partStart, PartEnd(c))|;
            && 0 <= done <= n
            && (n > 0 ==> (done == n <==> GapsExact(c.ledger, media, PartEnd(c))))
  {
    if c.ledger.partStart <= PartEnd(c) {
      UngappedIsLowerBound(c.ledger, media, PartEnd(c));
    } else {
      assert CommittedSeqs(media, c.ledger.partStart, PartEnd(c)) == {};
    }
  }

  /** Exact gaps are needed: a roll over a buffered commit counts that sequence as lost, and the
      checkpoint no longer shows the media it holds. */
  lemma RolledOverCommitLooksEmpty(m: Media)
    ensures var l1 := Commit(FreshPart(0), 1, m, NO_LIMITS).0;
            var l2 := Roll(l1, 0, 1, RestartWindowRolled, NO_LIMITS).0;
            var c := NEW_CHECKPOINT.(ledger := l2);
            Sound(l2, map[1 := m]) && !ResumePartHasCommittedMedia(c)
  {
    var l0 := FreshPart(0);
    var l1 := WithCommit(l0, 1, m);
    assert Commit(l0, 1, m, NO_LIMITS).0 == l1;
    var l2 := WithRoll(l1, 0, 1, RestartWindowRolled);
    FreshPartKeeps(0);
    WithCommitKeeps(l0, map[], 1, m);
    WithRollKeeps(l1, map[1 := m], 0, 1, RestartWindowRolled);
    AdvanceKeeps(l2, map[1 := m], NO_LIMITS);
    StopMeaning(l2, -1, NO_LIMITS);
    NeverCrosses(l2, -1);
    assert Stop(l2, -1, NO_LIMITS).0 == 1;
    assert GapSeqCount([Gap(0, 1, RestartWindowRolled)]) == 2;
  }
}
