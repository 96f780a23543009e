/** What a recording part knows about its media sequence numbers, as a value. The class
    ResumeState changes these things in place; each of its methods is proved equal to one of
    the functions below. */
module Ledgers {
  import opened Prelude

  /** Bytes and EXTINF seconds of committed media. */
  datatype Media = Media(bytes: int, seconds: real)

  const NO_MEDIA := Media(0, 0.0)

  function Plus(a: Media, b: Media): Media {
    Media(a.bytes + b.bytes, a.seconds + b.seconds)
  }

  /** The configured part ceilings; a zero ceiling is switched off. */
  datatype Limits = Limits(maxBytes: int, maxSeconds: int)

  const NO_LIMITS := Limits(0, 0)

  predicate Reached(total: Media, lim: Limits) {
    || (lim.maxBytes > 0 && total.bytes >= lim.maxBytes)
    || (lim.maxSeconds > 0 && total.seconds >= lim.maxSeconds as real)
  }

  datatype GapReason = StitchedAd | FetchFailure | AuthError | RestartWindowRolled | Malformed

  /** One accepted loss: a single sequence (first == last) or an inclusive range. */
  datatype Gap = Gap(first: int, last: int, reason: GapReason)
  {
    /** Readers of a gap take the larger of its two ends. */
    function End(): int { if last >= first then last else first }

    predicate Covers(s: int) { first <= s <= End() }

    predicate SingleAt(s: int) { first == s && last == s }
  }

  /** The sequences lo, lo + 1, ..., hi. */
  function Range(lo: int, hi: int): (r: set<int>)
    ensures forall s :: s in r <==> lo <= s <= hi
    decreases hi - lo + 1
  {
    if hi < lo then {} else Range(lo, hi - 1) + {hi}
  }

  predicate GapCovered(gaps: seq<Gap>, s: int) {
    exists g <- gaps :: g.Covers(s)
  }

  predicate HasSingle(gaps: seq<Gap>, s: int) {
    exists g <- gaps :: g.SingleAt(s)
  }

  lemma GapCoveredSnoc(gaps: seq<Gap>, g: Gap)
    ensures forall s :: GapCovered(gaps + [g], s) <==> GapCovered(gaps, s) || g.Covers(s)
  {
    assert forall h :: h in gaps + [g] <==> h in gaps || h == g;
    forall s
      ensures GapCovered(gaps + [g], s) <==> GapCovered(gaps, s) || g.Covers(s)
    {
      if GapCovered(gaps, s) {
        var h :| h in gaps && h.Covers(s);
        assert h in gaps + [g];
      }
      if g.Covers(s) { assert g in gaps + [g]; }
    }
  }

  function GapSeqs(gaps: seq<Gap>): (r: set<int>)
    ensures forall s :: s in r <==> GapCovered(gaps, s)
  {
    if gaps == [] then {} else
      var g := gaps[|gaps| - 1];
      assert gaps == gaps[..|gaps| - 1] + [g];
      GapCoveredSnoc(gaps[..|gaps| - 1], g);
      GapSeqs(gaps[..|gaps| - 1]) + Range(g.first, g.End())
  }

  function WithoutSingle(gaps: seq<Gap>, s: int): (r: seq<Gap>)
    ensures forall g :: g in r <==> g in gaps && !g.SingleAt(s)
  {
    if gaps == [] then []
    else if gaps[|gaps| - 1].SingleAt(s) then WithoutSingle(gaps[..|gaps| - 1], s)
    else WithoutSingle(gaps[..|gaps| - 1], s) + [gaps[|gaps| - 1]]
  }

  lemma {:induction false} WithoutSingleNone(gaps: seq<Gap>, s: int)
    requires !HasSingle(gaps, s)
    ensures WithoutSingle(gaps, s) == gaps
  {
    if gaps != [] {
      var rest, g := gaps[..|gaps| - 1], gaps[|gaps| - 1];
      assert gaps == rest + [g];
      assert g in gaps && !g.SingleAt(s);
      WithoutSingleNone(rest, s);
    }
  }

  /** A gap cut at a split boundary; only called for a gap that starts at or below it. */
  function CutGap(g: Gap, boundary: int): Gap {
    if g.last > boundary then g.(last := boundary) else g
  }

  function TrimGaps(gaps: seq<Gap>, boundary: int): (r: seq<Gap>)
    ensures forall g :: g in r <==> exists h :: h in gaps && h.first <= boundary && g == CutGap(h, boundary)
  {
    if gaps == [] then [] else
      var h := gaps[|gaps| - 1];
      assert gaps == gaps[..|gaps| - 1] + [h];
      if h.first > boundary then TrimGaps(gaps[..|gaps| - 1], boundary)
      else TrimGaps(gaps[..|gaps| - 1], boundary) + [CutGap(h, boundary)]
  }

  /** The per-part fields of the checkpoint plus its two in-memory structures.
      buffered   - CompletedAboveFrontier, committed out of order
      accounting - media of the buffered sequences
      resolved   - resolvedAbove, every resolved sequence above the frontier
      total      - PartBytes and PartDurationSeconds */
  datatype Ledger = Ledger(
    partStart: int,
    started: bool,
    frontier: int,
    buffered: set<int>,
    accounting: map<int, Media>,
    gaps: seq<Gap>,
    resolved: set<int>,
    total: Media)

  /** Media of a buffered sequence; legacy checkpoints lack the entry and contribute nothing. */
  function AcctOf(l: Ledger, s: int): Media {
    if s in l.accounting then l.accounting[s] else NO_MEDIA
  }

  /** What the code relies on in every state, started or not. */
  predicate AboveFrontier(l: Ledger) {
    && (forall s <- l.buffered :: s > l.frontier)
    && (forall s <- l.resolved :: s > l.frontier)
    && l.accounting.Keys <= l.buffered
  }

  function FreshPart(start: int): Ledger {
    Ledger(start, true, start - 1, {}, map[], [], {}, NO_MEDIA)
  }

  /** The part total once the frontier stands at t: buffered media up to t folds in. */
  function TotalAt(l: Ledger, t: int): Media
    decreases t - l.frontier
  {
    if t <= l.frontier then l.total
    else if t in l.buffered then Plus(TotalAt(l, t - 1), AcctOf(l, t))
    else TotalAt(l, t - 1)
  }

  function Above(s: set<int>, t: int): set<int> { set x | x in s && x > t }

  lemma AboveShrinks(s: set<int>, t: int)
    requires t + 1 in s
    ensures |Above(s, t + 1)| < |Above(s, t)|
  {
    assert Above(s, t + 1) <= Above(s, t) - {t + 1};
    assert |Above(s, t) - {t + 1}| < |Above(s, t)|;
    Subset(Above(s, t + 1), Above(s, t) - {t + 1});
  }

  /** Where a frontier that reached t stops: before the first unresolved sequence (false), or
      at the first sequence whose running total reaches a ceiling (true). */
  function Stop(l: Ledger, t: int, lim: Limits): (int, bool)
    decreases |Above(l.resolved, t)|
  {
    if t + 1 !in l.resolved then (t, false)
    else if Reached(TotalAt(l, t + 1), lim) then (t + 1, true)
    else
      AboveShrinks(l.resolved, t);
      Stop(l, t + 1, lim)
  }

  /** The ledger with its frontier moved up to t. */
  function MoveTo(l: Ledger, t: int): Ledger {
    l.(frontier := t,
       buffered := Above(l.buffered, t),
       accounting := map s | s in l.accounting && s > t :: l.accounting[s],
       resolved := Above(l.resolved, t),
       total := TotalAt(l, t))
  }

  /** One move of the frontier folds one sequence. */
  lemma MoveToStep(l: Ledger, t: int)
    requires l.frontier <= t
    ensures var m, next := MoveTo(l, t), t + 1;
            MoveTo(l, next) == m.(frontier := next, buffered := m.buffered - {next},
                                  accounting := m.accounting - {next}, resolved := m.resolved - {next},
                                  total := if next in m.buffered then Plus(m.total, AcctOf(m, next)) else m.total)
  {
    var m, m' := MoveTo(l, t), MoveTo(l, t + 1);
    assert m'.buffered == m.buffered - {t + 1};
    assert m'.accounting == m.accounting - {t + 1};
    assert m'.resolved == m.resolved - {t + 1};
  }

  lemma MoveToStart(l: Ledger)
    requires AboveFrontier(l)
    ensures MoveTo(l, l.frontier) == l
  {
    assert Above(l.buffered, l.frontier) == l.buffered;
    assert Above(l.resolved, l.frontier) == l.resolved;
    assert MoveTo(l, l.frontier).accounting == l.accounting;
  }

  lemma MoveToAbove(l: Ledger, t: int)
    requires AboveFrontier(l)
    ensures AboveFrontier(MoveTo(l, t))
  {
  }

  function Advance(l: Ledger, lim: Limits): (Ledger, Option<int>) {
    var (t, crossed) := Stop(l, l.frontier, lim);
    if t == l.frontier then (l, None)
    else (MoveTo(l, t), if crossed then Some(t) else None)
  }

  /** The ledger with a sequence above the frontier recorded as committed. */
  function WithCommit(l: Ledger, s: int, m: Media): Ledger {
    l.(gaps := WithoutSingle(l.gaps, s), resolved := l.resolved + {s},
       buffered := l.buffered + {s}, accounting := l.accounting[s := m])
  }

  /** The ledger with a sequence above the frontier recorded as lost, unless already resolved. */
  function WithGap(l: Ledger, s: int, reason: GapReason): Ledger {
    if s in l.resolved then l
    else l.(resolved := l.resolved + {s}, gaps := l.gaps + [Gap(s, s, reason)])
  }

  function WithRoll(l: Ledger, start: int, to: int, reason: GapReason): Ledger {
    l.(gaps := l.gaps + [Gap(start, to, reason)], resolved := l.resolved + Range(start, to))
  }

  function Commit(l: Ledger, s: int, m: Media, lim: Limits): (Ledger, Option<int>) {
    if s <= l.frontier then
      if HasSingle(l.gaps, s) then
        var l' := l.(gaps := WithoutSingle(l.gaps, s), total := Plus(l.total, m));
        (l', if Reached(l'.total, lim) then Some(l.frontier) else None)
      else (l, None)
    else Advance(WithCommit(l, s, m), lim)
  }

  function Skip(l: Ledger, s: int, reason: GapReason, lim: Limits): (Ledger, Option<int>) {
    if s <= l.frontier then (l, None) else Advance(WithGap(l, s, reason), lim)
  }

  function Roll(l: Ledger, from: int, to: int, reason: GapReason, lim: Limits): (Ledger, Option<int>) {
    var start := if from <= l.frontier then l.frontier + 1 else from;
    if to < from || to < start then (l, None) else Advance(WithRoll(l, start, to, reason), lim)
  }

  /** SealThresholdSplitBoundary's effect on the part: nothing above the boundary stays. */
  function Seal(l: Ledger, boundary: int): Ledger {
    l.(buffered := l.buffered - Above(l.buffered, boundary),
       accounting := l.accounting - Above(l.buffered + l.resolved, boundary),
       gaps := TrimGaps(l.gaps, boundary),
       resolved := l.resolved - Above(l.resolved, boundary))
  }

  predicate ShouldSkip(l: Ledger, s: int) {
    s <= l.frontier || s in l.buffered || GapCovered(l.gaps, s)
  }

  /** Media of the committed sequences in [lo, hi]. */
  function Total(media: map<int, Media>, lo: int, hi: int): Media
    decreases hi - lo + 1
  {
    if hi < lo then NO_MEDIA
    else if hi in media then Plus(Total(media, lo, hi - 1), media[hi])
    else Total(media, lo, hi - 1)
  }

  /** The media of a part after a commit outcome: recorded when the sequence is new above
      the frontier, or when it fills a single gap below it. */
  function MediaAfterCommit(l: Ledger, media: map<int, Media>, s: int, m: Media): map<int, Media> {
    if s > l.frontier || HasSingle(l.gaps, s) then media[s := m] else media
  }

  function MediaUpTo(media: map<int, Media>, boundary: int): map<int, Media> {
    map s | s in media && s <= boundary :: media[s]
  }

  // A started part and its ghost history: `media` maps each committed sequence of the part
  // to its media. The five facts below make up the invariant.

  ghost predicate Anchored(l: Ledger, media: map<int, Media>) {
    && l.started
    && l.partStart <= l.frontier + 1
    && (forall s <- media.Keys :: l.partStart <= s)
    && (forall g <- l.gaps :: l.partStart <= g.first <= g.last)
  }

  /** The buffer holds exactly the committed sequences above the frontier, with their media. */
  ghost predicate BufferExact(l: Ledger, media: map<int, Media>) {
    && (forall s :: s in l.buffered <==> s in media && s > l.frontier)
    && (forall s <- l.buffered :: media[s] == AcctOf(l, s))
    && l.accounting.Keys <= l.buffered
  }

  /** resolvedAbove holds exactly the committed-or-gapped sequences above the frontier. */
  ghost predicate ResolvedExact(l: Ledger) {
    forall s :: s in l.resolved <==> s > l.frontier && (s in l.buffered || GapCovered(l.gaps, s))
  }

  /** Every sequence from the part start to the frontier is committed or gap-covered. */
  ghost predicate NoHole(l: Ledger, media: map<int, Media>) {
    forall s | l.partStart <= s <= l.frontier :: s in media || GapCovered(l.gaps, s)
  }

  /** The part total is the media of the committed sequences at or below the frontier. */
  ghost predicate Conserved(l: Ledger, media: map<int, Media>) {
    l.total == Total(media, l.partStart, l.frontier)
  }

  /** The part's sequences are accounted for: kept by every outcome without any assumption. */
  ghost predicate Sound(l: Ledger, media: map<int, Media>) {
    && Anchored(l, media)
    && BufferExact(l, media)
    && ResolvedExact(l)
    && NoHole(l, media)
  }

  ghost predicate Inv(l: Ledger, media: map<int, Media>) {
    Sound(l, media) && Conserved(l, media)
  }

  /** No resolved sequence waits right above the frontier. */
  predicate Settled(l: Ledger) { l.frontier + 1 !in l.resolved }
}
