/** What every safe step of the part loop keeps. */
module PartLoopFacts {
  import opened Prelude
  import opened Ledgers
  import opened LedgerFacts
  import opened Checkpoints
  import opened Accountants
  import opened PartGuards
  import opened ExactGaps
  import opened Fetching
  import opened PartLoop

  // ---------- the invariant of every run ----------

  predicate Accounts(row: Row, s: int) { s in row.files || GapCovered(row.gaps, s) }

  ghost predicate AccountsUpTo(row: Row, end: int) {
    forall s | row.start <= s <= end :: Accounts(row, s)
  }

  /** A row whose interval holds all its files, and whose every sequence is a file or a gap. */
  ghost predicate Complete(row: Row) {
    && row.start <= row.end
    && (forall s <- row.files :: row.start <= s <= row.end)
    && AccountsUpTo(row, row.end)
  }

  ghost predicate Tiled(rows: seq<Row>) {
    && (forall i | 0 <= i < |rows| :: Complete(rows[i]))
    && (forall i | 0 <= i < |rows| - 1 :: rows[i + 1].start == rows[i].end + 1)
  }

  /** A part not anchored yet: only the first part of a run of threshold splits. A window roll may
      have been recorded in it. */
  ghost predicate Unanchored(p: Part) {
    && !p.c.ledger.started && p.media == map[] && p.c.partIndex == 1
    && p.c.split == NO_SPLIT && !p.c.endListSeen && !p.c.stage.AtOrAfter(PrepareInput)
    && p.c.ledger.partStart == 0 && (p.c.ledger.gaps == [] ==> p.c.ledger == EMPTY_LEDGER)
  }

  /** Nothing recorded lies past the end of the broadcast. */
  ghost predicate Published(p: Part, final: int) {
    (forall s | GapCovered(p.c.ledger.gaps, s) :: s <= final) && forall s <- p.media.Keys :: s <= final
  }

  /** The ENDLIST flag at the boundary is proof that the broadcast ended there. */
  ghost predicate Proven(c: Checkpoint, final: int) {
    c.split.endListAtBoundary ==> c.split.boundarySet && c.endListSeen && final <= c.split.boundary
  }

  /** An anchored part, its split made by a ceiling; past the first part its gaps are exact, so that
      the part is not mistaken for an empty one. */
  ghost predicate Anchor(p: Part, final: int) {
    && PartInv(p) && Published(p, final)
    && (p.c.partIndex > 1 ==> Exact(p) && Funded(p))
    && (p.c.split.pending ==> p.c.split.boundarySet)
    && p.c.ledger.partStart >= 0
  }

  /** A checkpoint in memory or on disk. */
  ghost predicate Held(p: Part, files: set<int>, final: int, whole: bool) {
    if !p.c.ledger.started then Unanchored(p) && forall s <- files :: s <= final
    else Anchor(p, final) && p.media.Keys <= files && (whole ==> Proven(p.c, final))
  }

  /** The two checkpoints describe the same part. */
  ghost predicate SamePart(c: Checkpoint, d: Checkpoint) {
    && c.partIndex == d.partIndex
    && c.ledger.started == d.ledger.started
    && c.ledger.partStart == d.ledger.partStart
    && c.split.boundarySet == d.split.boundarySet
    && (c.split.boundarySet ==> c.split.boundary == d.split.boundary)
    && c.stage.AtOrAfter(PrepareInput) == d.stage.AtOrAfter(PrepareInput)
  }

  /** ENDLIST was seen only when nothing follows the part. */
  ghost predicate Ended(c: Checkpoint, final: int) { c.endListSeen ==> final <= PartEnd(c) }

  /** A sealed checkpoint, possibly an older one, that carries no proof about ENDLIST. */
  predicate Unproven(c: Checkpoint) { c.split.boundarySet && !c.split.endListAtBoundary }

  /** A sealed part's row ends at its boundary and is complete. */
  ghost predicate SealedRow(c: Checkpoint, row: Row) {
    c.split.boundarySet ==> row.end == c.split.boundary && Complete(row)
  }

  ghost predicate LastRow(c: Checkpoint, rows: seq<Row>) {
    1 <= c.partIndex == |rows| ==>
      && c.ledger.started && rows[|rows| - 1].start == c.ledger.partStart
      && c.stage.AtOrAfter(PrepareInput) && SealedRow(c, rows[|rows| - 1])
  }

  ghost predicate RowsInv(w: World) {
    var c, n := w.mem.c, w.mem.c.partIndex;
    && 1 <= n
    && (|w.rows| == n - 1 || |w.rows| == n)
    && Tiled(w.rows[..n - 1])
    && (n > 1 ==> c.ledger.started && w.rows[n - 2].end + 1 == c.ledger.partStart)
    && LastRow(c, w.rows)
    && (forall s <- w.files :: c.ledger.partStart <= s)
  }

  /** The poller hands out nothing below the part, and is asked to fetch nothing below it again. */
  ghost predicate Aimed(w: World) {
    var f, l := w.fetch, w.mem.c.ledger;
    && f.startSeq >= 0
    && (w.head.Some? ==> w.head.value >= 0)
    && if l.started then
         && (w.head.Some? ==> f.startSeq >= l.partStart || w.head.value >= l.partStart)
         && (forall s <- f.refetch :: s >= l.partStart) && (forall s <- f.unresolved :: s >= l.partStart)
       else f.refetch == {} && f.unresolved == {}
  }

  /** While a part is fetched: ENDLIST is not believed yet, and nothing is lost. */
  ghost predicate Trusted(w: World, final: int) {
    var c, f := w.mem.c, w.fetch;
    && Ended(c, final) && !c.split.endListAtBoundary && !f.agg.endList
    && (c.ledger.started && !c.split.boundarySet ==> FetchInv(f, c.ledger))
    && (c.ledger.started ==> f.startSeq - 1 <= f.agg.lastMediaSeq || f.startSeq - 1 <= PartEnd(c))
    && (!c.ledger.started ==> f.agg == EMPTY_AGGREGATE && f.reported == {})
  }

  ghost predicate ResultOk(c: Checkpoint, r: JobResult, final: int) {
    && (r.endList && !c.split.boundarySet ==> final <= c.ledger.frontier && r.lastMediaSeq <= c.ledger.frontier)
    && (r.endList && c.split.boundarySet && r.lastMediaSeq <= c.split.boundary ==> final <= c.split.boundary)
    && (Ended(c, final) || (Unproven(c) && !r.endList))
    && (c.split.endListAtBoundary ==> r.endList && r.lastMediaSeq <= c.split.boundary)
  }

  ghost predicate FilesCut(w: World) {
    w.mem.c.split.boundarySet ==> forall s <- w.files :: s <= w.mem.c.split.boundary
  }

  /** The last row is the current part's, and accounts for everything up to the part's end. */
  ghost predicate LastRowOk(w: World) {
    var c, n := w.mem.c, w.mem.c.partIndex;
    && |w.rows| == n >= 1
    && w.rows[n - 1].end >= PartEnd(c)
    && AccountsUpTo(w.rows[n - 1], PartEnd(c))
  }

  /** What an ended run owns. */
  ghost predicate EndOk(w: World, end: Ending) {
    match end
    case EmptyPart => true
    case LastPart => |w.rows| == w.mem.c.partIndex >= 1
    case AtBoundary => |w.rows| == w.mem.c.partIndex >= 1 && Complete(w.rows[|w.rows| - 1])
  }

  /** A finished run that saw ENDLIST has it all. */
  ghost predicate EndWhole(w: World, end: Ending, final: int) {
    w.mem.c.endListSeen ==>
      if end == EmptyPart then w.mem.media == map[] && final <= w.mem.c.ledger.frontier
      else |w.rows| == w.mem.c.partIndex >= 1
           && w.rows[|w.rows| - 1].end >= final && AccountsUpTo(w.rows[|w.rows| - 1], final)
  }

  ghost predicate PhaseInv(w: World, final: int, whole: bool) {
    var c := w.mem.c;
    match w.phase
    case Fetch =>
      !c.stage.AtOrAfter(PrepareInput) && |w.rows| == c.partIndex - 1 && Aimed(w)
      && (whole ==> Trusted(w, final))
    case Fetched(r) => c.ledger.started && (whole ==> ResultOk(c, r, final))
    case Running(r) => c.ledger.started && FilesCut(w) && (whole ==> ResultOk(c, r, final))
    case Finalized(r) =>
      && c.ledger.started && c.stage.AtOrAfter(PrepareInput)
      && FilesCut(w) && LastRowOk(w) && (whole ==> ResultOk(c, r, final))
    case Done(end) => c.ledger.started && EndOk(w, end) && (whole ==> Ended(c, final) && EndWhole(w, end, final))
    case Failed => true
  }

  /** whole says whether the run is also safe for believing ENDLIST. */
  ghost predicate WorldInv(w: World, final: int, whole: bool) {
    && Held(w.mem, w.files, final, whole)
    && Held(w.durable, w.files, final, whole)
    && SamePart(w.mem.c, w.durable.c)
    && (whole ==> Ended(w.durable.c, final) || Unproven(w.durable.c))
    && RowsInv(w)
    && PhaseInv(w, final, whole)
  }

  // ---------- entering the loop, and crashes ----------

  /** Reloading a part that has no anchor gives it back exactly when no window roll was recorded in
      it; with one, the part is taken for a started one. */
  lemma UnanchoredReload(p: Part, j: Saved)
    requires Unanchored(p) && Saves(p.c, j)
    ensures Load(j) == p.c <==> p.c.ledger.gaps == []
    ensures Load(j).ledger.started <==> p.c.ledger.gaps != []
  {
    if p.c.ledger.gaps == [] { EmptyRoundTrip(p.c, j); }
  }

  /** What the top of the loop needs of the world it is entered with. */
  ghost predicate Enterable(w: World, final: int, whole: bool) {
    && Held(w.mem, w.files, final, whole) && Held(w.durable, w.files, final, whole)
    && SamePart(w.mem.c, w.durable.c) && (w.mem.c.ledger.started || w.mem.c.ledger.gaps == [])
    && (whole ==> Ended(w.mem.c, final) || Unproven(w.mem.c))
    && (whole ==> Ended(w.durable.c, final) || Unproven(w.durable.c))
    && RowsInv(w)
  }

  /** A segment 0 that was written before the anchor is not lost: the part starts there, with 0
      accounted for. */
  lemma RecoverKeeps(w: World, final: int, whole: bool)
    requires Enterable(w, final, whole)
    ensures Enterable(RecoverSeqZero(w), final, whole)
    ensures FindsSeqZero(w.mem.c, w.files) ==>
              var p := RecoverSeqZero(w).mem;
              PartInv(p) && p.c.ledger.partStart == 0 && ShouldSkip(p.c.ledger, 0) && Conserved(p.c.ledger, p.media)
  {
    if FindsSeqZero(w.mem.c, w.files) {
      var p := RecoverSeqZero(w).mem;
      assert Total(p.media, 0, -1) == NO_MEDIA;
      assert Anchor(p, final);
    }
  }

  lemma BeginFetchAimed(w: World, final: int, whole: bool)
    requires Held(w.mem, w.files, final, whole) && (w.mem.c.ledger.started || w.mem.c.ledger.gaps == [])
    requires !ShouldSkipSegmentFetch(w.mem.c)
    ensures Aimed(BeginFetch(w))
  {
  }

  lemma BeginFetchKeeps(w: World, final: int, whole: bool)
    requires Enterable(w, final, whole)
    ensures WorldInv(BeginFetch(w), final, whole)
  {
    if !ShouldSkipSegmentFetch(w.mem.c) {
      BeginFetchAimed(w, final, whole);
      if w.mem.c.ledger.started { NewFetchInv(w.mem.c.(stage := Segments)); }
    }
  }

  lemma EnterLoopKeeps(w: World, final: int, whole: bool)
    requires Enterable(w, final, whole)
    ensures WorldInv(EnterLoop(w), final, whole)
  {
    RecoverKeeps(w, final, whole);
    BeginFetchKeeps(RecoverSeqZero(w), final, whole);
  }

  /** A crash loses the in-memory state; what the checkpoint reloads is exactly what was saved, unless
      a roll reached a part before its anchor. */
  lemma CrashKeeps(w: World, j: Saved, final: int, whole: bool)
    requires WorldInv(w, final, whole) && Saves(w.durable.c, j) && Safe(w, Crash(j), whole)
    ensures Load(j) == w.durable.c
    ensures WorldInv(EnterLoop(w.(mem := Part(Load(j), w.durable.media))), final, whole)
  {
    if w.durable.c.ledger.started { CrashRoundTrip(w.durable.c, w.durable.media, j); }
    else { UnanchoredReload(w.durable, j); }
    EnterLoopKeeps(w.(mem := w.durable), final, whole);
  }
}
