/** Every safe step of the part loop keeps the invariant. */
module PartLoopKeeps {
  import opened Prelude
  import opened Ledgers
  import opened LedgerFacts
  import opened Checkpoints
  import opened Accountants
  import opened PartGuards
  import opened ExactGaps
  import opened Fetching
  import opened PartLoop
  import opened PartLoopFacts

  // ---------- before the first poll ----------

  lemma PollKeeps(w: World, head: int, cfg: Config, final: int, whole: bool)
    requires WorldInv(w, final, whole) && Enabled(w, Poll(head), final) && Safe(w, Poll(head), whole)
    ensures WorldInv(Do(w, Poll(head), cfg), final, whole)
  {
  }

  lemma FirstPollKeeps(w: World, base: int, cfg: Config, final: int, whole: bool)
    requires WorldInv(w, final, whole) && Enabled(w, FirstPoll(base), final) && Safe(w, FirstPoll(base), whole)
    ensures WorldInv(Do(w, FirstPoll(base), cfg), final, whole)
  {
    FreshPartKeeps(base);
  }

  lemma RollBeforeFirstPollKeeps(w: World, to: int, cfg: Config, final: int, whole: bool)
    requires WorldInv(w, final, whole) && Enabled(w, RollBeforeFirstPoll(to), final)
    ensures WorldInv(Do(w, RollBeforeFirstPoll(to), cfg), final, whole)
  {
    UnanchoredRoll(w.mem, w.fetch.startSeq, to, cfg.lim);
  }

  /** A roll before the first poll is recorded, and leaves the part unanchored and whole. */
  lemma UnanchoredRoll(p: Part, from: int, to: int, lim: Limits)
    requires Unanchored(p) && p.c.ledger.gaps == [] && 1 <= from <= to
    ensures var p' := Apply(p, Rolled(from, to), lim);
            && Unanchored(p') && p'.c == p.c.(ledger := p'.c.ledger)
            && p'.c.ledger.gaps == [Gap(from, to, RestartWindowRolled)] && p'.c.ledger.partStart == 0
  {
    var l := WithRoll(EMPTY_LEDGER, from, to, RestartWindowRolled);
    AdvanceSettles(l, lim);
  }

  lemma RetryKeeps(w: World, cfg: Config, final: int, whole: bool)
    requires WorldInv(w, final, whole) && Enabled(w, RetryBeforeFirstPoll, final)
    ensures WorldInv(Do(w, RetryBeforeFirstPoll, cfg), final, whole)
  {
  }

  // ---------- callbacks ----------

  lemma CutPublished(p: Part, crossed: Option<int>, final: int)
    requires Published(p, final)
    ensures Published(CutIfCrossed(p, crossed), final)
  {
    if crossed.Some? {
      forall s ensures GapCovered(TrimGaps(p.c.ledger.gaps, crossed.value), s) ==> GapCovered(p.c.ledger.gaps, s) {
        TrimCovers(p.c.ledger.gaps, crossed.value, s);
      }
    }
  }

  lemma GapPublished(p: Part, s: int, reason: GapReason, lim: Limits, final: int)
    requires Published(p, final) && s <= final
    ensures Published(GapPart(p, s, reason, lim), final)
    ensures Published(WithLedger(p, Skip(p.c.ledger, s, reason, lim).0), final)
  {
    var (l, crossed) := Skip(p.c.ledger, s, reason, lim);
    AdvanceSettles(WithGap(p.c.ledger, s, reason), lim);
    GapCoveredSnoc(p.c.ledger.gaps, Gap(s, s, reason));
    CutPublished(WithLedger(p, l), crossed, final);
  }

  lemma RollPublished(p: Part, from: int, to: int, lim: Limits, final: int)
    requires Published(p, final) && forall s <- Range(from, to) :: s <= final
    ensures Published(RollPart(p, from, to, lim), final)
  {
    var (l, crossed) := Roll(p.c.ledger, from, to, RestartWindowRolled, lim);
    var start := RollStart(p.c.ledger, from);
    assert from <= to ==> to in Range(from, to);
    AdvanceSettles(WithRoll(p.c.ledger, start, to, RestartWindowRolled), lim);
    GapCoveredSnoc(p.c.ledger.gaps, Gap(start, to, RestartWindowRolled));
    CutPublished(WithLedger(p, l), crossed, final);
  }

  lemma CommitPublished(p: Part, s: int, m: Media, lim: Limits, final: int)
    requires Published(p, final) && s <= final
    ensures Published(CommitPart(p, s, m, lim), final)
  {
    var l := p.c.ledger;
    var (l', crossed) := Commit(l, s, m, lim);
    AdvanceSettles(WithCommit(l, s, m), lim);
    WithoutSingleShrinks(l.gaps, s);
    forall t ensures GapCovered(WithoutSingle(l.gaps, s), t) ==> GapCovered(l.gaps, t) {
      assert t in GapSeqs(WithoutSingle(l.gaps, s)) ==> t in GapSeqs(l.gaps);
    }
    CutPublished(Part(p.c.(ledger := l'), MediaAfterCommit(l, p.media, s, m)), crossed, final);
  }

  /** A callback about published sequences records nothing past the end. */
  lemma ApplyPublished(p: Part, e: Event, lim: Limits, final: int)
    requires Published(p, final) && forall s <- EventSeqs(e) :: s <= final
    ensures Published(Apply(p, e, lim), final)
  {
    match e
    case Rolled(from, to) =>
      assert EventSeqs(e) == Range(from, to);
      RollPublished(p, from, to, lim, final);
    case Seen(o) =>
      assert o.s in EventSeqs(e);
      match o
      case Committed(s, m) => CommitPublished(p, s, m, lim, final);
      case GapAccepted(s) => GapPublished(p, s, FetchFailure, lim, final);
      case AdSkipped(s) => GapPublished(p, s, StitchedAd, lim, final);
      case MalformedSkip(s) => GapPublished(p, s, Malformed, lim, final);
      case AuthFailed(s) => GapPublished(p, s, AuthError, NO_LIMITS, final);
  }

  lemma AnchorApply(p: Part, e: Event, lim: Limits, final: int)
    requires Anchor(p, final) && (p.c.partIndex > 1 ==> CleanEvent(p, e)) && forall s <- EventSeqs(e) :: s <= final
    ensures Anchor(Apply(p, e, lim), final)
    ensures Apply(p, e, lim).c.ledger.partStart == p.c.ledger.partStart
  {
    ApplyKeeps(p, e, lim);
    if p.c.partIndex > 1 {
      ApplyKeepsExact(p, e, lim);
      ApplyKeepsFunded(p, e, lim);
    }
    ApplyPublished(p, e, lim, final);
    ApplyShape(p, e, lim);
    ApplyStart(p, e, lim);
  }

  /** A callback never moves the start of the part, nor its end back. */
  lemma ApplyStart(p: Part, e: Event, lim: Limits)
    requires PartInv(p)
    ensures var p' := Apply(p, e, lim);
            p'.c.ledger.partStart == p.c.ledger.partStart && PartEnd(p.c) <= PartEnd(p'.c)
  {
    if p.c.split.boundarySet { SealedStays(p, e, lim); }
    else {
      ApplyResolves(p, e, lim);
      CutsAtFrontier(p, e, lim);
      ApplyShape(p, e, lim);
    }
  }

  /** What a callback leaves of the checkpoint. */
  ghost predicate Moved(p: Part, p': Part) {
    && p'.c == p.c.(ledger := p'.c.ledger, split := p'.c.split) && p'.c.ledger.started
    && (p.c.split.boundarySet ==> p'.c.split == p.c.split)
    && p'.c.split.endListAtBoundary == p.c.split.endListAtBoundary
    && p'.c.ledger.partStart == p.c.ledger.partStart && PartEnd(p.c) <= PartEnd(p'.c)
  }

  lemma HeldApply(p: Part, e: Event, lim: Limits, files: set<int>, final: int, whole: bool)
    requires Held(p, files, final, whole) && p.c.ledger.started
    requires (p.c.partIndex > 1 ==> CleanEvent(p, e)) && forall s <- EventSeqs(e) :: s <= final
    ensures Held(Apply(p, e, lim), files + FilesOf(e), final, whole) && Moved(p, Apply(p, e, lim))
  {
    AnchorApply(p, e, lim, final);
    ApplyShape(p, e, lim);
    ApplyStart(p, e, lim);
  }

  lemma HeldMore(p: Part, files: set<int>, more: set<int>, final: int, whole: bool)
    requires Held(p, files, final, whole) && (!p.c.ledger.started ==> forall s <- more :: s <= final)
    ensures Held(p, files + more, final, whole)
  {
  }

  lemma RowsInvFiles(w: World, mem: Part, more: set<int>, w': World)
    requires RowsInv(w) && |w.rows| == w.mem.c.partIndex - 1
    requires mem.c.partIndex == w.mem.c.partIndex && mem.c.ledger.started == w.mem.c.ledger.started
    requires mem.c.ledger.partStart == w.mem.c.ledger.partStart
    requires forall s <- more :: w.mem.c.ledger.partStart <= s
    requires w'.mem == mem && w'.rows == w.rows && w'.files == w.files + more
    ensures RowsInv(w')
  {
  }

  lemma CallbackTrusted(w: World, e: Event, lim: Limits, final: int)
    requires Trusted(w, final) && w.mem.c.ledger.started && PartInv(w.mem) && Moved(w.mem, Apply(w.mem, e, lim))
    ensures Trusted(w.(mem := Apply(w.mem, e, lim), fetch := Report(w.fetch, e)), final)
  {
    if !w.mem.c.split.boundarySet { ReportKeeps(w.fetch, w.mem, e, lim); }
  }

  lemma CallbackPhase(w: World, e: Event, lim: Limits, final: int, whole: bool)
    requires w.phase.Fetch? && PhaseInv(w, final, whole) && PartInv(w.mem) && Moved(w.mem, Apply(w.mem, e, lim))
    ensures PhaseInv(w.(mem := Apply(w.mem, e, lim), fetch := Report(w.fetch, e)), final, whole)
  {
    if whole { CallbackTrusted(w, e, lim, final); }
  }

  /** Whatever is on disk still describes the part in memory. */
  ghost predicate DurableOk(w: World, final: int, whole: bool) {
    && Held(w.durable, w.files, final, whole)
    && SamePart(w.mem.c, w.durable.c)
    && (whole ==> Ended(w.durable.c, final) || Unproven(w.durable.c))
  }

  lemma CallbackDurable(w: World, e: Event, save: bool, cfg: Config, final: int, whole: bool)
    requires WorldInv(w, final, whole) && w.phase.Fetch? && w.mem.c.ledger.started
    requires Moved(w.mem, Apply(w.mem, e, cfg.lim))
    requires Held(Apply(w.mem, e, cfg.lim), w.files + FilesOf(e), final, whole)
    ensures DurableOk(Do(w, Callback(e, save), cfg), final, whole)
  {
    HeldMore(w.durable, w.files, FilesOf(e), final, whole);
  }

  lemma CallbackKeeps(w: World, e: Event, save: bool, cfg: Config, final: int, whole: bool)
    requires WorldInv(w, final, whole) && Enabled(w, Callback(e, save), final) && Safe(w, Callback(e, save), whole)
    ensures WorldInv(Do(w, Callback(e, save), cfg), final, whole)
  {
    var mem := Apply(w.mem, e, cfg.lim);
    HeldApply(w.mem, e, cfg.lim, w.files, final, whole);
    RowsInvFiles(w, mem, FilesOf(e), Do(w, Callback(e, save), cfg));
    CallbackPhase(w, e, cfg.lim, final, whole);
    CallbackDurable(w, e, save, cfg, final, whole);
  }

  lemma FileKeeps(w: World, s: int, cfg: Config, final: int, whole: bool)
    requires WorldInv(w, final, whole) && Enabled(w, WriteFile(s), final)
    ensures WorldInv(Do(w, WriteFile(s), cfg), final, whole)
  {
    HeldMore(w.mem, w.files, {s}, final, whole);
    HeldMore(w.durable, w.files, {s}, final, whole);
    RowsInvFiles(w, w.mem, {s}, Do(w, WriteFile(s), cfg));
  }

  lemma SaveKeeps(w: World, cfg: Config, final: int, whole: bool)
    requires WorldInv(w, final, whole) && Enabled(w, Save, final)
    ensures WorldInv(Do(w, Save, cfg), final, whole)
  {
  }

  // ---------- the end of an attempt ----------

  lemma AttemptAimed(w: World, r: RunResult, retry: bool, final: int)
    requires Aimed(w) && w.mem.c.ledger.started && Enabled(w, Attempt(r, retry), final)
    ensures Aimed(w.(fetch := EndAttempt(w.fetch, r, w.mem.c.ledger), head := None, durable := w.mem))
  {
    forall s | s in r.canceledSeqs || s in r.authErrorSeqs ensures s >= w.mem.c.ledger.partStart {
      assert s in r.canceledSeqs + r.authErrorSeqs;
    }
  }

  lemma AttemptTells(w: World, r: RunResult, retry: bool, final: int)
    requires Enabled(w, Attempt(r, retry), final) && Safe(w, Attempt(r, retry), true) && Aimed(w)
    ensures Tells(w.fetch, r, w.mem.c.ledger)
  {
  }

  function AttemptResult(f: Fetch): JobResult {
    JobResult(f.agg.segmentsDone, f.agg.segmentsGaps, f.agg.lastMediaSeq, f.agg.endList)
  }

  /** What an attempt that told everything leaves: nothing lost, and ENDLIST only at the end. */
  lemma AttemptTrusted(w: World, r: RunResult, retry: bool, final: int)
    requires Trusted(w, final) && Enabled(w, Attempt(r, retry), final) && PartInv(w.mem)
    requires Tells(w.fetch, r, w.mem.c.ledger) && !w.mem.c.stage.AtOrAfter(PrepareInput)
    requires w.mem.c.split.pending ==> w.mem.c.split.boundarySet
    ensures var f := EndAttempt(w.fetch, r, w.mem.c.ledger);
            && (retry ==> Trusted(w.(fetch := f, head := None, durable := w.mem), final))
            && ResultOk(w.mem.c, AttemptResult(f), final)
  {
    var l := w.mem.c.ledger;
    if !w.mem.c.split.boundarySet {
      EndAttemptKeeps(w.fetch, r, l);
      if EndAttempt(w.fetch, r, l).agg.endList { EndListMeansResolved(w.fetch, r, l, w.mem.media); }
    }
  }

  lemma AttemptKeeps(w: World, r: RunResult, retry: bool, cfg: Config, final: int, whole: bool)
    requires WorldInv(w, final, whole) && Enabled(w, Attempt(r, retry), final) && Safe(w, Attempt(r, retry), whole)
    ensures WorldInv(Do(w, Attempt(r, retry), cfg), final, whole)
  {
    AttemptAimed(w, r, retry, final);
    if whole {
      AttemptTells(w, r, retry, final);
      AttemptTrusted(w, r, retry, final);
    }
    AttemptWorld(w, r, retry, cfg, final, whole);
  }

  lemma AttemptWorld(w: World, r: RunResult, retry: bool, cfg: Config, final: int, whole: bool)
    requires WorldInv(w, final, whole) && w.phase.Fetch? && w.mem.c.ledger.started
    requires var f := EndAttempt(w.fetch, r, w.mem.c.ledger);
             var next := w.(fetch := f, head := None, durable := w.mem);
             if retry then Aimed(next) && (whole ==> Trusted(next, final))
             else whole ==> ResultOk(w.mem.c, AttemptResult(f), final)
    ensures WorldInv(Do(w, Attempt(r, retry), cfg), final, whole)
  {
  }

  // ---------- the verdict ----------

  /** The bookkeeping after a fetch leaves the part alone and records only proven ENDLISTs. */
  lemma NoteFetchedKeeps(p: Part, r: JobResult, files: set<int>, final: int, whole: bool)
    requires Held(p, files, final, whole) && p.c.ledger.started && (whole ==> ResultOk(p.c, r, final))
    ensures var c := NoteFetched(p.c, r);
            && Held(p.(c := c), files, final, whole)
            && (whole ==> ResultOk(c, r, final) && (r.endList ==> Ended(c, final)))
            && SamePart(p.c, c) && c.ledger == p.c.ledger && c.stage == p.c.stage
            && c.split.pending == p.c.split.pending && c.split.threshold == p.c.split.threshold
  {
  }

  /** A part that asked for a split holds media, and one that ended without any has lost all of it. */
  lemma VerdictMeaning(p: Part, r: JobResult, final: int)
    requires Anchor(p, final)
    ensures var c := NoteFetched(p.c, r);
            var verdict := Decide(c.partIndex - 1, r, c);
            && !verdict.ReanchorEmpty?
            && (verdict.FinishEmpty? ==>
                  !c.split.boundarySet && (final <= c.ledger.frontier ==> p.media == map[]))
  {
    var c := NoteFetched(p.c, r);
    if c.partIndex > 1 {
      if p.c.split.boundarySet { SealedIsFinalized(p, r, c.partIndex - 1); }
      else if final <= c.ledger.frontier { CommittedMediaComplete(c, p.media, r, c.partIndex - 1); }
    }
  }

  lemma HeldCut(p: Part, files: set<int>, final: int, whole: bool)
    requires Held(p, files, final, whole) && p.c.ledger.started && p.c.split.boundarySet
    ensures Held(p, (set s | s in files && s <= p.c.split.boundary), final, whole)
  {
  }

  lemma RowsInvCut(w: World, mem: Part, files: set<int>, w': World)
    requires RowsInv(w) && w.mem.c.ledger.started && files <= w.files
    requires SamePart(w.mem.c, mem.c)
    requires w'.mem == mem && w'.rows == w.rows && w'.files == files
    ensures RowsInv(w')
  {
  }

  lemma StageKeepsHeld(p: Part, stage: Stage, files: set<int>, final: int, whole: bool)
    requires Held(p, files, final, whole) && p.c.ledger.started && stage.AtOrAfter(PrepareInput)
    ensures Held(SetStage(p, stage), files, final, whole)
  {
  }

  lemma LastRowStage(w: World, mem: Part)
    requires RowsInv(w) && w.mem.c.ledger.started && mem.c.stage.AtOrAfter(PrepareInput)
    requires mem.c.partIndex == w.mem.c.partIndex && mem.c.ledger == w.mem.c.ledger
    requires mem.c.split.boundarySet == w.mem.c.split.boundarySet
    requires mem.c.split.boundarySet ==> mem.c.split.boundary == w.mem.c.split.boundary
    ensures RowsInv(w.(mem := mem))
  {
  }

  lemma FinishKeeps(w: World, c: Checkpoint, final: int, whole: bool)
    requires RowsInv(w) && Held(w.mem.(c := c), w.files, final, whole)
    requires SamePart(w.mem.c, c) && w.mem.c.ledger.started && c.ledger == w.mem.c.ledger
    requires !c.split.boundarySet
    requires whole ==> Ended(c, final) && final <= c.ledger.frontier && w.mem.media == map[]
    ensures var mem := SetStage(w.mem.(c := c), PrepareInput);
            WorldInv(w.(mem := mem, durable := mem, phase := Done(EmptyPart)), final, whole)
  {
    StageKeepsHeld(w.mem.(c := c), PrepareInput, w.files, final, whole);
    LastRowStage(w, SetStage(w.mem.(c := c), PrepareInput));
  }

  lemma RunKeeps(w: World, mem: Part, durable: Part, r: JobResult, final: int, whole: bool)
    requires RowsInv(w) && w.mem.c.ledger.started && SamePart(w.mem.c, mem.c) && SamePart(mem.c, durable.c)
    requires Held(mem, w.files, final, whole) && Held(durable, w.files, final, whole)
    requires whole ==> Ended(durable.c, final) || Unproven(durable.c)
    requires whole ==> ResultOk(mem.c, r, final)
    ensures var files := if mem.c.split.Sealed() then (set s | s in w.files && s <= mem.c.split.boundary) else w.files;
            WorldInv(w.(mem := mem, durable := durable, files := files, phase := Running(r)), final, whole)
  {
    var files := if mem.c.split.Sealed() then (set s | s in w.files && s <= mem.c.split.boundary) else w.files;
    if mem.c.split.boundarySet {
      HeldCut(mem, w.files, final, whole);
      HeldCut(durable, w.files, final, whole);
    }
    RowsInvCut(w, mem, files, w.(mem := mem, durable := durable, files := files, phase := Running(r)));
  }

  lemma FailKeeps(w: World, final: int, whole: bool)
    requires WorldInv(w, final, whole)
    ensures WorldInv(w.(phase := Failed), final, whole)
  {
  }

  lemma JudgeKeeps(w: World, cfg: Config, final: int, whole: bool)
    requires WorldInv(w, final, whole) && Enabled(w, Judge, final)
    ensures WorldInv(Do(w, Judge, cfg), final, whole)
  {
    var r := w.phase.r;
    var c := NoteFetched(w.mem.c, r);
    var mem := w.mem.(c := c);
    NoteFetchedKeeps(w.mem, r, w.files, final, whole);
    VerdictMeaning(w.mem, r, final);
    match Decide(c.partIndex - 1, r, c)
    case FinishEmpty => FinishKeeps(w, c, final, whole);
    case RunPart => RunKeeps(w, mem, if c != w.mem.c then mem else w.durable, r, final, whole);
    case FailEmpty => FailKeeps(w, final, whole);
    case ReanchorEmpty =>
  }

  // ---------- the row, and the next part ----------

  lemma StagePhase(w: World, stage: Stage, final: int, whole: bool)
    requires w.phase.Running? && PhaseInv(w, final, whole)
    ensures var mem := SetStage(w.mem, stage);
            && PhaseInv(w.(mem := mem, durable := mem), final, whole)
            && (whole ==> Ended(mem.c, final) || Unproven(mem.c))
  {
    assert PartEnd(SetStage(w.mem, stage).c) == PartEnd(w.mem.c);
  }

  lemma StageWorld(w: World, mem: Part, final: int, whole: bool)
    requires Held(mem, w.files, final, whole) && RowsInv(w.(mem := mem))
    requires PhaseInv(w.(mem := mem, durable := mem), final, whole)
    requires whole ==> Ended(mem.c, final) || Unproven(mem.c)
    ensures WorldInv(w.(mem := mem, durable := mem), final, whole)
  {
  }

  lemma StageKeeps(w: World, stage: Stage, cfg: Config, final: int, whole: bool)
    requires Held(w.mem, w.files, final, whole) && RowsInv(w) && PhaseInv(w, final, whole)
    requires w.phase.Running? && stage.AtOrAfter(PrepareInput)
    ensures WorldInv(Do(w, EnterStage(stage), cfg), final, whole)
  {
    StageKeepsHeld(w.mem, stage, w.files, final, whole);
    LastRowStage(w, SetStage(w.mem, stage));
    StagePhase(w, stage, final, whole);
    StageWorld(w, SetStage(w.mem, stage), final, whole);
  }

  /** The row of the part just built: every sequence up to the part's end is a file or a gap. A sealed
      part's row ends at its boundary, any other at the later of its frontier and the fetch's last sequence. */
  lemma FinalRowOk(w: World, r: JobResult, final: int, whole: bool)
    requires Held(w.mem, w.files, final, whole) && w.mem.c.ledger.started && RowsInv(w) && FilesCut(w)
    ensures var row, c := FinalRow(w, r), w.mem.c;
            && row.start == c.ledger.partStart
            && SealedRow(c, row)
            && row.end >= PartEnd(c)
            && AccountsUpTo(row, PartEnd(c))
            && (!c.split.boundarySet ==>
                  && row.end >= r.lastMediaSeq && row.end >= c.ledger.frontier
                  && row.end in {r.lastMediaSeq, c.ledger.frontier})
  {
  }

  lemma StoreRowShape(rows: seq<Row>, n: int, row: Row)
    requires 1 <= n && (|rows| == n - 1 || |rows| == n)
    ensures var rows' := StoreRow(rows, n, row);
            |rows'| == n && rows'[n - 1] == row && rows'[..n - 1] == rows[..n - 1]
  {
  }

  lemma FinalizeRows(w: World, row: Row)
    requires RowsInv(w) && w.mem.c.ledger.started && w.mem.c.stage.AtOrAfter(PrepareInput)
    requires row.start == w.mem.c.ledger.partStart && SealedRow(w.mem.c, row)
    ensures var n := w.mem.c.partIndex;
            var rows := StoreRow(w.rows, n, row);
            RowsInv(w.(rows := rows)) && |rows| == n && rows[n - 1] == row
  {
    var n := w.mem.c.partIndex;
    StoreRowShape(w.rows, n, row);
    var rows := StoreRow(w.rows, n, row);
    assert n > 1 ==> rows[n - 2] == rows[..n - 1][n - 2] == w.rows[..n - 1][n - 2];
  }

  lemma FinalizeWorld(w: World, rows: seq<Row>, r: JobResult, final: int, whole: bool)
    requires WorldInv(w, final, whole) && w.phase == Running(r) && w.mem.c.stage.AtOrAfter(PrepareInput)
    requires RowsInv(w.(rows := rows)) && LastRowOk(w.(rows := rows))
    ensures WorldInv(w.(rows := rows, phase := Finalized(r)), final, whole)
  {
  }

  lemma FinalizeKeeps(w: World, cfg: Config, final: int, whole: bool)
    requires WorldInv(w, final, whole) && Enabled(w, Finalize, final)
    ensures WorldInv(Do(w, Finalize, cfg), final, whole)
  {
    var row := FinalRow(w, w.phase.r);
    FinalRowOk(w, w.phase.r, final, whole);
    FinalizeRows(w, row);
    FinalizeWorld(w, StoreRow(w.rows, w.mem.c.partIndex, row), w.phase.r, final, whole);
  }

  lemma TiledSnoc(rows: seq<Row>, n: int)
    requires 1 <= n <= |rows| && Tiled(rows[..n - 1]) && Complete(rows[n - 1])
    requires n > 1 ==> rows[n - 1].start == rows[n - 2].end + 1
    ensures Tiled(rows[..n])
  {
    var all, before := rows[..n], rows[..n - 1];
    assert all == before + [rows[n - 1]];
    forall i | 0 <= i < n - 1 ensures all[i + 1].start == all[i].end + 1 {
      if i + 1 < n - 1 { assert before[i + 1].start == before[i].end + 1; }
    }
  }

  /** The new part starts right after a complete row. */
  lemma NextPartRows(w: World)
    requires RowsInv(w) && |w.rows| == w.mem.c.partIndex && w.mem.c.ledger.started && w.mem.c.split.Sealed()
    ensures RowsInv(w.(mem := Part(ContinuePart(w.mem.c), map[]), files := {}))
  {
    TiledSnoc(w.rows, w.mem.c.partIndex);
  }

  lemma ContinueHeld(p: Part, final: int, whole: bool)
    requires Anchor(p, final)
    ensures Held(Part(ContinuePart(p.c), map[]), {}, final, whole)
  {
    FreshPartKeeps(PartEnd(p.c) + 1);
  }

  lemma ContinueKeeps(w: World, final: int, whole: bool)
    requires RowsInv(w) && |w.rows| == w.mem.c.partIndex && w.mem.c.ledger.started
    requires Held(w.mem, w.files, final, whole) && w.mem.c.split.pending
    requires whole ==> Ended(w.mem.c, final) || Unproven(w.mem.c)
    ensures var mem := Part(ContinuePart(w.mem.c), map[]);
            WorldInv(EnterLoop(w.(mem := mem, durable := mem, files := {})), final, whole)
  {
    var mem := Part(ContinuePart(w.mem.c), map[]);
    ContinueHeld(w.mem, final, whole);
    NextPartRows(w);
    var w1 := w.(mem := mem, durable := mem, files := {});
    assert whole ==> Ended(mem.c, final);
    assert RowsInv(w1);
    EnterLoopKeeps(w1, final, whole);
  }

  lemma DoneKeeps(w: World, final: int, whole: bool)
    requires WorldInv(w, final, whole) && w.phase.Finalized? && !w.mem.c.split.pending
    ensures WorldInv(w.(phase := Done(LastPart)), final, whole)
  {
  }

  /** A split whose boundary is the end of the broadcast is cleared, and the run is over. */
  lemma ClearKeeps(w: World, final: int, whole: bool)
    requires WorldInv(w, final, whole) && w.phase.Finalized? && PendingSplitEndedAtBoundary(w.mem.c, w.phase.r)
    ensures var mem := w.mem.(c := w.mem.c.(split := NO_SPLIT));
            WorldInv(w.(mem := mem, durable := mem, phase := Done(AtBoundary)), final, whole)
  {
  }

  lemma NextPartKeeps(w: World, cfg: Config, final: int, whole: bool)
    requires WorldInv(w, final, whole) && Enabled(w, NextPart, final)
    ensures WorldInv(Do(w, NextPart, cfg), final, whole)
  {
    var c, r := w.mem.c, w.phase.r;
    if PendingSplitEndedAtBoundary(c, r) { ClearKeeps(w, final, whole); }
    else {
      match CapDecision(cfg, c)
      case CapExceeded => FailKeeps(w, final, whole);
      case NoSplit => DoneKeeps(w, final, whole);
      case OpenNext => ContinueKeeps(w, final, whole);
    }
  }

  lemma FetchStepKeeps(w: World, a: Action, cfg: Config, final: int, whole: bool)
    requires WorldInv(w, final, whole) && Enabled(w, a, final) && Safe(w, a, whole) && w.phase.Fetch? && !a.Crash?
    ensures WorldInv(Do(w, a, cfg), final, whole)
  {
    match a
    case Poll(head) => PollKeeps(w, head, cfg, final, whole);
    case FirstPoll(base) => FirstPollKeeps(w, base, cfg, final, whole);
    case RollBeforeFirstPoll(to) => RollBeforeFirstPollKeeps(w, to, cfg, final, whole);
    case RetryBeforeFirstPoll => RetryKeeps(w, cfg, final, whole);
    case Callback(e, save) => CallbackKeeps(w, e, save, cfg, final, whole);
    case WriteFile(s) => FileKeeps(w, s, cfg, final, whole);
    case Save => SaveKeeps(w, cfg, final, whole);
    case Attempt(r, retry) => AttemptKeeps(w, r, retry, cfg, final, whole);
  }

  lemma LaterStepKeeps(w: World, a: Action, cfg: Config, final: int, whole: bool)
    requires WorldInv(w, final, whole) && Enabled(w, a, final) && Safe(w, a, whole) && (!w.phase.Fetch? || a.Crash?)
    ensures WorldInv(Do(w, a, cfg), final, whole)
  {
    match a
    case Judge => JudgeKeeps(w, cfg, final, whole);
    case EnterStage(stage) => StageKeeps(w, stage, cfg, final, whole);
    case Finalize => FinalizeKeeps(w, cfg, final, whole);
    case NextPart => NextPartKeeps(w, cfg, final, whole);
    case Crash(j) => CrashKeeps(w, j, final, whole);
  }

  /** Every safe step of the machine keeps the invariant. */
  lemma StepKeeps(w: World, a: Action, cfg: Config, final: int, whole: bool)
    requires WorldInv(w, final, whole) && Enabled(w, a, final) && Safe(w, a, whole)
    ensures WorldInv(Do(w, a, cfg), final, whole)
  {
    if w.phase.Fetch? && !a.Crash? { FetchStepKeeps(w, a, cfg, final, whole); }
    else { LaterStepKeeps(w, a, cfg, final, whole); }
  }
}
