/** What safe runs of the part loop produce: no part built from nothing, an end when ENDLIST is seen, no
    more parts than configured, and checkpoints that say what the process knows. */
module PartProgress {
  import opened Prelude
  import opened Ledgers
  import opened LedgerFacts
  import opened Checkpoints
  import opened Accountants
  import opened PartGuards
  import opened ExactGaps
  import opened Fetching
  import opened PartLoop
  import opened PartLoopFacts
  import opened PartLoopKeeps
  import opened PartRuns
  import PartTurns

  // ---------- no part is built from nothing ----------

  /** The run has ended with an empty later part, and the disk says so. */
  predicate FinishedEmpty(w: World) {
    && w.phase == Done(EmptyPart) && w.durable == w.mem && w.mem.c.partIndex > 1 && w.mem.media == map[]
    && ShouldSkipSegmentFetch(w.mem.c) && w.mem.c.endListSeen && !w.mem.c.split.Sealed()
  }

  /** A later part that holds no media, after a fetch that counted nothing done, is never built: the loop
      finishes if the fetch saw ENDLIST and fails if it did not. */
  lemma EmptyPartNeverRuns(w: World, cfg: Config, final: int, whole: bool)
    requires WorldInv(w, final, whole) && w.phase.Fetched? && w.mem.c.partIndex > 1
    requires w.mem.media == map[] && w.phase.r.segmentsDone <= 0
    ensures var w' := Do(w, Judge, cfg);
            && (w'.phase == Done(EmptyPart) <==> w.phase.r.endList)
            && (w'.phase == Failed <==> !w.phase.r.endList)
            && (w.phase.r.endList ==> FinishedEmpty(w'))
            && w'.rows == w.rows
  {
    var c := NoteFetched(w.mem.c, w.phase.r);
    EmptyPartVerdict(c, w.mem.media, w.phase.r, c.partIndex - 1);
    VerdictMeaning(w.mem, w.phase.r, final);
  }

  /** And it stays finished: a process that dies then judges the part the same way when it comes back. */
  lemma FinishedStaysFinished(w: World, j: Saved, cfg: Config, final: int, whole: bool)
    requires WorldInv(w, final, whole) && FinishedEmpty(w) && Saves(w.durable.c, j)
    ensures FinishedEmpty(Do(Do(w, Crash(j), cfg), Judge, cfg))
  {
    ResumedEmpty(w, j, cfg, final, whole);
    CrashKeeps(w, j, final, whole);
    EmptyPartNeverRuns(Do(w, Crash(j), cfg), cfg, final, whole);
  }

  lemma ResumedEmpty(w: World, j: Saved, cfg: Config, final: int, whole: bool)
    requires WorldInv(w, final, whole) && FinishedEmpty(w) && Saves(w.durable.c, j)
    ensures var w' := Do(w, Crash(j), cfg);
            && w'.mem == w.mem && w'.phase.Fetched? && w'.phase.r.endList && w'.phase.r.segmentsDone <= 0
  {
    CrashKeeps(w, j, final, whole);
    SynthesizedDone(w.mem.c, w.mem.media);
    assert CommittedSeqs(w.mem.media, w.mem.c.ledger.partStart, PartEnd(w.mem.c)) == {};
  }

  /** An attempt counts a segment done only when it has written one. */
  predicate CountsWritten(w: World, a: Action) { a.Attempt? && a.run.segmentsDone > 0 ==> w.files != {} }

  predicate CountingRun(w: World, actions: seq<Action>, cfg: Config) {
    actions != [] ==>
      && CountingRun(w, actions[..|actions| - 1], cfg)
      && CountsWritten(Run(w, actions[..|actions| - 1], cfg), actions[|actions| - 1])
  }

  predicate LaterRowsFilled(rows: seq<Row>) { forall i | 1 <= i < |rows| :: rows[i].files != {} }

  predicate PhaseFilled(w: World) {
    match w.phase
    case Fetched(r) => r.segmentsDone > 0 ==> w.files != {}
    case Running(r) => w.mem.c.partIndex > 1 ==> w.files != {}
    case _ => true
  }

  predicate Filled(w: World) { LaterRowsFilled(w.rows) && PhaseFilled(w) }

  /** What a skipped fetch counts done is on disk. */
  lemma SkippedIsOnDisk(p: Part, files: set<int>, final: int, whole: bool)
    requires Held(p, files, final, whole) && ShouldSkipSegmentFetch(p.c)
    ensures SynthesizeResult(p.c).segmentsDone > 0 ==> files != {}
  {
    SynthesizedDone(p.c, p.media);
    if files == {} { assert CommittedSeqs(p.media, p.c.ledger.partStart, PartEnd(p.c)) == {}; }
  }

  lemma BeginFetchFills(w: World, final: int, whole: bool)
    requires Held(w.mem, w.files, final, whole) && LaterRowsFilled(w.rows)
    ensures Filled(BeginFetch(w))
  {
    if ShouldSkipSegmentFetch(w.mem.c) { SkippedIsOnDisk(w.mem, w.files, final, whole); }
  }

  lemma EnterLoopFills(w: World, final: int, whole: bool)
    requires Enterable(w, final, whole) && LaterRowsFilled(w.rows)
    ensures Filled(EnterLoop(w))
  {
    RecoverKeeps(w, final, whole);
    BeginFetchFills(RecoverSeqZero(w), final, whole);
  }

  lemma LeftUnanchoredFills(p: Part, files: set<int>, final: int)
    requires LeftUnanchored(p, files, final)
    ensures Filled(Resumed(p, files, []))
  {
    EnterLoopFills(World(p, NewFetch(p.c), None, Phase.Fetch, p, files, []), final, false);
  }

  lemma LegacyFills(p: Part, files: set<int>, rows: seq<Row>, final: int)
    requires Legacy(p, files, rows, final) && LaterRowsFilled(rows)
    ensures Filled(Resumed(p, files, rows))
  {
    EnterLoopFills(World(p, NewFetch(p.c), None, Phase.Fetch, p, files, rows), final, false);
  }

  lemma RowsAtStart(p: Part, files: set<int>, rows: seq<Row>)
    ensures Resumed(p, files, rows).rows == rows
  {
  }

  lemma StartsFill(w: World, final: int)
    requires Starts(w, final) && LaterRowsFilled(w.rows)
    ensures Filled(w)
  {
    if w == Boot() {
      LeftUnanchoredFills(Part(NEW_CHECKPOINT, map[]), {}, final);
    } else if exists p, files :: LeftUnanchored(p, files, final) && w == Resumed(p, files, []) {
      var p, files :| LeftUnanchored(p, files, final) && w == Resumed(p, files, []);
      LeftUnanchoredFills(p, files, final);
    } else {
      var p, files, rows :| Legacy(p, files, rows, final) && w == Resumed(p, files, rows);
      RowsAtStart(p, files, rows);
      LegacyFills(p, files, rows, final);
    }
  }

  lemma JudgeFills(w: World, cfg: Config, final: int)
    requires WorldInv(w, final, false) && w.phase.Fetched? && Filled(w)
    ensures Filled(Do(w, Judge, cfg))
  {
    var r := w.phase.r;
    var c := NoteFetched(w.mem.c, r);
    VerdictMeaning(w.mem, r, final);
    if Decide(c.partIndex - 1, r, c) == RunPart && c.partIndex > 1 { RunPartFills(w, r, c); }
  }

  lemma RunPartFills(w: World, r: JobResult, c: Checkpoint)
    requires PartInv(w.mem) && Funded(w.mem) && w.mem.media.Keys <= w.files
    requires r.segmentsDone > 0 ==> w.files != {}
    requires c == NoteFetched(w.mem.c, r) && c.partIndex > 1 && Decide(c.partIndex - 1, r, c) == RunPart
    ensures (if c.split.Sealed() then (set s | s in w.files && s <= c.split.boundary) else w.files) != {}
  {
    if w.mem.media == map[] {
      SealedHoldsMedia(w.mem);
      if r.segmentsDone <= 0 { EmptyPartVerdict(c, w.mem.media, r, c.partIndex - 1); }
    } else {
      HasMember(w.mem.media.Keys);
      var s :| s in w.mem.media;
      assert s in (if c.split.Sealed() then (set t | t in w.files && t <= c.split.boundary) else w.files);
    }
  }

  lemma SealedHoldsMedia(p: Part)
    requires Funded(p)
    ensures p.c.split.boundarySet ==> p.media != map[]
  {
  }

  lemma FinalizeFills(w: World, cfg: Config, final: int)
    requires WorldInv(w, final, false) && Enabled(w, Finalize, final) && Filled(w)
    ensures Filled(Do(w, Finalize, cfg))
  {
    var n, row := w.mem.c.partIndex, FinalRow(w, w.phase.r);
    StoreRowShape(w.rows, n, row);
    var rows := StoreRow(w.rows, n, row);
    forall i | 1 <= i < |rows| ensures rows[i].files != {} {
      if i < n - 1 { assert rows[i] == rows[..n - 1][i] == w.rows[..n - 1][i]; }
    }
  }

  lemma NextPartFills(w: World, cfg: Config, final: int)
    requires WorldInv(w, final, false) && w.phase.Finalized? && Filled(w)
    ensures Filled(Do(w, NextPart, cfg))
  {
    if Do(w, NextPart, cfg).phase.Fetched? { NextPartFetches(w, cfg, final, false); }
  }

  /** A part that is opened next is fetched, not judged at once. */
  lemma NextPartFetches(w: World, cfg: Config, final: int, whole: bool)
    requires WorldInv(w, final, whole) && w.phase.Finalized?
    ensures !Do(w, NextPart, cfg).phase.Fetched? && !Do(w, NextPart, cfg).phase.Running?
  {
  }

  lemma CrashFills(w: World, j: Saved, cfg: Config, final: int)
    requires WorldInv(w, final, false) && Saves(w.durable.c, j) && Safe(w, Crash(j), false) && Filled(w)
    ensures Filled(Do(w, Crash(j), cfg))
  {
    CrashKeeps(w, j, final, false);
    EnterLoopFills(w.(mem := w.durable), final, false);
  }

  lemma StepFills(w: World, a: Action, cfg: Config, final: int)
    requires WorldInv(w, final, false) && Enabled(w, a, final) && Safe(w, a, false) && CountsWritten(w, a) && Filled(w)
    ensures Filled(Do(w, a, cfg))
  {
    match a
    case Judge => JudgeFills(w, cfg, final);
    case Finalize => FinalizeFills(w, cfg, final);
    case NextPart => NextPartFills(w, cfg, final);
    case Crash(j) => CrashFills(w, j, cfg, final);
    case _ =>
  }

  /** In a safe run whose attempts count only what they have written, every row past the first is built from
      at least one segment file. */
  lemma {:induction false} RowsHoldFiles(w: World, actions: seq<Action>, cfg: Config, final: int)
    requires Starts(w, final) && LaterRowsFilled(w.rows)
    requires Possible(w, actions, cfg, final) && SafeRun(w, actions, cfg, false) && CountingRun(w, actions, cfg)
    ensures Filled(Run(w, actions, cfg))
    decreases |actions|
  {
    if actions == [] { StartsFill(w, final); }
    else {
      var k := |actions| - 1;
      RowsHoldFiles(w, actions[..k], cfg, final);
      StartsInv(w, final, false);
      RunKeepsInv(w, actions[..k], cfg, final, false);
      StepFills(Run(w, actions[..k], cfg), actions[k], cfg, final);
    }
  }

  // ---------- ENDLIST ends the run ----------

  /** A part that is built after all: a stage, its row, and the decision about the next part. */
  function Finished(w: World, cfg: Config): World {
    Do(Do(Do(Do(w, Judge, cfg), EnterStage(PrepareInput), cfg), Finalize, cfg), NextPart, cfg)
  }

  /** A built part ends the run at its sealed boundary if and only if the fetch saw ENDLIST with no sequence
      past the boundary. Without a split it ends the run in any case, and the recording counts as ended if
      and only if ENDLIST was seen by then. */
  lemma FinishExact(w: World, cfg: Config, final: int)
    requires WorldInv(w, final, true) && w.phase.Fetched? && Do(w, Judge, cfg).phase.Running?
    ensures var c, r, w' := w.mem.c, w.phase.r, Finished(w, cfg);
            && (c.split.pending ==>
                  (w'.phase == Done(AtBoundary) <==> r.endList && r.lastMediaSeq <= c.split.boundary))
            && (w'.phase == Done(AtBoundary) ==> w'.mem.c.endListSeen && w'.mem.c.split == NO_SPLIT)
            && (!c.split.pending ==>
                  w'.phase == Done(LastPart) && (w'.mem.c.endListSeen <==> c.endListSeen || r.endList))
  {
    BuiltShape(w, cfg, final);
    var w3 := Do(Do(Do(w, Judge, cfg), EnterStage(PrepareInput), cfg), Finalize, cfg);
    DecideEnd(w3.mem.c, w.phase.r);
  }

  /** What building a part makes of what the fetch reported. */
  lemma BuiltShape(w: World, cfg: Config, final: int)
    requires WorldInv(w, final, true) && w.phase.Fetched? && Do(w, Judge, cfg).phase.Running?
    ensures var c, r := w.mem.c, w.phase.r;
            var w3 := Do(Do(Do(w, Judge, cfg), EnterStage(PrepareInput), cfg), Finalize, cfg);
            var c3 := w3.mem.c;
            && w3.phase == Finalized(r)
            && c3.split.pending == c.split.pending && (c3.split.pending ==> c3.split.Sealed())
            && c3.split.boundary == c.split.boundary
            && (c3.endListSeen <==>
                  c.endListSeen || (r.endList && (c.split.pending ==> r.lastMediaSeq <= c.split.boundary)))
            && (c.split.pending ==>
                  (c3.split.endListAtBoundary <==> r.endList && r.lastMediaSeq <= c.split.boundary))
  {
  }

  lemma DecideEnd(c: Checkpoint, r: JobResult)
    requires c.split.pending ==> c.split.Sealed()
    requires c.split.pending ==> (c.split.endListAtBoundary <==> r.endList && r.lastMediaSeq <= c.split.boundary)
    requires c.split.pending && c.split.endListAtBoundary ==> c.endListSeen
    ensures PendingSplitEndedAtBoundary(c, r) <==> c.split.pending && r.endList && r.lastMediaSeq <= c.split.boundary
  {
  }

  // ---------- no more parts than configured ----------

  /** The most parts a run of threshold splits may open: what is configured, or 1024. */
  function PartCap(cfg: Config): int { if cfg.maxPartCount <= 0 then 1024 else cfg.maxPartCount }

  /** The loop refuses another part if and only if its split's own cap is spent: the configured number of parts
      for a threshold split, 32 parts and re-anchors together for any other. */
  lemma CapDecisionExact(cfg: Config, c: Checkpoint)
    ensures CapDecision(cfg, c) == CapExceeded <==>
            c.split.pending
            && if c.split.threshold then c.partIndex >= PartCap(cfg) else c.partIndex + c.reanchors >= 32
  {
  }

  /** A built part with a split that is not the end fails the run if and only if it was the last one allowed. */
  lemma CapExact(w: World, cfg: Config, final: int)
    requires WorldInv(w, final, true) && w.phase.Finalized?
    ensures Do(w, NextPart, cfg).phase == Failed <==>
            w.mem.c.split.pending && !w.mem.c.split.endListAtBoundary && w.mem.c.partIndex >= PartCap(cfg)
  {
  }

  lemma CallbackKeepsIndex(p: Part, e: Event, lim: Limits)
    ensures Apply(p, e, lim).c.partIndex == p.c.partIndex
  {
    ApplyShape(p, e, lim);
  }

  lemma JudgeKeepsIndex(w: World, cfg: Config)
    requires w.phase.Fetched?
    ensures Do(w, Judge, cfg).mem.c.partIndex == w.mem.c.partIndex
  {
  }

  lemma NextPartWithinCap(w: World, cfg: Config, final: int, whole: bool)
    requires WorldInv(w, final, whole) && w.phase.Finalized?
    ensures var n, n' := w.mem.c.partIndex, Do(w, NextPart, cfg).mem.c.partIndex;
            n' == n || n' == n + 1 <= PartCap(cfg)
  {
  }

  lemma StepWithinCap(w: World, a: Action, cfg: Config, final: int, n: int)
    requires WorldInv(w, final, false) && Enabled(w, a, final) && Safe(w, a, false)
    requires w.mem.c.partIndex <= n && PartCap(cfg) <= n
    ensures Do(w, a, cfg).mem.c.partIndex <= n
  {
    match a
    case RollBeforeFirstPoll(to) => CallbackKeepsIndex(w.mem, Rolled(w.fetch.startSeq, to), cfg.lim);
    case Callback(e, _) => CallbackKeepsIndex(w.mem, e, cfg.lim);
    case Judge => JudgeKeepsIndex(w, cfg);
    case NextPart => NextPartWithinCap(w, cfg, final, false);
    case Crash(j) =>
    case _ =>
  }

  lemma {:induction false} RunWithinCap(w: World, actions: seq<Action>, cfg: Config, final: int, n: int)
    requires WorldInv(w, final, false) && Possible(w, actions, cfg, final) && SafeRun(w, actions, cfg, false)
    requires w.mem.c.partIndex <= n && PartCap(cfg) <= n
    ensures Run(w, actions, cfg).mem.c.partIndex <= n
    decreases |actions|
  {
    if actions != [] {
      var k := |actions| - 1;
      RunWithinCap(w, actions[..k], cfg, final, n);
      RunKeepsInv(w, actions[..k], cfg, final, false);
      StepWithinCap(Run(w, actions[..k], cfg), actions[k], cfg, final, n);
    }
  }

  /** A recording has no more parts than its cap allows, however often the process dies. */
  lemma PartsAreCapped(actions: seq<Action>, cfg: Config, final: int)
    requires Possible(Boot(), actions, cfg, final) && SafeRun(Boot(), actions, cfg, false)
    ensures |Run(Boot(), actions, cfg).rows| <= PartCap(cfg)
  {
    StartsInv(Boot(), final, false);
    RunWithinCap(Boot(), actions, cfg, final, PartCap(cfg));
    RunKeepsInv(Boot(), actions, cfg, final, false);
  }

  // ---------- past the fetch, the disk knows what the process knows ----------

  predicate OnDisk(w: World) { w.phase.Fetch? || w.durable == w.mem }

  lemma EnterLoopSaves(w: World)
    requires w.durable == w.mem
    ensures EnterLoop(w).durable == EnterLoop(w).mem
  {
  }

  lemma CrashSaves(w: World, j: Saved, cfg: Config, final: int, whole: bool)
    requires WorldInv(w, final, whole) && Saves(w.durable.c, j) && Safe(w, Crash(j), whole)
    ensures Do(w, Crash(j), cfg) == EnterLoop(w.(mem := w.durable)) && OnDisk(Do(w, Crash(j), cfg))
  {
    CrashKeeps(w, j, final, whole);
    EnterLoopSaves(w.(mem := w.durable));
  }

  lemma StepSaves(w: World, a: Action, cfg: Config, final: int, whole: bool)
    requires WorldInv(w, final, whole) && Enabled(w, a, final) && Safe(w, a, whole) && OnDisk(w)
    ensures OnDisk(Do(w, a, cfg))
  {
    match a
    case Crash(j) => CrashSaves(w, j, cfg, final, whole);
    case _ =>
  }

  lemma StartIsOnDisk(w: World, final: int)
    requires Starts(w, final)
    ensures OnDisk(w)
  {
    if w == Boot() {
    } else if exists p, files :: LeftUnanchored(p, files, final) && w == Resumed(p, files, []) {
      var p, files :| LeftUnanchored(p, files, final) && w == Resumed(p, files, []);
      EnterLoopSaves(World(p, NewFetch(p.c), None, Phase.Fetch, p, files, []));
    } else {
      var p, files, rows :| Legacy(p, files, rows, final) && w == Resumed(p, files, rows);
      EnterLoopSaves(World(p, NewFetch(p.c), None, Phase.Fetch, p, files, rows));
    }
  }

  lemma {:induction false} RunSaves(w: World, actions: seq<Action>, cfg: Config, final: int)
    requires Starts(w, final) && Possible(w, actions, cfg, final) && SafeRun(w, actions, cfg, false)
    ensures OnDisk(Run(w, actions, cfg))
    decreases |actions|
  {
    if actions == [] { StartIsOnDisk(w, final); }
    else {
      var k := |actions| - 1;
      RunSaves(w, actions[..k], cfg, final);
      StartsInv(w, final, false);
      RunKeepsInv(w, actions[..k], cfg, final, false);
      StepSaves(Run(w, actions[..k], cfg), actions[k], cfg, final, false);
    }
  }

  /** A crash of a safe run that is past its fetch loses nothing: the next process starts from the very
      part, at the stage it had reached or back in its fetch. */
  lemma CrashPastFetchLosesNothing(w: World, actions: seq<Action>, j: Saved, cfg: Config, final: int)
    requires Starts(w, final) && Possible(w, actions, cfg, final) && SafeRun(w, actions, cfg, false)
    requires var v := Run(w, actions, cfg); !v.phase.Fetch? && !v.phase.Failed? && Saves(v.durable.c, j)
    ensures var v := Run(w, actions, cfg);
            var v' := Do(v, Crash(j), cfg);
            && SetStage(v'.mem, v.mem.c.stage) == v.mem && v'.durable == v'.mem
            && v'.files == v.files && v'.rows == v.rows
            && (v'.phase.Fetch? <==> !ShouldSkipSegmentFetch(v.mem.c))
  {
    StartsInv(w, final, false);
    RunKeepsInv(w, actions, cfg, final, false);
    RunSaves(w, actions, cfg, final);
    var v := Run(w, actions, cfg);
    CrashSaves(v, j, cfg, final, false);
    ReentersLoop(v, final, false);
  }

  lemma ReentersLoop(w: World, final: int, whole: bool)
    requires WorldInv(w, final, whole) && w.durable == w.mem && !w.phase.Fetch? && !w.phase.Failed?
    ensures var w' := EnterLoop(w);
            && SetStage(w'.mem, w.mem.c.stage) == w.mem && w'.durable == w'.mem
            && w'.files == w.files && w'.rows == w.rows
            && (w'.phase.Fetch? <==> !ShouldSkipSegmentFetch(w.mem.c))
  {
  }

  /** A part's fetch is over once its split is decided or one of the later stages is reached; an unknown
      stage is taken for the first. */
  lemma FetchIsOverExact(c: Checkpoint)
    ensures ShouldSkipSegmentFetch(c) <==> c.split.pending || c.stage !in {Auth, Playlist, Segments, Unknown}
    ensures forall s: Stage, t: Stage | s.AtOrAfter(t) && t.AtOrAfter(s) :: s == t || {s, t} == {Auth, Unknown}
  {
  }

  // ---------- the variant lock and the window-roll signal ----------

  /** The variant and the re-anchor count stand as they were; every roll of a built part is signalled, in
      memory and on disk. */
  ghost predicate Carries(w: World, variant: Variant, reanchors: int, rolled: bool) {
    && w.mem.c.variant == variant && w.durable.c.variant == variant
    && w.mem.c.reanchors == reanchors && w.durable.c.reanchors == reanchors
    && w.durable.c.hadWindowRoll == w.mem.c.hadWindowRoll
    && (rolled ==> w.mem.c.hadWindowRoll)
    && (forall i | 0 <= i < |w.rows| :: PartTurns.HoldsRoll(w.rows[i].gaps) ==> w.mem.c.hadWindowRoll)
    && (w.phase.Running? || w.phase.Finalized? ==> PartTurns.HoldsRoll(w.mem.c.ledger.gaps) ==> w.mem.c.hadWindowRoll)
  }

  lemma FinalizeCarries(w: World, variant: Variant, reanchors: int, rolled: bool, cfg: Config, final: int)
    requires WorldInv(w, final, false) && Enabled(w, Finalize, final) && Carries(w, variant, reanchors, rolled)
    ensures Carries(Do(w, Finalize, cfg), variant, reanchors, rolled)
  {
    var n, row := w.mem.c.partIndex, FinalRow(w, w.phase.r);
    StoreRowShape(w.rows, n, row);
    var rows := StoreRow(w.rows, n, row);
    forall i | 0 <= i < |rows| ensures PartTurns.HoldsRoll(rows[i].gaps) ==> w.mem.c.hadWindowRoll {
      if i < n - 1 { assert rows[i] == rows[..n - 1][i] == w.rows[..n - 1][i]; }
    }
  }

  lemma CallbackCarries(p: Part, e: Event, lim: Limits)
    ensures var c := Apply(p, e, lim).c;
            c.variant == p.c.variant && c.reanchors == p.c.reanchors && c.hadWindowRoll == p.c.hadWindowRoll
  {
    ApplyShape(p, e, lim);
  }

  lemma JudgeCarries(w: World, variant: Variant, reanchors: int, rolled: bool, cfg: Config, final: int)
    requires WorldInv(w, final, false) && w.phase.Fetched? && Carries(w, variant, reanchors, rolled)
    ensures Carries(Do(w, Judge, cfg), variant, reanchors, rolled)
  {
    VerdictMeaning(w.mem, w.phase.r, final);
  }

  lemma NextPartCarries(w: World, variant: Variant, reanchors: int, rolled: bool, cfg: Config, final: int)
    requires WorldInv(w, final, false) && w.phase.Finalized? && Carries(w, variant, reanchors, rolled)
    ensures Carries(Do(w, NextPart, cfg), variant, reanchors, rolled)
  {
    NextPartFetches(w, cfg, final, false);
  }

  lemma CrashCarries(w: World, j: Saved, variant: Variant, reanchors: int, rolled: bool, cfg: Config, final: int)
    requires WorldInv(w, final, false) && Saves(w.durable.c, j) && Safe(w, Crash(j), false)
    requires Carries(w, variant, reanchors, rolled)
    ensures Carries(Do(w, Crash(j), cfg), variant, reanchors, rolled)
  {
    CrashKeeps(w, j, final, false);
  }

  lemma StepCarries(w: World, a: Action, variant: Variant, reanchors: int, rolled: bool, cfg: Config, final: int)
    requires WorldInv(w, final, false) && Enabled(w, a, final) && Safe(w, a, false)
    requires Carries(w, variant, reanchors, rolled)
    ensures Carries(Do(w, a, cfg), variant, reanchors, rolled)
  {
    match a
    case RollBeforeFirstPoll(to) => CallbackCarries(w.mem, Rolled(w.fetch.startSeq, to), cfg.lim);
    case Callback(e, _) => CallbackCarries(w.mem, e, cfg.lim);
    case Judge => JudgeCarries(w, variant, reanchors, rolled, cfg, final);
    case Finalize => FinalizeCarries(w, variant, reanchors, rolled, cfg, final);
    case NextPart => NextPartCarries(w, variant, reanchors, rolled, cfg, final);
    case Crash(j) => CrashCarries(w, j, variant, reanchors, rolled, cfg, final);
    case _ =>
  }

  /** Across any safe run of threshold splits, with crashes, the variant lock and the re-anchor count never
      change, and the window-roll signal is never lost and covers every roll of a built part. */
  lemma {:induction false} LockAndSignalSurvive(w: World, actions: seq<Action>, cfg: Config, final: int)
    requires WorldInv(w, final, false) && Possible(w, actions, cfg, final) && SafeRun(w, actions, cfg, false)
    requires Carries(w, w.mem.c.variant, w.mem.c.reanchors, w.mem.c.hadWindowRoll)
    ensures Carries(Run(w, actions, cfg), w.mem.c.variant, w.mem.c.reanchors, w.mem.c.hadWindowRoll)
    decreases |actions|
  {
    if actions != [] {
      var k := |actions| - 1;
      LockAndSignalSurvive(w, actions[..k], cfg, final);
      RunKeepsInv(w, actions[..k], cfg, final, false);
      StepCarries(Run(w, actions[..k], cfg), actions[k], w.mem.c.variant, w.mem.c.reanchors, w.mem.c.hadWindowRoll,
                  cfg, final);
    }
  }
}
