/** The outer loop that records part after part, as a machine over an abstract environment: any
    worker order, any playlist, and a crash after any checkpoint. Its runs split only at the
    size and duration ceilings. */
module PartLoop {
  import opened Prelude
  import opened Ledgers
  import opened Checkpoints
  import opened Accountants
  import opened PartGuards
  import opened ExactGaps
  import opened Fetching

  const MAX_DISCONTINUITY_PARTS := 32
  const DEFAULT_MAX_THRESHOLD_PARTS := 1024

  function ThresholdPartCap(configured: int): int {
    if configured <= 0 then DEFAULT_MAX_THRESHOLD_PARTS else configured
  }

  datatype Config = Config(lim: Limits, maxPartCount: int)

  /** A finalized part: its recorded interval, the segment files it was built from, its gaps. */
  datatype Row = Row(start: int, end: int, files: set<int>, gaps: seq<Gap>)

  /** How a run ended: its last part had no media and no row, or was finalized as it was, or was
      finalized with the broadcast ending at its sealed boundary. */
  datatype Ending = EmptyPart | LastPart | AtBoundary

  datatype Phase =
    | Fetch
    | Fetched(r: JobResult)
    | Running(r: JobResult)
    | Finalized(r: JobResult)
    | Done(end: Ending)
    | Failed

  /** mem is the in-memory checkpoint, durable the last one written; both carry their ghost media.
      head is the first sequence of the first playlist that the current attempt has seen. files are
      the segments in the current part's directory, which a crash leaves alone. */
  datatype World = World(
    mem: Part,
    fetch: Fetch,
    head: Option<int>,
    phase: Phase,
    durable: Part,
    files: set<int>,
    rows: seq<Row>)

  datatype Action =
    | Poll(head: int)
    | FirstPoll(base: int)
    | RollBeforeFirstPoll(to: int)
    | RetryBeforeFirstPoll
    | Callback(e: Event, save: bool)
    | WriteFile(s: int)
    | Save
    | Attempt(run: RunResult, retry: bool)
    | Judge
    | EnterStage(stage: Stage)
    | Finalize
    | NextPart
    | Crash(j: Saved)

  // ---------- what may happen ----------

  /** The poller hands out what its playlist serves at or past its start, or was asked to fetch again. */
  predicate HandsOut(w: World, s: int) {
    w.head.Some? && s >= w.head.value && (s >= w.fetch.startSeq || s in w.fetch.refetch)
  }

  /** Whether the environment and the code allow the action. `final` is the last sequence the
      broadcast ever publishes. Once the poller has a playlist, workers write files, before the part
      has an anchor as after; a playlist that has rolled past the start reports that first. */
  ghost predicate Enabled(w: World, a: Action, final: int) {
    var c, l := w.mem.c, w.mem.c.ledger;
    match a
    case Poll(head) => w.phase.Fetch? && w.head.None? && head >= 0
    case FirstPoll(base) => w.phase.Fetch? && !l.started && w.head == Some(base)
    case RollBeforeFirstPoll(to) =>
      w.phase.Fetch? && !l.started && l.gaps == [] && w.head == Some(to + 1) && 1 <= w.fetch.startSeq <= to
    case RetryBeforeFirstPoll => w.phase.Fetch? && !l.started && l.gaps == []
    case Callback(e, _) =>
      && w.phase.Fetch? && l.started && w.head.Some?
      && (forall s <- EventSeqs(e) :: s <= final) && (forall s <- FilesOf(e) :: HandsOut(w, s))
    case WriteFile(s) => w.phase.Fetch? && HandsOut(w, s) && s <= final
    case Save => w.phase.Fetch?
    case Attempt(r, retry) =>
      && w.phase.Fetch? && l.started && (Reports(w.fetch, r) || Silent(w.fetch, r))
      && (forall s <- r.canceledSeqs + r.authErrorSeqs :: HandsOut(w, s))
      && (retry ==> !c.split.boundarySet && !r.endList)
      && (r.endList ==> final < w.fetch.startSeq || final <= r.lastMediaSeq)
    case Judge => w.phase.Fetched? && l.started
    case EnterStage(stage) => w.phase.Running? && stage.AtOrAfter(PrepareInput)
    case Finalize => w.phase.Running? && c.stage.AtOrAfter(PrepareInput)
    case NextPart => w.phase.Finalized?
    case Crash(j) => !w.phase.Failed? && Saves(w.durable.c, j)
  }

  // ---------- what it does ----------

  function SetStage(p: Part, stage: Stage): Part { p.(c := p.c.(stage := stage)) }

  /** A checkpoint without an anchor that finds segment 0 in its directory. */
  predicate FindsSeqZero(c: Checkpoint, files: set<int>) {
    var l := c.ledger;
    && !l.started && c.stage == Segments && l.partStart == 0 && l.frontier == 0 && l.buffered == {} && l.gaps == []
    && 0 in files
  }

  /** Segment 0 makes the part one that started there; nothing is counted for it. */
  function RecoverSeqZero(w: World): World {
    if !FindsSeqZero(w.mem.c, w.files) then w
    else
      var mem := Part(w.mem.c.(ledger := w.mem.c.ledger.(started := true)), map[0 := NO_MEDIA]);
      w.(mem := mem, durable := mem)
  }

  /** Skip the fetch of a part whose split or finalization is checkpointed. */
  function BeginFetch(w: World): World {
    if ShouldSkipSegmentFetch(w.mem.c) then w.(head := None, phase := Fetched(SynthesizeResult(w.mem.c)))
    else
      var mem := SetStage(w.mem, Segments);
      w.(mem := mem, durable := mem, fetch := NewFetch(mem.c), head := None, phase := Phase.Fetch)
  }

  /** The top of the loop. */
  function EnterLoop(w: World): World { BeginFetch(RecoverSeqZero(w)) }

  /** The first thing a process does with a checkpoint, the files and the rows it finds. */
  function Resumed(p: Part, files: set<int>, rows: seq<Row>): World {
    EnterLoop(World(p, NewFetch(p.c), None, Phase.Fetch, p, files, rows))
  }

  function Boot(): World { Resumed(Part(NEW_CHECKPOINT, map[]), {}, []) }

  function FinalRow(w: World, r: JobResult): Row {
    var c := w.mem.c;
    var start := if 0 < c.partIndex == |w.rows| then w.rows[c.partIndex - 1].start else c.ledger.partStart;
    Row(start, PartEndMediaSeq(r, c), w.files, c.ledger.gaps)
  }

  /** The row of part n, replacing the one an earlier process may have written for it. */
  function StoreRow(rows: seq<Row>, n: int, row: Row): seq<Row> {
    if 0 < n == |rows| then rows[n - 1 := row] else rows + [row]
  }

  function CapDecision(cfg: Config, c: Checkpoint): OpenDecision {
    ShouldOpenNextPart(c, MAX_DISCONTINUITY_PARTS, ThresholdPartCap(cfg.maxPartCount))
  }

  function AfterJudge(w: World, r: JobResult, cfg: Config): World {
    var c := NoteFetched(w.mem.c, r);
    var mem := w.mem.(c := c);
    match Decide(c.partIndex - 1, r, c)
    case FinishEmpty =>
      var mem' := SetStage(mem, PrepareInput);
      w.(mem := mem', durable := mem', phase := Done(EmptyPart))
    case ReanchorEmpty =>
      // The part keeps its number and its directory; what it had committed is forgotten.
      if CapDecision(cfg, c) != OpenNext then w.(phase := Failed)
      else
        var mem' := Part(ReanchorCurrentPart(c), map[]);
        EnterLoop(w.(mem := mem', durable := mem'))
    case FailEmpty => w.(phase := Failed)
    case RunPart =>
      w.(mem := mem,
         durable := if c != w.mem.c then mem else w.durable,
         files := if c.split.Sealed() then (set s | s in w.files && s <= c.split.boundary) else w.files,
         phase := Running(r))
  }

  function AfterFinalized(w: World, r: JobResult, cfg: Config): World {
    var c := w.mem.c;
    if PendingSplitEndedAtBoundary(c, r) then
      var mem := w.mem.(c := c.(split := NO_SPLIT));
      w.(mem := mem, durable := mem, phase := Done(AtBoundary))
    else
      match CapDecision(cfg, c)
      case CapExceeded => w.(phase := Failed)
      case NoSplit => w.(phase := Done(LastPart))
      case OpenNext =>
        var mem := Part(ContinuePart(c), map[]);
        EnterLoop(w.(mem := mem, durable := mem, files := {}))
  }

  function Do(w: World, a: Action, cfg: Config): World {
    match a
    case Poll(head) => w.(head := Some(head))
    case FirstPoll(base) =>
      // The first poll anchors the part at the playlist's base; the poller still starts no earlier
      // than it was told to.
      var mem := Part(StartPart(w.mem.c, base), map[]);
      w.(mem := mem, durable := mem,
         fetch := w.fetch.(startSeq := if w.fetch.startSeq < base then base else w.fetch.startSeq))
    case RollBeforeFirstPoll(to) =>
      var mem := Apply(w.mem, Rolled(w.fetch.startSeq, to), cfg.lim);
      w.(mem := mem, durable := mem)
    case RetryBeforeFirstPoll => w.(fetch := w.fetch.(startSeq := 1), head := None)
    case Callback(e, save) =>
      var mem := Apply(w.mem, e, cfg.lim);
      var sealed := mem.c.split.boundarySet && !w.mem.c.split.boundarySet;
      w.(mem := mem, durable := if save || sealed then mem else w.durable,
         fetch := Report(w.fetch, e), files := w.files + FilesOf(e))
    case WriteFile(s) => w.(files := w.files + {s})
    case Save => w.(durable := w.mem)
    case Attempt(r, retry) =>
      var f := EndAttempt(w.fetch, r, w.mem.c.ledger);
      var result := JobResult(f.agg.segmentsDone, f.agg.segmentsGaps, f.agg.lastMediaSeq, f.agg.endList);
      w.(fetch := f, head := None, durable := w.mem, phase := if retry then Phase.Fetch else Fetched(result))
    case Judge => if w.phase.Fetched? then AfterJudge(w, w.phase.r, cfg) else w
    case EnterStage(stage) =>
      var mem := SetStage(w.mem, stage);
      w.(mem := mem, durable := mem)
    case Finalize =>
      if !w.phase.Running? then w else
        w.(rows := StoreRow(w.rows, w.mem.c.partIndex, FinalRow(w, w.phase.r)), phase := Finalized(w.phase.r))
    case NextPart => if w.phase.Finalized? then AfterFinalized(w, w.phase.r, cfg) else w
    case Crash(j) => EnterLoop(w.(mem := Part(Load(j), w.durable.media)))
  }

  // ---------- what must not happen for the promises to hold ----------

  /** The windows the code leaves open, each as a condition that can be read off before the step:
      no playlist that serves sequences below the part to a poller that was started below it; no first
      poll above a file that an earlier attempt left; no reload of a part that a roll reached before its
      anchor; after the first part, no callback that counts a sequence twice. For ENDLIST to be
      believed, too, no first poll below the sequence asked for, and no silent attempt that was to
      fetch 0. */
  predicate Safe(w: World, a: Action, whole: bool) {
    var l := w.mem.c.ledger;
    match a
    case Poll(head) => l.started ==> w.fetch.startSeq >= l.partStart || head >= l.partStart
    case FirstPoll(base) => (forall s <- w.files :: base <= s) && (whole ==> base >= w.fetch.startSeq)
    case Callback(e, _) => w.mem.c.partIndex > 1 ==> CleanEvent(w.mem, e)
    case Attempt(r, _) => whole && Silent(w.fetch, r) ==> w.fetch.startSeq >= 1 || ShouldSkip(l, 0)
    case Crash(_) => w.durable.c.ledger.started || w.durable.c.ledger.gaps == []
    case _ => true
  }

  // ---------- runs ----------

  function Run(w: World, actions: seq<Action>, cfg: Config): World {
    if actions == [] then w
    else Do(Run(w, actions[..|actions| - 1], cfg), actions[|actions| - 1], cfg)
  }

  ghost predicate Possible(w: World, actions: seq<Action>, cfg: Config, final: int) {
    actions != [] ==>
      && Possible(w, actions[..|actions| - 1], cfg, final)
      && Enabled(Run(w, actions[..|actions| - 1], cfg), actions[|actions| - 1], final)
  }

  predicate SafeRun(w: World, actions: seq<Action>, cfg: Config, whole: bool) {
    actions != [] ==>
      && SafeRun(w, actions[..|actions| - 1], cfg, whole)
      && Safe(Run(w, actions[..|actions| - 1], cfg), actions[|actions| - 1], whole)
  }
}
