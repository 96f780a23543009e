/** The windows the part loop leaves open, each as a run from a fresh start. Every step of these
    runs is one the code and its environment can take; one step of each is not Safe. */
module LoopFailures {
  import opened Prelude
  import opened Ledgers
  import opened LedgerFacts
  import opened Checkpoints
  import opened Accountants
  import opened PartGuards
  import opened ExactGaps
  import opened Fetching
  import opened PartLoop
  import opened PartLoopFacts
  import opened PartRuns

  lemma RunOn(w: World, actions: seq<Action>, a: Action, cfg: Config, final: int)
    ensures Run(w, actions + [a], cfg) == Do(Run(w, actions, cfg), a, cfg)
    ensures Possible(w, actions + [a], cfg, final) <==>
            Possible(w, actions, cfg, final) && Enabled(Run(w, actions, cfg), a, final)
  {
    var all := actions + [a];
    assert all[..|all| - 1] == actions;
  }

  /** actions lead from w to w'. */
  ghost predicate Leads(w: World, actions: seq<Action>, w': World, cfg: Config, final: int) {
    Possible(w, actions, cfg, final) && Run(w, actions, cfg) == w'
  }

  lemma LeadsOn(w: World, actions: seq<Action>, at: World, a: Action, cfg: Config, final: int)
    requires Leads(w, actions, at, cfg, final) && Enabled(at, a, final)
    ensures Leads(w, actions + [a], Do(at, a, cfg), cfg, final)
  {
    RunOn(w, actions, a, cfg, final);
  }

  // ---------- a roll before the first poll, and a crash ----------

  const FIRST_FETCH := NEW_CHECKPOINT.(stage := Segments)

  /** Nothing fetched yet, with the next attempt to start at s. */
  function Unpolled(s: int): World {
    var p := Part(FIRST_FETCH, map[]);
    World(p, NewFetch(FIRST_FETCH).(startSeq := s), None, Phase.Fetch, p, {}, [])
  }

  lemma BootIsUnpolled()
    ensures Boot() == Unpolled(0)
  {
  }

  lemma RolledUnanchored(w: World, to: int, cfg: Config)
    requires w == Unpolled(1).(head := Some(to + 1)) && to >= 1
    ensures RecordedBeforeAnchor(Do(w, RollBeforeFirstPoll(to), cfg), to)
  {
    AdvanceSettles(WithRoll(EMPTY_LEDGER, 1, to, RestartWindowRolled), cfg.lim);
  }

  ghost predicate RecordedBeforeAnchor(w: World, to: int) {
    var l := w.mem.c.ledger;
    && w.durable == w.mem && w.mem.c == FIRST_FETCH.(ledger := l) && w.mem.media == map[]
    && l.gaps == [Gap(1, to, RestartWindowRolled)] && l.partStart == 0 && l.frontier >= 0
    && l.buffered == {} && !l.started
    && w.files == {} && w.rows == [] && w.phase.Fetch?
  }

  /** The part comes back as one that started at 0, and 0 is in no row it can end in. */
  ghost predicate ZeroLost(w: World, r: JobResult) {
    && w.phase.Fetch? && w.mem.c.ledger.started && w.mem.c.ledger.partStart == 0 <= w.mem.c.ledger.frontier
    && !NoHole(w.mem.c.ledger, w.mem.media)
    && FinalRow(w, r).start == 0 <= FinalRow(w, r).end && !Accounts(FinalRow(w, r), 0)
  }

  lemma ReloadedRoll(w: World, to: int, j: Saved, cfg: Config, r: JobResult)
    requires RecordedBeforeAnchor(w, to) && to >= 1 && Saves(w.durable.c, j)
    ensures ZeroLost(Do(w, Crash(j), cfg), r)
  {
    assert !GapCovered([Gap(1, to, RestartWindowRolled)], 0);
  }

  function ToRolled(to: int): seq<Action> { [RetryBeforeFirstPoll] + [Poll(to + 1)] + [RollBeforeFirstPoll(to)] }

  function RolledBeforeAnchor(to: int, cfg: Config): World {
    Do(Unpolled(1).(head := Some(to + 1)), RollBeforeFirstPoll(to), cfg)
  }

  /** The second attempt has a playlist, and the part has no anchor. */
  lemma ToServedRuns(head: int, cfg: Config, final: int)
    requires head >= 0
    ensures Leads(Boot(), [RetryBeforeFirstPoll] + [Poll(head)], Unpolled(1).(head := Some(head)), cfg, final)
  {
    BootIsUnpolled();
    LeadsOn(Boot(), [], Boot(), RetryBeforeFirstPoll, cfg, final);
    assert [] + [RetryBeforeFirstPoll] == [RetryBeforeFirstPoll];
    LeadsOn(Boot(), [RetryBeforeFirstPoll], Unpolled(1), Poll(head), cfg, final);
  }

  lemma ToRolledRuns(to: int, cfg: Config, final: int)
    requires to >= 1
    ensures Leads(Boot(), ToRolled(to), RolledBeforeAnchor(to, cfg), cfg, final)
  {
    ToServedRuns(to + 1, cfg, final);
    LeadsOn(Boot(), [RetryBeforeFirstPoll] + [Poll(to + 1)], Unpolled(1).(head := Some(to + 1)),
            RollBeforeFirstPoll(to), cfg, final);
  }

  lemma RollThenCrash(w: World, before: seq<Action>, to: int, j: Saved, cfg: Config, final: int, r: JobResult)
    requires Leads(Boot(), before, w, cfg, final) && RecordedBeforeAnchor(w, to) && to >= 1 && Saves(w.durable.c, j)
    ensures Possible(Boot(), before + [Crash(j)], cfg, final) && !Safe(Run(Boot(), before, cfg), Crash(j), false)
    ensures ZeroLost(Run(Boot(), before + [Crash(j)], cfg), r)
  {
    RunOn(Boot(), before, Crash(j), cfg, final);
    ReloadedRoll(w, to, j, cfg, r);
  }

  /** The 401 on the first playlist moves the start to 1, the playlist has rolled to to + 1, and the
      process dies between the two checkpoints: sequence 0 is neither a file nor a gap. */
  lemma RollBeforeAnchorLosesZero(to: int, j: Saved, cfg: Config, final: int, r: JobResult)
    requires to >= 1 && Saves(RolledBeforeAnchor(to, cfg).durable.c, j)
    ensures Possible(Boot(), ToRolled(to) + [Crash(j)], cfg, final)
    ensures !Safe(Run(Boot(), ToRolled(to), cfg), Crash(j), false)
    ensures ZeroLost(Run(Boot(), ToRolled(to) + [Crash(j)], cfg), r)
  {
    RolledUnanchored(Unpolled(1).(head := Some(to + 1)), to, cfg);
    ToRolledRuns(to, cfg, final);
    RollThenCrash(RolledBeforeAnchor(to, cfg), ToRolled(to), to, j, cfg, final, r);
  }

  // ---------- a part from its first poll to its row ----------

  const CFG := Config(LOW, 0)

  /** A part about to be fetched for the first time, after the given rows. */
  function Opened(c: Checkpoint, files: set<int>, rows: seq<Row>): World {
    World(Part(c, map[]), NewFetch(c), None, Phase.Fetch, Part(c, map[]), files, rows)
  }

  predicate Untouched(c: Checkpoint, rows: seq<Row>) {
    && c.ledger == EMPTY_LEDGER && c.split == NO_SPLIT && !c.endListSeen && c.stage == Segments
    && c.partIndex == |rows| + 1
  }

  /** One heavy segment at b, which seals the part. */
  function Heavy(c: Checkpoint, b: int): Part {
    Part(c.(ledger := FreshPart(b).(frontier := b, total := HEAVY), split := Split(true, true, b, true, false)),
         map[b := HEAVY])
  }

  function HeavyRun(b: int): RunResult { RunResult(1, 0, 0, 0, 100, "", "", b, false, [], []) }

  function HeavyFetched(before: seq<Action>, b: int): seq<Action> {
    before + [Poll(b)] + [FirstPoll(b)] + [Callback(Seen(Committed(b, HEAVY)), false)] + [Attempt(HeavyRun(b), false)]
  }

  function HeavyPart(before: seq<Action>, b: int): seq<Action> {
    HeavyFetched(before, b) + [Judge] + [EnterStage(PrepareInput)] + [Finalize]
  }

  function HeavyRow(b: int, files: set<int>): Row { Row(b, b, (set s | s in files && s <= b) + {b}, []) }

  /** Anchored at b. */
  function Polled(c: Checkpoint, b: int, files: set<int>, rows: seq<Row>): World {
    var p := Part(c.(ledger := FreshPart(b)), map[]);
    World(p, NewFetch(c).(startSeq := b), Some(b), Phase.Fetch, p, files, rows)
  }

  lemma PolledStep(c: Checkpoint, b: int, files: set<int>, rows: seq<Row>, final: int)
    requires Untouched(c, rows) && 0 <= b <= final
    ensures var w := Opened(c, files, rows);
            && Enabled(w, Poll(b), final) && Do(w, Poll(b), CFG) == w.(head := Some(b))
            && Enabled(w.(head := Some(b)), FirstPoll(b), final)
            && Do(w.(head := Some(b)), FirstPoll(b), CFG) == Polled(c, b, files, rows)
  {
  }

  lemma HeavyCommit(c: Checkpoint, b: int)
    requires c.ledger == EMPTY_LEDGER && c.split == NO_SPLIT
    ensures Apply(Part(c.(ledger := FreshPart(b)), map[]), Seen(Committed(b, HEAVY)), LOW) == Heavy(c, b)
  {
    var l := WithCommit(FreshPart(b), b, HEAVY);
    assert WithoutSingle([], b) == [];
    assert TotalAt(l, b - 1) == NO_MEDIA;
    assert TotalAt(l, b) == HEAVY;
    assert Stop(l, b - 1, LOW) == (b, true);
    var q := MoveTo(l, b);
    assert q == FreshPart(b).(frontier := b, total := HEAVY);
    assert Seal(q, b) == q by { assert TrimGaps([], b) == []; }
    assert MediaUpTo(map[][b := HEAVY], b) == map[b := HEAVY];
  }

  /** Sealed, the attempt still running. */
  function Sealing(c: Checkpoint, b: int, files: set<int>, rows: seq<Row>): World {
    World(Heavy(c, b), NewFetch(c).(startSeq := b, reported := {b}), Some(b), Phase.Fetch, Heavy(c, b), files + {b},
          rows)
  }

  lemma SealingStep(c: Checkpoint, b: int, files: set<int>, rows: seq<Row>, final: int)
    requires Untouched(c, rows) && 0 <= b <= final
    ensures Enabled(Polled(c, b, files, rows), Callback(Seen(Committed(b, HEAVY)), false), final)
    ensures Do(Polled(c, b, files, rows), Callback(Seen(Committed(b, HEAVY)), false), CFG) == Sealing(c, b, files, rows)
  {
    HeavyCommit(c, b);
  }

  function HeavyFetch(c: Checkpoint, b: int): Fetch {
    EndAttempt(NewFetch(c).(startSeq := b, reported := {b}), HeavyRun(b), Heavy(c, b).c.ledger)
  }

  function Attempted(c: Checkpoint, b: int, files: set<int>, rows: seq<Row>): World {
    World(Heavy(c, b), HeavyFetch(c, b), None, Fetched(JobResult(1, 0, b, false)), Heavy(c, b), files + {b}, rows)
  }

  lemma AttemptedStep(c: Checkpoint, b: int, files: set<int>, rows: seq<Row>, final: int)
    requires Untouched(c, rows) && 0 <= b <= final
    ensures Enabled(Sealing(c, b, files, rows), Attempt(HeavyRun(b), false), final)
    ensures Do(Sealing(c, b, files, rows), Attempt(HeavyRun(b), false), CFG) == Attempted(c, b, files, rows)
  {
  }

  function Built(c: Checkpoint, b: int, files: set<int>, rows: seq<Row>): World {
    Attempted(c, b, files, rows).(files := HeavyRow(b, files).files, phase := Running(JobResult(1, 0, b, false)))
  }

  lemma BuiltStep(c: Checkpoint, b: int, files: set<int>, rows: seq<Row>, final: int)
    requires Untouched(c, rows) && 0 <= b <= final
    ensures Enabled(Attempted(c, b, files, rows), Judge, final)
    ensures Do(Attempted(c, b, files, rows), Judge, CFG) == Built(c, b, files, rows)
  {
    var r := JobResult(1, 0, b, false);
    assert NoteFetched(Heavy(c, b).c, r) == Heavy(c, b).c;
    assert (set s | s in files + {b} && s <= b) == HeavyRow(b, files).files;
  }

  /** The row is written. */
  function Stored(c: Checkpoint, b: int, files: set<int>, rows: seq<Row>): World {
    var p := SetStage(Heavy(c, b), PrepareInput);
    World(p, HeavyFetch(c, b), None, Finalized(JobResult(1, 0, b, false)), p,
          HeavyRow(b, files).files, rows + [HeavyRow(b, files)])
  }

  lemma StoredStep(c: Checkpoint, b: int, files: set<int>, rows: seq<Row>, final: int)
    requires Untouched(c, rows)
    ensures var w := Built(c, b, files, rows);
            && Enabled(w, EnterStage(PrepareInput), final)
            && Enabled(Do(w, EnterStage(PrepareInput), CFG), Finalize, final)
            && Do(Do(w, EnterStage(PrepareInput), CFG), Finalize, CFG) == Stored(c, b, files, rows)
  {
  }

  lemma HeavyPartFetches(w: World, before: seq<Action>, c: Checkpoint, b: int, files: set<int>, rows: seq<Row>,
                         final: int)
    requires Untouched(c, rows) && 0 <= b <= final && Leads(w, before, Opened(c, files, rows), CFG, final)
    ensures Leads(w, HeavyFetched(before, b), Attempted(c, b, files, rows), CFG, final)
  {
    var w0, w1, w2 := Opened(c, files, rows), Polled(c, b, files, rows), Sealing(c, b, files, rows);
    PolledStep(c, b, files, rows, final);
    LeadsOn(w, before, w0, Poll(b), CFG, final);
    LeadsOn(w, before + [Poll(b)], w0.(head := Some(b)), FirstPoll(b), CFG, final);
    SealingStep(c, b, files, rows, final);
    var so := before + [Poll(b)] + [FirstPoll(b)];
    LeadsOn(w, so, w1, Callback(Seen(Committed(b, HEAVY)), false), CFG, final);
    AttemptedStep(c, b, files, rows, final);
    LeadsOn(w, so + [Callback(Seen(Committed(b, HEAVY)), false)], w2, Attempt(HeavyRun(b), false), CFG, final);
  }

  lemma HeavyPartRuns(w: World, before: seq<Action>, c: Checkpoint, b: int, files: set<int>, rows: seq<Row>, final: int)
    requires Untouched(c, rows) && 0 <= b <= final && Leads(w, before, Opened(c, files, rows), CFG, final)
    ensures Leads(w, HeavyPart(before, b), Stored(c, b, files, rows), CFG, final)
  {
    HeavyPartFetches(w, before, c, b, files, rows, final);
    var so, built := HeavyFetched(before, b), Built(c, b, files, rows);
    BuiltStep(c, b, files, rows, final);
    LeadsOn(w, so, Attempted(c, b, files, rows), Judge, CFG, final);
    StoredStep(c, b, files, rows, final);
    LeadsOn(w, so + [Judge], built, EnterStage(PrepareInput), CFG, final);
    LeadsOn(w, so + [Judge] + [EnterStage(PrepareInput)], Do(built, EnterStage(PrepareInput), CFG), Finalize, CFG,
            final);
  }

  // ---------- the second part ----------

  /** The checkpoint of the part after one that ended at b. */
  function SecondFetch(b: int): Checkpoint { FIRST_FETCH.(partIndex := 2, ledger := FreshPart(b + 1)) }

  function Second(b: int): World { Opened(SecondFetch(b), {}, [HeavyRow(b, {})]) }

  function ToSecond(b: int): seq<Action> { HeavyPart([], b) + [NextPart] }

  lemma NextPartStep(b: int, final: int)
    ensures Enabled(Stored(FIRST_FETCH, b, {}, []), NextPart, final)
    ensures Do(Stored(FIRST_FETCH, b, {}, []), NextPart, CFG) == Second(b)
  {
    assert [] + [HeavyRow(b, {})] == [HeavyRow(b, {})];
  }

  lemma ToSecondRuns(b: int, final: int)
    requires 0 <= b <= final
    ensures Leads(Boot(), ToSecond(b), Second(b), CFG, final)
  {
    assert Boot() == Opened(FIRST_FETCH, {}, []);
    HeavyPartRuns(Boot(), [], FIRST_FETCH, b, {}, [], final);
    NextPartStep(b, final);
    LeadsOn(Boot(), HeavyPart([], b), Stored(FIRST_FETCH, b, {}, []), NextPart, CFG, final);
  }

  const NO_OUTCOME := RunResult(0, 0, 0, 0, 0, "", "", 0, false, [], [])

  /** The part and the one before it both hold the file of s. */
  ghost predicate Duplicated(w: World, s: int, r: JobResult) {
    && w.rows != [] && s in w.files && w.rows[|w.rows| - 1].start <= s <= w.rows[|w.rows| - 1].end
    && FinalRow(w, r).files == w.files && s < FinalRow(w, r).start && !Complete(FinalRow(w, r))
  }

  lemma SilentRetrySteps(b: int, head: int, r: JobResult, final: int)
    requires 1 <= b <= final && 0 <= head <= b
    ensures var w := Do(Second(b), Attempt(NO_OUTCOME, true), CFG);
            && Enabled(Second(b), Attempt(NO_OUTCOME, true), final)
            && Enabled(w, Poll(head), final) && !Safe(w, Poll(head), false)
            && Enabled(Do(w, Poll(head), CFG), WriteFile(b), final)
            && Duplicated(Do(Do(w, Poll(head), CFG), WriteFile(b), CFG), b, r)
  {
  }

  function ToSilentRetry(b: int): seq<Action> { ToSecond(b) + [Attempt(NO_OUTCOME, true)] }

  /** Recording the part after one that ended at b, the playlist is refused before the first outcome:
      the next attempt starts at 1, and where the playlist still serves b it lands in both parts. */
  lemma SilentRetryDuplicates(b: int, head: int, r: JobResult, final: int)
    requires 1 <= b <= final && 0 <= head <= b
    ensures !Safe(Run(Boot(), ToSilentRetry(b), CFG), Poll(head), false)
    ensures var actions := ToSilentRetry(b) + [Poll(head)] + [WriteFile(b)];
            Possible(Boot(), actions, CFG, final) && Duplicated(Run(Boot(), actions, CFG), b, r)
  {
    ToSecondRuns(b, final);
    SilentRetrySteps(b, head, r, final);
    var w := Do(Second(b), Attempt(NO_OUTCOME, true), CFG);
    LeadsOn(Boot(), ToSecond(b), Second(b), Attempt(NO_OUTCOME, true), CFG, final);
    LeadsOn(Boot(), ToSilentRetry(b), w, Poll(head), CFG, final);
    LeadsOn(Boot(), ToSilentRetry(b) + [Poll(head)], Do(w, Poll(head), CFG), WriteFile(b), CFG, final);
  }

  // ---------- a file written before the anchor ----------

  function ToLeftover(s: int, j: Saved): seq<Action> { [Poll(s)] + [WriteFile(s)] + [Crash(j)] }

  lemma LeftoverReload(s: int, j: Saved, cfg: Config)
    requires s >= 1 && Saves(FIRST_FETCH, j)
    ensures Do(Unpolled(0).(head := Some(s), files := {s}), Crash(j), cfg) == Opened(FIRST_FETCH, {s}, [])
  {
    EmptyRoundTrip(FIRST_FETCH, j);
  }

  lemma ToLeftoverRuns(s: int, j: Saved, final: int)
    requires 1 <= s <= final && Saves(FIRST_FETCH, j)
    ensures Leads(Boot(), ToLeftover(s, j), Opened(FIRST_FETCH, {s}, []), CFG, final)
  {
    var w := Unpolled(0).(head := Some(s));
    BootIsUnpolled();
    LeadsOn(Boot(), [], Unpolled(0), Poll(s), CFG, final);
    assert [] + [Poll(s)] == [Poll(s)];
    LeadsOn(Boot(), [Poll(s)], w, WriteFile(s), CFG, final);
    assert {} + {s} == {s};
    LeadsOn(Boot(), [Poll(s)] + [WriteFile(s)], w.(files := {s}), Crash(j), CFG, final);
    LeftoverReload(s, j, CFG);
  }

  lemma LeftoverRow(s: int, b: int)
    requires s < b
    ensures !Complete(HeavyRow(b, {s}))
    ensures !Safe(Opened(FIRST_FETCH, {s}, []).(head := Some(b)), FirstPoll(b), false)
    ensures Stored(FIRST_FETCH, b, {s}, []).rows == [HeavyRow(b, {s})]
    ensures !LastComplete(Stored(FIRST_FETCH, b, {s}, []))
  {
    assert s in HeavyRow(b, {s}).files;
    assert [] + [HeavyRow(b, {s})] == [HeavyRow(b, {s})];
  }

  /** Segment s is written before the anchor's checkpoint and the process dies; the next one anchors the
      part at a later base. The part is finalized with a file from before its start, beside a hole. */
  lemma LeftoverBelowAnchor(s: int, b: int, j: Saved, final: int)
    requires 1 <= s < b <= final && Saves(FIRST_FETCH, j)
    ensures !Safe(Run(Boot(), ToLeftover(s, j) + [Poll(b)], CFG), FirstPoll(b), false)
    ensures Possible(Boot(), HeavyPart(ToLeftover(s, j), b), CFG, final)
    ensures var w := Run(Boot(), HeavyPart(ToLeftover(s, j), b), CFG);
            w.rows == [Row(b, b, {s, b}, [])] && !LastComplete(w)
  {
    ToLeftoverRuns(s, j, final);
    LeftoverRow(s, b);
    PolledStep(FIRST_FETCH, b, {s}, [], final);
    LeadsOn(Boot(), ToLeftover(s, j), Opened(FIRST_FETCH, {s}, []), Poll(b), CFG, final);
    HeavyPartRuns(Boot(), ToLeftover(s, j), FIRST_FETCH, b, {s}, [], final);
    assert HeavyRow(b, {s}) == Row(b, b, {s, b}, []);
  }

  // ---------- a roll over what is buffered, past the first part ----------

  lemma CutStage(p: Part, stage: Stage, crossed: Option<int>)
    ensures CutIfCrossed(SetStage(p, stage), crossed) == SetStage(CutIfCrossed(p, crossed), stage)
  {
  }

  /** Neither a commit nor a roll looks at the stage. */
  lemma ApplyStage(p: Part, stage: Stage, s: int, m: Media, from: int, to: int, lim: Limits)
    ensures CommitPart(SetStage(p, stage), s, m, lim) == SetStage(CommitPart(p, s, m, lim), stage)
    ensures RollPart(SetStage(p, stage), from, to, lim) == SetStage(RollPart(p, from, to, lim), stage)
  {
    var (l, crossed) := Commit(p.c.ledger, s, m, lim);
    CutStage(Part(p.c.(ledger := l), MediaAfterCommit(p.c.ledger, p.media, s, m)), stage, crossed);
    var (l', crossed') := Roll(p.c.ledger, from, to, RestartWindowRolled, lim);
    CutStage(WithLedger(p, l'), stage, crossed');
  }

  /** The second part, which starts at 1, with the commit of 2 waiting for 1. */
  function Buffering(): World {
    var p := SetStage(Waiting(1, 0, false), Segments);
    Second(0).(mem := p, durable := p, head := Some(1), files := {2},
               fetch := NewFetch(SecondFetch(0)).(reported := {2}))
  }

  /** The same after a restart, which forgets what the attempt had done. */
  function Restarted(): World { Buffering().(head := None, fetch := NewFetch(SecondFetch(0))) }

  /** The playlist has rolled to 3 meanwhile. */
  function Rolling(): World { Restarted().(head := Some(3)) }

  /** The range gap over 1 and 2 seals the part. */
  function RolledWorld(): World {
    var p := SetStage(RolledOver(1, 0, false), Segments);
    Rolling().(mem := p, durable := p, fetch := NewFetch(SecondFetch(0)).(reported := {1, 2}))
  }

  /** The part taken for empty and about to be fetched again: the file of 2 is still there. */
  const REANCHORED := FIRST_FETCH.(partIndex := 2, reanchors := 1, hadWindowRoll := true)

  function Again(): World { Opened(REANCHORED, {2}, [HeavyRow(0, {})]) }

  lemma BufferingStep(final: int)
    requires final >= 2
    ensures var w := Second(0).(head := Some(1));
            && Enabled(Second(0), Poll(1), final) && Do(Second(0), Poll(1), CFG) == w
            && Enabled(w, Callback(Seen(Committed(2, HEAVY)), true), final)
  {
  }

  lemma BufferingDo()
    ensures Do(Second(0).(head := Some(1)), Callback(Seen(Committed(2, HEAVY)), true), CFG) == Buffering()
  {
    WaitingIsReached(1, 0, false);
    ApplyStage(Part(SecondPart(0, false).(ledger := FreshPart(1)), map[]), Segments, 2, HEAVY, 1, 2, LOW);
  }

  lemma RestartedStep(j: Saved)
    requires Saves(Buffering().durable.c, j)
    ensures Do(Buffering(), Crash(j), CFG) == Restarted()
  {
    WaitingIsReached(1, 0, false);
    CrashRoundTrip(Buffering().durable.c, Buffering().durable.media, j);
  }

  lemma RolledApplies()
    ensures Apply(Rolling().mem, Rolled(1, 2), LOW) == RolledWorld().mem
  {
    RolloverSeals(1, 0, false);
    ApplyStage(Waiting(1, 0, false), Segments, 2, HEAVY, 1, 2, LOW);
  }

  lemma RolledEnabled(final: int)
    requires final >= 2
    ensures Enabled(Rolling(), Callback(Rolled(1, 2), true), final)
  {
    assert EventSeqs(Rolled(1, 2)) == Range(1, 2);
  }

  lemma RolledUnsafe()
    ensures !Safe(Rolling(), Callback(Rolled(1, 2), true), false)
  {
    RolledOverNotExact(1, 0, false);
    assert Rolling().mem.c.ledger == Waiting(1, 0, false).c.ledger;
  }

  lemma SavedCallback(w: World, e: Event, cfg: Config, mem: Part)
    requires Apply(w.mem, e, cfg.lim) == mem
    ensures Do(w, Callback(e, true), cfg) ==
            w.(mem := mem, durable := mem, fetch := Report(w.fetch, e), files := w.files + FilesOf(e))
  {
  }

  lemma RolledStep()
    ensures Do(Rolling(), Callback(Rolled(1, 2), true), CFG) == RolledWorld()
  {
    RolledApplies();
    SavedCallback(Rolling(), Rolled(1, 2), CFG, RolledWorld().mem);
    assert {} + Range(1, 2) == {1, 2};
    assert Rolling().files + {} == {2};
  }

  /** The rolled-over part, its fetch over. */
  function RolledFetched(): World {
    var f := EndAttempt(RolledWorld().fetch, NO_OUTCOME, RolledWorld().mem.c.ledger);
    RolledWorld().(fetch := f, head := None, phase := Fetched(JobResult(0, 0, 0, false)))
  }

  lemma RolledFetchedStep(final: int)
    ensures Enabled(RolledWorld(), Attempt(NO_OUTCOME, false), final)
    ensures Do(RolledWorld(), Attempt(NO_OUTCOME, false), CFG) == RolledFetched()
  {
  }

  lemma AgainSteps(final: int)
    ensures Enabled(RolledFetched(), Judge, final) && Do(RolledFetched(), Judge, CFG) == Again()
  {
    var r := JobResult(0, 0, 0, false);
    RolledOverJudged(1, 0, false, r);
    var g := Gap(1, 2, RestartWindowRolled);
    assert g in RolledFetched().mem.c.ledger.gaps;
  }

  function ToRestarted(j: Saved): seq<Action> {
    ToSecond(0) + [Poll(1)] + [Callback(Seen(Committed(2, HEAVY)), true)] + [Crash(j)]
  }

  function ToRolling(j: Saved): seq<Action> { ToRestarted(j) + [Poll(3)] }

  lemma ToRestartedRuns(j: Saved, final: int)
    requires Saves(Buffering().durable.c, j) && final >= 2
    ensures Leads(Boot(), ToRestarted(j), Restarted(), CFG, final)
  {
    var e := Seen(Committed(2, HEAVY));
    ToSecondRuns(0, final);
    BufferingStep(final);
    LeadsOn(Boot(), ToSecond(0), Second(0), Poll(1), CFG, final);
    BufferingDo();
    LeadsOn(Boot(), ToSecond(0) + [Poll(1)], Second(0).(head := Some(1)), Callback(e, true), CFG, final);
    RestartedStep(j);
    LeadsOn(Boot(), ToSecond(0) + [Poll(1)] + [Callback(e, true)], Buffering(), Crash(j), CFG, final);
  }

  lemma ToRollingRuns(j: Saved, final: int)
    requires Saves(Buffering().durable.c, j) && final >= 2
    ensures Leads(Boot(), ToRolling(j), Rolling(), CFG, final)
  {
    ToRestartedRuns(j, final);
    LeadsOn(Boot(), ToRestarted(j), Restarted(), Poll(3), CFG, final);
  }

  function ToAgain(j: Saved): seq<Action> {
    ToRolling(j) + [Callback(Rolled(1, 2), true)] + [Attempt(NO_OUTCOME, false)] + [Judge]
  }

  lemma ToAgainRuns(j: Saved, final: int)
    requires Saves(Buffering().durable.c, j) && final >= 2
    ensures Leads(Boot(), ToAgain(j), Again(), CFG, final)
  {
    var so := ToRolling(j);
    ToRollingRuns(j, final);
    RolledEnabled(final);
    RolledStep();
    LeadsOn(Boot(), so, Rolling(), Callback(Rolled(1, 2), true), CFG, final);
    RolledFetchedStep(final);
    AgainSteps(final);
    LeadsOn(Boot(), so + [Callback(Rolled(1, 2), true)], RolledWorld(), Attempt(NO_OUTCOME, false), CFG, final);
    LeadsOn(Boot(), so + [Callback(Rolled(1, 2), true)] + [Attempt(NO_OUTCOME, false)],
            RolledFetched(), Judge, CFG, final);
  }

  lemma AgainRuns(j: Saved, final: int)
    requires Saves(Buffering().durable.c, j) && final >= 3
    ensures Leads(Boot(), HeavyPart(ToAgain(j), 3), Stored(REANCHORED, 3, {2}, [HeavyRow(0, {})]), CFG, final)
  {
    ToAgainRuns(j, final);
    HeavyPartRuns(Boot(), ToAgain(j), REANCHORED, 3, {2}, [HeavyRow(0, {})], final);
  }

  /** Nothing accounts for 1 and 2 between the rows. */
  lemma HoleAfterZero()
    ensures !RowsChain([HeavyRow(0, {}), HeavyRow(3, {2})])
  {
    var rows := [HeavyRow(0, {}), HeavyRow(3, {2})];
    assert rows[0 + 1].start != rows[0].end + 1;
  }

  lemma RolledOverUnsafe(j: Saved, final: int)
    requires Saves(Buffering().durable.c, j) && final >= 2
    ensures !Safe(Run(Boot(), ToRolling(j), CFG), Callback(Rolled(1, 2), true), false)
  {
    ToRollingRuns(j, final);
    RolledUnsafe();
  }

  lemma RolledOverRows(j: Saved, final: int)
    requires Saves(Buffering().durable.c, j) && final >= 3
    ensures Possible(Boot(), HeavyPart(ToAgain(j), 3), CFG, final)
    ensures Run(Boot(), HeavyPart(ToAgain(j), 3), CFG).rows == [HeavyRow(0, {}), HeavyRow(3, {2})]
  {
    AgainRuns(j, final);
    assert Stored(REANCHORED, 3, {2}, [HeavyRow(0, {})]).rows == [HeavyRow(0, {}), HeavyRow(3, {2})];
  }

  /** A sealed part whose buffered commit a restart's roll has covered is taken for empty: what it held
      is forgotten, and the part recorded in its place leaves a hole after the one before. */
  lemma RolledOverPartIsDropped(j: Saved, final: int)
    requires Saves(Buffering().durable.c, j) && final >= 3
    ensures !Safe(Run(Boot(), ToRolling(j), CFG), Callback(Rolled(1, 2), true), false)
    ensures Possible(Boot(), HeavyPart(ToAgain(j), 3), CFG, final)
    ensures Run(Boot(), HeavyPart(ToAgain(j), 3), CFG).rows == [HeavyRow(0, {}), HeavyRow(3, {2})]
    ensures !RowsChain(Run(Boot(), HeavyPart(ToAgain(j), 3), CFG).rows)
  {
    RolledOverUnsafe(j, final);
    RolledOverRows(j, final);
    HoleAfterZero();
  }

  // ---------- sequence 0 after an attempt that saw nothing ----------

  /** Anchored at 0 while the poller asks for 1 and later. */
  function Late(): World {
    var p := Part(FIRST_FETCH.(ledger := FreshPart(0)), map[]);
    Unpolled(1).(mem := p, durable := p, head := Some(0))
  }

  function LateRun(m: Media): RunResult { RunResult(1, 0, 0, 0, m.bytes, "", "", 1, true, [], []) }

  /** Segment 1 is in; 0 is not asked for. */
  function LateCommitted(m: Media): World {
    var p := Part(FIRST_FETCH.(ledger := WithCommit(FreshPart(0), 1, m)), map[1 := m]);
    Late().(mem := p, durable := p, files := {1}, fetch := Late().fetch.(reported := {1}))
  }

  lemma LateCommit(m: Media, cfg: Config)
    ensures Do(Late(), Callback(Seen(Committed(1, m)), true), cfg) == LateCommitted(m)
  {
    var l := WithCommit(FreshPart(0), 1, m);
    assert WithoutSingle([], 1) == [];
    assert Stop(l, -1, cfg.lim) == (-1, false);
    assert map[][1 := m] == map[1 := m];
  }

  lemma LatePoll(cfg: Config, final: int)
    ensures var w := Unpolled(1).(head := Some(0));
            && Enabled(Unpolled(1), Poll(0), final) && Do(Unpolled(1), Poll(0), cfg) == w
            && Enabled(w, FirstPoll(0), final) && !Safe(w, FirstPoll(0), true) && Do(w, FirstPoll(0), cfg) == Late()
  {
  }

  function ToAsked(): seq<Action> { [RetryBeforeFirstPoll] + [Poll(0)] }

  function ToLate(m: Media): seq<Action> { ToAsked() + [FirstPoll(0)] + [Callback(Seen(Committed(1, m)), true)] }

  lemma ToLateRuns(m: Media, cfg: Config)
    ensures Leads(Boot(), ToLate(m), LateCommitted(m), cfg, 1)
  {
    ToServedRuns(0, cfg, 1);
    LatePoll(cfg, 1);
    LeadsOn(Boot(), ToAsked(), Unpolled(1).(head := Some(0)), FirstPoll(0), cfg, 1);
    LateCommit(m, cfg);
    LeadsOn(Boot(), ToAsked() + [FirstPoll(0)], Late(), Callback(Seen(Committed(1, m)), true), cfg, 1);
  }

  /** Judged and being built. */
  ghost predicate LateBuilding(w: World, stage: Stage) {
    && w.phase == Running(JobResult(1, 0, 1, true)) && w.files == {1} && w.rows == []
    && w.mem.c == FIRST_FETCH.(stage := stage, ledger := w.mem.c.ledger, endListSeen := true)
    && w.mem.c.ledger.partStart == 0 && w.mem.c.ledger.frontier == -1 && w.mem.c.ledger.gaps == []
  }

  lemma LateJudged(m: Media, cfg: Config)
    ensures var w0 := LateCommitted(m);
            var w1 := Do(w0, Attempt(LateRun(m), false), cfg);
            && Enabled(w0, Attempt(LateRun(m), false), 1) && Enabled(w1, Judge, 1)
            && LateBuilding(Do(w1, Judge, cfg), Segments)
  {
  }

  /** Finished, ENDLIST seen, and 0 missing. */
  ghost predicate LateDone(w: World) {
    && w.phase == Done(LastPart) && w.mem.c.endListSeen && FromStart(w, 0) && !Captured(w, 0)
  }

  lemma LateStage(w: World, cfg: Config)
    requires LateBuilding(w, Segments)
    ensures Enabled(w, EnterStage(PrepareInput), 1)
    ensures LateBuilding(Do(w, EnterStage(PrepareInput), cfg), PrepareInput)
  {
  }

  ghost predicate LateRowed(w: World) {
    && w.phase == Finalized(JobResult(1, 0, 1, true)) && w.rows == [Row(0, 1, {1}, [])]
    && w.mem.c == FIRST_FETCH.(stage := PrepareInput, ledger := w.mem.c.ledger, endListSeen := true)
  }

  lemma LateRow(w: World, cfg: Config)
    requires LateBuilding(w, PrepareInput)
    ensures Enabled(w, Finalize, 1) && LateRowed(Do(w, Finalize, cfg))
  {
    assert [] + [Row(0, 1, {1}, [])] == [Row(0, 1, {1}, [])];
  }

  lemma LateEnd(w: World, cfg: Config)
    requires LateRowed(w)
    ensures Enabled(w, NextPart, 1) && LateDone(Do(w, NextPart, cfg))
  {
  }

  /** A 401 on the first playlist moves the start to 1 and the playlist still begins at 0: the poller
      never hands out 0, and the run ends unmarked with 0 in no row and no gap. */
  lemma SequenceZeroLost(m: Media, cfg: Config)
    ensures !Safe(Run(Boot(), ToAsked(), cfg), FirstPoll(0), true)
    ensures var actions := ToLate(m) + [Attempt(LateRun(m), false)] + [Judge]
                           + [EnterStage(PrepareInput)] + [Finalize] + [NextPart];
            Possible(Boot(), actions, cfg, 1) && LateDone(Run(Boot(), actions, cfg))
  {
    ToLateRuns(m, cfg);
    LateJudged(m, cfg);
    var a, w := ToLate(m), Do(LateCommitted(m), Attempt(LateRun(m), false), cfg);
    LeadsOn(Boot(), a, LateCommitted(m), Attempt(LateRun(m), false), cfg, 1);
    LeadsOn(Boot(), a + [Attempt(LateRun(m), false)], w, Judge, cfg, 1);
    LateFinishes(a + [Attempt(LateRun(m), false)] + [Judge], Do(w, Judge, cfg), cfg);
    ToServedRuns(0, cfg, 1);
    LatePoll(cfg, 1);
  }

  lemma LateFinishes(a: seq<Action>, w: World, cfg: Config)
    requires Leads(Boot(), a, w, cfg, 1) && LateBuilding(w, Segments)
    ensures var all := a + [EnterStage(PrepareInput)] + [Finalize] + [NextPart];
            Possible(Boot(), all, cfg, 1) && LateDone(Run(Boot(), all, cfg))
  {
    var w1 := Do(w, EnterStage(PrepareInput), cfg);
    LateStage(w, cfg);
    LateRow(w1, cfg);
    LateEnd(Do(w1, Finalize, cfg), cfg);
    LeadsOn(Boot(), a, w, EnterStage(PrepareInput), cfg, 1);
    LeadsOn(Boot(), a + [EnterStage(PrepareInput)], w1, Finalize, cfg, 1);
    LeadsOn(Boot(), a + [EnterStage(PrepareInput)] + [Finalize], Do(w1, Finalize, cfg), NextPart, cfg, 1);
  }
}
