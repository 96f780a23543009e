/** Why the part loop ends: every continued turn uses up a cap, as long as what a ceiling sealed is
    not mistaken for an empty part. */
module PartLoopTermination {
  import opened Prelude
  import opened Ledgers
  import opened LedgerFacts
  import opened Checkpoints
  import opened Accountants
  import opened PartGuards
  import opened ExactGaps

  datatype Caps = Caps(discontinuity: int, threshold: int)

  // ---------- one lap of the loop ----------

  /** What happens to a part while it is fetched: a variant is selected, the first poll anchors the part and
      tells the format, callbacks come in, a lost playlist or a restart gap asks for a split, a later stage is
      entered, and the process dies right after a checkpoint and reloads it. */
  datatype Act =
    | Resolve(v: Variant)
    | Anchor(base: int, format: string)
    | Happens(e: Event)
    | Signal
    | Enter(stage: Stage)
    | Reload(j: Saved)

  function AskForSplit(c: Checkpoint): Checkpoint { c.(split := c.split.(pending := true)) }

  function WithFormat(v: Variant, format: string): Variant { if v.format == "" then v.(format := format) else v }

  function Take(p: Part, a: Act, lim: Limits): Part {
    match a
    case Resolve(v) =>
      p.(c := if Changes(p.c.variant, v) then AskForSplit(p.c) else p.c.(variant := Locked(p.c.variant, v)))
    case Anchor(base, format) =>
      var c := p.c.(variant := WithFormat(p.c.variant, format));
      if p.c.ledger.started then p.(c := c) else Part(StartPart(c, base), map[])
    case Happens(e) => Apply(p, e, lim)
    case Signal => p.(c := AskForSplit(p.c))
    case Enter(stage) => if stage.AtOrAfter(p.c.stage) then p.(c := p.c.(stage := stage)) else p
    case Reload(j) => p.(c := Load(j))
  }

  function Fetched(p: Part, acts: seq<Act>, lim: Limits): Part {
    if acts == [] then p else Take(Fetched(p, acts[..|acts| - 1], lim), acts[|acts| - 1], lim)
  }

  /** Every reload finds what was saved just before it. */
  ghost predicate Possible(p: Part, acts: seq<Act>, lim: Limits) {
    acts != [] ==>
      var before, a := acts[..|acts| - 1], acts[|acts| - 1];
      Possible(p, before, lim) && (a.Reload? ==> Saves(Fetched(p, before, lim).c, a.j))
  }

  /** The three ways the loop goes round again. */
  datatype Turn = Continue | BeginNew | Reanchor

  /** A lap: the fetch, what it reports, and the turn the loop takes. */
  datatype Lap = Lap(acts: seq<Act>, r: JobResult, turn: Turn)

  /** The checkpoint the loop decides from. */
  function Judged(p: Part, lap: Lap, lim: Limits): Checkpoint { NoteFetched(Fetched(p, lap.acts, lim).c, lap.r) }

  /** The guards of each turn. A part with media continues after a threshold split and begins afresh
      after any other; a part the loop takes for empty is re-anchored under its old number. */
  predicate Allows(c: Checkpoint, r: JobResult, t: Turn, caps: Caps) {
    && ShouldOpenNextPart(c, caps.discontinuity, caps.threshold) == OpenNext
    && match t
       case Continue =>
         Decide(c.partIndex - 1, r, c) == RunPart && !PendingSplitEndedAtBoundary(c, r) && c.split.threshold
       case BeginNew =>
         Decide(c.partIndex - 1, r, c) == RunPart && !PendingSplitEndedAtBoundary(c, r) && !c.split.threshold
       case Reanchor => Decide(c.partIndex - 1, r, c) == ReanchorEmpty
  }

  function Turned(c: Checkpoint, t: Turn): Checkpoint {
    match t
    case Continue => ContinuePart(c)
    case BeginNew => Checkpoints.BeginNewPart(c)
    case Reanchor => ReanchorCurrentPart(c)
  }

  function AfterLap(p: Part, lap: Lap, lim: Limits): Part { Part(Turned(Judged(p, lap, lim), lap.turn), map[]) }

  /** The loop goes round with these laps. */
  ghost predicate History(p: Part, laps: seq<Lap>, lim: Limits, caps: Caps)
    decreases |laps|
  {
    laps != [] ==>
      && Possible(p, laps[0].acts, lim)
      && Allows(Judged(p, laps[0], lim), laps[0].r, laps[0].turn, caps)
      && History(AfterLap(p, laps[0], lim), laps[1..], lim, caps)
  }

  // ---------- the rank ----------

  function Max(a: int, b: int): int { if a < b then b else a }

  function Rank(c: Checkpoint, caps: Caps): int {
    (Max(caps.threshold, caps.discontinuity) - c.partIndex) + (caps.discontinuity - c.reanchors)
  }

  predicate WithinCaps(c: Checkpoint, caps: Caps) {
    1 <= c.partIndex <= Max(caps.threshold, caps.discontinuity) && 0 <= c.reanchors <= caps.discontinuity
  }

  lemma {:induction false} FetchKeepsCounters(p: Part, acts: seq<Act>, lim: Limits)
    requires Possible(p, acts, lim)
    ensures var q := Fetched(p, acts, lim); q.c.partIndex == p.c.partIndex && q.c.reanchors == p.c.reanchors
  {
    if acts != [] {
      var a := acts[|acts| - 1];
      FetchKeepsCounters(p, acts[..|acts| - 1], lim);
      if a.Happens? { ApplyShape(Fetched(p, acts[..|acts| - 1], lim), a.e, lim); }
    }
  }

  /** Every turn lowers the rank. It stays within the caps, where the rank is not negative, unless
      the turn re-anchors after a threshold split with the discontinuity cap already spent. */
  lemma TurnDecreases(p: Part, lap: Lap, lim: Limits, caps: Caps)
    requires caps.discontinuity > 0 && caps.threshold > 0 && WithinCaps(p.c, caps)
    requires Possible(p, lap.acts, lim) && Allows(Judged(p, lap, lim), lap.r, lap.turn, caps)
    ensures var c := AfterLap(p, lap, lim).c;
            && Rank(c, caps) < Rank(p.c, caps)
            && (WithinCaps(c, caps) <==>
                !(lap.turn.Reanchor? && Judged(p, lap, lim).split.threshold && p.c.reanchors == caps.discontinuity))
  {
    FetchKeepsCounters(p, lap.acts, lim);
  }

  /** Threshold splits always continue their part. */
  predicate ThresholdsContinue(p: Part, laps: seq<Lap>, lim: Limits)
    decreases |laps|
  {
    laps != [] ==>
      && (Judged(p, laps[0], lim).split.threshold ==> laps[0].turn.Continue?)
      && ThresholdsContinue(AfterLap(p, laps[0], lim), laps[1..], lim)
  }

  /** No run whose threshold splits continue takes more turns than the two caps allow. */
  lemma {:induction false} TurnsAreBounded(p: Part, laps: seq<Lap>, lim: Limits, caps: Caps)
    requires caps.discontinuity > 0 && caps.threshold > 0 && WithinCaps(p.c, caps)
    requires History(p, laps, lim, caps) && ThresholdsContinue(p, laps, lim)
    ensures |laps| <= Rank(p.c, caps)
    decreases |laps|
  {
    if laps != [] {
      TurnDecreases(p, laps[0], lim, caps);
      TurnsAreBounded(AfterLap(p, laps[0], lim), laps[1..], lim, caps);
    }
  }

  // ---------- clean fetches continue ----------

  /** A callback that counts nothing twice, or a reload of a part that is anchored or still empty. */
  predicate CleanAct(p: Part, a: Act) {
    match a
    case Happens(e) => p.c.ledger.started && CleanEvent(p, e)
    case Reload(_) => p.c.ledger.started || (p.c.ledger == EMPTY_LEDGER && !p.c.stage.AtOrAfter(PrepareInput))
    case _ => true
  }

  predicate CleanActs(p: Part, acts: seq<Act>, lim: Limits) {
    acts != [] ==>
      var before := acts[..|acts| - 1];
      CleanActs(p, before, lim) && CleanAct(Fetched(p, before, lim), acts[|acts| - 1])
  }

  predicate CleanLaps(p: Part, laps: seq<Lap>, lim: Limits)
    decreases |laps|
  {
    laps != [] ==> CleanActs(p, laps[0].acts, lim) && CleanLaps(AfterLap(p, laps[0], lim), laps[1..], lim)
  }

  /** A part at any point of the loop, its gaps exact. A threshold split has its boundary. */
  ghost predicate Ready(p: Part) {
    if p.c.ledger.started then PartInv(p) && Exact(p) && Funded(p) && (p.c.split.threshold ==> p.c.split.boundarySet)
    else !p.c.split.threshold && !p.c.split.boundarySet
  }

  lemma FreshIsReady(c: Checkpoint, start: int)
    requires c.ledger == FreshPart(start) && !c.split.threshold && !c.split.boundarySet
    ensures Ready(Part(c, map[]))
  {
    FreshPartKeeps(start);
    assert forall s :: !GapCovered([], s);
  }

  lemma TakeKeepsReady(p: Part, a: Act, lim: Limits)
    requires Ready(p) && CleanAct(p, a) && (a.Reload? ==> Saves(p.c, a.j))
    ensures Ready(Take(p, a, lim))
  {
    match a
    case Resolve(v) =>
    case Anchor(base, format) =>
      if !p.c.ledger.started {
        FreshIsReady(StartPart(p.c.(variant := WithFormat(p.c.variant, format)), base), base);
      }
    case Happens(e) =>
      ApplyKeeps(p, e, lim);
      ApplyKeepsExact(p, e, lim);
      ApplyKeepsFunded(p, e, lim);
      ApplyShape(p, e, lim);
      StaysStarted(p, e, lim);
    case Signal =>
    case Enter(stage) =>
    case Reload(j) => if p.c.ledger.started { CrashRoundTrip(p.c, p.media, j); } else { EmptyRoundTrip(p.c, j); }
  }

  lemma StaysStarted(p: Part, e: Event, lim: Limits)
    requires PartInv(p)
    ensures Apply(p, e, lim).c.ledger.started
  {
    ApplyKeeps(p, e, lim);
  }

  lemma {:induction false} FetchKeepsReady(p: Part, acts: seq<Act>, lim: Limits)
    requires Ready(p) && CleanActs(p, acts, lim) && Possible(p, acts, lim)
    ensures Ready(Fetched(p, acts, lim))
    decreases |acts|
  {
    if acts != [] {
      FetchKeepsReady(p, acts[..|acts| - 1], lim);
      TakeKeepsReady(Fetched(p, acts[..|acts| - 1], lim), acts[|acts| - 1], lim);
    }
  }

  /** A cleanly fetched part that a ceiling split is continued, and the next part starts clean. */
  lemma CleanLapContinues(p: Part, lap: Lap, lim: Limits, caps: Caps)
    requires Ready(p) && CleanActs(p, lap.acts, lim) && Possible(p, lap.acts, lim)
    requires Allows(Judged(p, lap, lim), lap.r, lap.turn, caps)
    ensures Judged(p, lap, lim).split.threshold ==> lap.turn.Continue?
    ensures Ready(AfterLap(p, lap, lim))
  {
    var q := Fetched(p, lap.acts, lim);
    FetchKeepsReady(p, lap.acts, lim);
    if q.c.split.threshold { SealedIsFinalized(q, lap.r, q.c.partIndex - 1); }
    var c := Judged(p, lap, lim);
    if lap.turn.Continue? { FreshIsReady(ContinuePart(c), PartEnd(c) + 1); }
  }

  lemma {:induction false} CleanLapsContinue(p: Part, laps: seq<Lap>, lim: Limits, caps: Caps)
    requires Ready(p) && History(p, laps, lim, caps) && CleanLaps(p, laps, lim)
    ensures ThresholdsContinue(p, laps, lim)
    decreases |laps|
  {
    if laps != [] {
      CleanLapContinues(p, laps[0], lim, caps);
      CleanLapsContinue(AfterLap(p, laps[0], lim), laps[1..], lim, caps);
    }
  }

  /** Termination: a run whose callbacks count nothing twice, with any mix of splits and reloads, goes
      round no more often than the two caps allow. */
  lemma CleanLapsAreBounded(p: Part, laps: seq<Lap>, lim: Limits, caps: Caps)
    requires caps.discontinuity > 0 && caps.threshold > 0 && WithinCaps(p.c, caps)
    requires Ready(p) && History(p, laps, lim, caps) && CleanLaps(p, laps, lim)
    ensures |laps| <= Rank(p.c, caps)
  {
    CleanLapsContinue(p, laps, lim, caps);
    TurnsAreBounded(p, laps, lim, caps);
  }

  // ---------- and without that ----------

  // Each lap: the first poll anchors the second part at the playlist's head, the segment after it is
  // committed, the process restarts to find that the playlist has rolled past both, and the roll seals
  // the part. It reports no segment done, so the loop re-anchors, which spends neither cap, and the
  // next lap finds the playlist where this one left it.

  function RolloverActs(base: int, reanchors: int, rolled: bool): seq<Act> {
    [Anchor(base, ""), Happens(Seen(Committed(base + 1, HEAVY))),
     Reload(Marshal(Waiting(base, reanchors, rolled).c, [base + 1])), Happens(Rolled(base, base + 1))]
  }

  function Rollover(base: int, reanchors: int, rolled: bool): Lap {
    Lap(RolloverActs(base, reanchors, rolled), JobResult(0, 0, base + 1, false), Reanchor)
  }

  function Rollovers(n: nat, base: int, reanchors: int, rolled: bool): seq<Lap> {
    if n == 0 then [] else [Rollover(base, reanchors, rolled)] + Rollovers(n - 1, base + 2, reanchors + 1, true)
  }

  lemma TakesOne(p: Part, acts: seq<Act>, k: nat, lim: Limits)
    requires k < |acts|
    ensures Fetched(p, acts[..k + 1], lim) == Take(Fetched(p, acts[..k], lim), acts[k], lim)
    ensures Possible(p, acts[..k + 1], lim) <==>
            Possible(p, acts[..k], lim) && (acts[k].Reload? ==> Saves(Fetched(p, acts[..k], lim).c, acts[k].j))
  {
    assert acts[..k + 1][..k] == acts[..k];
  }

  lemma WaitingReloads(base: int, reanchors: int, rolled: bool)
    ensures var c := Waiting(base, reanchors, rolled).c;
            Saves(c, Marshal(c, [base + 1])) && Load(Marshal(c, [base + 1])) == c
  {
    var p := Waiting(base, reanchors, rolled);
    WaitingIsReached(base, reanchors, rolled);
    assert ToSet([base + 1]) == p.c.ledger.buffered;
    CrashRoundTrip(p.c, p.media, Marshal(p.c, [base + 1]));
  }

  lemma RolloverWaits(base: int, reanchors: int, rolled: bool)
    ensures var p, acts := Part(SecondPart(reanchors, rolled), map[]), RolloverActs(base, reanchors, rolled);
            Fetched(p, acts[..2], LOW) == Waiting(base, reanchors, rolled) && Possible(p, acts[..2], LOW)
  {
    var p, acts := Part(SecondPart(reanchors, rolled), map[]), RolloverActs(base, reanchors, rolled);
    TakesOne(p, acts, 0, LOW);
    TakesOne(p, acts, 1, LOW);
    WaitingIsReached(base, reanchors, rolled);
  }

  lemma RolloverReloads(base: int, reanchors: int, rolled: bool)
    ensures var p, acts := Part(SecondPart(reanchors, rolled), map[]), RolloverActs(base, reanchors, rolled);
            Fetched(p, acts[..3], LOW) == Waiting(base, reanchors, rolled) && Possible(p, acts[..3], LOW)
  {
    RolloverWaits(base, reanchors, rolled);
    WaitingReloads(base, reanchors, rolled);
    TakesOne(Part(SecondPart(reanchors, rolled), map[]), RolloverActs(base, reanchors, rolled), 2, LOW);
  }

  lemma RolloverFetch(base: int, reanchors: int, rolled: bool)
    ensures var p, acts := Part(SecondPart(reanchors, rolled), map[]), RolloverActs(base, reanchors, rolled);
            Fetched(p, acts, LOW) == RolledOver(base, reanchors, rolled) && Possible(p, acts, LOW)
  {
    var p, acts := Part(SecondPart(reanchors, rolled), map[]), RolloverActs(base, reanchors, rolled);
    RolloverReloads(base, reanchors, rolled);
    TakesOne(p, acts, 3, LOW);
    assert acts[3] == Happens(Rolled(base, base + 1)) && acts[..4] == acts;
    RolloverSeals(base, reanchors, rolled);
  }

  lemma NotedRollover(base: int, reanchors: int, rolled: bool)
    ensures var c := RolledOver(base, reanchors, rolled).c;
            NoteFetched(c, Rollover(base, reanchors, rolled).r) == c.(hadWindowRoll := true)
  {
    var g := Gap(base, base + 1, RestartWindowRolled);
    assert g in [g] && RolledOver(base, reanchors, rolled).c.ledger.gaps == [g];
  }

  lemma ReanchoredRollover(base: int, reanchors: int, rolled: bool)
    ensures ReanchorCurrentPart(RolledOver(base, reanchors, rolled).c.(hadWindowRoll := true)) ==
            SecondPart(reanchors + 1, true)
  {
  }

  /** The lap leads from p to next. */
  ghost predicate GoesRound(p: Part, lap: Lap, next: Part, lim: Limits, caps: Caps) {
    && Possible(p, lap.acts, lim) && Allows(Judged(p, lap, lim), lap.r, lap.turn, caps)
    && AfterLap(p, lap, lim) == next
  }

  lemma HistoryCons(p: Part, lap: Lap, next: Part, rest: seq<Lap>, lim: Limits, caps: Caps)
    requires GoesRound(p, lap, next, lim, caps) && History(next, rest, lim, caps)
    ensures History(p, [lap] + rest, lim, caps)
  {
    var laps := [lap] + rest;
    assert laps[0] == lap && laps[1..] == rest;
  }

  lemma RolloverLap(base: int, reanchors: int, rolled: bool, caps: Caps)
    requires caps.threshold > 2
    ensures GoesRound(Part(SecondPart(reanchors, rolled), map[]), Rollover(base, reanchors, rolled),
                      Part(SecondPart(reanchors + 1, true), map[]), LOW, caps)
  {
    var c, lap := RolledOver(base, reanchors, rolled).c, Rollover(base, reanchors, rolled);
    RolloverFetch(base, reanchors, rolled);
    assert Judged(Part(SecondPart(reanchors, rolled), map[]), lap, LOW) == NoteFetched(c, lap.r);
    NotedRollover(base, reanchors, rolled);
    RolledOverJudged(base, reanchors, rolled, lap.r);
    ReanchoredRollover(base, reanchors, rolled);
    assert ShouldOpenNextPart(c.(hadWindowRoll := true), caps.discontinuity, caps.threshold) == OpenNext;
  }

  lemma {:induction false} RolloversFromSecond(n: nat, base: int, reanchors: int, rolled: bool, caps: Caps)
    requires caps.threshold > 2
    ensures var laps := Rollovers(n, base, reanchors, rolled);
            |laps| == n && History(Part(SecondPart(reanchors, rolled), map[]), laps, LOW, caps)
    decreases n
  {
    if n > 0 {
      RolloverLap(base, reanchors, rolled, caps);
      RolloversFromSecond(n - 1, base + 2, reanchors + 1, true, caps);
      HistoryCons(Part(SecondPart(reanchors, rolled), map[]), Rollover(base, reanchors, rolled),
                  Part(SecondPart(reanchors + 1, true), map[]), Rollovers(n - 1, base + 2, reanchors + 1, true),
                  LOW, caps);
    }
  }

  // The second part comes about by a lost playlist in a first part of one small segment.

  const LIGHT := Media(1, 0.0)

  const OPENING := Lap([Anchor(0, ""), Happens(Seen(Committed(0, LIGHT))), Signal], JobResult(1, 0, 0, false), BeginNew)

  function FirstPart(): Part {
    Part(NEW_CHECKPOINT.(ledger := FreshPart(0).(frontier := 0, total := LIGHT)), map[0 := LIGHT])
  }

  lemma LightCommit()
    ensures Apply(Part(NEW_CHECKPOINT.(ledger := FreshPart(0)), map[]), Seen(Committed(0, LIGHT)), LOW) == FirstPart()
  {
    var l := WithCommit(FreshPart(0), 0, LIGHT);
    assert WithoutSingle([], 0) == [];
    assert TotalAt(l, -1) == NO_MEDIA;
    assert TotalAt(l, 0) == LIGHT;
    AboveShrinks(l.resolved, -1);
    assert Stop(l, 0, LOW) == (0, false);
    assert Stop(l, -1, LOW) == (0, false);
    assert MoveTo(l, 0) == FirstPart().c.ledger;
    assert map[][0 := LIGHT] == map[0 := LIGHT];
  }

  lemma OpeningFetch()
    ensures Fetched(Part(NEW_CHECKPOINT, map[]), OPENING.acts, LOW) ==
            FirstPart().(c := FirstPart().c.(split := NO_SPLIT.(pending := true)))
    ensures Possible(Part(NEW_CHECKPOINT, map[]), OPENING.acts, LOW)
  {
    var p, acts := Part(NEW_CHECKPOINT, map[]), OPENING.acts;
    TakesOne(p, acts, 0, LOW);
    TakesOne(p, acts, 1, LOW);
    TakesOne(p, acts, 2, LOW);
    LightCommit();
    assert acts[..3] == acts;
  }

  lemma OpeningLap(caps: Caps)
    requires caps.discontinuity > 1
    ensures GoesRound(Part(NEW_CHECKPOINT, map[]), OPENING, Part(SecondPart(0, false), map[]), LOW, caps)
  {
    OpeningFetch();
    var c := FirstPart().c.(split := NO_SPLIT.(pending := true));
    assert NoteFetched(c, OPENING.r) == c;
    assert ShouldOpenNextPart(c, caps.discontinuity, caps.threshold) == OpenNext;
  }

  /** So from a fresh start there are histories of every length, whatever the caps, over a playlist that
      only moves on, through valid parts that each hold media. */
  lemma RolloversNeverStop(n: nat, caps: Caps)
    requires caps.discontinuity > 1 && caps.threshold > 2
    ensures var laps := [OPENING] + Rollovers(n, 1, 0, false);
            |laps| == n + 1 && History(Part(NEW_CHECKPOINT, map[]), laps, LOW, caps)
  {
    OpeningLap(caps);
    RolloversFromSecond(n, 1, 0, false, caps);
    HistoryCons(Part(NEW_CHECKPOINT, map[]), OPENING, Part(SecondPart(0, false), map[]),
                Rollovers(n, 1, 0, false), LOW, caps);
  }
}
