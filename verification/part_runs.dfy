/** What holds of whole runs of the part loop: the parts tile the recording, and a run that saw
    ENDLIST has all of it. */
module PartRuns {
  import opened Prelude
  import opened Ledgers
  import opened LedgerFacts
  import opened Checkpoints
  import opened Accountants
  import opened PartGuards
  import opened ExactGaps
  import opened Fetching
  import opened PartLoop
  import opened PartLoopFacts
  import opened PartLoopKeeps

  // ---------- where runs start ----------

  /** A sealed part that an older version checkpointed, with the files and rows it left. That version
      may have recorded a bare ENDLIST without proof that it came at the boundary. */
  ghost predicate Legacy(p: Part, files: set<int>, rows: seq<Row>, final: int) {
    && Anchor(p, final) && p.c.split.Sealed() && !p.c.split.endListAtBoundary
    && p.media.Keys <= files
    && RowsInv(World(p, NewFetch(p.c), None, Phase.Fetch, p, files, rows))
  }

  /** A first part that an earlier process left without an anchor, with the files it had written. */
  ghost predicate LeftUnanchored(p: Part, files: set<int>, final: int) {
    Unanchored(p) && p.c.ledger.gaps == [] && forall s <- files :: 0 <= s <= final
  }

  ghost predicate Starts(w: World, final: int) {
    || w == Boot()
    || (exists p, files :: LeftUnanchored(p, files, final) && w == Resumed(p, files, []))
    || (exists p, files, rows :: Legacy(p, files, rows, final) && w == Resumed(p, files, rows))
  }

  lemma LeftUnanchoredInv(p: Part, files: set<int>, final: int, whole: bool)
    requires LeftUnanchored(p, files, final)
    ensures WorldInv(Resumed(p, files, []), final, whole)
  {
    EnterLoopKeeps(World(p, NewFetch(p.c), None, Phase.Fetch, p, files, []), final, whole);
  }

  lemma LegacyInv(p: Part, files: set<int>, rows: seq<Row>, final: int, whole: bool)
    requires Legacy(p, files, rows, final)
    ensures WorldInv(Resumed(p, files, rows), final, whole)
  {
    EnterLoopKeeps(World(p, NewFetch(p.c), None, Phase.Fetch, p, files, rows), final, whole);
  }

  lemma StartsInv(w: World, final: int, whole: bool)
    requires Starts(w, final)
    ensures WorldInv(w, final, whole)
  {
    if w == Boot() {
      LeftUnanchoredInv(Part(NEW_CHECKPOINT, map[]), {}, final, whole);
    } else if exists p, files :: LeftUnanchored(p, files, final) && w == Resumed(p, files, []) {
      var p, files :| LeftUnanchored(p, files, final) && w == Resumed(p, files, []);
      LeftUnanchoredInv(p, files, final, whole);
    } else {
      var p, files, rows :| Legacy(p, files, rows, final) && w == Resumed(p, files, rows);
      LegacyInv(p, files, rows, final, whole);
    }
  }

  lemma {:induction false} RunKeepsInv(w: World, actions: seq<Action>, cfg: Config, final: int, whole: bool)
    requires WorldInv(w, final, whole) && Possible(w, actions, cfg, final) && SafeRun(w, actions, cfg, whole)
    ensures WorldInv(Run(w, actions, cfg), final, whole)
    decreases |actions|
  {
    if actions != [] {
      var k := |actions| - 1;
      RunKeepsInv(w, actions[..k], cfg, final, whole);
      StepKeeps(Run(w, actions[..k], cfg), actions[k], cfg, final, whole);
    }
  }

  // ---------- tiling ----------

  ghost predicate RowsChain(rows: seq<Row>) {
    forall i | 0 <= i < |rows| - 1 :: Complete(rows[i]) && rows[i + 1].start == rows[i].end + 1
  }

  /** The current part is over: a ceiling has sealed it, or the run ended at its boundary. */
  predicate PartOver(w: World) { w.mem.c.split.boundarySet || w.phase == Done(AtBoundary) }

  lemma InvRowsChain(w: World)
    requires RowsInv(w)
    ensures RowsChain(w.rows)
  {
    var rows, n := w.rows, w.mem.c.partIndex;
    forall i | 0 <= i < |rows| - 1 ensures Complete(rows[i]) && rows[i + 1].start == rows[i].end + 1 {
      assert rows[..n - 1][i] == rows[i];
      if i + 1 < n - 1 { assert rows[..n - 1][i + 1] == rows[i + 1]; }
    }
  }

  lemma InvLastRow(w: World, final: int, whole: bool)
    requires RowsInv(w) && PhaseInv(w, final, whole) && w.rows != []
    requires |w.rows| < w.mem.c.partIndex || PartOver(w)
    ensures Complete(w.rows[|w.rows| - 1])
  {
    var rows, n := w.rows, w.mem.c.partIndex;
    if |rows| < n { assert rows[..n - 1][n - 2] == rows[n - 2]; }
  }

  /** The last row is complete when its part is over, and whenever another part follows it. */
  ghost predicate LastComplete(w: World) {
    w.rows != [] && (|w.rows| < w.mem.c.partIndex || PartOver(w)) ==> Complete(w.rows[|w.rows| - 1])
  }

  /** Tiling: after any safe run, with any worker order and a crash after any checkpoint, each part
      starts one past the end of the part before it, and every part that is over consists of files
      inside its interval which, with its gaps, cover all of it. */
  lemma PartsTile(w: World, actions: seq<Action>, cfg: Config, final: int)
    requires Starts(w, final) && Possible(w, actions, cfg, final) && SafeRun(w, actions, cfg, false)
    ensures RowsChain(Run(w, actions, cfg).rows) && LastComplete(Run(w, actions, cfg))
  {
    StartsInv(w, final, false);
    RunKeepsInv(w, actions, cfg, final, false);
    InvTiles(Run(w, actions, cfg), final, false);
  }

  lemma InvTiles(w: World, final: int, whole: bool)
    requires WorldInv(w, final, whole)
    ensures RowsChain(w.rows) && LastComplete(w)
  {
    InvRowsChain(w);
    if w.rows != [] && (|w.rows| < w.mem.c.partIndex || PartOver(w)) { InvLastRow(w, final, whole); }
  }

  // ---------- ENDLIST ----------

  /** The recording accounts for s: in a row, or as a recorded loss of the last part when that part
      turned out empty and got no row. */
  ghost predicate Captured(w: World, s: int) {
    || (exists i | 0 <= i < |w.rows| :: w.rows[i].start <= s && Accounts(w.rows[i], s))
    || (w.phase == Done(EmptyPart) && w.mem.c.ledger.partStart <= s && GapCovered(w.mem.c.ledger.gaps, s))
  }

  lemma {:induction false} FindRow(rows: seq<Row>, n: nat, s: int) returns (i: nat)
    requires n <= |rows| && n >= 1 && rows[0].start <= s <= rows[n - 1].end
    requires forall i | 0 <= i < n - 1 :: rows[i + 1].start == rows[i].end + 1
    ensures i < n && rows[i].start <= s <= rows[i].end
  {
    if rows[n - 1].start <= s { i := n - 1; }
    else { i := FindRow(rows, n - 1, s); }
  }

  predicate FromStart(w: World, s: int) {
    (if w.rows == [] then w.mem.c.ledger.partStart else w.rows[0].start) <= s
  }

  lemma CapturedInRows(w: World, final: int, s: int)
    requires RowsInv(w) && PhaseInv(w, final, true) && (w.phase == Done(LastPart) || w.phase == Done(AtBoundary))
    requires w.mem.c.endListSeen && FromStart(w, s) && s <= final
    ensures Captured(w, s)
  {
    InvRowsChain(w);
    var n := w.mem.c.partIndex;
    var i := FindRow(w.rows, n, s);
    assert i < n - 1 ==> Complete(w.rows[i]);
    assert Accounts(w.rows[i], s);
  }

  lemma CapturedWithEmptyPart(w: World, final: int, s: int)
    requires RowsInv(w) && PhaseInv(w, final, true) && w.phase == Done(EmptyPart) && w.mem.c.endListSeen
    requires Sound(w.mem.c.ledger, w.mem.media)
    requires FromStart(w, s) && s <= final
    ensures Captured(w, s)
  {
    var n := w.mem.c.partIndex;
    if s < w.mem.c.ledger.partStart {
      InvRowsChain(w);
      var i := FindRow(w.rows, n - 1, s);
      assert Complete(w.rows[..n - 1][i]);
      assert Accounts(w.rows[i], s);
    }
  }

  /** ENDLIST soundness: a safe run that finished without being marked truncated by a missing ENDLIST
      has accounted for every sequence from the recording's start to the end of the broadcast. */
  lemma UntruncatedIsWhole(w: World, actions: seq<Action>, cfg: Config, final: int, s: int)
    requires Starts(w, final) && Possible(w, actions, cfg, final) && SafeRun(w, actions, cfg, true)
    requires var w' := Run(w, actions, cfg);
             w'.phase.Done? && w'.mem.c.endListSeen && FromStart(w', s) && s <= final
    ensures Captured(Run(w, actions, cfg), s)
  {
    StartsInv(w, final, true);
    RunKeepsInv(w, actions, cfg, final, true);
    InvCaptures(Run(w, actions, cfg), final, s);
  }

  lemma InvCaptures(w: World, final: int, s: int)
    requires WorldInv(w, final, true) && w.phase.Done? && w.mem.c.endListSeen && FromStart(w, s) && s <= final
    ensures Captured(w, s)
  {
    if w.phase.end == EmptyPart { CapturedWithEmptyPart(w, final, s); }
    else { CapturedInRows(w, final, s); }
  }

  /** A finalized part whose split is pending ends the run exactly when its checkpoint proves
      that the broadcast ended at the boundary. Otherwise the cap refuses, or a continuation opens
      at boundary + 1 with ENDLIST unseen. */
  lemma PendingSplitDecision(w: World, cfg: Config, final: int)
    requires WorldInv(w, final, true) && w.phase.Finalized? && w.mem.c.split.pending
    ensures var c, w' := w.mem.c, Do(w, NextPart, cfg);
            && (w'.phase.Done? <==> c.split.endListAtBoundary)
            && (w'.phase.Done? ==> final <= c.split.boundary)
            && (!w'.phase.Done? && !w'.phase.Failed? ==>
                  && w'.phase.Fetch?
                  && w'.mem.c.ledger == FreshPart(c.split.boundary + 1)
                  && w'.mem.c.partIndex == c.partIndex + 1
                  && !w'.mem.c.endListSeen)
  {
  }

  // ---------- each condition is exact ----------

  ghost predicate HandsOutWithin(w: World) { forall s :: HandsOut(w, s) ==> s >= w.mem.c.ledger.partStart }

  ghost predicate FilesWithin(w: World) { forall s <- w.files :: s >= w.mem.c.ledger.partStart }

  /** No worker is given a sequence below the part if and only if the attempt or its playlist starts at
      or above the part. */
  lemma PollExact(w: World, head: int, cfg: Config, final: int, whole: bool)
    requires WorldInv(w, final, whole) && Enabled(w, Poll(head), final) && w.mem.c.ledger.started
    ensures HandsOutWithin(Do(w, Poll(head), cfg)) <==> Safe(w, Poll(head), whole)
  {
    var s := if head < w.fetch.startSeq then w.fetch.startSeq else head;
    assert HandsOut(Do(w, Poll(head), cfg), s);
  }

  /** After an attempt that saw no outcome, on a part that no attempt has got anywhere in, that comes
      down to the playlist: no file is written below the part if and only if the playlist starts at or
      above it, or the part starts at 0 or 1. */
  lemma SilentRetryExact(w: World, r: RunResult, head: int, cfg: Config, final: int, whole: bool)
    requires WorldInv(w, final, whole) && Enabled(w, Attempt(r, true), final) && head >= 0
    requires Silent(w.fetch, r) && w.fetch.agg.lastMediaSeq == 0
    ensures HandsOutWithin(Do(Do(w, Attempt(r, true), cfg), Poll(head), cfg)) <==>
            head >= w.mem.c.ledger.partStart || w.mem.c.ledger.partStart <= 1
  {
    var w' := Do(Do(w, Attempt(r, true), cfg), Poll(head), cfg);
    assert w'.fetch.startSeq == 1;
    assert HandsOut(w', if head < 1 then 1 else head);
  }

  /** The first poll leaves every file of the part inside it if and only if no earlier attempt left one
      below the playlist. */
  lemma LeftoversExact(w: World, base: int, cfg: Config, final: int)
    requires Enabled(w, FirstPoll(base), final)
    ensures FilesWithin(Do(w, FirstPoll(base), cfg)) <==> Safe(w, FirstPoll(base), false)
  {
  }

  /** And then it loses nothing if and only if the playlist starts no earlier than was asked for. Either way
      the attempt starts with the first sequence that is handed out. */
  lemma FirstPollExact(w: World, base: int, cfg: Config, final: int)
    requires WorldInv(w, final, true) && Enabled(w, FirstPoll(base), final) && Safe(w, FirstPoll(base), false)
    ensures var w' := Do(w, FirstPoll(base), cfg);
            FetchInv(w'.fetch, w'.mem.c.ledger) <==> Safe(w, FirstPoll(base), true)
    ensures var w' := Do(w, FirstPoll(base), cfg);
            HandsOut(w', w'.fetch.startSeq) && forall s :: HandsOut(w', s) ==> s >= w'.fetch.startSeq
  {
    var w' := Do(w, FirstPoll(base), cfg);
    assert base < w.fetch.startSeq ==> !ShouldSkip(w'.mem.c.ledger, base) && base !in w'.fetch.unresolved;
  }

  /** A crash resumes with what was saved if and only if the part was anchored or no roll was
      recorded in it. */
  lemma CrashExact(w: World, j: Saved, final: int, whole: bool)
    requires WorldInv(w, final, whole) && Saves(w.durable.c, j)
    ensures Load(j) == w.durable.c <==> Safe(w, Crash(j), whole)
  {
    if w.durable.c.ledger.started { CrashRoundTrip(w.durable.c, w.durable.media, j); }
    else { UnanchoredReload(w.durable, j); }
  }
}
