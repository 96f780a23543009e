/** The durable checkpoint as the object the recorder updates in place. Every method is proved
    equal to its function on values, and keeps the ghost history of the part exact. */
module Resume {
  import opened Prelude
  import opened Ledgers
  import opened LedgerFacts
  import opened Checkpoints

  /** Go's slices.BinarySearch. */
  method BinarySearch(s: seq<int>, x: int) returns (i: nat, found: bool)
    requires Ascending(s)
    ensures i <= |s|
    ensures forall k | 0 <= k < i :: s[k] < x
    ensures forall k | i <= k < |s| :: s[k] >= x
    ensures found <==> i < |s| && s[i] == x
    ensures found <==> x in s
  {
    i := 0;
    var hi := |s|;
    while i < hi
      invariant 0 <= i <= hi <= |s|
      invariant forall k | 0 <= k < i :: s[k] < x
      invariant forall k | hi <= k < |s| :: s[k] >= x
    {
      var mid := (i + hi) / 2;
      if s[mid] < x { i := mid + 1; } else { hi := mid; }
    }
    found := i < |s| && s[i] == x;
  }

  /** The scalar fields of the checkpoint, in two groups. */
  datatype Header = Header(
    stage: Stage,
    currentPartIndex: int,
    emptySplitReanchors: int,
    variant: Variant,
    endListSeen: bool,
    hadWindowRoll: bool)

  datatype Anchor = Anchor(partStart: int, started: bool, frontier: int)

  class ResumeState {
    var header: Header
    var anchor: Anchor
    var completedAboveFrontier: seq<int>
    var completedAboveFrontierAccounting: seq<Accounting>
    var gaps: seq<Gap>
    var partTotal: Media
    var split: Split
    var resolvedAbove: set<int>
    var completedAccounting: map<int, Media>

    /** Every committed sequence of the current part, with its media. */
    ghost var media: map<int, Media>

    ghost function PartLedger(): Ledger
      reads this
    {
      Ledger(anchor.partStart, anchor.started, anchor.frontier, ToSet(completedAboveFrontier),
             completedAccounting, gaps, resolvedAbove, partTotal)
    }

    ghost function Value(): Checkpoint
      reads this
    {
      Checkpoint(header.stage, header.currentPartIndex, header.emptySplitReanchors, header.variant, PartLedger(),
                 header.endListSeen, header.hadWindowRoll, split)
    }

    /** The buffer is sorted and, like its two companions, lies above the frontier. */
    ghost predicate Valid()
      reads this
    {
      Ascending(completedAboveFrontier) && AboveFrontier(PartLedger())
    }

    /** The ledger agrees with the part's history. */
    ghost predicate Exact()
      reads this
    {
      Inv(PartLedger(), media)
    }

    constructor New()
      ensures Valid() && Value() == NEW_CHECKPOINT && media == map[]
    {
      header, anchor := Header(Auth, 1, 0, NO_VARIANT, false, false), Anchor(0, false, 0);
      completedAboveFrontier, completedAboveFrontierAccounting, gaps, partTotal := [], [], [], NO_MEDIA;
      split := NO_SPLIT;
      resolvedAbove, completedAccounting, media := {}, map[], map[];
    }

    /** UnmarshalResumeState: the serialized fields, then Init. */
    constructor Unmarshal(j: Saved, ghost history: map<int, Media>)
      requires Ascending(j.completed) && forall s <- j.completed :: s > j.frontier
      ensures Valid() && Value() == Load(j) && media == history
    {
      header := Header(j.stage, j.partIndex, j.reanchors, j.variant, j.endListSeen, j.hadWindowRoll);
      anchor := Anchor(j.partStart, j.started, j.frontier);
      completedAboveFrontier, completedAboveFrontierAccounting, gaps, partTotal :=
        j.completed, j.accounting, j.gaps, j.total;
      split := j.split;
      resolvedAbove, completedAccounting, media := {}, map[], history;
      new;
      Init();
    }

    /** Rebuilds the in-memory structures from the serialized fields. */
    method Init()
      requires Ascending(completedAboveFrontier)
      requires forall s <- completedAboveFrontier :: s > anchor.frontier
      modifies this`anchor, this`resolvedAbove, this`completedAccounting, this`completedAboveFrontierAccounting
      ensures Valid() && completedAboveFrontierAccounting == []
      ensures anchor == old(anchor).(started :=
                          old(anchor).started || anchor.partStart != 0 || anchor.frontier != 0
                          || completedAboveFrontier != [] || gaps != [] || header.stage.AtOrAfter(PrepareInput))
      ensures completedAccounting == LoadAccounting(old(completedAboveFrontierAccounting), completedAboveFrontier,
                                                    anchor.frontier)
      ensures resolvedAbove == Above(ToSet(completedAboveFrontier), anchor.frontier)
                               + Above(GapSeqs(gaps), anchor.frontier)
    {
      if !anchor.started && (anchor.partStart != 0 || anchor.frontier != 0 || |completedAboveFrontier| > 0
                             || |gaps| > 0 || header.stage.AtOrAfter(PrepareInput)) {
        anchor := anchor.(started := true);
      }
      ResolveBuffered();
      LoadCompletedAccounting();
      ResolveGaps();
      assert AboveFrontier(PartLedger());
    }

    method ResolveBuffered()
      modifies this`resolvedAbove
      ensures resolvedAbove == Above(ToSet(completedAboveFrontier), anchor.frontier)
    {
      resolvedAbove := {};
      var i := 0;
      while i < |completedAboveFrontier|
        invariant 0 <= i <= |completedAboveFrontier|
        invariant resolvedAbove == Above(ToSet(completedAboveFrontier[..i]), anchor.frontier)
      {
        var s := completedAboveFrontier[i];
        assert completedAboveFrontier[..i + 1] == completedAboveFrontier[..i] + [s];
        if s > anchor.frontier { resolvedAbove := resolvedAbove + {s}; }
        i := i + 1;
      }
      assert completedAboveFrontier[..i] == completedAboveFrontier;
    }

    method LoadCompletedAccounting()
      requires Ascending(completedAboveFrontier)
      modifies this`completedAccounting, this`completedAboveFrontierAccounting
      ensures completedAboveFrontierAccounting == []
      ensures completedAccounting == LoadAccounting(old(completedAboveFrontierAccounting), completedAboveFrontier,
                                                    anchor.frontier)
      ensures completedAccounting.Keys <= ToSet(completedAboveFrontier)
    {
      completedAccounting := map[];
      var entries, i := completedAboveFrontierAccounting, 0;
      while i < |entries|
        invariant 0 <= i <= |entries|
        invariant completedAccounting == LoadAccounting(entries[..i], completedAboveFrontier, anchor.frontier)
        invariant completedAccounting.Keys <= ToSet(completedAboveFrontier)
      {
        var m := entries[i];
        assert entries[..i + 1][..i] == entries[..i];
        var _, found := BinarySearch(completedAboveFrontier, m.seqNo);
        if m.seqNo > anchor.frontier && found {
          completedAccounting := completedAccounting[m.seqNo := m.media];
        }
        i := i + 1;
      }
      assert entries[..i] == entries;
      completedAboveFrontierAccounting := [];
    }

    method ResolveGaps()
      modifies this`resolvedAbove
      ensures resolvedAbove == old(resolvedAbove) + Above(GapSeqs(gaps), anchor.frontier)
    {
      var i := 0;
      while i < |gaps|
        invariant 0 <= i <= |gaps|
        invariant resolvedAbove == old(resolvedAbove) + Above(GapSeqs(gaps[..i]), anchor.frontier)
      {
        var g := gaps[i];
        ResolveRange(g.first, g.End());
        assert gaps[..i + 1] == gaps[..i] + [g];
        GapCoveredSnoc(gaps[..i], g);
        i := i + 1;
      }
      assert gaps[..i] == gaps;
    }

    method ResolveRange(lo: int, hi: int)
      modifies this`resolvedAbove
      ensures resolvedAbove == old(resolvedAbove) + Above(Range(lo, hi), anchor.frontier)
    {
      var s := lo;
      while s <= hi
        invariant lo <= s && (s <= hi + 1 || s == lo)
        invariant resolvedAbove == old(resolvedAbove) + Above(Range(lo, s - 1), anchor.frontier)
      {
        if s > anchor.frontier { resolvedAbove := resolvedAbove + {s}; }
        s := s + 1;
      }
    }

    method SetStage(s: Stage)
      modifies this`header
      ensures header == old(header).(stage := s)
    {
      header := header.(stage := s);
    }

    method ResetPerPartAccounting()
      modifies this`completedAboveFrontier, this`completedAboveFrontierAccounting, this`partTotal,
               this`resolvedAbove, this`completedAccounting
      ensures completedAboveFrontier == [] && ToSet(completedAboveFrontier) == {} && partTotal == NO_MEDIA
      ensures completedAboveFrontierAccounting == []
      ensures resolvedAbove == {} && completedAccounting == map[]
    {
      completedAboveFrontier, completedAboveFrontierAccounting, partTotal := [], [], NO_MEDIA;
      resolvedAbove, completedAccounting := {}, map[];
    }

    method ClearPendingSplit()
      modifies this`split
      ensures split == NO_SPLIT
    {
      split := NO_SPLIT;
    }

    method StartPart(partStart: int)
      modifies this
      ensures media == map[] && Value() == Checkpoints.StartPart(old(Value()), partStart) && Valid()
    {
      anchor := Anchor(partStart, true, partStart - 1);
      ResetPerPartAccounting();
      gaps := [];
      split := split.(boundary := 0, boundarySet := false, endListAtBoundary := false);
      media := map[];
    }

    method ShouldOpenNextPart(maxDiscontinuityParts: int, maxThresholdParts: int) returns (d: OpenDecision)
      ensures d == Checkpoints.ShouldOpenNextPart(Value(), maxDiscontinuityParts, maxThresholdParts)
    {
      if !split.pending { return NoSplit; }
      var maxParts := maxDiscontinuityParts;
      if split.threshold { maxParts := maxThresholdParts; }
      if maxParts <= 0 { return OpenNext; }
      var attemptIndex := header.currentPartIndex;
      if !split.threshold { attemptIndex := attemptIndex + header.emptySplitReanchors; }
      if attemptIndex >= maxParts { return CapExceeded; }
      return OpenNext;
    }

    method BeginNewPart()
      modifies this
      ensures media == map[] && Value() == Checkpoints.BeginNewPart(old(Value())) && Valid()
      ensures header.variant == NO_VARIANT && header.hadWindowRoll == old(header.hadWindowRoll)
      ensures !header.endListSeen && !anchor.started && gaps == old(gaps)
    {
      header := header.(currentPartIndex := header.currentPartIndex + 1);
      anchor := Anchor(0, false, 0);
      ResetPerPartAccounting();
      header := header.(variant := NO_VARIANT, endListSeen := false);
      ClearPendingSplit();
      SetStage(Auth);
      media := map[];
    }

    method ReanchorCurrentPartAfterEmptySplit()
      modifies this
      ensures media == map[] && Value() == ReanchorCurrentPart(old(Value())) && Valid()
      ensures header.variant == NO_VARIANT && header.hadWindowRoll == old(header.hadWindowRoll)
      ensures !header.endListSeen && !anchor.started && gaps == []
    {
      header := header.(emptySplitReanchors := header.emptySplitReanchors + 1);
      anchor := Anchor(0, false, 0);
      ResetPerPartAccounting();
      gaps := [];
      header := header.(variant := NO_VARIANT, endListSeen := false);
      ClearPendingSplit();
      SetStage(Auth);
      media := map[];
    }

    method ContinuePart()
      modifies this
      ensures media == map[] && Value() == Checkpoints.ContinuePart(old(Value())) && Valid()
      ensures header.variant == old(header.variant) && header.hadWindowRoll == old(header.hadWindowRoll)
      ensures header.emptySplitReanchors == old(header.emptySplitReanchors)
      ensures header.currentPartIndex == old(header.currentPartIndex) + 1
      ensures header.endListSeen ==
              (old(header.endListSeen) && (old(split.threshold) ==> old(split.endListAtBoundary)))
    {
      var end := anchor.frontier;
      if split.threshold && split.boundarySet { end := split.boundary; }
      header := header.(currentPartIndex := header.currentPartIndex + 1);
      anchor := Anchor(end + 1, true, end);
      ResetPerPartAccounting();
      gaps := [];
      if split.threshold && !split.endListAtBoundary { header := header.(endListSeen := false); }
      ClearPendingSplit();
      SetStage(Auth);
      media := map[];
    }

    // ---------- outcomes ----------

    /** Records a committed segment. The ledger stays exact unless its media counts twice. */
    method NoteCommittedSegmentUntilThreshold(s: int, m: Media, lim: Limits) returns (crossed: Option<int>)
      requires Valid()
      modifies this`gaps, this`partTotal, this`resolvedAbove, this`completedAboveFrontier,
               this`completedAccounting, this`anchor, this`media
      ensures Valid()
      ensures (PartLedger(), crossed) == Commit(old(PartLedger()), s, m, lim)
      ensures media == MediaAfterCommit(old(PartLedger()), old(media), s, m)
      ensures old(Exact()) ==> (Exact() <==> CountsOnce(old(PartLedger()), old(media), s))
    {
      ghost var l0, media0 := PartLedger(), media;
      crossed := RecordCommit(s, m, lim);
      media := MediaAfterCommit(l0, media0, s, m);
      if Inv(l0, media0) { CommitKeeps(l0, media0, s, m, lim); }
    }

    method RecordCommit(s: int, m: Media, lim: Limits) returns (crossed: Option<int>)
      requires Valid()
      modifies this`gaps, this`partTotal, this`resolvedAbove, this`completedAboveFrontier,
               this`completedAccounting, this`anchor
      ensures Valid()
      ensures (PartLedger(), crossed) == Commit(old(PartLedger()), s, m, lim)
    {
      ghost var l0 := PartLedger();
      var removedGap := DeleteSingleGap(s);
      if s <= anchor.frontier {
        crossed := None;
        if removedGap {
          partTotal := Plus(partTotal, m);
          if Reached(partTotal, lim) { crossed := Some(anchor.frontier); }
        } else {
          WithoutSingleNone(l0.gaps, s);
        }
      } else {
        resolvedAbove := resolvedAbove + {s};
        InsertCompleted(s);
        completedAccounting := completedAccounting[s := m];
        assert PartLedger() == WithCommit(l0, s, m);
        crossed := AdvanceUntilThreshold(lim);
      }
    }

    method NoteGapUntilThreshold(s: int, reason: GapReason, lim: Limits) returns (crossed: Option<int>)
      requires Valid()
      modifies this`gaps, this`partTotal, this`resolvedAbove, this`completedAboveFrontier,
               this`completedAccounting, this`anchor
      ensures Valid()
      ensures (PartLedger(), crossed) == Skip(old(PartLedger()), s, reason, lim)
      ensures old(Exact()) ==> Exact()
    {
      ghost var l0 := PartLedger();
      crossed := RecordGap(s, reason, lim);
      if Inv(l0, media) { SkipKeeps(l0, media, s, reason, lim); }
    }

    method RecordGap(s: int, reason: GapReason, lim: Limits) returns (crossed: Option<int>)
      requires Valid()
      modifies this`gaps, this`partTotal, this`resolvedAbove, this`completedAboveFrontier,
               this`completedAccounting, this`anchor
      ensures Valid()
      ensures (PartLedger(), crossed) == Skip(old(PartLedger()), s, reason, lim)
    {
      ghost var l0 := PartLedger();
      if s <= anchor.frontier { return None; }
      if s !in resolvedAbove {
        resolvedAbove := resolvedAbove + {s};
        gaps := gaps + [Gap(s, s, reason)];
      }
      crossed := AdvanceUntilThreshold(lim);
    }

    method NoteRangeGapUntilThreshold(from: int, to: int, reason: GapReason, lim: Limits) returns (crossed: Option<int>)
      requires Valid()
      modifies this`gaps, this`partTotal, this`resolvedAbove, this`completedAboveFrontier,
               this`completedAccounting, this`anchor
      ensures Valid()
      ensures (PartLedger(), crossed) == Roll(old(PartLedger()), from, to, reason, lim)
      ensures old(Exact()) ==> Exact()
    {
      ghost var l0 := PartLedger();
      crossed := RecordRangeGap(from, to, reason, lim);
      if Inv(l0, media) { RollKeeps(l0, media, from, to, reason, lim); }
    }

    method RecordRangeGap(from: int, to: int, reason: GapReason, lim: Limits) returns (crossed: Option<int>)
      requires Valid()
      modifies this`gaps, this`partTotal, this`resolvedAbove, this`completedAboveFrontier,
               this`completedAccounting, this`anchor
      ensures Valid()
      ensures (PartLedger(), crossed) == Roll(old(PartLedger()), from, to, reason, lim)
    {
      ghost var l0 := PartLedger();
      var start := from;
      if to < start { return None; }
      if start <= anchor.frontier { start := anchor.frontier + 1; }
      if to < start { return None; }
      gaps := gaps + [Gap(start, to, reason)];
      FillRange(start, to);
      assert PartLedger() == WithRoll(l0, start, to, reason);
      crossed := AdvanceUntilThreshold(lim);
    }

    method FillRange(lo: int, hi: int)
      requires lo <= hi
      modifies this`resolvedAbove
      ensures resolvedAbove == old(resolvedAbove) + Range(lo, hi)
    {
      var s := lo;
      while s <= hi
        invariant lo <= s <= hi + 1
        invariant resolvedAbove == old(resolvedAbove) + Range(lo, s - 1)
      {
        resolvedAbove := resolvedAbove + {s};
        s := s + 1;
      }
    }

    method AdvanceUntilThreshold(lim: Limits) returns (crossed: Option<int>)
      requires Valid()
      modifies this`partTotal, this`resolvedAbove, this`completedAboveFrontier,
               this`completedAccounting, this`anchor
      ensures Valid()
      ensures (PartLedger(), crossed) == Advance(old(PartLedger()), lim)
    {
      ghost var l0 := PartLedger();
      MoveToStart(l0);
      while true
        invariant Ascending(completedAboveFrontier)
        invariant l0.frontier <= anchor.frontier
        invariant PartLedger() == MoveTo(l0, anchor.frontier)
        invariant Ledgers.Stop(l0, l0.frontier, lim) == Ledgers.Stop(l0, anchor.frontier, lim)
        decreases |resolvedAbove|
      {
        MoveToAbove(l0, anchor.frontier);
        var next := anchor.frontier + 1;
        if next !in resolvedAbove { return None; }
        FoldNext(l0);
        if Reached(partTotal, lim) {
          MoveToAbove(l0, next);
          return Some(next);
        }
      }
    }

    /** Moves the frontier over its resolved successor. */
    method FoldNext(ghost l0: Ledger)
      requires Ascending(completedAboveFrontier)
      requires AboveFrontier(l0) && l0.frontier <= anchor.frontier && PartLedger() == MoveTo(l0, anchor.frontier)
      modifies this`partTotal, this`resolvedAbove, this`completedAboveFrontier,
               this`completedAccounting, this`anchor
      ensures Ascending(completedAboveFrontier)
      ensures anchor.frontier == old(anchor.frontier) + 1
      ensures resolvedAbove == old(resolvedAbove) - {anchor.frontier}
      ensures PartLedger() == MoveTo(l0, anchor.frontier)
    {
      MoveToStep(l0, anchor.frontier);
      MoveToAbove(l0, anchor.frontier);
      var next := anchor.frontier + 1;
      resolvedAbove := resolvedAbove - {next};
      FoldBuffered(next);
      anchor := anchor.(frontier := next);
    }

    /** Folds a buffered sequence's media into the part total. */
    method FoldBuffered(next: int)
      requires Ascending(completedAboveFrontier)
      requires completedAccounting.Keys <= ToSet(completedAboveFrontier)
      modifies this`partTotal, this`completedAboveFrontier, this`completedAccounting
      ensures Ascending(completedAboveFrontier)
      ensures ToSet(completedAboveFrontier) == old(ToSet(completedAboveFrontier)) - {next}
      ensures completedAccounting == old(completedAccounting) - {next}
      ensures partTotal == if next in old(ToSet(completedAboveFrontier))
                           then Plus(old(partTotal), AcctOf(old(PartLedger()), next))
                           else old(partTotal)
    {
      var i, found := BinarySearch(completedAboveFrontier, next);
      if found {
        if next in completedAccounting { partTotal := Plus(partTotal, completedAccounting[next]); }
        completedAccounting := completedAccounting - {next};
        DeleteEntry(completedAboveFrontier, i);
        completedAboveFrontier := completedAboveFrontier[..i] + completedAboveFrontier[i + 1..];
      }
    }

    method InsertCompleted(s: int)
      requires Ascending(completedAboveFrontier)
      modifies this`completedAboveFrontier
      ensures Ascending(completedAboveFrontier)
      ensures ToSet(completedAboveFrontier) == old(ToSet(completedAboveFrontier)) + {s}
    {
      var i, found := BinarySearch(completedAboveFrontier, s);
      if found { return; }
      InsertEntry(completedAboveFrontier, i, s);
      completedAboveFrontier := completedAboveFrontier[..i] + [s] + completedAboveFrontier[i..];
    }

    method DeleteSingleGap(s: int) returns (removed: bool)
      modifies this`gaps
      ensures gaps == WithoutSingle(old(gaps), s)
      ensures removed <==> HasSingle(old(gaps), s)
    {
      var kept, i := [], 0;
      removed := false;
      while i < |gaps|
        invariant 0 <= i <= |gaps|
        invariant kept == WithoutSingle(gaps[..i], s)
        invariant removed <==> HasSingle(gaps[..i], s)
      {
        var g := gaps[i];
        assert gaps[..i + 1] == gaps[..i] + [g] && gaps[..i + 1][..i] == gaps[..i];
        assert g in gaps[..i + 1];
        if g.SingleAt(s) { removed := true; } else { kept := kept + [g]; }
        i := i + 1;
      }
      assert gaps[..i] == gaps;
      gaps := kept;
    }

    // ---------- the split boundary ----------

    method SealThresholdSplitBoundary(b: int)
      requires Valid()
      modifies this`split, this`completedAboveFrontier, this`completedAccounting, this`gaps, this`resolvedAbove,
               this`media
      ensures Valid() && Value() == SealSplit(old(Value()), b)
      ensures media == MediaUpTo(old(media), b)
    {
      split := split.(boundary := b, boundarySet := true);
      DropAbove(b);
      media := MediaUpTo(media, b);
    }

    method DropAbove(b: int)
      requires Valid()
      modifies this`completedAboveFrontier, this`completedAccounting, this`gaps, this`resolvedAbove
      ensures Valid() && PartLedger() == Seal(old(PartLedger()), b)
    {
      ghost var l0 := PartLedger();
      DropBufferedAbove(b);
      TrimGapsToBoundary(b);
      DropResolvedAbove(b);
      ghost var buffered, resolved := Above(l0.buffered, b), Above(l0.resolved - Above(l0.buffered, b), b);
      assert Above(l0.buffered + l0.resolved, b) == buffered + resolved;
      assert l0.resolved - Above(l0.resolved, b) == l0.resolved - buffered - resolved;
      assert l0.accounting - buffered - resolved == l0.accounting - (buffered + resolved);
    }

    method DropBufferedAbove(b: int)
      requires Ascending(completedAboveFrontier)
      modifies this`completedAboveFrontier, this`completedAccounting, this`resolvedAbove
      ensures Ascending(completedAboveFrontier)
      ensures ToSet(completedAboveFrontier) ==
                old(ToSet(completedAboveFrontier)) - Above(old(ToSet(completedAboveFrontier)), b)
      ensures resolvedAbove == old(resolvedAbove) - Above(old(ToSet(completedAboveFrontier)), b)
      ensures completedAccounting == old(completedAccounting) - Above(old(ToSet(completedAboveFrontier)), b)
    {
      var all, kept, i := completedAboveFrontier, [], 0;
      while i < |all|
        invariant 0 <= i <= |all|
        invariant Ascending(kept)
        invariant forall s :: s in kept <==> s in all[..i] && s <= b
        invariant resolvedAbove == old(resolvedAbove) - Above(ToSet(all[..i]), b)
        invariant completedAccounting == old(completedAccounting) - Above(ToSet(all[..i]), b)
      {
        var s := all[i];
        PrefixBelow(all, i);
        assert forall x :: x in all[..i + 1] <==> x in all[..i] || x == s;
        assert forall k | 0 <= k < |kept| :: kept[k] in kept;
        if s > b {
          resolvedAbove := resolvedAbove - {s};
          completedAccounting := completedAccounting - {s};
        } else {
          kept := kept + [s];
        }
        i := i + 1;
      }
      assert all[..i] == all;
      completedAboveFrontier := kept;
    }

    method DropResolvedAbove(b: int)
      modifies this`completedAccounting, this`resolvedAbove
      ensures resolvedAbove == old(resolvedAbove) - Above(old(resolvedAbove), b)
      ensures completedAccounting == old(completedAccounting) - Above(old(resolvedAbove), b)
    {
      var todo := resolvedAbove;
      while todo != {}
        invariant todo <= old(resolvedAbove)
        invariant resolvedAbove == old(resolvedAbove) - Above(old(resolvedAbove) - todo, b)
        invariant completedAccounting == old(completedAccounting) - Above(old(resolvedAbove) - todo, b)
        decreases |todo|
      {
        HasMember(todo);
        var s :| s in todo;
        assert old(resolvedAbove) - (todo - {s}) == old(resolvedAbove) - todo + {s};
        todo := todo - {s};
        if s > b {
          resolvedAbove := resolvedAbove - {s};
          completedAccounting := completedAccounting - {s};
        }
      }
    }

    method TrimGapsToBoundary(b: int)
      modifies this`gaps
      ensures gaps == TrimGaps(old(gaps), b)
    {
      var out, i := [], 0;
      while i < |gaps|
        invariant 0 <= i <= |gaps|
        invariant out == TrimGaps(gaps[..i], b)
      {
        var g := gaps[i];
        assert gaps[..i + 1][..i] == gaps[..i];
        i := i + 1;
        if g.first > b { continue; }
        if g.last > b { g := g.(last := b); }
        out := out + [g];
      }
      assert gaps[..i] == gaps;
      gaps := out;
    }

    // ---------- readers ----------

    /** The auth gaps a restart must refetch. */
    method AuthGapSeqs() returns (out: seq<int>)
      ensures forall s :: s in out <==> Gap(s, s, AuthError) in gaps
    {
      out := [];
      var i := 0;
      while i < |gaps|
        invariant 0 <= i <= |gaps|
        invariant forall s :: s in out <==> Gap(s, s, AuthError) in gaps[..i]
      {
        var g := gaps[i];
        if g.reason == AuthError && g.first == g.last { out := out + [g.first]; }
        i := i + 1;
      }
    }

    /** The sequences above or inside the part that must not be fetched again; the range up to
        the frontier is left to the caller. */
    method SkipSet() returns (skip: set<int>)
      ensures forall s :: s in skip <==> s in completedAboveFrontier || GapCovered(gaps, s)
      ensures forall s :: Ledgers.ShouldSkip(PartLedger(), s) <==> s <= anchor.frontier || s in skip
    {
      skip := set s | s in completedAboveFrontier;
      var i := 0;
      while i < |gaps|
        invariant 0 <= i <= |gaps|
        invariant forall s :: s in skip <==> s in completedAboveFrontier || GapCovered(gaps[..i], s)
      {
        var g, s := gaps[i], gaps[i].first;
        ghost var before := skip;
        while s <= g.End()
          invariant g.first <= s <= g.End() + 1
          invariant skip == before + Range(g.first, s - 1)
        {
          skip := skip + {s};
          s := s + 1;
        }
        assert gaps[..i + 1] == gaps[..i] + [g];
        GapCoveredSnoc(gaps[..i], g);
        i := i + 1;
      }
      assert gaps[..i] == gaps;
    }

    method ShouldSkip(s: int) returns (skip: bool)
      requires Valid()
      ensures skip <==> Ledgers.ShouldSkip(PartLedger(), s)
    {
      if s <= anchor.frontier { return true; }
      var _, found := BinarySearch(completedAboveFrontier, s);
      if found { return true; }
      var i := 0;
      while i < |gaps|
        invariant 0 <= i <= |gaps|
        invariant !GapCovered(gaps[..i], s)
      {
        assert gaps[i] in gaps;
        if gaps[i].first <= s <= gaps[i].End() {
          assert gaps[i].Covers(s);
          return true;
        }
        assert gaps[..i + 1] == gaps[..i] + [gaps[i]];
        GapCoveredSnoc(gaps[..i], gaps[i]);
        i := i + 1;
      }
      assert gaps[..i] == gaps;
      return false;
    }

    method MarshalJSON() returns (j: Saved)
      requires Valid()
      ensures Saves(Value(), j)
    {
      var entries: seq<Accounting>, i := [], 0;
      while i < |completedAboveFrontier|
        invariant 0 <= i <= |completedAboveFrontier|
        invariant entries == AccountingList(completedAboveFrontier[..i], completedAccounting)
      {
        var s := completedAboveFrontier[i];
        assert completedAboveFrontier[..i + 1][..i] == completedAboveFrontier[..i];
        if s in completedAccounting { entries := entries + [Accounting(s, completedAccounting[s])]; }
        i := i + 1;
      }
      assert completedAboveFrontier[..i] == completedAboveFrontier;
      j := Saved(header.stage, header.currentPartIndex, header.emptySplitReanchors, header.variant,
                 anchor.partStart, anchor.started, anchor.frontier, completedAboveFrontier, entries, gaps,
                 partTotal, header.endListSeen, header.hadWindowRoll, split);
    }
  }
}
