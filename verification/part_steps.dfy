/** The part loop's own statements, run on the checkpoint object and the segment directory. */
module PartSteps {
  import opened Prelude
  import opened Ledgers
  import opened Checkpoints
  import opened Resume
  import opened PartGuards
  import PartLoop

  /** The media sequences that have a segment file in the part's directory. */
  class SegmentDir {
    var files: set<int>

    constructor (files: set<int>)
      ensures this.files == files
    {
      this.files := files;
    }

    /** Removes the files of segments fetched above a sealed boundary, and no other. */
    method PruneAfterBoundary(boundary: int)
      modifies this
      ensures files == set s | s in old(files) && s <= boundary
    {
      var todo := files;
      while todo != {}
        invariant todo <= old(files)
        invariant files == set s | s in old(files) && (s in todo || s <= boundary)
        decreases |todo|
      {
        HasMember(todo);
        var s :| s in todo;
        todo := todo - {s};
        if s > boundary { files := files - {s}; }
      }
    }
  }

  /** A checkpoint that was never anchored, beside a segment 0 on disk: the part started there. */
  method RecoverLegacySeqZeroPartStarted(dir: SegmentDir, resume: ResumeState) returns (recovered: bool)
    requires resume.Valid()
    modifies resume`anchor, resume`media
    ensures recovered <==> PartLoop.FindsSeqZero(old(resume.Value()), dir.files)
    ensures resume.Value() == old(resume.Value()).(ledger := resume.PartLedger())
    ensures resume.PartLedger() == if recovered then old(resume.PartLedger()).(started := true)
                                   else old(resume.PartLedger())
    ensures resume.Valid() && (!recovered ==> resume.media == old(resume.media))
    ensures recovered && old(resume.PartLedger()) == EMPTY_LEDGER ==>
              resume.Exact() && resume.media == map[0 := NO_MEDIA]
  {
    if resume.anchor.started || resume.header.stage != Segments || resume.anchor.partStart != 0
       || resume.anchor.frontier != 0 || |resume.completedAboveFrontier| > 0 || |resume.gaps| > 0
    {
      EmptyListing(resume.completedAboveFrontier);
      return false;
    }
    if 0 !in dir.files { return false; }
    resume.anchor := resume.anchor.(started := true);
    resume.media := map[0 := NO_MEDIA];
    assert Total(resume.media, 0, -1) == NO_MEDIA;
    return true;
  }

  method CountGapSeqs(gaps: seq<Gap>) returns (n: int)
    ensures n == GapSeqCount(gaps)
  {
    n := 0;
    var i := 0;
    while i < |gaps|
      invariant 0 <= i <= |gaps|
      invariant n == GapSeqCount(gaps[..i])
    {
      var g := gaps[i];
      assert gaps[..i + 1][..i] == gaps[..i];
      if g.End() >= g.first { n := n + (g.End() - g.first + 1); }
      i := i + 1;
    }
    assert gaps[..i] == gaps;
  }

  /** Carries the window-roll signal from the gaps to the checkpoint and the loop variable. */
  method CaptureHadWindowRoll(resume: ResumeState, hadWindowRoll: bool) returns (had: bool, changed: bool)
    modifies resume`header
    ensures had == (hadWindowRoll || exists g <- resume.gaps :: g.reason == RestartWindowRolled)
    ensures resume.header == old(resume.header).(hadWindowRoll := old(resume.header.hadWindowRoll) || had)
    ensures changed <==> resume.header != old(resume.header)
  {
    var before := resume.header.hadWindowRoll;
    had := hadWindowRoll;
    var i := 0;
    while i < |resume.gaps| && !had
      invariant 0 <= i <= |resume.gaps|
      invariant had == (hadWindowRoll || exists g <- resume.gaps[..i] :: g.reason == RestartWindowRolled)
    {
      assert resume.gaps[..i + 1] == resume.gaps[..i] + [resume.gaps[i]];
      if resume.gaps[i].reason == RestartWindowRolled { had := true; }
      i := i + 1;
    }
    assert !had ==> resume.gaps[..i] == resume.gaps;
    if had { resume.header := resume.header.(hadWindowRoll := true); }
    changed := resume.header.hadWindowRoll != before;
  }

  /** The ENDLIST bookkeeping after a fetch. */
  method NoteEndList(resume: ResumeState, r: JobResult) returns (changed: bool)
    modifies resume`header, resume`split
    ensures var c := NoteFetched(old(resume.Value()), r);
            resume.split == c.split && resume.header == old(resume.header).(endListSeen := c.endListSeen)
    ensures changed <==> resume.split != old(resume.split) || resume.header != old(resume.header)
  {
    changed := false;
    if r.endList {
      var sealed := resume.split.threshold && resume.split.boundarySet;
      if sealed && r.lastMediaSeq <= resume.split.boundary && !resume.split.endListAtBoundary {
        resume.split := resume.split.(endListAtBoundary := true);
        changed := true;
      }
      if !(sealed && r.lastMediaSeq > resume.split.boundary) && !resume.header.endListSeen {
        resume.header := resume.header.(endListSeen := true);
        changed := true;
      }
    }
  }

  /** Opens the next part of a pending split, unless there is none or the cap is spent. */
  method ContinueAfterPendingSplit(resume: ResumeState, discontinuityCap: int, thresholdCap: int)
      returns (d: OpenDecision)
    requires resume.Valid()
    modifies resume
    ensures d == Checkpoints.ShouldOpenNextPart(old(resume.Value()), discontinuityCap, thresholdCap)
    ensures d != OpenNext ==> resume.Value() == old(resume.Value())
    ensures d == OpenNext ==>
              resume.Value() == if old(resume.split).threshold then Checkpoints.ContinuePart(old(resume.Value()))
                                else Checkpoints.BeginNewPart(old(resume.Value()))
    ensures resume.Valid()
  {
    d := resume.ShouldOpenNextPart(discontinuityCap, thresholdCap);
    if d == OpenNext {
      if resume.split.threshold { resume.ContinuePart(); } else { resume.BeginNewPart(); }
    }
  }

  /** Re-anchors a part whose split produced no media. */
  method ReanchorAfterEmptySplit(resume: ResumeState, discontinuityCap: int, thresholdCap: int)
      returns (d: OpenDecision)
    requires resume.Valid()
    modifies resume
    ensures d == Checkpoints.ShouldOpenNextPart(old(resume.Value()), discontinuityCap, thresholdCap)
    ensures resume.Value() == if d == OpenNext then ReanchorCurrentPart(old(resume.Value())) else old(resume.Value())
    ensures resume.Valid()
  {
    d := resume.ShouldOpenNextPart(discontinuityCap, thresholdCap);
    if d == OpenNext { resume.ReanchorCurrentPartAfterEmptySplit(); }
  }
}
