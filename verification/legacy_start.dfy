/** Checkpoints that were written before the started flag existed: which of them reload as they were, and
    what the file of segment 0 is needed for. */
module LegacyStart {
  import opened Prelude
  import opened Ledgers
  import opened LedgerFacts
  import opened Checkpoints
  import opened PartLoop

  /** The fields of a checkpoint as a version without the flag wrote them. */
  function WithoutFlag(j: Saved): Saved { j.(started := false) }

  /** The part started at 0, has segment 0 and nothing else, and is still being fetched. */
  ghost predicate OnlySegmentZero(c: Checkpoint, media: map<int, Media>) {
    && c.ledger.partStart == 0 && c.ledger.frontier == 0 && media.Keys == {0} && c.ledger.gaps == []
    && !c.stage.AtOrAfter(PrepareInput)
  }

  lemma ShowsNothing(c: Checkpoint, media: map<int, Media>)
    requires Sound(c.ledger, media)
    ensures OnlySegmentZero(c, media) <==>
            && c.ledger.partStart == 0 && c.ledger.frontier == 0 && c.ledger.buffered == {} && c.ledger.gaps == []
            && !c.stage.AtOrAfter(PrepareInput)
  {
    var l := c.ledger;
    if l.partStart == 0 && l.frontier == 0 && l.gaps == [] {
      assert 0 in media || GapCovered(l.gaps, 0);
      if l.buffered == {} {
        forall s <- media.Keys ensures s == 0 { assert s > l.frontier ==> s in l.buffered; }
        assert media.Keys == {0};
      }
      assert forall s <- l.buffered :: s in media.Keys && s > 0;
    }
  }

  /** A valid started part reloads as it was from a checkpoint without the flag, unless it holds nothing but
      segment 0; that one is taken for a part that has not started. If it was in its fetch the file of
      segment 0 tells, and gives the part back; no other part is recovered from that file. */
  lemma FlaglessReloadExact(c: Checkpoint, media: map<int, Media>, j: Saved, files: set<int>)
    requires Sound(c.ledger, media) && Saves(c, j) && media.Keys <= files
    ensures var reloaded := Load(WithoutFlag(j));
            && (reloaded == c <==> !OnlySegmentZero(c, media))
            && (FindsSeqZero(reloaded, files) <==> OnlySegmentZero(c, media) && c.stage == Segments)
            && reloaded.(ledger := reloaded.ledger.(started := true)) == c
  {
    CrashRoundTrip(c, media, j);
    EmptyListing(j.completed);
    ShowsNothing(c, media);
    var reloaded := Load(WithoutFlag(j));
    assert reloaded == Load(j).(ledger := Load(j).ledger.(started := reloaded.ledger.started));
    if OnlySegmentZero(c, media) { assert 0 in media; }
  }
}
