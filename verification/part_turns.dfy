/** What the three turns of the part loop carry over and what they reset, over whole histories. */
module PartTurns {
  import opened Prelude
  import opened Ledgers
  import opened LedgerFacts
  import opened Checkpoints
  import opened Accountants
  import opened PartGuards
  import opened PartLoopTermination

  ghost predicate HoldsRoll(gaps: seq<Gap>) { exists g <- gaps :: g.reason == RestartWindowRolled }

  // ---------- one fetch ----------

  /** A fetch only adds to what is locked, and never takes back a split that was asked for. */
  ghost predicate FetchCarries(c: Checkpoint, d: Checkpoint) {
    && Agrees(c.variant, d.variant)
    && d.hadWindowRoll == c.hadWindowRoll
    && (c.split.pending ==> d.split.pending)
    && (c.split.threshold ==> d.split.threshold)
  }

  lemma TakeCarries(p: Part, a: Act, lim: Limits)
    requires a.Reload? ==> Saves(p.c, a.j)
    ensures FetchCarries(p.c, Take(p, a, lim).c)
  {
    match a
    case Resolve(v) => ChangesExact(p.c.variant, v);
    case Happens(e) => ApplyShape(p, e, lim);
    case _ =>
  }

  lemma {:induction false} FetchKeepsLock(p: Part, acts: seq<Act>, lim: Limits)
    requires Possible(p, acts, lim)
    ensures FetchCarries(p.c, Fetched(p, acts, lim).c)
    decreases |acts|
  {
    if acts != [] {
      var k := |acts| - 1;
      FetchKeepsLock(p, acts[..k], lim);
      TakeCarries(Fetched(p, acts[..k], lim), acts[k], lim);
    }
  }

  /** A part that is not anchored yet starts at the playlist's base with nothing recorded and no boundary,
      keeping the split it was asked for and everything that is not about the part. */
  lemma AnchorStartsOver(p: Part, base: int, format: string, lim: Limits)
    requires !p.c.ledger.started
    ensures var q := Take(p, Anchor(base, format), lim);
            && q.c.ledger.started && q.c.ledger.partStart == base && q.c.ledger.frontier == base - 1
            && q.media == map[] && (forall s :: ShouldSkip(q.c.ledger, s) <==> s < base)
            && q.c.ledger.total == NO_MEDIA
            && q.c.split.pending == p.c.split.pending && q.c.split.threshold == p.c.split.threshold
            && !q.c.split.boundarySet && !q.c.split.endListAtBoundary
            && q.c == p.c.(ledger := q.c.ledger, split := q.c.split, variant := q.c.variant)
            && Agrees(p.c.variant, q.c.variant) && (p.c.variant.format == "" ==> q.c.variant.format == format)
  {
    assert forall s :: !GapCovered([], s);
  }

  // ---------- one turn ----------

  /** The whole of what a turn carries over. Only a threshold split keeps the variant lock, the anchor and a
      proven ENDLIST; only a discontinuity keeps the gaps; every turn keeps the window-roll signal and clears
      the split; and each counts one: a part, or a re-anchor of the same part. */
  ghost predicate TurnCarries(c: Checkpoint, t: Turn, d: Checkpoint) {
    && d.variant == (if t.Continue? then c.variant else NO_VARIANT)
    && d.hadWindowRoll == c.hadWindowRoll
    && (d.endListSeen <==> t.Continue? && c.endListSeen && c.split.endListAtBoundary)
    && d.ledger.gaps == (if t.BeginNew? then c.ledger.gaps else [])
    && (d.ledger.started <==> t.Continue?)
    && (t.Continue? ==>
          d.ledger.partStart == PartEnd(c) + 1 && forall s :: ShouldSkip(d.ledger, s) <==> s <= PartEnd(c))
    && d.ledger.buffered == {} && d.ledger.resolved == {} && d.ledger.accounting == map[]
    && d.ledger.total == NO_MEDIA
    && (if t.Reanchor? then d.partIndex == c.partIndex && d.reanchors == c.reanchors + 1
        else d.partIndex == c.partIndex + 1 && d.reanchors == c.reanchors)
    && d.split == NO_SPLIT && !ShouldSkipSegmentFetch(d)
  }

  lemma TurnLaw(p: Part, lap: Lap, lim: Limits, caps: Caps)
    requires Possible(p, lap.acts, lim) && Allows(Judged(p, lap, lim), lap.r, lap.turn, caps)
    ensures TurnCarries(Judged(p, lap, lim), lap.turn, AfterLap(p, lap, lim).c)
    ensures FetchCarries(p.c, Fetched(p, lap.acts, lim).c)
  {
    FetchKeepsLock(p, lap.acts, lim);
    assert forall s :: !GapCovered([], s);
  }

  // ---------- whole histories ----------

  function AfterLaps(p: Part, laps: seq<Lap>, lim: Limits): Part
    decreases |laps|
  {
    if laps == [] then p else AfterLaps(AfterLap(p, laps[0], lim), laps[1..], lim)
  }

  /** The part of one of the laps held a window roll when it was judged. */
  ghost predicate SawRoll(p: Part, laps: seq<Lap>, lim: Limits)
    decreases |laps|
  {
    laps != [] && (HoldsRoll(Fetched(p, laps[0].acts, lim).c.ledger.gaps)
                   || SawRoll(AfterLap(p, laps[0], lim), laps[1..], lim))
  }

  function Reanchored(laps: seq<Lap>): nat {
    if laps == [] then 0 else (if laps[0].turn.Reanchor? then 1 else 0) + Reanchored(laps[1..])
  }

  predicate OnlyThresholds(laps: seq<Lap>) { forall lap <- laps :: lap.turn.Continue? }

  lemma AgreesTransitive(a: Variant, b: Variant, c: Variant)
    requires Agrees(a, b) && Agrees(b, c)
    ensures Agrees(a, c)
  {
  }

  /** Along any chain of threshold splits nothing that is locked of the variant changes: parts that are cut
      from one stream were recorded from one variant. */
  lemma {:induction false} ThresholdsKeepVariant(p: Part, laps: seq<Lap>, lim: Limits, caps: Caps)
    requires History(p, laps, lim, caps) && OnlyThresholds(laps)
    ensures Agrees(p.c.variant, AfterLaps(p, laps, lim).c.variant)
    decreases |laps|
  {
    if laps != [] {
      TurnLaw(p, laps[0], lim, caps);
      var q := AfterLap(p, laps[0], lim);
      assert laps[0] in laps && forall lap <- laps[1..] :: lap in laps;
      ThresholdsKeepVariant(q, laps[1..], lim, caps);
      AgreesTransitive(p.c.variant, q.c.variant, AfterLaps(p, laps, lim).c.variant);
    }
  }

  /** A window roll of any part, whatever turns follow, is signalled to the end, and nothing else is. */
  lemma {:induction false} SignalExact(p: Part, laps: seq<Lap>, lim: Limits, caps: Caps)
    requires History(p, laps, lim, caps)
    ensures AfterLaps(p, laps, lim).c.hadWindowRoll <==> p.c.hadWindowRoll || SawRoll(p, laps, lim)
    decreases |laps|
  {
    if laps != [] {
      TurnLaw(p, laps[0], lim, caps);
      SignalExact(AfterLap(p, laps[0], lim), laps[1..], lim, caps);
    }
  }

  lemma {:induction false} CountersCount(p: Part, laps: seq<Lap>, lim: Limits, caps: Caps)
    requires History(p, laps, lim, caps)
    ensures var c := AfterLaps(p, laps, lim).c;
            c.partIndex == p.c.partIndex + |laps| - Reanchored(laps) && c.reanchors == p.c.reanchors + Reanchored(laps)
    decreases |laps|
  {
    if laps != [] {
      TurnLaw(p, laps[0], lim, caps);
      FetchKeepsCounters(p, laps[0].acts, lim);
      CountersCount(AfterLap(p, laps[0], lim), laps[1..], lim, caps);
    }
  }

  /** When the loop refuses to go round: after a recording's first laps, a split is refused if and only if its
      cap is on and spent. A threshold split spends by parts, any other by laps. */
  lemma CapRefusesExact(p: Part, laps: seq<Lap>, lap: Lap, lim: Limits, caps: Caps)
    requires p.c.partIndex == 1 && p.c.reanchors == 0 && History(p, laps, lim, caps)
    requires Possible(AfterLaps(p, laps, lim), lap.acts, lim)
    ensures var c := Judged(AfterLaps(p, laps, lim), lap, lim);
            var d := ShouldOpenNextPart(c, caps.discontinuity, caps.threshold);
            && (d == NoSplit <==> !c.split.pending)
            && (c.split.pending && c.split.threshold ==>
                  (d == CapExceeded <==> caps.threshold > 0 && 1 + |laps| - Reanchored(laps) >= caps.threshold))
            && (c.split.pending && !c.split.threshold ==>
                  (d == CapExceeded <==> caps.discontinuity > 0 && 1 + |laps| >= caps.discontinuity))
  {
    CountersCount(p, laps, lim, caps);
    FetchKeepsCounters(AfterLaps(p, laps, lim), lap.acts, lim);
  }
}
