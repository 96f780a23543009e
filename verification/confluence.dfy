/** The part boundary does not depend on the order in which workers finish: recording outcomes
    one at a time, cutting on the way, is the same as noting them all and cutting once. */
module Confluence {
  import opened Prelude
  import opened Ledgers
  import opened LedgerFacts
  import opened Checkpoints
  import opened Accountants

  function Play(p: Part, os: seq<Outcome>, lim: Limits): Part {
    if os == [] then p
    else Apply(Play(p, os[..|os| - 1], lim), Seen(os[|os| - 1]), lim)
  }

  predicate Distinct(os: seq<Outcome>) {
    forall i, j | 0 <= i < j < |os| :: os[i].s != os[j].s
  }

  /** A stream of outcomes on sequences the part has not resolved yet, each reported once,
      none of them an auth failure. */
  predicate FreshStream(p: Part, os: seq<Outcome>) {
    && (forall o <- os :: !o.AuthFailed? && o.s > p.c.ledger.frontier && o.s !in p.c.ledger.resolved)
    && Distinct(os)
  }

  function GapOf(o: Outcome): Gap
    requires !o.Committed?
  {
    Gap(o.s, o.s,
        match o
        case GapAccepted(_) => FetchFailure
        case AdSkipped(_) => StitchedAd
        case MalformedSkip(_) => Malformed
        case AuthFailed(_) => AuthError)
  }

  function NoteOne(l: Ledger, o: Outcome): Ledger {
    match o
    case Committed(s, m) => WithCommit(l, s, m)
    case _ => WithGap(l, o.s, GapOf(o).reason)
  }

  /** The ledger with every outcome noted and the frontier left where it was. */
  function NoteAll(l: Ledger, os: seq<Outcome>): Ledger {
    if os == [] then l else NoteOne(NoteAll(l, os[..|os| - 1]), os[|os| - 1])
  }

  function MediaAfterAll(media: map<int, Media>, os: seq<Outcome>): map<int, Media> {
    if os == [] then media else
      var o, rest := os[|os| - 1], MediaAfterAll(media, os[..|os| - 1]);
      if o.Committed? then rest[o.s := o.media] else rest
  }

  /** The batch form: note everything, advance once, cut once. */
  function Batch(p: Part, os: seq<Outcome>, lim: Limits): Part {
    var (l, crossed) := Advance(NoteAll(p.c.ledger, os), lim);
    CutIfCrossed(Part(p.c.(ledger := l), MediaAfterAll(p.media, os)), crossed)
  }

  // ---------- noting ----------

  function SeqsOf(os: seq<Outcome>): set<int> { set o | o in os :: o.s }

  lemma SeqsOfSnoc(os: seq<Outcome>)
    requires os != []
    ensures SeqsOf(os) == SeqsOf(os[..|os| - 1]) + {os[|os| - 1].s}
  {
    var k := |os| - 1;
    assert os == os[..k] + [os[k]];
    assert forall o <- os :: o == os[k] || o in os[..k];
  }

  lemma {:induction false} NoteAllShape(l: Ledger, os: seq<Outcome>)
    ensures var n := NoteAll(l, os);
            && n.frontier == l.frontier && n.partStart == l.partStart && n.total == l.total
            && n.resolved == l.resolved + SeqsOf(os)
  {
    if os != [] {
      NoteAllShape(l, os[..|os| - 1]);
      SeqsOfSnoc(os);
    }
  }

  lemma {:induction false} NoteAllKeeps(l: Ledger, media: map<int, Media>, os: seq<Outcome>)
    requires Sound(l, media) && forall o <- os :: o.s > l.frontier
    ensures var n, media' := NoteAll(l, os), MediaAfterAll(media, os);
            Sound(n, media') && (Conserved(l, media) ==> Conserved(n, media'))
    decreases |os|
  {
    if os != [] {
      var k := |os| - 1;
      var o, os' := os[k], os[..k];
      assert forall x <- os' :: x in os;
      NoteAllKeeps(l, media, os');
      NoteAllShape(l, os');
      var n, media' := NoteAll(l, os'), MediaAfterAll(media, os');
      match o {
        case Committed(s, m) => WithCommitKeeps(n, media', s, m);
        case _ => WithGapKeeps(n, media', o.s, GapOf(o).reason);
      }
    }
  }

  // ---------- one more outcome ----------

  /** A sequence above t does not matter below t. */
  lemma {:induction false} TotalAtBelow(n: Ledger, o: Outcome, t: int)
    requires t < o.s
    ensures TotalAt(NoteOne(n, o), t) == TotalAt(n, t)
    decreases t - n.frontier
  {
    if n.frontier < t { TotalAtBelow(n, o, t - 1); }
  }

  lemma {:induction false} StopBelow(n: Ledger, o: Outcome, t0: int, lim: Limits)
    requires Stop(n, t0, lim).0 < o.s
    ensures var (t, crossed) := Stop(n, t0, lim);
            Stop(NoteOne(n, o), t0, lim) == if crossed then (t, true) else Stop(NoteOne(n, o), t, lim)
    decreases |Above(n.resolved, t0)|
  {
    StopMeaningFrom(n, t0, lim);
    if t0 + 1 in n.resolved {
      TotalAtBelow(n, o, t0 + 1);
      if !Reached(TotalAt(n, t0 + 1), lim) {
        AboveShrinks(n.resolved, t0);
        StopBelow(n, o, t0 + 1, lim);
      }
    }
  }

  lemma {:induction false} StopMeaningFrom(n: Ledger, t0: int, lim: Limits)
    ensures Stop(n, t0, lim).0 >= t0 + if t0 + 1 in n.resolved then 1 else 0
    decreases |Above(n.resolved, t0)|
  {
    if t0 + 1 in n.resolved && !Reached(TotalAt(n, t0 + 1), lim) {
      AboveShrinks(n.resolved, t0);
      StopMeaningFrom(n, t0 + 1, lim);
    }
  }

  lemma NoteAfterMove(n: Ledger, o: Outcome, t: int)
    requires n.frontier <= t < o.s
    ensures NoteOne(MoveTo(n, t), o) == MoveTo(NoteOne(n, o), t)
  {
    TotalAtBelow(n, o, t);
    var a, b := NoteOne(MoveTo(n, t), o), MoveTo(NoteOne(n, o), t);
    assert a.buffered == b.buffered;
    assert a.resolved == b.resolved;
    assert a.accounting == b.accounting;
  }

  lemma {:induction false} TotalAtAfterMove(n: Ledger, t: int, s: int)
    requires n.frontier <= t <= s
    ensures TotalAt(MoveTo(n, t), s) == TotalAt(n, s)
    decreases s - t
  {
    if t < s { TotalAtAfterMove(n, t, s - 1); }
  }

  lemma {:induction false} StopAfterMove(n: Ledger, t: int, t0: int, lim: Limits)
    requires n.frontier <= t <= t0
    ensures Stop(MoveTo(n, t), t0, lim) == Stop(n, t0, lim)
    decreases |Above(n.resolved, t0)|
  {
    if t0 + 1 in n.resolved {
      TotalAtAfterMove(n, t, t0 + 1);
      AboveShrinks(n.resolved, t0);
      AboveShrinks(MoveTo(n, t).resolved, t0);
      StopAfterMove(n, t, t0 + 1, lim);
    }
  }

  lemma MoveAfterMove(n: Ledger, t: int, s: int)
    requires n.frontier <= t <= s
    ensures MoveTo(MoveTo(n, t), s) == MoveTo(n, s)
  {
    TotalAtAfterMove(n, t, s);
    var a, b := MoveTo(MoveTo(n, t), s), MoveTo(n, s);
    assert a.buffered == b.buffered;
    assert a.resolved == b.resolved;
    assert a.accounting == b.accounting;
  }

  /** Advance, without the special case for a frontier that stays. */
  lemma AdvanceIsMove(n: Ledger, lim: Limits)
    requires AboveFrontier(n)
    ensures var (t, crossed) := Stop(n, n.frontier, lim);
            Advance(n, lim) == (MoveTo(n, t), if crossed then Some(t) else None)
  {
    MoveToStart(n);
    StopMeaning(n, n.frontier, lim);
  }

  lemma SealForgets(n: Ledger, o: Outcome, b: int)
    requires o.s > b && !HasSingle(n.gaps, o.s) && o.s !in n.resolved && o.s !in n.accounting
    ensures Seal(NoteOne(n, o), b) == Seal(n, b)
  {
    var n' := NoteOne(n, o);
    if o.Committed? {
      WithoutSingleNone(n.gaps, o.s);
    } else {
      assert n'.gaps[..|n'.gaps| - 1] == n.gaps;
    }
    var x, y := Seal(n', b), Seal(n, b);
    assert x.buffered == y.buffered;
    assert x.resolved == y.resolved;
    assert x.accounting == y.accounting;
  }

  /** A sequence no outcome has resolved yet. */
  predicate FreshSeq(n: Ledger, s: int) {
    && s > n.frontier && s !in n.resolved && s !in n.accounting && !HasSingle(n.gaps, s)
    && AboveFrontier(n)
  }

  lemma SingleIsCovered(gaps: seq<Gap>, s: int)
    ensures HasSingle(gaps, s) ==> GapCovered(gaps, s)
  {
  }

  /** In a sound ledger an unresolved sequence leaves no trace. */
  lemma UnresolvedIsFresh(n: Ledger, media: map<int, Media>, s: int)
    requires Sound(n, media) && s > n.frontier && s !in n.resolved
    ensures FreshSeq(n, s)
  {
    SingleIsCovered(n.gaps, s);
  }

  lemma PrefixFresh(p: Part, os: seq<Outcome>)
    requires FreshStream(p, os) && os != []
    ensures FreshStream(p, os[..|os| - 1])
    ensures os[|os| - 1].s !in SeqsOf(os[..|os| - 1])
  {
    var k := |os| - 1;
    assert forall o <- os[..k] :: o in os;
    forall o | o in os[..k] ensures o.s != os[k].s {
      var i :| 0 <= i < k && os[i] == o;
    }
  }

  /** After a crossing, one more outcome neither moves the boundary nor survives the seal. */
  lemma OneMoreSealed(n: Ledger, o: Outcome, lim: Limits)
    requires FreshSeq(n, o.s)
    ensures var (t, crossed) := Stop(n, n.frontier, lim);
            crossed ==> && t < o.s
                        && Advance(n, lim) == (MoveTo(n, t), Some(t))
                        && Advance(NoteOne(n, o), lim) == (NoteOne(MoveTo(n, t), o), Some(t))
                        && Seal(NoteOne(MoveTo(n, t), o), t) == Seal(MoveTo(n, t), t)
  {
    var (t, crossed) := Stop(n, n.frontier, lim);
    StopMeaning(n, n.frontier, lim);
    if crossed {
      assert t < o.s;
      StopBelow(n, o, n.frontier, lim);
      NoteAfterMove(n, o, t);
      SealForgets(MoveTo(n, t), o, t);
    }
  }

  /** Before any crossing, one more outcome continues the advance where it stopped. */
  lemma OneMoreOpen(n: Ledger, o: Outcome, lim: Limits)
    requires FreshSeq(n, o.s)
    ensures var (t, crossed) := Stop(n, n.frontier, lim);
            !crossed ==> && t < o.s
                         && Advance(n, lim) == (MoveTo(n, t), None)
                         && Advance(NoteOne(MoveTo(n, t), o), lim) == Advance(NoteOne(n, o), lim)
  {
    var (t, crossed) := Stop(n, n.frontier, lim);
    StopMeaning(n, n.frontier, lim);
    AdvanceIsMove(n, lim);
    if !crossed {
      var n' := NoteOne(n, o);
      assert t < o.s;
      StopBelow(n, o, n.frontier, lim);
      NoteAfterMove(n, o, t);
      StopAfterMove(n', t, t, lim);
      StopMeaning(n', t, lim);
      MoveAfterMove(n', t, Stop(n', t, lim).0);
      NoteAboveFrontier(n, o);
      AdvanceIsMove(n', lim);
      MoveToAbove(n', t);
      AdvanceIsMove(MoveTo(n', t), lim);
    }
  }

  lemma NoteAboveFrontier(n: Ledger, o: Outcome)
    requires AboveFrontier(n) && o.s > n.frontier
    ensures AboveFrontier(NoteOne(n, o))
  {
  }

  lemma BatchStepSealed(p: Part, n: Ledger, media: map<int, Media>, o: Outcome, lim: Limits)
    requires !p.c.split.pending && n.started && n.frontier + 1 >= n.partStart
    requires FreshSeq(n, o.s) && Stop(n, n.frontier, lim).1
    ensures var media' := if o.Committed? then media[o.s := o.media] else media;
            var (l, x) := Advance(n, lim); var (l', x') := Advance(NoteOne(n, o), lim);
            CutIfCrossed(Part(p.c.(ledger := l'), media'), x') ==
            Apply(CutIfCrossed(Part(p.c.(ledger := l), media), x), Seen(o), lim)
  {
    var t := Stop(n, n.frontier, lim).0;
    OneMoreSealed(n, o, lim);
    StopMeaning(n, n.frontier, lim);
    var media' := if o.Committed? then media[o.s := o.media] else media;
    assert MediaUpTo(media', t) == MediaUpTo(media, t);
  }

  lemma BatchStepOpen(p: Part, n: Ledger, media: map<int, Media>, o: Outcome, lim: Limits)
    requires !p.c.split.pending && !p.c.split.threshold && !o.AuthFailed?
    requires FreshSeq(n, o.s) && !Stop(n, n.frontier, lim).1
    ensures var media' := if o.Committed? then media[o.s := o.media] else media;
            var (l, x) := Advance(n, lim); var (l', x') := Advance(NoteOne(n, o), lim);
            CutIfCrossed(Part(p.c.(ledger := l'), media'), x') ==
            Apply(CutIfCrossed(Part(p.c.(ledger := l), media), x), Seen(o), lim)
  {
    OneMoreOpen(n, o, lim);
  }

  /** Streaming refines the batch: whatever the order of a fresh stream, recording its outcomes
      one by one ends in exactly the state of noting them all and cutting once. */
  lemma {:induction false} StreamIsBatch(p: Part, os: seq<Outcome>, lim: Limits)
    requires PartInv(p) && !ShouldSkipSegmentFetch(p.c) && FreshStream(p, os)
    ensures Play(p, os, lim) == Batch(p, os, lim)
    decreases |os|
  {
    if os == [] {
      assert Stop(p.c.ledger, p.c.ledger.frontier, lim) == (p.c.ledger.frontier, false);
    } else {
      var k := |os| - 1;
      PrefixFresh(p, os);
      StreamIsBatch(p, os[..k], lim);
      NoteAllShape(p.c.ledger, os[..k]);
      NoteAllKeeps(p.c.ledger, p.media, os[..k]);
      var n, media := NoteAll(p.c.ledger, os[..k]), MediaAfterAll(p.media, os[..k]);
      UnresolvedIsFresh(n, media, os[k].s);
      if Stop(n, n.frontier, lim).1 { BatchStepSealed(p, n, media, os[k], lim); }
      else { BatchStepOpen(p, n, media, os[k], lim); }
    }
  }

  // ---------- the boundary ----------

  /** b is the least sequence above the frontier f whose contiguous prefix of committed media
      reaches a ceiling. */
  ghost predicate Crosses(start: int, f: int, resolved: set<int>, media: map<int, Media>, lim: Limits, b: int) {
    && f < b
    && (forall s | f < s <= b :: s in resolved)
    && (forall s | f < s < b :: !Reached(Total(media, start, s), lim))
    && Reached(Total(media, start, b), lim)
  }

  ghost predicate Crossing(p: Part, os: seq<Outcome>, lim: Limits, b: int) {
    Crosses(p.c.ledger.partStart, p.c.ledger.frontier, p.c.ledger.resolved + SeqsOf(os),
            MediaAfterAll(p.media, os), lim, b)
  }

  lemma NoCrossing(n: Ledger, media: map<int, Media>, lim: Limits, b: int)
    requires Anchored(n, media) && BufferExact(n, media) && Conserved(n, media) && !Stop(n, n.frontier, lim).1
    ensures !Crosses(n.partStart, n.frontier, n.resolved, media, lim, b)
  {
    var f := Stop(n, n.frontier, lim).0;
    StopMeaning(n, n.frontier, lim);
    if n.frontier < b <= f { TotalAtIsTotal(n, media, b); }
    else if f < b { assert f + 1 !in n.resolved; }
  }

  lemma AdvanceCrosses(n: Ledger, media: map<int, Media>, lim: Limits)
    requires Anchored(n, media) && BufferExact(n, media) && Conserved(n, media)
    ensures var (l, crossed) := Advance(n, lim);
            && (crossed.Some? ==> crossed.value == l.frontier
                                  && Crosses(n.partStart, n.frontier, n.resolved, media, lim, l.frontier))
            && (crossed.None? ==> forall b :: !Crosses(n.partStart, n.frontier, n.resolved, media, lim, b))
  {
    AdvanceMeaning(n, media, lim);
    var (f, crossed) := Stop(n, n.frontier, lim);
    if crossed {
      StopMeaning(n, n.frontier, lim);
      TotalAtIsTotal(n, media, f);
    } else {
      forall b ensures !Crosses(n.partStart, n.frontier, n.resolved, media, lim, b) { NoCrossing(n, media, lim, b); }
    }
  }

  lemma AdvanceMeansCrossing(p: Part, os: seq<Outcome>, lim: Limits)
    requires PartInv(p) && FreshStream(p, os) && Conserved(p.c.ledger, p.media)
    ensures var (l, crossed) := Advance(NoteAll(p.c.ledger, os), lim);
            && (crossed.Some? ==> crossed.value == l.frontier && Crossing(p, os, lim, l.frontier))
            && (crossed.None? ==> forall b :: !Crossing(p, os, lim, b))
            && Sound(l, MediaAfterAll(p.media, os))
            && l.partStart == p.c.ledger.partStart && l.frontier >= p.c.ledger.frontier
            && l.total == Total(MediaAfterAll(p.media, os), l.partStart, l.frontier)
  {
    var n, media := NoteAll(p.c.ledger, os), MediaAfterAll(p.media, os);
    NoteAllShape(p.c.ledger, os);
    NoteAllKeeps(p.c.ledger, p.media, os);
    AdvanceCrosses(n, media, lim);
    AdvanceSettles(n, lim);
    AdvanceKeeps(n, media, lim);
  }

  /** A fresh stream seals the part exactly when its media reach a ceiling along a contiguous
      prefix, and then it seals at the least such sequence, with that prefix as the part total. */
  lemma BoundaryIsLeast(p: Part, os: seq<Outcome>, lim: Limits)
    requires PartInv(p) && !ShouldSkipSegmentFetch(p.c) && FreshStream(p, os) && Conserved(p.c.ledger, p.media)
    ensures var r := Play(p, os, lim);
            && (r.c.split.boundarySet <==> exists b :: Crossing(p, os, lim, b))
            && (r.c.split.boundarySet ==>
                  && Crossing(p, os, lim, r.c.split.boundary)
                  && r.c.ledger.frontier == r.c.split.boundary
                  && r.c.ledger.total == Total(MediaAfterAll(p.media, os), p.c.ledger.partStart, r.c.split.boundary))
  {
    StreamIsBatch(p, os, lim);
    AdvanceMeansCrossing(p, os, lim);
    NoteAllKeeps(p.c.ledger, p.media, os);
  }

  // ---------- order independence ----------

  predicate SameOutcomes(os: seq<Outcome>, os': seq<Outcome>) {
    (forall o <- os :: o in os') && (forall o <- os' :: o in os)
  }

  /** Equal up to the order of the gap list. */
  ghost predicate SameUpToGapOrder(l: Ledger, l': Ledger) {
    l' == l.(gaps := l'.gaps) && forall g :: g in l.gaps <==> g in l'.gaps
  }

  lemma DistinctSnoc(os: seq<Outcome>)
    requires os != [] && Distinct(os)
    ensures var k := |os| - 1;
            && Distinct(os[..k])
            && (forall o :: o in os <==> o == os[k] || o in os[..k])
            && (forall o <- os[..k] :: o.s != os[k].s)
  {
    var k := |os| - 1;
    assert os == os[..k] + [os[k]];
    forall o | o in os[..k] ensures o.s != os[k].s {
      var i :| 0 <= i < k && os[i] == o;
    }
  }

  lemma {:induction false} MediaAfterAllIs(media: map<int, Media>, os: seq<Outcome>, s: int)
    requires Distinct(os)
    ensures var r := MediaAfterAll(media, os);
            if exists m :: Committed(s, m) in os then s in r && Committed(s, r[s]) in os
            else (s in r <==> s in media) && (s in media ==> r[s] == media[s])
    decreases |os|
  {
    if os != [] {
      MediaAfterAllIs(media, os[..|os| - 1], s);
      DistinctSnoc(os);
    }
  }

  lemma CommittedOnce(os: seq<Outcome>, s: int, m: Media, m': Media)
    requires Distinct(os) && Committed(s, m) in os && Committed(s, m') in os
    ensures m == m'
  {
    var i :| 0 <= i < |os| && os[i] == Committed(s, m);
    var j :| 0 <= j < |os| && os[j] == Committed(s, m');
    assert os[i].s == os[j].s;
  }

  lemma MediaAfterAllSame(media: map<int, Media>, os: seq<Outcome>, os': seq<Outcome>)
    requires SameOutcomes(os, os') && Distinct(os) && Distinct(os')
    ensures MediaAfterAll(media, os) == MediaAfterAll(media, os')
  {
    var r, r' := MediaAfterAll(media, os), MediaAfterAll(media, os');
    forall s ensures (s in r <==> s in r') && (s in r ==> r[s] == r'[s]) {
      MediaAfterAllIs(media, os, s);
      MediaAfterAllIs(media, os', s);
      if m :| Committed(s, m) in os {
        assert Committed(s, m) in os';
        CommittedOnce(os, s, r[s], r'[s]);
      } else {
        assert forall m :: Committed(s, m) in os' ==> Committed(s, m) in os;
      }
    }
  }

  ghost predicate CommittedIn(os: seq<Outcome>, s: int) { exists m :: Committed(s, m) in os }

  ghost predicate GapIn(os: seq<Outcome>, g: Gap) { exists o <- os :: !o.Committed? && g == GapOf(o) }

  lemma SameMembers(os: seq<Outcome>, os': seq<Outcome>)
    requires SameOutcomes(os, os')
    ensures SeqsOf(os) == SeqsOf(os')
    ensures forall s :: CommittedIn(os, s) <==> CommittedIn(os', s)
    ensures forall g :: GapIn(os, g) <==> GapIn(os', g)
  {
    assert forall o :: o in os <==> o in os';
  }

  /** The fields of the noted ledger, by membership in the stream alone. */
  ghost predicate NotedAs(l: Ledger, n: Ledger, os: seq<Outcome>) {
    && n == l.(buffered := n.buffered, accounting := MediaAfterAll(l.accounting, os), gaps := n.gaps,
               resolved := l.resolved + SeqsOf(os))
    && (forall s :: s in n.buffered <==> s in l.buffered || CommittedIn(os, s))
    && (forall g :: g in n.gaps <==> g in l.gaps || GapIn(os, g))
  }

  lemma SameNotes(l: Ledger, n: Ledger, n': Ledger, os: seq<Outcome>, os': seq<Outcome>)
    requires NotedAs(l, n, os) && NotedAs(l, n', os')
    requires SameOutcomes(os, os') && Distinct(os) && Distinct(os')
    ensures SameUpToGapOrder(n, n')
  {
    MediaAfterAllSame(l.accounting, os, os');
    SameMembers(os, os');
    forall s ensures s in n.buffered <==> s in n'.buffered {
      assert CommittedIn(os, s) <==> CommittedIn(os', s);
    }
    assert n.buffered == n'.buffered;
  }

  /** One more outcome, on a sequence that nothing resolves yet. */
  lemma NotedOneMore(l: Ledger, n: Ledger, os: seq<Outcome>)
    requires os != [] && NotedAs(l, n, os[..|os| - 1])
    requires os[|os| - 1].s !in n.resolved && !HasSingle(n.gaps, os[|os| - 1].s)
    ensures NotedAs(l, NoteOne(n, os[|os| - 1]), os)
  {
    var o := os[|os| - 1];
    SeqsOfSnoc(os);
    GapInSnoc(os);
    CommittedInSnoc(os);
    if o.Committed? { WithoutSingleNone(n.gaps, o.s); }
  }

  lemma {:induction false} NoteAllIs(p: Part, os: seq<Outcome>)
    requires PartInv(p) && FreshStream(p, os)
    ensures NotedAs(p.c.ledger, NoteAll(p.c.ledger, os), os)
    decreases |os|
  {
    if os != [] {
      var k := |os| - 1;
      PrefixFresh(p, os);
      DistinctSnoc(os);
      NoteAllIs(p, os[..k]);
      NoteAllKeeps(p.c.ledger, p.media, os[..k]);
      UnresolvedIsFresh(NoteAll(p.c.ledger, os[..k]), MediaAfterAll(p.media, os[..k]), os[k].s);
      NotedOneMore(p.c.ledger, NoteAll(p.c.ledger, os[..k]), os);
    }
  }

  lemma GapInSnoc(os: seq<Outcome>)
    requires os != []
    ensures var k := |os| - 1;
            forall g :: GapIn(os, g) <==> GapIn(os[..k], g) || (!os[k].Committed? && g == GapOf(os[k]))
  {
    var k := |os| - 1;
    assert forall o :: o in os <==> o == os[k] || o in os[..k];
  }

  lemma CommittedInSnoc(os: seq<Outcome>)
    requires os != []
    ensures var k := |os| - 1;
            forall s :: CommittedIn(os, s) <==> CommittedIn(os[..k], s) || (os[k].Committed? && os[k].s == s)
  {
    var k := |os| - 1;
    assert forall o :: o in os <==> o == os[k] || o in os[..k];
    forall s ensures CommittedIn(os, s) <==> CommittedIn(os[..k], s) || (os[k].Committed? && os[k].s == s) {
      if os[k].Committed? && os[k].s == s { assert Committed(s, os[k].media) in os; }
    }
  }

  // A gap list plays no part in where the frontier stops.

  lemma {:induction false} TotalAtIgnoresGaps(l: Ledger, gaps: seq<Gap>, t: int)
    ensures TotalAt(l.(gaps := gaps), t) == TotalAt(l, t)
    decreases t - l.frontier
  {
    if l.frontier < t { TotalAtIgnoresGaps(l, gaps, t - 1); }
  }

  lemma {:induction false} StopIgnoresGaps(l: Ledger, gaps: seq<Gap>, t: int, lim: Limits)
    ensures Stop(l.(gaps := gaps), t, lim) == Stop(l, t, lim)
    decreases |Above(l.resolved, t)|
  {
    if t + 1 in l.resolved {
      TotalAtIgnoresGaps(l, gaps, t + 1);
      AboveShrinks(l.resolved, t);
      StopIgnoresGaps(l, gaps, t + 1, lim);
    }
  }

  lemma NoteAllSame(p: Part, os: seq<Outcome>, os': seq<Outcome>)
    requires PartInv(p) && FreshStream(p, os) && FreshStream(p, os') && SameOutcomes(os, os')
    ensures SameUpToGapOrder(NoteAll(p.c.ledger, os), NoteAll(p.c.ledger, os'))
  {
    NoteAllIs(p, os);
    NoteAllIs(p, os');
    SameNotes(p.c.ledger, NoteAll(p.c.ledger, os), NoteAll(p.c.ledger, os'), os, os');
  }

  lemma AdvanceSame(n: Ledger, n': Ledger, lim: Limits)
    requires SameUpToGapOrder(n, n')
    ensures SameUpToGapOrder(Advance(n, lim).0, Advance(n', lim).0)
    ensures Advance(n, lim).1 == Advance(n', lim).1
  {
    StopIgnoresGaps(n, n'.gaps, n.frontier, lim);
    TotalAtIgnoresGaps(n, n'.gaps, Stop(n, n.frontier, lim).0);
  }

  lemma FreshConfluence(p: Part, os: seq<Outcome>, os': seq<Outcome>, lim: Limits)
    requires PartInv(p) && !ShouldSkipSegmentFetch(p.c)
    requires FreshStream(p, os) && FreshStream(p, os') && SameOutcomes(os, os')
    ensures SameResult(Play(p, os, lim), Play(p, os', lim))
  {
    StreamIsBatch(p, os, lim);
    StreamIsBatch(p, os', lim);
    NoteAllSame(p, os, os');
    MediaAfterAllSame(p.media, os, os');
    AdvanceSame(NoteAll(p.c.ledger, os), NoteAll(p.c.ledger, os'), lim);
  }

  /** The same split, frontier, totals, buffer and committed media, and the same set of gaps. */
  ghost predicate SameResult(r: Part, r': Part) {
    && r.c.split == r'.c.split && r.media == r'.media
    && SameUpToGapOrder(r.c.ledger, r'.c.ledger) && r'.c == r.c.(ledger := r'.c.ledger)
  }

  // ---------- outcomes that are reported again ----------

  /** Already counted by the part: a commit under its own media, any other outcome on what is resolved. */
  predicate Idle(l: Ledger, o: Outcome) { Counted(l, l.frontier, o) }

  /** The same, for a part whose frontier once stood at f0. */
  predicate Counted(l: Ledger, f0: int, o: Outcome) {
    if !o.Committed? then o.s <= l.frontier || o.s in l.resolved
    else if o.s <= f0 then !HasSingle(l.gaps, o.s)
    else !GapCovered(l.gaps, o.s)
         && (o.s <= l.frontier || (o.s in l.buffered && o.s in l.accounting && l.accounting[o.s] == o.media))
  }

  predicate Fresh(l: Ledger, o: Outcome) { !o.AuthFailed? && o.s > l.frontier && o.s !in l.resolved }

  /** Every outcome is fresh or already counted, and no sequence has two fresh outcomes; either may be
      reported any number of times. */
  predicate Stream(p: Part, os: seq<Outcome>) {
    forall o <- os :: Idle(p.c.ledger, o) || (Fresh(p.c.ledger, o) && forall o' <- os :: o'.s == o.s ==> o' == o)
  }

  /** The first report of each fresh outcome. */
  function FirstReports(l: Ledger, os: seq<Outcome>): seq<Outcome> {
    if os == [] then []
    else
      var before, o := os[..|os| - 1], os[|os| - 1];
      if Idle(l, o) || o in before then FirstReports(l, before) else FirstReports(l, before) + [o]
  }

  /** Counted, or above the cut. */
  predicate Past(q: Part, f0: int, o: Outcome) {
    (q.c.split.boundarySet && o.s > q.c.split.boundary) || Counted(q.c.ledger, f0, o)
  }

  /** A part being fetched since its frontier stood at f0. */
  ghost predicate Steady(q: Part, f0: int) {
    && PartInv(q) && !q.c.stage.AtOrAfter(PrepareInput) && f0 <= q.c.ledger.frontier
    && (q.c.split.pending ==> q.c.split.boundarySet) && (q.c.split.boundarySet ==> f0 < q.c.split.boundary)
  }

  /** What is counted changes nothing when it is reported again. */
  lemma Absorbed(q: Part, f0: int, o: Outcome, lim: Limits)
    requires Steady(q, f0) && Past(q, f0, o)
    ensures Apply(q, Seen(o), lim) == q
  {
    var l := q.c.ledger;
    SingleIsCovered(l.gaps, o.s);
    if !q.c.split.boundarySet {
      assert Settled(l);
      if o.Committed? && o.s > l.frontier {
        WithoutSingleNone(l.gaps, o.s);
        var w := WithCommit(l, o.s, o.media);
        assert w.buffered == l.buffered && w.resolved == l.resolved && w.accounting == l.accounting;
        assert w == l;
        assert q.media[o.s := o.media] == q.media;
      }
    }
  }

  lemma AdvanceCounted(l: Ledger, f0: int, o: Outcome, lim: Limits)
    requires Counted(l, f0, o)
    ensures Counted(Advance(l, lim).0, f0, o)
  {
    StopMeaning(l, l.frontier, lim);
  }

  lemma NoteCounted(l: Ledger, f0: int, o': Outcome, o: Outcome)
    requires Counted(l, f0, o) && o'.s != o.s
    ensures Counted(NoteOne(l, o'), f0, o)
  {
    if o'.Committed? { WithoutSingleCovers(l.gaps, o'.s, o.s); }
    else if o'.s !in l.resolved { GapCoveredSnoc(l.gaps, Gap(o'.s, o'.s, GapOf(o').reason)); }
  }

  lemma SealCounted(l: Ledger, f0: int, o: Outcome)
    requires Counted(l, f0, o) && o.s <= l.frontier && f0 < l.frontier
    ensures Counted(Seal(l, l.frontier), f0, o)
  {
    TrimCovers(l.gaps, l.frontier, o.s);
    if HasSingle(TrimGaps(l.gaps, l.frontier), o.s) {
      var g :| g in TrimGaps(l.gaps, l.frontier) && g.SingleAt(o.s);
      var h :| h in l.gaps && h.first <= l.frontier && g == CutGap(h, l.frontier);
      assert o.s <= f0 ==> h.SingleAt(o.s);
    }
  }

  lemma CutPast(q: Part, f0: int, o: Outcome, crossed: Option<int>)
    requires Counted(q.c.ledger, f0, o) && !q.c.split.boundarySet
    requires crossed.Some? ==> crossed.value == q.c.ledger.frontier && f0 < q.c.ledger.frontier
    ensures Past(CutIfCrossed(q, crossed), f0, o)
  {
    if crossed.Some? && o.s <= q.c.ledger.frontier && f0 < q.c.ledger.frontier { SealCounted(q.c.ledger, f0, o); }
  }

  /** A fresh outcome on another sequence leaves it counted. */
  lemma StaysPast(q: Part, f0: int, o': Outcome, o: Outcome, lim: Limits)
    requires Steady(q, f0) && Past(q, f0, o) && o'.s != o.s && !o'.AuthFailed?
    requires if q.c.split.boundarySet then o'.s > q.c.split.boundary else o'.s > q.c.ledger.frontier
    ensures Past(Apply(q, Seen(o'), lim), f0, o)
  {
    if !q.c.split.boundarySet {
      var n := NoteOne(q.c.ledger, o');
      NoteCounted(q.c.ledger, f0, o', o);
      AdvanceCounted(n, f0, o, lim);
      AdvanceSettles(n, lim);
      var (l, crossed) := Advance(n, lim);
      var media := if o'.Committed? then q.media[o'.s := o'.media] else q.media;
      CutPast(Part(q.c.(ledger := l), media), f0, o, crossed);
    }
  }

  /** And it is counted itself. */
  lemma BecomesPast(q: Part, f0: int, o: Outcome, lim: Limits)
    requires Steady(q, f0) && !o.AuthFailed?
    requires if q.c.split.boundarySet then o.s > q.c.split.boundary
             else o.s > q.c.ledger.frontier && o.s !in q.c.ledger.resolved
    ensures Past(Apply(q, Seen(o), lim), f0, o)
  {
    if !q.c.split.boundarySet {
      var n := NoteOne(q.c.ledger, o);
      SingleIsCovered(q.c.ledger.gaps, o.s);
      if o.Committed? { WithoutSingleNone(q.c.ledger.gaps, o.s); }
      AdvanceCounted(n, f0, o, lim);
      AdvanceSettles(n, lim);
      var (l, crossed) := Advance(n, lim);
      var media := if o.Committed? then q.media[o.s := o.media] else q.media;
      CutPast(Part(q.c.(ledger := l), media), f0, o, crossed);
    }
  }

  lemma StaysSteady(q: Part, f0: int, o: Outcome, lim: Limits)
    requires Steady(q, f0) && o.s > f0
    requires if q.c.split.boundarySet then o.s > q.c.split.boundary else o.s > q.c.ledger.frontier
    ensures Steady(Apply(q, Seen(o), lim), f0)
  {
    ApplyKeeps(q, Seen(o), lim);
    ApplyShape(q, Seen(o), lim);
    if !q.c.split.boundarySet {
      ApplyResolves(q, Seen(o), lim);
      CutsAtFrontier(q, Seen(o), lim);
    }
  }

  /** A sequence nothing has reported is still ahead of the frontier, or above the cut. */
  predicate Ahead(q: Part, s: int) {
    if q.c.split.boundarySet then s > q.c.split.boundary else s > q.c.ledger.frontier && s !in q.c.ledger.resolved
  }

  lemma UnreportedIsAhead(p: Part, fs: seq<Outcome>, s: int, lim: Limits)
    requires PartInv(p) && !ShouldSkipSegmentFetch(p.c) && FreshStream(p, fs)
    requires s > p.c.ledger.frontier && s !in p.c.ledger.resolved && s !in SeqsOf(fs)
    ensures Ahead(Play(p, fs, lim), s)
  {
    var n := NoteAll(p.c.ledger, fs);
    StreamIsBatch(p, fs, lim);
    NoteAllShape(p.c.ledger, fs);
    StopMeaning(n, n.frontier, lim);
    assert s !in n.resolved;
    assert s > Stop(n, n.frontier, lim).0;
  }

  /** The first reports are the fresh outcomes of the stream. */
  ghost predicate Firsts(l: Ledger, os: seq<Outcome>, fs: seq<Outcome>) {
    forall o :: o in fs <==> o in os && !Idle(l, o)
  }

  lemma {:induction false} FirstReportsAre(p: Part, os: seq<Outcome>)
    requires Stream(p, os)
    ensures FreshStream(p, FirstReports(p.c.ledger, os)) && Firsts(p.c.ledger, os, FirstReports(p.c.ledger, os))
  {
    if os != [] {
      var k, l := |os| - 1, p.c.ledger;
      var before, o := os[..k], os[k];
      assert os == before + [o];
      FirstReportsAre(p, before);
      if !Idle(l, o) && o !in before {
        forall o' <- FirstReports(l, before) ensures o'.s != o.s { assert o' in before && o' in os; }
      }
    }
  }

  /** The stream plays like its first reports, and has counted everything it reported. */
  ghost predicate LikeFirsts(p: Part, os: seq<Outcome>, lim: Limits) {
    var q, f0 := Play(p, os, lim), p.c.ledger.frontier;
    && q == Play(p, FirstReports(p.c.ledger, os), lim) && Steady(q, f0)
    && forall o | Idle(p.c.ledger, o) || o in os :: Past(q, f0, o)
  }

  lemma OneMoreRepeat(p: Part, os: seq<Outcome>, lim: Limits)
    requires os != [] && LikeFirsts(p, os[..|os| - 1], lim)
    requires Idle(p.c.ledger, os[|os| - 1]) || os[|os| - 1] in os[..|os| - 1]
    ensures LikeFirsts(p, os, lim)
  {
    var before, o := os[..|os| - 1], os[|os| - 1];
    assert forall x <- os :: x in before || x == o;
    Absorbed(Play(p, before, lim), p.c.ledger.frontier, o, lim);
  }

  lemma OneMoreFirst(p: Part, os: seq<Outcome>, lim: Limits)
    requires PartInv(p) && !ShouldSkipSegmentFetch(p.c) && Stream(p, os)
    requires os != [] && LikeFirsts(p, os[..|os| - 1], lim)
    requires !Idle(p.c.ledger, os[|os| - 1]) && os[|os| - 1] !in os[..|os| - 1]
    ensures LikeFirsts(p, os, lim)
  {
    var l, before, o := p.c.ledger, os[..|os| - 1], os[|os| - 1];
    var fs, q := FirstReports(l, before), Play(p, before, lim);
    assert forall x <- before :: x in os;
    assert forall x <- os :: x in before || x == o;
    FirstReportsAre(p, before);
    forall x <- fs ensures x.s != o.s { assert x in before; }
    UnreportedIsAhead(p, fs, o.s, lim);
    StaysSteady(q, l.frontier, o, lim);
    assert (fs + [o])[..|fs|] == fs;
    forall x | Idle(l, x) || x in os ensures Past(Apply(q, Seen(o), lim), l.frontier, x) {
      if x == o { BecomesPast(q, l.frontier, o, lim); }
      else { StaysPast(q, l.frontier, o, x, lim); }
    }
  }

  /** Reported again, an outcome changes nothing. */
  lemma {:induction false} PlaysLikeFirsts(p: Part, os: seq<Outcome>, lim: Limits)
    requires PartInv(p) && !ShouldSkipSegmentFetch(p.c) && Stream(p, os)
    ensures LikeFirsts(p, os, lim)
    decreases |os|
  {
    if os != [] {
      var before, o := os[..|os| - 1], os[|os| - 1];
      assert forall x <- before :: x in os;
      PlaysLikeFirsts(p, before, lim);
      if Idle(p.c.ledger, o) || o in before { OneMoreRepeat(p, os, lim); }
      else { OneMoreFirst(p, os, lim); }
    }
  }

  /** Boundary confluence: two orders of the same outcomes, each reported any number of times and
      perhaps counted by the part before, end in the same split, frontier, totals, buffer and committed
      media, and in the same set of gaps. */
  lemma BoundaryConfluence(p: Part, os: seq<Outcome>, os': seq<Outcome>, lim: Limits)
    requires PartInv(p) && !ShouldSkipSegmentFetch(p.c)
    requires Stream(p, os) && Stream(p, os') && SameOutcomes(os, os')
    ensures SameResult(Play(p, os, lim), Play(p, os', lim))
  {
    var fs, fs' := FirstReports(p.c.ledger, os), FirstReports(p.c.ledger, os');
    PlaysLikeFirsts(p, os, lim);
    PlaysLikeFirsts(p, os', lim);
    FirstReportsAre(p, os);
    FirstReportsAre(p, os');
    FreshConfluence(p, fs, fs', lim);
  }

  /** A stream of fresh outcomes on different sequences is such a stream. */
  lemma FreshIsStream(p: Part, os: seq<Outcome>)
    requires FreshStream(p, os)
    ensures Stream(p, os)
  {
    forall o, o' | o in os && o' in os && o'.s == o.s ensures o' == o {
      var i, j :| 0 <= i < |os| && 0 <= j < |os| && os[i] == o && os[j] == o';
      assert i == j;
    }
  }
}
