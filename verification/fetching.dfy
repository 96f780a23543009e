/** The auth-refresh loop around hls.Run: folding an attempt's result, and what the next attempt
    must fetch again. hls.Run itself is the environment: any events, then any result that
    reports every sequence of the attempt. */
module Fetching {
  import opened Prelude
  import opened Ledgers
  import opened LedgerFacts
  import opened Checkpoints
  import opened Resume
  import opened Accountants

  /** What one hls.Run returns. Done and gap counts are seeded with the running totals. */
  datatype RunResult = RunResult(
    segmentsDone: int,
    segmentsGaps: int,
    segmentsAdGaps: int,
    segmentsCanceled: int,
    bytesWritten: int,
    kind: string,
    initURI: string,
    lastMediaSeq: int,
    endList: bool,
    canceledSeqs: seq<int>,
    authErrorSeqs: seq<int>)

  datatype Aggregate = Aggregate(
    segmentsDone: int,
    segmentsGaps: int,
    segmentsAdGaps: int,
    segmentsCanceled: int,
    bytesWritten: int,
    kind: string,
    initURI: string,
    lastMediaSeq: int,
    endList: bool)

  const EMPTY_AGGREGATE := Aggregate(0, 0, 0, 0, 0, "", "", 0, false)

  /** The canceled sequences, old and new, that the ledger still does not resolve. */
  function FoldUnresolved(unresolved: set<int>, r: RunResult, l: Ledger): set<int> {
    set s | s in unresolved + ToSet(r.canceledSeqs) && !ShouldSkip(l, s)
  }

  function FoldAggregate(a: Aggregate, r: RunResult, unresolved: set<int>): Aggregate {
    Aggregate(
      r.segmentsDone,
      r.segmentsGaps,
      a.segmentsAdGaps + r.segmentsAdGaps,
      a.segmentsCanceled + r.segmentsCanceled,
      a.bytesWritten + r.bytesWritten,
      if r.kind != "" then r.kind else a.kind,
      if r.initURI != "" then r.initURI else a.initURI,
      if r.lastMediaSeq > a.lastMediaSeq then r.lastMediaSeq else a.lastMediaSeq,
      a.endList || (r.endList && unresolved == {}))
  }

  class AttemptTotals {
    var agg: Aggregate
    var unresolvedCanceled: set<int>

    constructor ()
      ensures agg == EMPTY_AGGREGATE && unresolvedCanceled == {}
    {
      agg, unresolvedCanceled := EMPTY_AGGREGATE, {};
    }

    method FoldHLSAttemptResult(r: RunResult, resume: ResumeState)
      requires resume.Valid()
      modifies this
      ensures unresolvedCanceled == FoldUnresolved(old(unresolvedCanceled), r, resume.PartLedger())
      ensures agg == FoldAggregate(old(agg), r, unresolvedCanceled)
    {
      AddCanceled(r.canceledSeqs, resume);
      DropResolved(resume);
      assert unresolvedCanceled == FoldUnresolved(old(unresolvedCanceled), r, resume.PartLedger());
      FoldCounters(r);
    }

    method FoldCounters(r: RunResult)
      modifies this`agg
      ensures agg == FoldAggregate(old(agg), r, unresolvedCanceled)
    {
      var a := agg.(segmentsDone := r.segmentsDone, segmentsGaps := r.segmentsGaps,
                    segmentsAdGaps := agg.segmentsAdGaps + r.segmentsAdGaps,
                    segmentsCanceled := agg.segmentsCanceled + r.segmentsCanceled,
                    bytesWritten := agg.bytesWritten + r.bytesWritten);
      if r.kind != "" { a := a.(kind := r.kind); }
      if r.initURI != "" { a := a.(initURI := r.initURI); }
      if r.lastMediaSeq > a.lastMediaSeq { a := a.(lastMediaSeq := r.lastMediaSeq); }
      if r.endList && |unresolvedCanceled| == 0 { a := a.(endList := true); }
      agg := a;
    }

    method AddCanceled(canceled: seq<int>, resume: ResumeState)
      requires resume.Valid()
      modifies this`unresolvedCanceled
      ensures unresolvedCanceled ==
              old(unresolvedCanceled) + set s | s in canceled && !ShouldSkip(resume.PartLedger(), s)
    {
      var i := 0;
      while i < |canceled|
        invariant 0 <= i <= |canceled|
        invariant unresolvedCanceled ==
                  old(unresolvedCanceled) + set s | s in canceled[..i] && !ShouldSkip(resume.PartLedger(), s)
      {
        var s := canceled[i];
        assert canceled[..i + 1] == canceled[..i] + [s];
        var skip := resume.ShouldSkip(s);
        if !skip { unresolvedCanceled := unresolvedCanceled + {s}; }
        i := i + 1;
      }
      assert canceled[..i] == canceled;
    }

    method DropResolved(resume: ResumeState)
      requires resume.Valid()
      modifies this`unresolvedCanceled
      ensures unresolvedCanceled == set s | s in old(unresolvedCanceled) && !ShouldSkip(resume.PartLedger(), s)
    {
      var todo := unresolvedCanceled;
      while todo != {}
        invariant todo <= old(unresolvedCanceled)
        invariant unresolvedCanceled ==
                  set s | s in old(unresolvedCanceled) && (s in todo || !ShouldSkip(resume.PartLedger(), s))
        decreases |todo|
      {
        HasMember(todo);
        var s :| s in todo;
        todo := todo - {s};
        var skip := resume.ShouldSkip(s);
        if skip { unresolvedCanceled := unresolvedCanceled - {s}; }
      }
    }
  }

  predicate Sorted(s: seq<int>) { forall i, j | 0 <= i < j < |s| :: s[i] <= s[j] }

  method InsertSorted(sorted: seq<int>, x: int) returns (r: seq<int>)
    requires Sorted(sorted)
    ensures Sorted(r) && ToSet(r) == ToSet(sorted) + {x} && |r| == |sorted| + 1
  {
    var k := 0;
    while k < |sorted| && sorted[k] <= x
      invariant 0 <= k <= |sorted|
      invariant forall i | 0 <= i < k :: sorted[i] <= x
    {
      k := k + 1;
    }
    r := sorted[..k] + [x] + sorted[k..];
    assert sorted == sorted[..k] + sorted[k..];
  }

  /** Go's slices.Sort on the refetch list. */
  method Sort(all: seq<int>) returns (out: seq<int>)
    ensures Sorted(out) && ToSet(out) == ToSet(all) && |out| == |all|
  {
    out := [];
    var i := 0;
    while i < |all|
      invariant 0 <= i <= |all| && |out| == i
      invariant Sorted(out) && ToSet(out) == ToSet(all[..i])
    {
      out := InsertSorted(out, all[i]);
      assert all[..i + 1] == all[..i] + [all[i]];
      i := i + 1;
    }
    assert all[..i] == all;
  }

  /** The sequences the next attempt must fetch again, in order. */
  method RefetchSeqsForNextAttempt(authErrorSeqs: seq<int>, unresolvedCanceled: set<int>) returns (out: seq<int>)
    ensures Sorted(out) && ToSet(out) == ToSet(authErrorSeqs) + unresolvedCanceled
  {
    var all, todo := authErrorSeqs, unresolvedCanceled;
    while todo != {}
      invariant todo <= unresolvedCanceled
      invariant forall x :: x in all <==> x in authErrorSeqs || x in unresolvedCanceled - todo
      decreases |todo|
    {
      HasMember(todo);
      var s :| s in todo;
      todo := todo - {s};
      if s !in all { all := all + [s]; }
    }
    assert unresolvedCanceled - todo == unresolvedCanceled;
    forall x ensures x in ToSet(all) <==> x in ToSet(authErrorSeqs) + unresolvedCanceled {
      assert x in all <==> x in authErrorSeqs || x in unresolvedCanceled - todo;
    }
    out := Sort(all);
  }

  // ---------- the loop over attempts ----------

  /** The loop's variables. `reported` is ghost: the sequences this attempt has reported. */
  datatype Fetch = Fetch(
    agg: Aggregate,
    unresolved: set<int>,
    refetch: set<int>,
    startSeq: int,
    reported: set<int>)

  function AuthGaps(gaps: seq<Gap>): set<int> {
    set g | g in gaps && g.reason == AuthError && g.first == g.last :: g.first
  }

  function NewFetch(c: Checkpoint): Fetch {
    Fetch(EMPTY_AGGREGATE, {}, AuthGaps(c.ledger.gaps), if c.ledger.started then c.ledger.frontier + 1 else 0, {})
  }

  function EventSeqs(e: Event): set<int> {
    match e
    case Seen(o) => {o.s}
    case Rolled(from, to) => Range(from, to)
  }

  function Report(f: Fetch, e: Event): Fetch { f.(reported := f.reported + EventSeqs(e)) }

  function EndAttempt(f: Fetch, r: RunResult, l: Ledger): Fetch {
    var unresolved := FoldUnresolved(f.unresolved, r, l);
    var agg := FoldAggregate(f.agg, r, unresolved);
    Fetch(agg, unresolved, ToSet(r.authErrorSeqs) + unresolved, agg.lastMediaSeq + 1, {})
  }

  /** What the environment promises of an attempt: every sequence from its start to its last is
      reported as an event, a window roll or a canceled fetch. */
  ghost predicate Reports(f: Fetch, r: RunResult) {
    && r.lastMediaSeq >= 0
    && forall s | f.startSeq <= s <= r.lastMediaSeq :: s in f.reported || s in r.canceledSeqs
  }

  /** An attempt that ends before its first outcome. Its last sequence is the zero value, which also
      is what an attempt reports that got as far as sequence 0. */
  predicate Silent(f: Fetch, r: RunResult) {
    r.lastMediaSeq == 0 && r.canceledSeqs == [] && r.authErrorSeqs == [] && f.reported == {}
  }

  /** The attempt reports what it went through, or is silent where that costs nothing. */
  ghost predicate Tells(f: Fetch, r: RunResult, l: Ledger) {
    Reports(f, r) || (Silent(f, r) && (f.startSeq >= 1 || (f.startSeq == 0 && ShouldSkip(l, 0))))
  }

  /** No hole below the next start: everything there is resolved or known to be canceled. */
  ghost predicate FetchInv(f: Fetch, l: Ledger) {
    && 0 <= f.agg.lastMediaSeq
    && (f.agg.lastMediaSeq < f.startSeq || (f.agg.lastMediaSeq == 0 && f.startSeq <= 0))
    && (forall s | l.partStart <= s < f.startSeq :: ShouldSkip(l, s) || s in f.unresolved)
    && (forall s <- f.reported :: ShouldSkip(l, s))
    && f.unresolved <= f.refetch
    && (f.agg.endList ==> f.unresolved == {} && f.startSeq == f.agg.lastMediaSeq + 1)
  }

  lemma NewFetchInv(c: Checkpoint)
    requires c.ledger.started
    ensures FetchInv(NewFetch(c), c.ledger)
  {
  }

  lemma ReportKeeps(f: Fetch, p: Part, e: Event, lim: Limits)
    requires PartInv(p) && !p.c.split.boundarySet && FetchInv(f, p.c.ledger)
    ensures var p' := Apply(p, e, lim);
            !p'.c.split.boundarySet ==> FetchInv(Report(f, e), p'.c.ledger)
  {
    ApplyResolves(p, e, lim);
  }

  /** No hole across refreshes: after an attempt every sequence from the part start to the
      aggregate's last is resolved or on the next refetch list, and the aggregate's ENDLIST
      turns true only when no canceled sequence is unresolved. */
  lemma EndAttemptKeeps(f: Fetch, r: RunResult, l: Ledger)
    requires FetchInv(f, l) && Tells(f, r, l)
    ensures var f' := EndAttempt(f, r, l);
            && (forall s | l.partStart <= s <= f'.agg.lastMediaSeq :: ShouldSkip(l, s) || s in f'.refetch)
            && (f'.agg.endList && !f.agg.endList ==> r.endList && f'.unresolved == {})
            && (!f.agg.endList ==> FetchInv(f', l))
  {
  }

  /** What the next attempt is asked to fetch again: the segments that the expired token lost, and the
      canceled ones, of this attempt or an earlier one, that nothing has resolved since. */
  lemma RefetchListExact(f: Fetch, r: RunResult, l: Ledger, s: int)
    ensures s in EndAttempt(f, r, l).refetch <==>
            s in r.authErrorSeqs || ((s in f.unresolved || s in r.canceledSeqs) && !ShouldSkip(l, s))
  {
  }

  /** The first attempt of a part that starts no later than it asks for: if it ends silently, nothing
      below the next start is lost if and only if it asked for 1 or more, or 0 is resolved. */
  lemma SilentAttemptExact(f: Fetch, r: RunResult, l: Ledger)
    requires FetchInv(f, l) && f.agg == EMPTY_AGGREGATE && f.unresolved == {} && l.partStart <= f.startSeq
    requires f.startSeq >= 0 && Silent(f, r) && !r.endList
    ensures FetchInv(EndAttempt(f, r, l), l) <==> f.startSeq >= 1 || ShouldSkip(l, 0)
    ensures EndAttempt(f, r, l).startSeq == 1
  {
    if f.startSeq >= 1 || ShouldSkip(l, 0) {
      EndAttemptKeeps(f, r, l);
    } else {
      assert 0 !in EndAttempt(f, r, l).unresolved;
    }
  }

  /** What the fetch of one part goes through: callbacks, and attempts that end. */
  datatype Step = Happens(e: Event) | Ends(r: RunResult)

  function Taken(p: Part, f: Fetch, steps: seq<Step>, lim: Limits): (Part, Fetch) {
    if steps == [] then (p, f)
    else
      var (q, g) := Taken(p, f, steps[..|steps| - 1], lim);
      match steps[|steps| - 1]
      case Happens(e) => (Apply(q, e, lim), Report(g, e))
      case Ends(r) => (q, EndAttempt(g, r, q.c.ledger))
  }

  /** Every attempt reports what it went through, and no attempt follows one that saw the end. */
  ghost predicate Honest(p: Part, f: Fetch, steps: seq<Step>, lim: Limits) {
    steps != [] ==>
      && Honest(p, f, steps[..|steps| - 1], lim)
      && match steps[|steps| - 1]
         case Happens(_) => true
         case Ends(r) =>
           var g := Taken(p, f, steps[..|steps| - 1], lim).1;
           Tells(g, r, Taken(p, f, steps[..|steps| - 1], lim).0.c.ledger) && !g.agg.endList
  }

  /** No hole across any number of auth refreshes: while the part is not sealed, every sequence from
      the part start to below the next start is resolved or on the refetch list. */
  lemma {:induction false} NoHoleAcrossRefreshes(p: Part, f: Fetch, steps: seq<Step>, lim: Limits)
    requires PartInv(p) && FetchInv(f, p.c.ledger) && Honest(p, f, steps, lim)
    requires !Taken(p, f, steps, lim).0.c.split.boundarySet
    ensures var (q, g) := Taken(p, f, steps, lim);
            && PartInv(q) && FetchInv(g, q.c.ledger)
            && forall s | q.c.ledger.partStart <= s < g.startSeq :: ShouldSkip(q.c.ledger, s) || s in g.refetch
    decreases |steps|
  {
    if steps != [] {
      var before := steps[..|steps| - 1];
      var (q, g) := Taken(p, f, before, lim);
      TakenKeepsPart(p, f, before, lim);
      match steps[|steps| - 1]
      case Happens(e) =>
        ApplyShape(q, e, lim);
        NoHoleAcrossRefreshes(p, f, before, lim);
        ApplyKeeps(q, e, lim);
        ReportKeeps(g, q, e, lim);
      case Ends(r) =>
        NoHoleAcrossRefreshes(p, f, before, lim);
        EndAttemptKeeps(g, r, q.c.ledger);
    }
  }

  lemma {:induction false} TakenKeepsPart(p: Part, f: Fetch, steps: seq<Step>, lim: Limits)
    requires PartInv(p)
    ensures PartInv(Taken(p, f, steps, lim).0)
    decreases |steps|
  {
    if steps != [] {
      TakenKeepsPart(p, f, steps[..|steps| - 1], lim);
      match steps[|steps| - 1]
      case Happens(e) => ApplyKeeps(Taken(p, f, steps[..|steps| - 1], lim).0, e, lim);
      case Ends(r) =>
    }
  }

  /** Once ENDLIST holds, a settled part has resolved everything up to the aggregate's last. */
  lemma EndListMeansResolved(f: Fetch, r: RunResult, l: Ledger, media: map<int, Media>)
    requires FetchInv(f, l) && Tells(f, r, l) && !f.agg.endList
    requires Sound(l, media) && Settled(l)
    requires EndAttempt(f, r, l).agg.endList
    ensures l.frontier >= EndAttempt(f, r, l).agg.lastMediaSeq
    ensures l.frontier >= f.startSeq - 1
  {
    EndAttemptKeeps(f, r, l);
    var f' := EndAttempt(f, r, l);
    var s := l.frontier + 1;
    SkipIsResolved(l, media, s);
    assert !ShouldSkip(l, s) && l.partStart <= s;
    assert s !in f'.unresolved;
  }
}
