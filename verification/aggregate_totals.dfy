/** What the aggregate of a part's attempts says about them. */
module AggregateTotals {
  import opened Prelude
  import opened Ledgers
  import opened Accountants
  import opened Fetching

  /** The results of the attempts that ended, in order. */
  function Results(steps: seq<Step>): seq<RunResult> {
    if steps == [] then []
    else
      var last := steps[|steps| - 1];
      Results(steps[..|steps| - 1]) + if last.Ends? then [last.r] else []
  }

  function Bytes(rs: seq<RunResult>): int {
    if rs == [] then 0 else Bytes(rs[..|rs| - 1]) + rs[|rs| - 1].bytesWritten
  }

  function AdGaps(rs: seq<RunResult>): int {
    if rs == [] then 0 else AdGaps(rs[..|rs| - 1]) + rs[|rs| - 1].segmentsAdGaps
  }

  function Cancellations(rs: seq<RunResult>): int {
    if rs == [] then 0 else Cancellations(rs[..|rs| - 1]) + rs[|rs| - 1].segmentsCanceled
  }

  /** What is known now is the last text that says something, or else what was known before. */
  predicate ToldLast(told: seq<string>, before: string, now: string) {
    if forall t <- told :: t == "" then now == before
    else exists k | 0 <= k < |told| :: told[k] != "" && now == told[k] && forall j | k < j < |told| :: told[j] == ""
  }

  function Kinds(rs: seq<RunResult>): seq<string> { seq(|rs|, i requires 0 <= i < |rs| => rs[i].kind) }

  function InitURIs(rs: seq<RunResult>): seq<string> { seq(|rs|, i requires 0 <= i < |rs| => rs[i].initURI) }

  lemma ToldOneMore(told: seq<string>, before: string, now: string, t: string)
    requires ToldLast(told, before, now)
    ensures ToldLast(told + [t], before, if t != "" then t else now)
  {
    var more := told + [t];
    if t != "" {
      assert more[|told|] == t && t in more;
    } else if forall u <- told :: u == "" {
      assert forall u <- more :: u == "";
    } else {
      var k :| 0 <= k < |told| && told[k] != "" && now == told[k] && forall j | k < j < |told| :: told[j] == "";
      assert more[k] == told[k] && told[k] in more;
    }
  }

  /** Bytes, ad gaps and cancellations add up over the attempts; done and gap counts are those of the last
      one, whose counts include the earlier; kind and init segment are what was told last; and the last
      sequence is the largest of all. */
  ghost predicate Adds(before: Aggregate, rs: seq<RunResult>, a: Aggregate) {
    && Counts(before, rs, a)
    && ToldLast(Kinds(rs), before.kind, a.kind)
    && ToldLast(InitURIs(rs), before.initURI, a.initURI)
    && LastOf(before.lastMediaSeq, rs, a.lastMediaSeq)
  }

  predicate Counts(before: Aggregate, rs: seq<RunResult>, a: Aggregate) {
    && a.bytesWritten == before.bytesWritten + Bytes(rs)
    && a.segmentsAdGaps == before.segmentsAdGaps + AdGaps(rs)
    && a.segmentsCanceled == before.segmentsCanceled + Cancellations(rs)
    && a.segmentsDone == (if rs == [] then before.segmentsDone else rs[|rs| - 1].segmentsDone)
    && a.segmentsGaps == (if rs == [] then before.segmentsGaps else rs[|rs| - 1].segmentsGaps)
  }

  ghost predicate LastOf(before: int, rs: seq<RunResult>, last: int) {
    && last >= before && (forall r <- rs :: last >= r.lastMediaSeq)
    && (last == before || exists r <- rs :: last == r.lastMediaSeq)
  }

  lemma CountsOneMore(before: Aggregate, rs: seq<RunResult>, a: Aggregate, r: RunResult, unresolved: set<int>)
    requires Counts(before, rs, a)
    ensures Counts(before, rs + [r], FoldAggregate(a, r, unresolved))
  {
    var more := rs + [r];
    assert more[..|more| - 1] == rs;
  }

  lemma AddsOneMore(before: Aggregate, rs: seq<RunResult>, a: Aggregate, r: RunResult, unresolved: set<int>)
    requires Adds(before, rs, a)
    ensures Adds(before, rs + [r], FoldAggregate(a, r, unresolved))
  {
    var more, b := rs + [r], FoldAggregate(a, r, unresolved);
    assert Kinds(more) == Kinds(rs) + [r.kind];
    assert InitURIs(more) == InitURIs(rs) + [r.initURI];
    CountsOneMore(before, rs, a, r, unresolved);
    ToldOneMore(Kinds(rs), before.kind, a.kind, r.kind);
    ToldOneMore(InitURIs(rs), before.initURI, a.initURI, r.initURI);
    LastOneMore(before.lastMediaSeq, rs, a.lastMediaSeq, r, b.lastMediaSeq);
  }

  lemma LastOneMore(before: int, rs: seq<RunResult>, last: int, r: RunResult, last': int)
    requires LastOf(before, rs, last)
    requires last' == if r.lastMediaSeq > last then r.lastMediaSeq else last
    ensures LastOf(before, rs + [r], last')
  {
    assert r in rs + [r];
    if q :| q in rs && last == q.lastMediaSeq { assert q in rs + [r]; }
  }

  lemma NothingAdded(a: Aggregate)
    ensures Adds(a, [], a)
  {
    assert Kinds([]) == [] && InitURIs([]) == [];
  }

  /** One more step of the fetch, which leaves the aggregate alone unless an attempt ends. */
  lemma TakenOneMore(p: Part, f: Fetch, steps: seq<Step>, lim: Limits)
    requires steps != []
    ensures var before, last := steps[..|steps| - 1], steps[|steps| - 1];
            var (q, g) := Taken(p, f, before, lim);
            var f' := Taken(p, f, steps, lim).1;
            && (last.Happens? ==> f'.agg == g.agg && Results(steps) == Results(before))
            && (last.Ends? ==>
                  && f'.agg == FoldAggregate(g.agg, last.r, f'.unresolved)
                  && Results(steps) == Results(before) + [last.r])
  {
  }

  /** Over any number of attempts and callbacks the aggregate adds up as it should. */
  lemma {:induction false} AggregateExact(p: Part, f: Fetch, steps: seq<Step>, lim: Limits)
    ensures Adds(f.agg, Results(steps), Taken(p, f, steps, lim).1.agg)
    decreases |steps|
  {
    if steps == [] { NothingAdded(f.agg); }
    else {
      var before, last := steps[..|steps| - 1], steps[|steps| - 1];
      AggregateExact(p, f, before, lim);
      var g, f' := Taken(p, f, before, lim).1, Taken(p, f, steps, lim).1;
      TakenOneMore(p, f, steps, lim);
      if last.Ends? { AddsOneMore(f.agg, Results(before), g.agg, last.r, f'.unresolved); }
    }
  }

  /** An attempt that saw ENDLIST ended with no canceled segment unresolved. */
  ghost predicate EndsWhole(p: Part, f: Fetch, steps: seq<Step>, lim: Limits, k: nat)
    requires k < |steps|
  {
    steps[k].Ends? && steps[k].r.endList && Taken(p, f, steps[..k + 1], lim).1.unresolved == {}
  }

  /** The aggregate's ENDLIST is set if and only if one of the attempts saw it at a moment when no canceled
      segment was unresolved. */
  lemma {:induction false} EndListExact(p: Part, f: Fetch, steps: seq<Step>, lim: Limits)
    ensures Taken(p, f, steps, lim).1.agg.endList <==>
            f.agg.endList || exists k: nat :: k < |steps| && EndsWhole(p, f, steps, lim, k)
    decreases |steps|
  {
    if steps != [] {
      var n := |steps| - 1;
      var before := steps[..n];
      EndListExact(p, f, before, lim);
      TakenOneMore(p, f, steps, lim);
      EndsWholeBefore(p, f, steps, lim);
      assert steps[..n + 1] == steps;
      if steps[n].Ends? && steps[n].r.endList && Taken(p, f, steps, lim).1.unresolved == {} {
        assert EndsWhole(p, f, steps, lim, n);
      }
      if k: nat :| k < n && EndsWhole(p, f, before, lim, k) { assert EndsWhole(p, f, steps, lim, k); }
      if k: nat :| k < |steps| && EndsWhole(p, f, steps, lim, k) {
        if k < n { assert EndsWhole(p, f, before, lim, k); }
      }
    }
  }

  lemma EndsWholeBefore(p: Part, f: Fetch, steps: seq<Step>, lim: Limits)
    requires steps != []
    ensures forall k: nat | k < |steps| - 1 ::
              EndsWhole(p, f, steps, lim, k) <==> EndsWhole(p, f, steps[..|steps| - 1], lim, k)
  {
    forall k: nat | k < |steps| - 1
      ensures EndsWhole(p, f, steps, lim, k) <==> EndsWhole(p, f, steps[..|steps| - 1], lim, k)
    {
      assert steps[..k + 1] == steps[..|steps| - 1][..k + 1];
    }
  }
}
