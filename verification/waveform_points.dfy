/** Sharing a waveform's points among its parts by largest remainder, and what the shares promise. */
module WaveformPoints {
  import opened Prelude
  import opened Waveform

  /** A part's exact share of the points that are left after everyone got one. */
  function Exact(d: real, total: real, remaining: int): real
    requires total > 0.0
  {
    (d / total) * remaining as real
  }

  function Whole(d: real, total: real, remaining: int): int
    requires total > 0.0
  {
    Exact(d, total, remaining).Floor
  }

  datatype Remainder = Remainder(index: int, value: real)

  /** The sort order: larger remainders first, earlier parts first among equals. */
  predicate Ahead(a: Remainder, b: Remainder) {
    if a.value == b.value then a.index < b.index else a.value > b.value
  }

  function RemainderOf(ds: seq<real>, total: real, remaining: int, i: nat): Remainder
    requires total > 0.0 && i < |ds|
  {
    Remainder(i, Exact(ds[i], total, remaining) - Whole(ds[i], total, remaining) as real)
  }

  function Remainders(ds: seq<real>, total: real, remaining: int): seq<Remainder>
    requires total > 0.0
  {
    seq(|ds|, i requires 0 <= i < |ds| => RemainderOf(ds, total, remaining, i))
  }

  function Wholes(ds: seq<real>, total: real, remaining: int): seq<int>
    requires total > 0.0
  {
    seq(|ds|, i requires 0 <= i < |ds| => Whole(ds[i], total, remaining))
  }

  // ---------- sorting ----------

  predicate Ranked(rs: seq<Remainder>) { forall i, j | 0 <= i < j < |rs| :: Ahead(rs[i], rs[j]) }

  ghost predicate SameElements(a: seq<Remainder>, b: seq<Remainder>) { |a| == |b| && forall r :: r in a <==> r in b }

  method Insert(rs: seq<Remainder>, r: Remainder) returns (out: seq<Remainder>)
    requires Ranked(rs) && forall i | 0 <= i < |rs| :: rs[i].index != r.index
    ensures Ranked(out) && SameElements(out, rs + [r])
  {
    var k := 0;
    while k < |rs| && Ahead(rs[k], r)
      invariant 0 <= k <= |rs|
      invariant forall i | 0 <= i < k :: Ahead(rs[i], r)
    {
      k := k + 1;
    }
    out := rs[..k] + [r] + rs[k..];
    InsertAt(rs, k, r);
  }

  lemma InsertAt(rs: seq<Remainder>, k: nat, r: Remainder)
    requires Ranked(rs) && k <= |rs| && forall i | 0 <= i < |rs| :: rs[i].index != r.index
    requires (forall i | 0 <= i < k :: Ahead(rs[i], r)) && (k < |rs| ==> !Ahead(rs[k], r))
    ensures Ranked(rs[..k] + [r] + rs[k..]) && SameElements(rs[..k] + [r] + rs[k..], rs + [r])
  {
    var out := rs[..k] + [r] + rs[k..];
    BehindFrom(rs, k, r);
    assert forall i | 0 <= i < |out| :: out[i] == if i < k then rs[i] else if i == k then r else rs[i - 1];
    InsertedElements(rs, k, r);
  }

  lemma BehindFrom(rs: seq<Remainder>, k: nat, r: Remainder)
    requires Ranked(rs) && k <= |rs| && forall i | 0 <= i < |rs| :: rs[i].index != r.index
    requires k < |rs| ==> !Ahead(rs[k], r)
    ensures forall i | k <= i < |rs| :: Ahead(r, rs[i])
  {
    forall i | k <= i < |rs| ensures Ahead(r, rs[i]) {
      assert k < i ==> Ahead(rs[k], rs[i]);
    }
  }

  lemma InsertedElements(rs: seq<Remainder>, k: nat, r: Remainder)
    requires k <= |rs|
    ensures SameElements(rs[..k] + [r] + rs[k..], rs + [r])
  {
    assert rs == rs[..k] + rs[k..];
  }

  /** sort.SliceStable by Ahead. */
  method SortRemainders(rs: seq<Remainder>) returns (out: seq<Remainder>)
    requires forall i, j | 0 <= i < j < |rs| :: rs[i].index != rs[j].index
    ensures Ranked(out) && SameElements(out, rs)
  {
    out := [];
    var i := 0;
    while i < |rs|
      invariant 0 <= i <= |rs|
      invariant Ranked(out) && SameElements(out, rs[..i])
    {
      assert rs[..i + 1] == rs[..i] + [rs[i]];
      forall k | 0 <= k < |out| ensures out[k].index != rs[i].index {
        assert out[k] in rs[..i];
        var j :| 0 <= j < i && rs[j] == out[k];
      }
      out := Insert(out, rs[i]);
      i := i + 1;
    }
    assert rs[..i] == rs;
  }

  // ---------- the shares ----------

  lemma ExactAdds(a: real, b: real, total: real, remaining: int)
    requires total > 0.0
    ensures Exact(a, total, remaining) + Exact(b, total, remaining) == Exact(a + b, total, remaining)
  {
    assert a / total + b / total == (a + b) / total;
  }

  /** What a part's exact share is: as much of the points as its length is of the total. */
  lemma ExactIsShare(d: real, total: real, remaining: int)
    requires total > 0.0
    ensures Exact(d, total, remaining) * total == d * remaining as real
  {
    Cancels(d, total, remaining as real);
  }

  lemma Cancels(d: real, total: real, k: real)
    requires total > 0.0
    ensures (d / total) * k * total == d * k
  {
    var q := d / total;
    assert q * total == d;
    assert q * k * total == q * total * k;
  }

  lemma ExactMonotone(a: real, b: real, total: real, remaining: int)
    requires total > 0.0 && remaining > 0
    ensures a > b ==> Exact(a, total, remaining) > Exact(b, total, remaining)
    ensures a >= 0.0 ==> Exact(a, total, remaining) >= 0.0
  {
    if a > b {
      assert a / total > b / total;
      Scales(b / total, a / total, remaining as real);
    }
    if a >= 0.0 {
      assert a / total >= 0.0;
    }
  }

  lemma Scales(x: real, y: real, k: real)
    requires x < y && k > 0.0
    ensures x * k < y * k
  {
    assert (y - x) * k > 0.0;
  }

  function RemainderSum(rs: seq<Remainder>): real {
    if rs == [] then 0.0 else RemainderSum(rs[..|rs| - 1]) + rs[|rs| - 1].value
  }

  /** The whole parts and the remainders add up to everything that is left to share. */
  lemma {:induction false} SharesAddUp(ds: seq<real>, total: real, remaining: int)
    requires total > 0.0
    ensures Total(Wholes(ds, total, remaining)) as real + RemainderSum(Remainders(ds, total, remaining)) ==
            Exact(Sum(ds), total, remaining)
    decreases |ds|
  {
    if ds != [] {
      var front, d := ds[..|ds| - 1], ds[|ds| - 1];
      SharesAddUp(front, total, remaining);
      var ws, rs := Wholes(ds, total, remaining), Remainders(ds, total, remaining);
      assert ws[..|ws| - 1] == Wholes(front, total, remaining);
      assert rs[..|rs| - 1] == Remainders(front, total, remaining);
      ExactAdds(Sum(front), d, total, remaining);
    }
  }

  lemma ExactWhole(total: real, remaining: int)
    requires total > 0.0
    ensures Exact(total, total, remaining) == remaining as real
  {
    assert total / total == 1.0;
  }

  // ---------- who gets one more ----------

  predicate Proper(rs: seq<Remainder>) {
    && (forall r <- rs :: 0.0 <= r.value < 1.0)
    && (forall i, j | 0 <= i < j < |rs| :: rs[i].index != rs[j].index)
  }

  lemma RemaindersProper(ds: seq<real>, total: real, remaining: int)
    requires total > 0.0
    ensures Proper(Remainders(ds, total, remaining))
  {
  }

  function Nonzero(rs: seq<Remainder>): set<Remainder> { set r | r in rs && r.value > 0.0 }

  /** Remainders below one cannot add up to more than there are of them. */
  lemma {:induction false} SumBound(rs: seq<Remainder>)
    requires Proper(rs)
    ensures 0.0 <= RemainderSum(rs) <= |Nonzero(rs)| as real
  {
    if rs != [] {
      var front, last := rs[..|rs| - 1], rs[|rs| - 1];
      assert rs == front + [last];
      SumBound(front);
      if last.value > 0.0 {
        assert last !in Nonzero(front);
        assert Nonzero(rs) == Nonzero(front) + {last};
      } else {
        assert Nonzero(rs) == Nonzero(front);
      }
    }
  }

  lemma {:induction false} FewElements(rs: seq<Remainder>)
    ensures |set r | r in rs| <= |rs|
  {
    if rs != [] {
      var front, last := rs[..|rs| - 1], rs[|rs| - 1];
      FewElements(front);
      assert rs == front + [last];
      assert (set r | r in rs) == (set r | r in front) + {last};
    }
  }

  lemma RankedMonotone(ranked: seq<Remainder>)
    requires Ranked(ranked)
    ensures forall i, j | 0 <= i <= j < |ranked| :: ranked[i].value >= ranked[j].value
  {
    forall i, j | 0 <= i <= j < |ranked| ensures ranked[i].value >= ranked[j].value {
      if i < j { assert Ahead(ranked[i], ranked[j]); }
    }
  }

  /** As many of the first-ranked as there are nonzero remainders are nonzero. */
  lemma LeadersNonzero(rs: seq<Remainder>, ranked: seq<Remainder>, k: nat)
    requires Proper(rs) && Ranked(ranked) && SameElements(ranked, rs)
    requires k < |Nonzero(rs)|
    ensures |Nonzero(rs)| <= |rs| && ranked[k].value > 0.0
  {
    FewElements(rs);
    Subset(Nonzero(rs), set r | r in rs);
    assert ranked[k] in ranked;
    if ranked[k].value == 0.0 {
      var leaders := set r | r in ranked[..k];
      RankedMonotone(ranked);
      forall r <- Nonzero(rs) ensures r in leaders {
        assert r in ranked;
        var i :| 0 <= i < |ranked| && ranked[i] == r;
      }
      Subset(Nonzero(rs), leaders);
      FewElements(ranked[..k]);
    }
  }

  /** Part k is one of the first n in the ranking. */
  predicate Among(ranked: seq<Remainder>, n: int, k: int) {
    exists j :: 0 <= j < n && j < |ranked| && ranked[j].index == k
  }

  // ---------- what the shares promise ----------

  ghost predicate WithinOne(ds: seq<real>, total: real, remaining: int, points: seq<int>)
    requires total > 0.0 && |points| == |ds|
  {
    forall i | 0 <= i < |ds| ::
      Exact(ds[i], total, remaining) - 1.0 < (points[i] - 1) as real < Exact(ds[i], total, remaining) + 1.0
  }

  /** A longer part gets no fewer points, and of equal parts the earlier gets no fewer. */
  ghost predicate FairOrder(ds: seq<real>, points: seq<int>)
    requires |points| == |ds|
  {
    forall i, j | 0 <= i < |ds| && 0 <= j < |ds| && (ds[i] > ds[j] || (ds[i] == ds[j] && i < j)) ::
      points[i] >= points[j]
  }

  /** What part i got beyond its first point and its whole share. */
  function Extra(ds: seq<real>, total: real, remaining: int, points: seq<int>, i: nat): int
    requires total > 0.0 && |points| == |ds| && i < |ds|
  {
    points[i] - 1 - Whole(ds[i], total, remaining)
  }

  /** At most one more each, and to the largest remainders first: a part with the smaller remainder, or an
      equal one and a later place, has one more only if the other has. */
  ghost predicate LargestFirst(ds: seq<real>, total: real, remaining: int, points: seq<int>)
    requires total > 0.0 && |points| == |ds|
  {
    && (forall i | 0 <= i < |ds| :: 0 <= Extra(ds, total, remaining, points, i) <= 1)
    && forall i, j | 0 <= i < |ds| && 0 <= j < |ds| ::
         var a, b := RemainderOf(ds, total, remaining, i).value, RemainderOf(ds, total, remaining, j).value;
         a > b || (a == b && i < j) ==>
           Extra(ds, total, remaining, points, i) >= Extra(ds, total, remaining, points, j)
  }

  /** With no lengths to go by the points go round, earlier parts first. */
  ghost predicate RoundRobin(points: seq<int>) {
    forall i, j | 0 <= i < j < |points| :: points[j] <= points[i] <= points[j] + 1
  }

  ghost predicate Shares(ds: seq<real>, total: real, remaining: int, ranked: seq<Remainder>, extra: int,
                         points: seq<int>)
    requires total > 0.0
  {
    && |points| == |ds|
    && forall i | 0 <= i < |ds| ::
         points[i] == 1 + Whole(ds[i], total, remaining) + if Among(ranked, extra, i) then 1 else 0
  }

  lemma SharesWithinOne(ds: seq<real>, total: real, remaining: int, ranked: seq<Remainder>, extra: nat,
                        points: seq<int>)
    requires total > 0.0 && Shares(ds, total, remaining, ranked, extra, points)
    requires Ranked(ranked) && SameElements(ranked, Remainders(ds, total, remaining))
    requires extra <= |Nonzero(Remainders(ds, total, remaining))|
    ensures WithinOne(ds, total, remaining, points)
  {
    var rs := Remainders(ds, total, remaining);
    RemaindersProper(ds, total, remaining);
    forall i | 0 <= i < |ds|
      ensures Exact(ds[i], total, remaining) - 1.0 < (points[i] - 1) as real < Exact(ds[i], total, remaining) + 1.0
    {
      if Among(ranked, extra, i) {
        var j :| 0 <= j < extra && j < |ranked| && ranked[j].index == i;
        LeadersNonzero(rs, ranked, j);
        assert ranked[j] in ranked && rs[i].index == i;
        assert ranked[j] == rs[i];
      }
    }
  }

  lemma SharesFair(ds: seq<real>, total: real, remaining: int, ranked: seq<Remainder>, extra: nat, points: seq<int>)
    requires total > 0.0 && remaining > 0 && Shares(ds, total, remaining, ranked, extra, points)
    requires Ranked(ranked) && SameElements(ranked, Remainders(ds, total, remaining))
    ensures FairOrder(ds, points)
  {
    forall i, j | 0 <= i < |ds| && 0 <= j < |ds| && (ds[i] > ds[j] || (ds[i] == ds[j] && i < j))
      ensures points[i] >= points[j]
    {
      ExactMonotone(ds[i], ds[j], total, remaining);
      var rs := Remainders(ds, total, remaining);
      if Whole(ds[i], total, remaining) == Whole(ds[j], total, remaining) && Among(ranked, extra, j) {
        assert Ahead(rs[i], rs[j]);
        EarlierToo(rs, ranked, extra, i, j);
      }
    }
  }

  lemma SharesLargestFirst(ds: seq<real>, total: real, remaining: int, ranked: seq<Remainder>, extra: nat,
                           points: seq<int>)
    requires total > 0.0 && Shares(ds, total, remaining, ranked, extra, points)
    requires Ranked(ranked) && SameElements(ranked, Remainders(ds, total, remaining))
    ensures LargestFirst(ds, total, remaining, points)
  {
    var rs := Remainders(ds, total, remaining);
    forall i, j | 0 <= i < |ds| && 0 <= j < |ds| && (rs[i].value > rs[j].value || (rs[i].value == rs[j].value && i < j))
      ensures Extra(ds, total, remaining, points, i) >= Extra(ds, total, remaining, points, j)
    {
      if Among(ranked, extra, j) { EarlierToo(rs, ranked, extra, i, j); }
    }
  }

  lemma EarlierToo(rs: seq<Remainder>, ranked: seq<Remainder>, extra: nat, i: nat, j: nat)
    requires i < |rs| && j < |rs| && Ranked(ranked) && SameElements(ranked, rs)
    requires forall k | 0 <= k < |rs| :: rs[k].index == k
    requires Ahead(rs[i], rs[j]) && Among(ranked, extra, j)
    ensures Among(ranked, extra, i)
  {
    var b :| 0 <= b < extra && b < |ranked| && ranked[b].index == j;
    assert ranked[b] in rs && rs[i] in ranked;
    var a :| 0 <= a < |ranked| && ranked[a] == rs[i];
  }

  // ---------- allocation ----------

  /** Everyone starts with a point; a target below that is raised to it. */
  function Target(ds: seq<real>, target: int): int { if target < |ds| then |ds| else target }

  ghost predicate NonNegative(ds: seq<real>) { forall d <- ds :: d >= 0.0 }

  /** The promise: every part gets a point, the target is met exactly, and when the parts have a
      length each is within one of its exact share, longer never means fewer, and what the whole shares
      leave over goes to the largest remainders. */
  ghost predicate Allocated(ds: seq<real>, target: int, points: seq<int>) {
    && |points| == |ds|
    && Total(points) == Target(ds, target)
    && (forall p <- points :: p >= 1)
    && (Sum(ds) > 0.0 ==>
          && WithinOne(ds, Sum(ds), Target(ds, target) - |ds|, points) && FairOrder(ds, points)
          && LargestFirst(ds, Sum(ds), Target(ds, target) - |ds|, points))
    && (Sum(ds) <= 0.0 ==> RoundRobin(points))
  }

  method SumDurations(ds: seq<real>) returns (total: real)
    ensures total == Sum(ds)
  {
    total := 0.0;
    var i := 0;
    while i < |ds|
      invariant 0 <= i <= |ds| && total == Sum(ds[..i])
    {
      assert ds[..i + 1][..i] == ds[..i];
      total := total + ds[i];
      i := i + 1;
    }
    assert ds[..i] == ds;
  }

  /** points[at] += more, and what that does to the total. */
  method Bump(points: array<int>, at: int, more: int)
    requires 0 <= at < points.Length
    modifies points
    ensures forall k | 0 <= k < points.Length :: points[k] == old(points[k]) + if k == at then more else 0
    ensures Total(points[..]) == Total(old(points[..])) + more
  {
    TotalUpdate(points[..], at, points[at] + more);
    ghost var was := points[..];
    points[at] := points[at] + more;
    assert points[..] == was[at := was[at] + more];
  }

  lemma OneShareMore(ds: seq<real>, total: real, remaining: int, i: nat)
    requires total > 0.0 && i < |ds|
    ensures Total(Wholes(ds[..i + 1], total, remaining)) ==
            Total(Wholes(ds[..i], total, remaining)) + Whole(ds[i], total, remaining)
    ensures Remainders(ds[..i + 1], total, remaining) ==
            Remainders(ds[..i], total, remaining) + [RemainderOf(ds, total, remaining, i)]
  {
    var ws := Wholes(ds[..i + 1], total, remaining);
    assert ws[..i] == Wholes(ds[..i], total, remaining);
  }

  /** The whole shares, added to the first points, and what is left of each share. */
  method AddWholes(ds: seq<real>, total: real, remaining: int, points: array<int>)
      returns (given: int, rs: seq<Remainder>)
    requires total > 0.0 && points.Length == |ds| && forall i | 0 <= i < |ds| :: points[i] == 1
    modifies points
    ensures forall i | 0 <= i < |ds| :: points[i] == 1 + Whole(ds[i], total, remaining)
    ensures given == Total(Wholes(ds, total, remaining)) && rs == Remainders(ds, total, remaining)
    ensures Total(points[..]) == |ds| + given
  {
    given, rs := 0, [];
    TotalOf(points[..], 1);
    var i := 0;
    while i < |ds|
      invariant 0 <= i <= |ds|
      invariant forall j | 0 <= j < |ds| :: points[j] == if j < i then 1 + Whole(ds[j], total, remaining) else 1
      invariant given == Total(Wholes(ds[..i], total, remaining)) && rs == Remainders(ds[..i], total, remaining)
      invariant Total(points[..]) == |ds| + given
    {
      var exact := Exact(ds[i], total, remaining);
      var whole := exact.Floor;
      OneShareMore(ds, total, remaining, i);
      Bump(points, i, whole);
      given := given + whole;
      rs := rs + [Remainder(i, exact - whole as real)];
      i := i + 1;
    }
    assert ds[..i] == ds;
  }

  /** One more point each for the first of the ranking. The index never wraps round. */
  method AddExtras(ranked: seq<Remainder>, extra: int, points: array<int>)
    requires 0 <= extra <= |ranked| && |ranked| == points.Length
    requires forall r <- ranked :: 0 <= r.index < points.Length
    requires forall i, j | 0 <= i < j < |ranked| :: ranked[i].index != ranked[j].index
    modifies points
    ensures forall k | 0 <= k < points.Length :: points[k] == old(points[k]) + if Among(ranked, extra, k) then 1 else 0
    ensures Total(points[..]) == Total(old(points[..])) + extra
  {
    var i := 0;
    while i < extra
      invariant 0 <= i <= extra
      invariant forall k | 0 <= k < points.Length :: points[k] == old(points[k]) + if Among(ranked, i, k) then 1 else 0
      invariant Total(points[..]) == Total(old(points[..])) + i
    {
      SmallMod(i, |ranked|);
      var at := ranked[i % |ranked|].index;
      assert ranked[i] in ranked;
      AmongNext(ranked, i, at);
      Bump(points, at, 1);
      i := i + 1;
    }
  }

  lemma SmallMod(i: int, n: int)
    requires 0 <= i < n
    ensures i % n == i
  {
  }

  lemma AmongNext(ranked: seq<Remainder>, i: int, at: int)
    requires 0 <= i < |ranked| && ranked[i].index == at
    requires forall a, b | 0 <= a < b < |ranked| :: ranked[a].index != ranked[b].index
    ensures !Among(ranked, i, at)
    ensures forall k :: Among(ranked, i + 1, k) <==> Among(ranked, i, k) || k == at
  {
    forall k ensures Among(ranked, i + 1, k) <==> Among(ranked, i, k) || k == at {
      if Among(ranked, i, k) {
        var j :| 0 <= j < i && ranked[j].index == k;
      }
    }
  }

  method GoRound(remaining: int, points: array<int>)
    requires points.Length > 0 && remaining >= 0 && forall i | 0 <= i < points.Length :: points[i] == 1
    modifies points
    ensures RoundRobin(points[..]) && Total(points[..]) == points.Length + remaining
    ensures forall i | 0 <= i < points.Length :: points[i] >= 1
  {
    TotalOf(points[..], 1);
    ghost var laps := 0;
    var i := 0;
    while i < remaining
      invariant 0 <= i <= remaining && 0 <= laps && laps * points.Length <= i <= laps * points.Length + points.Length
      invariant forall k | 0 <= k < points.Length ::
                  points[k] == 1 + laps + if k < i - laps * points.Length then 1 else 0
      invariant Total(points[..]) == points.Length + i
    {
      if i == laps * points.Length + points.Length {
        NextLap(laps, points.Length);
        laps := laps + 1;
      }
      LapIndex(i, laps, points.Length);
      Bump(points, i % points.Length, 1);
      i := i + 1;
    }
  }

  lemma NextLap(laps: int, n: int)
    ensures (laps + 1) * n == laps * n + n
  {
  }

  lemma LapIndex(i: int, laps: int, n: int)
    requires n > 0 && laps * n <= i < laps * n + n
    ensures i % n == i - laps * n
  {
    var q, m := i / n, i % n;
    assert i == q * n + m && 0 <= m < n;
    assert (q - laps) * n == q * n - laps * n;
    MultipleGrows(q - laps, n);
  }

  lemma ExtrasFit(ds: seq<real>, remaining: int, rs: seq<Remainder>, given: int)
    requires Sum(ds) > 0.0
    requires rs == Remainders(ds, Sum(ds), remaining) && given == Total(Wholes(ds, Sum(ds), remaining))
    ensures 0 <= remaining - given <= |Nonzero(rs)| <= |ds|
  {
    var total := Sum(ds);
    RemaindersProper(ds, total, remaining);
    SharesAddUp(ds, total, remaining);
    ExactWhole(total, remaining);
    SumBound(rs);
    FewElements(rs);
    Subset(Nonzero(rs), set r | r in rs);
  }

  lemma RankedIndices(rs: seq<Remainder>, ranked: seq<Remainder>)
    requires Ranked(ranked) && SameElements(ranked, rs) && forall i | 0 <= i < |rs| :: rs[i].index == i
    ensures forall r <- ranked :: 0 <= r.index < |rs|
    ensures forall i, j | 0 <= i < j < |ranked| :: ranked[i].index != ranked[j].index
  {
    forall r <- ranked ensures 0 <= r.index < |rs| && r == rs[r.index] {
      assert r in rs;
      var i :| 0 <= i < |rs| && rs[i] == r;
    }
    forall i, j | 0 <= i < j < |ranked| ensures ranked[i].index != ranked[j].index {
      assert Ahead(ranked[i], ranked[j]) && ranked[i] in ranked && ranked[j] in ranked;
    }
  }

  lemma {:induction false} WholesPositive(ds: seq<real>, total: real, remaining: int)
    requires total > 0.0 && remaining > 0 && NonNegative(ds)
    ensures forall i | 0 <= i < |ds| :: Whole(ds[i], total, remaining) >= 0
  {
    forall i | 0 <= i < |ds| ensures Whole(ds[i], total, remaining) >= 0 {
      assert ds[i] in ds;
      ExactMonotone(ds[i], ds[i], total, remaining);
    }
  }

  /** The shares by largest remainder, when there is something left to share and lengths to go by. */
  method ShareByRemainder(ds: seq<real>, total: real, remaining: int, points: array<int>)
    requires total == Sum(ds) && total > 0.0 && remaining > 0 && NonNegative(ds)
    requires points.Length == |ds| && forall i | 0 <= i < |ds| :: points[i] == 1
    modifies points
    ensures WithinOne(ds, total, remaining, points[..]) && FairOrder(ds, points[..])
    ensures LargestFirst(ds, total, remaining, points[..])
    ensures Total(points[..]) == |ds| + remaining && forall i | 0 <= i < |ds| :: points[i] >= 1
  {
    var given, rs := AddWholes(ds, total, remaining, points);
    var ranked := SortRemainders(rs);
    RankedIndices(rs, ranked);
    ExtrasFit(ds, remaining, rs, given);
    AddExtras(ranked, remaining - given, points);
    WholesPositive(ds, total, remaining);
    assert Shares(ds, total, remaining, ranked, remaining - given, points[..]);
    SharesWithinOne(ds, total, remaining, ranked, remaining - given, points[..]);
    SharesFair(ds, total, remaining, ranked, remaining - given, points[..]);
    SharesLargestFirst(ds, total, remaining, ranked, remaining - given, points[..]);
  }

  lemma OneEach(ds: seq<real>, points: seq<int>)
    requires |points| == |ds| && forall i | 0 <= i < |ds| :: points[i] == 1
    ensures Total(points) == |ds| && RoundRobin(points) && FairOrder(ds, points)
    ensures Sum(ds) > 0.0 ==> WithinOne(ds, Sum(ds), 0, points) && LargestFirst(ds, Sum(ds), 0, points)
  {
    TotalOf(points, 1);
    if Sum(ds) > 0.0 {
      forall i | 0 <= i < |ds| ensures Exact(ds[i], Sum(ds), 0) == 0.0 { NothingLeft(ds[i], Sum(ds)); }
    }
  }

  lemma NothingLeft(d: real, total: real)
    requires total > 0.0
    ensures Exact(d, total, 0) == 0.0
  {
  }

  method AllocatePoints(durations: seq<real>, targetPoints: int) returns (counts: seq<int>)
    requires NonNegative(durations)
    ensures durations == [] ==> counts == []
    ensures durations != [] ==> Allocated(durations, targetPoints, counts)
  {
    var points := new int[|durations|](_ => 1);
    if |durations| == 0 { return []; }
    var target := targetPoints;
    if target < |durations| { target := |durations|; }
    var remaining := target - |durations|;
    if remaining == 0 {
      OneEach(durations, points[..]);
      return points[..];
    }
    var totalDuration := SumDurations(durations);
    if totalDuration <= 0.0 {
      GoRound(remaining, points);
      return points[..];
    }
    ShareByRemainder(durations, totalDuration, remaining, points);
    counts := points[..];
  }

  // ---------- plans ----------

  function PointCount(durationSeconds: real, partCount: int): (points: int)
    ensures points >= partCount && points >= MIN_POINTS
    ensures points <= MAX_POINTS || points == partCount
    ensures points >= MAX_POINTS || points as real >= durationSeconds * POINTS_PER_SECOND as real
    ensures || points == partCount || points == MIN_POINTS
            || points as real < durationSeconds * POINTS_PER_SECOND as real + 1.0
  {
    var wanted := Ceil(durationSeconds * POINTS_PER_SECOND as real);
    var low := if wanted < MIN_POINTS then MIN_POINTS else wanted;
    var clamped := if low > MAX_POINTS then MAX_POINTS else low;
    if clamped < partCount then partCount else clamped
  }

  function PointsOf(parts: seq<Part>): seq<int> { seq(|parts|, i requires 0 <= i < |parts| => parts[i].points) }

  function DurationsOf(parts: seq<Part>): seq<real> {
    seq(|parts|, i requires 0 <= i < |parts| => parts[i].durationSeconds)
  }

  function PlanParts(parts: seq<PartInput>, ds: seq<real>, points: seq<int>): seq<Part>
    requires |ds| == |parts| && |points| == |parts|
  {
    seq(|parts|, i requires 0 <= i < |parts| => Part(parts[i].filename, ds[i], parts[i].sizeBytes, points[i]))
  }

  lemma PlanPartsHold(parts: seq<PartInput>, ds: seq<real>, points: seq<int>)
    requires |ds| == |parts| && |points| == |parts|
    ensures DurationsOf(PlanParts(parts, ds, points)) == ds && PointsOf(PlanParts(parts, ds, points)) == points
    ensures SameFiles(PlanParts(parts, ds, points), parts)
  {
  }

  predicate SameFiles(out: seq<Part>, parts: seq<PartInput>) {
    && |out| == |parts|
    && forall i | 0 <= i < |parts| :: out[i].filename == parts[i].filename && out[i].sizeBytes == parts[i].sizeBytes
  }

  /** A plan over these durations: it gives every one of its points away. */
  ghost predicate Planned(plan: Plan, parts: seq<PartInput>, ds: seq<real>) {
    && SameFiles(plan.parts, parts)
    && DurationsOf(plan.parts) == ds
    && plan.durationSeconds == Sum(ds)
    && Allocated(ds, PointCount(Sum(ds), |parts|), PointsOf(plan.parts))
  }

  /** A plan exists exactly when there are parts and they last. */
  method BuildPlan(video: Option<real>, parts: seq<PartInput>) returns (plan: Option<Plan>)
    ensures plan.Some? <==> parts != [] && Sum(Durations(parts, Fallback(video, parts))) > 0.0
    ensures plan.Some? ==> Planned(plan.value, parts, Durations(parts, Fallback(video, parts)))
  {
    if |parts| == 0 { return None; }
    var durations, total := ResolvedDurations(video, parts);
    if total <= 0.0 { return None; }
    DurationsAt(parts, Fallback(video, parts));
    var target := PointCount(total, |parts|);
    var points := AllocatePoints(durations, target);
    PlanPartsHold(parts, durations, points);
    plan := Some(Plan(total, PlanParts(parts, durations, points)));
  }

  /** Cuts what a generator returned to the planned number of points, or pads it with silence. */
  function NormalizePeaks(peaks: seq<real>, points: nat): (out: seq<real>)
    ensures |out| == points
    ensures forall i | 0 <= i < points :: out[i] == if i < |peaks| then peaks[i] else 0.0
  {
    seq(points, i requires 0 <= i < points => if i < |peaks| then peaks[i] else 0.0)
  }

  /** The peaks a plan's parts yield, one after the other. */
  function PeaksOf(parts: seq<Part>, generated: seq<seq<real>>): seq<real>
    requires |generated| == |parts| && forall p <- parts :: p.points >= 0
  {
    if parts == [] then []
    else
      var n := |parts| - 1;
      assert parts[n] in parts;
      PeaksOf(parts[..n], generated[..n]) + NormalizePeaks(generated[n], parts[n].points)
  }

  lemma {:induction false} PeakTotal(parts: seq<Part>, generated: seq<seq<real>>)
    requires |generated| == |parts| && forall p <- parts :: p.points >= 0
    ensures |PeaksOf(parts, generated)| == Total(PointsOf(parts))
  {
    if parts != [] {
      var n := |parts| - 1;
      PeakTotal(parts[..n], generated[..n]);
      assert PointsOf(parts)[..n] == PointsOf(parts[..n]);
      assert parts[n] in parts;
    }
  }

  /** Part i's peaks stand where the points of the parts before it end, its own first, then silence. */
  lemma {:induction false} PeaksAt(parts: seq<Part>, generated: seq<seq<real>>, i: nat, k: nat)
    requires |generated| == |parts| && (forall p <- parts :: p.points >= 0) && i < |parts| && k < parts[i].points
    ensures var start := Total(PointsOf(parts[..i]));
            && 0 <= start && start + k < |PeaksOf(parts, generated)|
            && PeaksOf(parts, generated)[start + k] == if k < |generated[i]| then generated[i][k] else 0.0
    decreases |parts|
  {
    var n := |parts| - 1;
    PeakTotal(parts[..n], generated[..n]);
    assert parts[n] in parts;
    if i < n {
      PeaksAt(parts[..n], generated[..n], i, k);
      assert parts[..n][..i] == parts[..i];
    }
  }

  function ValuesOf(results: seq<Option<seq<real>>>): seq<seq<real>>
    requires forall i | 0 <= i < |results| :: results[i].Some?
  {
    seq(|results|, i requires 0 <= i < |results| => results[i].value)
  }

  /** Runs the generator over the plan's parts; results holds what it gives for each, or its failure.
      The first failure ends it. */
  method Generate(plan: Plan, results: seq<Option<seq<real>>>) returns (peaks: Option<seq<real>>)
    requires |results| == |plan.parts| && forall p <- plan.parts :: p.points >= 0
    ensures peaks.None? <==> exists i :: 0 <= i < |results| && results[i].None?
    ensures peaks.Some? ==>
              && (forall i | 0 <= i < |results| :: results[i].Some?)
              && peaks.value == PeaksOf(plan.parts, ValuesOf(results))
  {
    var out: seq<real> := [];
    ghost var values: seq<seq<real>> := [];
    var i := 0;
    while i < |plan.parts|
      invariant 0 <= i <= |plan.parts| && |values| == i
      invariant forall j | 0 <= j < i :: results[j] == Some(values[j])
      invariant forall p <- plan.parts[..i] :: p in plan.parts
      invariant out == PeaksOf(plan.parts[..i], values)
    {
      if results[i].None? { return None; }
      assert plan.parts[i] in plan.parts;
      ghost var longer := values + [results[i].value];
      assert plan.parts[..i + 1][..i] == plan.parts[..i] && longer[..i] == values;
      out := out + NormalizePeaks(results[i].value, plan.parts[i].points);
      values := longer;
      i := i + 1;
    }
    assert plan.parts[..i] == plan.parts;
    assert values == ValuesOf(results);
    peaks := Some(out);
  }

  /** Whatever the generator returns, a built plan's picture has exactly the planned width. */
  lemma ExactWidth(plan: Plan, parts: seq<PartInput>, ds: seq<real>, generated: seq<seq<real>>)
    requires Planned(plan, parts, ds) && |generated| == |plan.parts|
    ensures forall p <- plan.parts :: p.points >= 1
    ensures |PeaksOf(plan.parts, generated)| == PointCount(plan.durationSeconds, |plan.parts|)
  {
    forall p <- plan.parts ensures p.points >= 1 {
      var i :| 0 <= i < |plan.parts| && plan.parts[i] == p;
      assert PointsOf(plan.parts)[i] == p.points && p.points in PointsOf(plan.parts);
    }
    PeakTotal(plan.parts, generated);
  }
}
