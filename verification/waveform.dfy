/** Planning a waveform: how long each part is, and how many points of the picture it gets. */
module Waveform {
  import opened Prelude

  const SAMPLE_RATE := 8000
  const POINTS_PER_SECOND := 8
  const MIN_POINTS := 64
  const MAX_POINTS := 1600

  datatype PartInput = PartInput(filename: string, durationSeconds: real, sizeBytes: int)
  datatype Part = Part(filename: string, durationSeconds: real, sizeBytes: int, points: int)
  datatype Plan = Plan(durationSeconds: real, parts: seq<Part>)

  function Sum(xs: seq<real>): real { if xs == [] then 0.0 else Sum(xs[..|xs| - 1]) + xs[|xs| - 1] }
  function Total(xs: seq<int>): int { if xs == [] then 0 else Total(xs[..|xs| - 1]) + xs[|xs| - 1] }

  function Ceil(x: real): int { -((-x).Floor) }

  lemma {:induction false} TotalUpdate(xs: seq<int>, k: nat, x: int)
    requires k < |xs|
    ensures Total(xs[k := x]) == Total(xs) - xs[k] + x
  {
    var last := |xs| - 1;
    if k < last {
      assert xs[k := x][..last] == xs[..last][k := x];
      TotalUpdate(xs[..last], k, x);
    } else {
      assert xs[k := x][..last] == xs[..last];
    }
  }

  lemma {:induction false} TotalOf(xs: seq<int>, c: int)
    requires forall i | 0 <= i < |xs| :: xs[i] == c
    ensures Total(xs) == |xs| * c
  {
    if xs != [] {
      TotalOf(xs[..|xs| - 1], c);
      assert (|xs| - 1) * c + c == |xs| * c;
    }
  }

  lemma MultipleGrows(k: int, n: int)
    requires n > 0
    ensures k >= 1 ==> k * n >= n
    ensures k <= -1 ==> k * n <= -n
  {
    if k >= 1 { assert k * n == (k - 1) * n + n && (k - 1) * n >= 0; }
    if k <= -1 { assert -(k * n) == (-k - 1) * n + n && (-k - 1) * n >= 0; }
  }

  // ---------- durations ----------

  function Positive(x: real): real { if x > 0.0 then x else 0.0 }

  function KnownSum(parts: seq<PartInput>): real {
    if parts == [] then 0.0 else KnownSum(parts[..|parts| - 1]) + Positive(parts[|parts| - 1].durationSeconds)
  }

  function Missing(parts: seq<PartInput>): nat {
    if parts == [] then 0
    else Missing(parts[..|parts| - 1]) + if parts[|parts| - 1].durationSeconds > 0.0 then 0 else 1
  }

  /** The length a video claims, if it claims one. */
  function Claimed(video: Option<real>): real { if video.Some? then Positive(video.value) else 0.0 }

  /** What a part of unknown length is taken to last. */
  function Fallback(video: Option<real>, parts: seq<PartInput>): real {
    var known, missing := KnownSum(parts), Missing(parts);
    if missing == 0 then 0.0
    else if Claimed(video) > 0.0 then Positive(Claimed(video) - known) / missing as real
    else if known > 0.0 && missing < |parts| then known / (|parts| - missing) as real
    else 0.0
  }

  lemma {:induction false} KnownFacts(parts: seq<PartInput>)
    ensures KnownSum(parts) >= 0.0 && Missing(parts) <= |parts|
    ensures Missing(parts) == |parts| ==> KnownSum(parts) == 0.0
    ensures Missing(parts) == 0 ==> forall p <- parts :: p.durationSeconds > 0.0
  {
    if parts != [] {
      KnownFacts(parts[..|parts| - 1]);
      assert parts == parts[..|parts| - 1] + [parts[|parts| - 1]];
    }
  }

  function Repeated(n: nat, x: real): real { if n == 0 then 0.0 else Repeated(n - 1, x) + x }

  function Durations(parts: seq<PartInput>, fallback: real): seq<real> {
    if parts == [] then []
    else
      var d := parts[|parts| - 1].durationSeconds;
      Durations(parts[..|parts| - 1], fallback) + [if d > 0.0 then d else fallback]
  }

  lemma {:induction false} DurationsAt(parts: seq<PartInput>, fallback: real)
    ensures var ds := Durations(parts, fallback);
            && |ds| == |parts|
            && forall i | 0 <= i < |parts| ::
                 ds[i] == if parts[i].durationSeconds > 0.0 then parts[i].durationSeconds else fallback
  {
    if parts != [] { DurationsAt(parts[..|parts| - 1], fallback); }
  }

  lemma {:induction false} DurationsSum(parts: seq<PartInput>, fallback: real)
    ensures Sum(Durations(parts, fallback)) == KnownSum(parts) + Repeated(Missing(parts), fallback)
  {
    if parts != [] {
      var front := parts[..|parts| - 1];
      DurationsSum(front, fallback);
      var ds := Durations(parts, fallback);
      assert ds[..|ds| - 1] == Durations(front, fallback);
    }
  }

  lemma ScaleShare(n: int, x: real)
    ensures (n + 1) as real * x == n as real * x + x
  {
  }

  lemma {:induction false} RepeatedIsTimes(n: nat, x: real)
    ensures Repeated(n, x) == n as real * x
  {
    if n > 0 {
      RepeatedIsTimes(n - 1, x);
      ScaleShare(n - 1, x);
    }
  }

  /** Equal shares add up to the whole. */
  lemma ShareBack(whole: real, n: nat)
    requires n > 0
    ensures Repeated(n, whole / n as real) == whole
  {
    RepeatedIsTimes(n, whole / n as real);
  }

  /** The lengths a plan uses, and their total. Unknown parts share what the video claims beyond the
      known ones, or else last as long as the known parts do on average. */
  method ResolvedDurations(video: Option<real>, parts: seq<PartInput>) returns (durations: seq<real>, total: real)
    ensures durations == Durations(parts, Fallback(video, parts))
    ensures total == Sum(durations)
    ensures forall d <- durations :: d >= 0.0
  {
    var ds, positiveSum, missing := FirstPass(parts);
    FallbackFacts(video, parts);
    var videoDuration := 0.0;
    if video.Some? && video.value > 0.0 { videoDuration := video.value; }
    if missing == 0 || (videoDuration <= 0.0 && positiveSum <= 0.0) {
      assert ds[..] == Durations(parts, Fallback(video, parts));
      return ds[..], if missing == 0 then positiveSum else 0.0;
    }
    var fallback := if videoDuration > 0.0 then Positive(videoDuration - positiveSum) / missing as real
                    else positiveSum / (|parts| - missing) as real;
    total := SecondPass(parts, ds, fallback, positiveSum);
    if videoDuration > total { total := videoDuration; }
    assert ds[..] == Durations(parts, fallback);
    durations := ds[..];
  }

  /** What the two passes need to know of the fallback. */
  lemma FallbackFacts(video: Option<real>, parts: seq<PartInput>)
    ensures var f := Fallback(video, parts);
            var ds := Durations(parts, f);
            && f >= 0.0
            && |ds| == |parts|
            && (forall i | 0 <= i < |parts| ::
                  ds[i] == if parts[i].durationSeconds > 0.0 then parts[i].durationSeconds else f)
            && Sum(ds) == KnownSum(parts) + Repeated(Missing(parts), f)
            && Sum(ds) >= if Missing(parts) > 0 then Claimed(video) else 0.0
    ensures KnownSum(parts) >= 0.0 && (KnownSum(parts) > 0.0 ==> Missing(parts) < |parts|)
    ensures Missing(parts) == 0 || (Claimed(video) <= 0.0 && KnownSum(parts) <= 0.0) ==>
              Fallback(video, parts) == 0.0 && Repeated(Missing(parts), 0.0) == 0.0
  {
    var f := Fallback(video, parts);
    KnownFacts(parts);
    DurationsAt(parts, f);
    DurationsSum(parts, f);
    RepeatedIsTimes(Missing(parts), 0.0);
    FallbackPositive(video, parts);
    if Missing(parts) > 0 && Claimed(video) > 0.0 {
      ShareBack(Positive(Claimed(video) - KnownSum(parts)), Missing(parts));
    } else {
      RepeatedPositive(Missing(parts), f);
    }
  }

  lemma FallbackPositive(video: Option<real>, parts: seq<PartInput>)
    ensures Fallback(video, parts) >= 0.0
  {
    KnownFacts(parts);
  }

  lemma {:induction false} RepeatedPositive(n: nat, x: real)
    requires x >= 0.0
    ensures Repeated(n, x) >= 0.0
  {
    if n > 0 { RepeatedPositive(n - 1, x); }
  }

  method FirstPass(parts: seq<PartInput>) returns (ds: array<real>, positiveSum: real, missing: nat)
    ensures fresh(ds) && ds.Length == |parts|
    ensures forall i | 0 <= i < |parts| :: ds[i] == Positive(parts[i].durationSeconds)
    ensures positiveSum == KnownSum(parts) && missing == Missing(parts)
  {
    ds := new real[|parts|](_ => 0.0);
    positiveSum, missing := 0.0, 0;
    var i := 0;
    while i < |parts|
      invariant 0 <= i <= |parts|
      invariant forall j | 0 <= j < |parts| :: ds[j] == if j < i then Positive(parts[j].durationSeconds) else 0.0
      invariant positiveSum == KnownSum(parts[..i]) && missing == Missing(parts[..i])
    {
      assert parts[..i + 1][..i] == parts[..i];
      if parts[i].durationSeconds > 0.0 {
        ds[i] := parts[i].durationSeconds;
        positiveSum := positiveSum + parts[i].durationSeconds;
      } else {
        missing := missing + 1;
      }
      i := i + 1;
    }
    assert parts[..i] == parts;
  }

  method SecondPass(parts: seq<PartInput>, ds: array<real>, fallback: real, positiveSum: real) returns (total: real)
    requires ds.Length == |parts|
    requires forall i | 0 <= i < |parts| :: ds[i] == Positive(parts[i].durationSeconds)
    modifies ds
    ensures forall i | 0 <= i < |parts| ::
              ds[i] == if parts[i].durationSeconds > 0.0 then parts[i].durationSeconds else fallback
    ensures total == positiveSum + Repeated(Missing(parts), fallback)
  {
    total := positiveSum;
    var i := 0;
    while i < ds.Length
      invariant 0 <= i <= ds.Length
      invariant forall j | 0 <= j < |parts| ::
                  ds[j] == if j < i && parts[j].durationSeconds <= 0.0 then
                      fallback else Positive(parts[j].durationSeconds)
      invariant total == positiveSum + Repeated(Missing(parts[..i]), fallback)
    {
      assert parts[..i + 1][..i] == parts[..i];
      if ds[i] <= 0.0 {
        ds[i] := fallback;
        total := total + fallback;
      }
      i := i + 1;
    }
    assert parts[..i] == parts;
  }

  /** When some parts are unknown and the video claims a length, the total is that claim, unless the
      known parts already exceed it. */
  lemma TotalIsClaim(video: Option<real>, parts: seq<PartInput>)
    requires Missing(parts) > 0 && Claimed(video) > 0.0
    ensures Sum(Durations(parts, Fallback(video, parts))) ==
            if KnownSum(parts) <= Claimed(video) then Claimed(video) else KnownSum(parts)
  {
    DurationsSum(parts, Fallback(video, parts));
    ShareBack(Positive(Claimed(video) - KnownSum(parts)), Missing(parts));
  }

  /** Without a claim, parts of unknown length last as long as the known ones do on average; with nothing
      known either they last no time at all. */
  lemma FallbackIsAverage(video: Option<real>, parts: seq<PartInput>)
    requires Missing(parts) > 0 && Claimed(video) == 0.0
    ensures Fallback(video, parts) * (|parts| - Missing(parts)) as real == KnownSum(parts)
    ensures KnownSum(parts) == 0.0 ==> Fallback(video, parts) == 0.0
  {
    KnownFacts(parts);
    var k := (|parts| - Missing(parts)) as real;
    if KnownSum(parts) > 0.0 { QuotientBack(KnownSum(parts), k); }
  }

  lemma QuotientBack(x: real, k: real)
    requires k != 0.0
    ensures (x / k) * k == x
  {
  }
}
