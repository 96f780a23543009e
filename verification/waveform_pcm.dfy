/** Reading PCM into peak buckets from a reader that hands out bytes in chunks of any size. */
module WaveformPcm {
  import opened Prelude
  import opened Waveform

  type Byte = x: int | 0 <= x < 256

  // ---------- what the picture is ----------

  /** A little-endian 16-bit sample. */
  function Sample(lo: Byte, hi: Byte): int {
    var u := lo + 256 * hi;
    if u >= 32768 then u - 65536 else u
  }

  function Amplitude(lo: Byte, hi: Byte): (a: real)
    ensures 0.0 <= a <= 1.0
  {
    var s := Sample(lo, hi);
    (if s < 0 then -s else s) as real / 32768.0
  }

  function Abs(x: int): int { if x < 0 then -x else x }

  /** v is the 16-bit number whose two's complement, low byte first, is lo and hi. */
  predicate Reads16(lo: Byte, hi: Byte, v: int) {
    -32768 <= v <= 32767 && (v == lo + 256 * hi || v == lo + 256 * hi - 65536)
  }

  /** Every pair of bytes reads as exactly one number, its amplitude is that number's size in 32768ths,
      and only two zero bytes are silent. */
  lemma SampleMeans(lo: Byte, hi: Byte)
    ensures exists v :: Reads16(lo, hi, v)
    ensures forall v, w | Reads16(lo, hi, v) && Reads16(lo, hi, w) :: v == w
    ensures forall v | Reads16(lo, hi, v) :: Amplitude(lo, hi) * 32768.0 == Abs(v) as real
    ensures Amplitude(lo, hi) == 0.0 <==> lo == 0 && hi == 0
  {
    assert Reads16(lo, hi, Sample(lo, hi));
  }

  /** A number is as loud as its negation, and only the lowest one, which has none, is at full scale. */
  lemma NegationIsAsLoud(lo: Byte, hi: Byte, lo': Byte, hi': Byte, v: int)
    requires Reads16(lo, hi, v)
    ensures Reads16(lo', hi', -v) ==> Amplitude(lo', hi') == Amplitude(lo, hi)
    ensures Amplitude(lo, hi) == 1.0 <==> v == -32768
  {
    SampleMeans(lo, hi);
    SampleMeans(lo', hi');
  }

  function MaxReal(a: real, b: real): real { if a < b then b else a }

  function AmplitudeAt(data: seq<Byte>, k: nat): real
    requires 2 * k + 1 < |data|
  {
    Amplitude(data[2 * k], data[2 * k + 1])
  }

  /** The largest amplitude among the first n samples that fall into bucket b; silence if none does. */
  function Peak(data: seq<Byte>, perBucket: int, b: int, n: nat): real
    requires perBucket > 0 && 2 * n <= |data|
  {
    if n == 0 then 0.0
    else
      var before := Peak(data, perBucket, b, n - 1);
      if (n - 1) / perBucket == b then MaxReal(before, AmplitudeAt(data, n - 1)) else before
  }

  /** The picture of a stream: one peak per bucket. A trailing odd byte is no sample. */
  function Picture(data: seq<Byte>, perBucket: int, points: nat): seq<real>
    requires perBucket > 0
  {
    seq(points, b requires 0 <= b < points => Peak(data, perBucket, b, |data| / 2))
  }

  /** As few samples to a bucket as let the buckets hold the whole duration, and at least one. */
  function PerBucket(durationSeconds: real, points: int): (n: int)
    requires points > 0
    ensures n >= 1
    ensures (n * points) as real >= durationSeconds * SAMPLE_RATE as real
    ensures n > 1 ==> ((n - 1) * points) as real < durationSeconds * SAMPLE_RATE as real
  {
    var totalSamples := Ceil(durationSeconds * SAMPLE_RATE as real);
    var n := Ceil(totalSamples as real / points as real);
    CeilShare(totalSamples, points);
    if n < 1 then 1 else n
  }

  lemma CeilShare(total: int, points: int)
    requires points > 0
    ensures var n := Ceil(total as real / points as real);
            total <= n * points && (n - 1) * points < total && (n < 1 ==> total <= points)
  {
    var share := total as real / points as real;
    var n := Ceil(share);
    assert (n - 1) as real < share <= n as real;
    ShareBelow(total, points, n);
    ShareAbove(total, points, n - 1);
    MultipleGrows(n, points);
  }

  lemma ShareBelow(total: int, points: int, n: int)
    requires points > 0 && total as real / points as real <= n as real
    ensures total <= n * points
  {
    Scaled(total as real / points as real, n as real, points as real);
    assert total as real <= n as real * points as real == (n * points) as real;
  }

  lemma ShareAbove(total: int, points: int, n: int)
    requires points > 0 && (n as real) < total as real / points as real
    ensures n * points < total
  {
    StrictlyScaled(n as real, total as real / points as real, points as real);
    assert (n * points) as real == n as real * points as real < total as real;
  }

  lemma Scaled(x: real, y: real, k: real)
    requires x <= y && k > 0.0
    ensures x * k <= y * k
  {
    assert (y - x) * k >= 0.0;
  }

  lemma StrictlyScaled(x: real, y: real, k: real)
    requires x < y && k > 0.0
    ensures x * k < y * k
  {
    assert (y - x) * k > 0.0;
  }

  /** A peak is the maximum: no sample of the bucket is louder, and it is in [0, 1]. */
  lemma {:induction false} PeakIsMax(data: seq<Byte>, perBucket: int, b: int, n: nat, k: nat)
    requires perBucket > 0 && 2 * n <= |data|
    ensures 0.0 <= Peak(data, perBucket, b, n) <= 1.0
    ensures k < n && k / perBucket == b ==> AmplitudeAt(data, k) <= Peak(data, perBucket, b, n)
  {
    if n > 0 { PeakIsMax(data, perBucket, b, n - 1, k); }
  }

  /** And it is reached: by a sample of the bucket, unless the bucket is silent. */
  lemma {:induction false} PeakIsReached(data: seq<Byte>, perBucket: int, b: int, n: nat) returns (k: int)
    requires perBucket > 0 && 2 * n <= |data|
    ensures Peak(data, perBucket, b, n) == 0.0 ||
            (0 <= k < n && k / perBucket == b && Peak(data, perBucket, b, n) == AmplitudeAt(data, k))
  {
    k := 0;
    if n > 0 {
      k := PeakIsReached(data, perBucket, b, n - 1);
      if Peak(data, perBucket, b, n) != Peak(data, perBucket, b, n - 1) { k := n - 1; }
    }
  }

  /** What a picture shows of a stream, sample by sample: the peak of bucket b is the size of the loudest
      16-bit little-endian number of the bucket, in 32768ths. */
  lemma PictureOfSamples(data: seq<Byte>, perBucket: int, points: nat, b: nat) returns (at: int)
    requires perBucket > 0 && b < points
    ensures var peak := Picture(data, perBucket, points)[b] * 32768.0;
            && (forall k, v | 0 <= k < |data| / 2 && k / perBucket == b && Reads16(data[2 * k], data[2 * k + 1], v) ::
                  Abs(v) as real <= peak)
            && (peak != 0.0 ==>
                  && 0 <= at < |data| / 2 && at / perBucket == b
                  && exists v :: Reads16(data[2 * at], data[2 * at + 1], v) && Abs(v) as real == peak)
  {
    var n := |data| / 2;
    forall k, v | 0 <= k < n && k / perBucket == b && Reads16(data[2 * k], data[2 * k + 1], v)
      ensures Abs(v) as real <= Peak(data, perBucket, b, n) * 32768.0
    {
      PeakIsMax(data, perBucket, b, n, k);
      SampleMeans(data[2 * k], data[2 * k + 1]);
    }
    at := PeakIsReached(data, perBucket, b, n);
    if Peak(data, perBucket, b, n) != 0.0 { SampleMeans(data[2 * at], data[2 * at + 1]); }
  }

  // ---------- the reader ----------

  datatype ReadErr = Fine | Eof | Failed

  /** How a reader answers one call: at most n bytes, and whether it reports the end of its data with
      the last bytes instead of after them. */
  datatype Call = Call(n: nat, early: bool)

  /** Any io.Reader: it hands out `rest` in order, in pieces the script decides, and then reports the
      end of the stream, or a failure if it is broken. */
  class Reader {
    var rest: seq<Byte>
    var script: seq<Call>
    const broken: bool

    constructor (data: seq<Byte>, script: seq<Call>, broken: bool)
      ensures rest == data && this.script == script && this.broken == broken
    {
      rest, this.script, this.broken := data, script, broken;
    }

    function EndErr(): ReadErr { if broken then Failed else Eof }

    method Read(max: nat) returns (chunk: seq<Byte>, err: ReadErr)
      requires max > 0
      modifies this
      ensures |chunk| <= max && old(rest) == chunk + rest
      ensures |script| <= |old(script)|
      ensures err == Fine || (rest == [] && err == EndErr())
      ensures err == Fine ==> |chunk| > 0 || |script| < |old(script)|
    {
      var call := Call(max, false);
      if script != [] { call, script := script[0], script[1..]; }
      var n := call.n;
      if n > max { n := max; }
      if n > |rest| { n := |rest|; }
      chunk, rest := rest[..n], rest[n..];
      err := if rest == [] && (call.early || n == 0) then EndErr() else Fine;
    }

    /** io.ReadFull for one byte: an error that comes with the byte is forgotten. */
    method ReadOne() returns (got: seq<Byte>, err: ReadErr)
      modifies this
      ensures old(rest) == got + rest && |script| <= |old(script)|
      ensures (|got| == 1 && err == Fine) || (got == [] && rest == [] && err == EndErr())
    {
      got, err := [], Fine;
      while |got| < 1 && err == Fine
        invariant |got| <= 1 && old(rest) == got + rest && |script| <= |old(script)|
        invariant err == Fine || (rest == [] && err == EndErr())
        decreases |rest| + |script|, if err == Fine then 1 else 0
      {
        got, err := Read(1);
      }
      if |got| == 1 { err := Fine; }
    }
  }

  // ---------- the buckets ----------

  class PeakMeter {
    const peaks: array<real>
    const samplesPerBucket: int
    var bucket: int
    var inBucket: int

    /** After n samples of the stream. */
    ghost predicate Shows(data: seq<Byte>, n: nat)
      reads this, peaks
    {
      && samplesPerBucket > 0 && 2 * n <= |data|
      && n == bucket * samplesPerBucket + inBucket && 0 <= inBucket < samplesPerBucket && bucket >= 0
      && forall b | 0 <= b < peaks.Length :: peaks[b] == Peak(data, samplesPerBucket, b, n)
    }

    constructor (points: nat, samplesPerBucket: int)
      requires samplesPerBucket > 0
      ensures fresh(peaks) && peaks.Length == points && this.samplesPerBucket == samplesPerBucket
      ensures forall data: seq<Byte> :: Shows(data, 0)
    {
      peaks := new real[points](_ => 0.0);
      this.samplesPerBucket := samplesPerBucket;
      bucket, inBucket := 0, 0;
    }

    method ProcessPCM16Sample(lo: Byte, hi: Byte, ghost data: seq<Byte>, ghost n: nat)
      requires Shows(data, n) && 2 * n + 2 <= |data| && lo == data[2 * n] && hi == data[2 * n + 1]
      modifies this, peaks
      ensures Shows(data, n + 1)
    {
      BucketOf(n, bucket, inBucket, samplesPerBucket);
      if bucket < peaks.Length {
        var amp := Amplitude(lo, hi);
        if amp > peaks[bucket] {
          if amp > 1.0 { amp := 1.0; }
          peaks[bucket] := amp;
        }
      }
      inBucket := inBucket + 1;
      if inBucket >= samplesPerBucket {
        NextBucket(bucket, samplesPerBucket);
        bucket, inBucket := bucket + 1, 0;
      }
    }
  }

  lemma NextBucket(b: int, k: int)
    ensures (b + 1) * k == b * k + k
  {
  }

  lemma BucketOf(n: int, b: int, i: int, k: int)
    requires k > 0 && n == b * k + i && 0 <= i < k
    ensures n / k == b
  {
    var q, m := n / k, n % k;
    assert n == q * k + m && 0 <= m < k;
    assert (q - b) * k == q * k - b * k;
    MultipleGrows(q - b, k);
  }

  // ---------- reading ----------

  /** The picture of the whole stream, whatever the chunks were; a broken reader gives none. */
  method ReadPCM16Peaks(r: Reader, durationSeconds: real, points: nat) returns (result: Option<seq<real>>)
    modifies r
    ensures points == 0 ==> result == Some([])
    ensures points > 0 ==>
              result == if r.broken then None
                        else Some(Picture(old(r.rest), PerBucket(durationSeconds, points), points))
  {
    if points == 0 { return Some([]); }
    ghost var data := r.rest;
    var meter := new PeakMeter(points, PerBucket(durationSeconds, points));
    ghost var n := 0;
    var err := Fine;
    assert meter.Shows(data, 0);
    assert data[2 * n..] == r.rest;
    while err == Fine
      invariant fresh(meter) && fresh(meter.peaks)
      invariant meter.peaks.Length == points && meter.samplesPerBucket == PerBucket(durationSeconds, points)
      invariant meter.Shows(data, n) && data[2 * n..] == r.rest
      invariant err == Fine || (r.rest == [] && err == r.EndErr())
      decreases |r.rest| + |r.script|, if err == Fine then 1 else 0
    {
      var chunk: seq<Byte>;
      chunk, err := r.Read(32 * 1024);
      var fillErr: ReadErr;
      n, fillErr := Drain(r, chunk, meter, data, n);
      if fillErr != Fine {
        if fillErr != Eof { return None; }
        PictureIs(meter, data, n, points, PerBucket(durationSeconds, points));
        return Some(meter.peaks[..]);
      }
    }
    if err == Failed { return None; }
    PictureIs(meter, data, n, points, PerBucket(durationSeconds, points));
    result := Some(meter.peaks[..]);
  }

  lemma PictureIs(meter: PeakMeter, data: seq<Byte>, n: nat, points: nat, perBucket: int)
    requires meter.Shows(data, n) && n == |data| / 2 && meter.peaks.Length == points
    requires meter.samplesPerBucket == perBucket
    ensures meter.peaks[..] == Picture(data, perBucket, points)
  {
  }

  /** Processes a chunk sample by sample. A sample split between two reads is completed from the
      reader; the error says the stream ended in the middle of one. */
  method Drain(r: Reader, whole: seq<Byte>, meter: PeakMeter, ghost data: seq<Byte>, ghost n0: nat)
      returns (ghost n: nat, fillErr: ReadErr)
    requires meter.Shows(data, n0) && data[2 * n0..] == whole + r.rest
    modifies r, meter, meter.peaks
    ensures meter.Shows(data, n) && |r.rest| <= |old(r.rest)| && |r.script| <= |old(r.script)|
    ensures if fillErr == Fine then data[2 * n..] == r.rest
            else r.rest == [] && n == |data| / 2 && fillErr == r.EndErr()
  {
    n, fillErr := n0, Fine;
    var chunk := whole;
    while |chunk| > 0
      invariant meter.Shows(data, n) && data[2 * n..] == chunk + r.rest
      invariant |r.rest| <= |old(r.rest)| && |r.script| <= |old(r.script)|
    {
      assert data[2 * n] == chunk[0];
      if |chunk| == 1 {
        var more, err := r.ReadOne();
        if err != Fine {
          fillErr := err;
          return;
        }
        assert data[2 * n..] == chunk + more + r.rest;
        assert data[2 * n + 1] == more[0];
        meter.ProcessPCM16Sample(chunk[0], more[0], data, n);
        assert data[2 * n..][2..] == data[2 * n + 2..];
        chunk := [];
      } else {
        assert data[2 * n + 1] == chunk[1];
        meter.ProcessPCM16Sample(chunk[0], chunk[1], data, n);
        assert data[2 * n..][2..] == data[2 * n + 2..];
        chunk := chunk[2..];
      }
      n := n + 1;
    }
  }
}
