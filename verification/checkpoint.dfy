/** The durable checkpoint as a value: the part ledger plus the pipeline stage, the split
    intent and the counters, its JSON projection, and the transitions between parts. */
module Checkpoints {
  import opened Prelude
  import opened Ledgers

  datatype Stage =
    | Auth | Playlist | Segments | PrepareInput | Remux | Probe | CorruptionCheck | Thumbnail | Store
    | Unknown
  {
    /** Forward position in the pipeline; an unknown stage conservatively counts as the first. */
    function Order(): nat {
      match this
      case Auth => 0
      case Playlist => 1
      case Segments => 2
      case PrepareInput => 3
      case Remux => 4
      case Probe => 5
      case CorruptionCheck => 6
      case Thumbnail => 7
      case Store => 8
      case Unknown => 0
    }

    predicate AtOrAfter(target: Stage) { Order() >= target.Order() }
  }

  const PIPELINE := [Auth, Playlist, Segments, PrepareInput, Remux, Probe, CorruptionCheck, Thumbnail, Store]

  /** A stage is at or after another if and only if the pipeline does not reach it before; an unknown one
      stands with the first. */
  lemma StagesInOrder(i: nat, j: nat)
    requires i < |PIPELINE| && j < |PIPELINE|
    ensures PIPELINE[i].AtOrAfter(PIPELINE[j]) <==> j <= i
    ensures Unknown.AtOrAfter(PIPELINE[j]) <==> j == 0
    ensures PIPELINE[i].AtOrAfter(Unknown)
  {
  }

  /** The variant lock; empty strings and None mean "not selected yet". */
  datatype Variant = Variant(quality: string, fps: Option<real>, codec: string, format: string)

  const NO_VARIANT := Variant("", None, "", "")

  /** A newly selected variant is not the locked one; what is not locked yet does not count. */
  predicate Changes(lock: Variant, v: Variant) {
    || (lock.quality != "" && lock.quality != v.quality)
    || (lock.codec != "" && lock.codec != v.codec)
    || (lock.fps.Some? && lock.fps != v.fps)
  }

  /** The lock after a selection; the format comes from the media playlist, not from the selection. */
  function Locked(lock: Variant, v: Variant): Variant { Variant(v.quality, v.fps, v.codec, lock.format) }

  /** b has everything that a has fixed. */
  predicate Agrees(a: Variant, b: Variant) {
    && (a.quality != "" ==> b.quality == a.quality)
    && (a.codec != "" ==> b.codec == a.codec)
    && (a.fps.Some? ==> b.fps == a.fps)
    && (a.format != "" ==> b.format == a.format)
  }

  /** A selection is refused if and only if taking it would change what is fixed. */
  lemma ChangesExact(lock: Variant, v: Variant)
    ensures Changes(lock, v) <==> !Agrees(lock, Locked(lock, v))
  {
  }

  datatype Split = Split(
    pending: bool,
    threshold: bool,
    boundary: int,
    boundarySet: bool,
    endListAtBoundary: bool)
  {
    predicate Sealed() { threshold && boundarySet }
  }

  const NO_SPLIT := Split(false, false, 0, false, false)

  datatype Checkpoint = Checkpoint(
    stage: Stage,
    partIndex: int,
    reanchors: int,
    variant: Variant,
    ledger: Ledger,
    endListSeen: bool,
    hadWindowRoll: bool,
    split: Split)

  const EMPTY_LEDGER := Ledger(0, false, 0, {}, map[], [], {}, NO_MEDIA)

  const NEW_CHECKPOINT := Checkpoint(Auth, 1, 0, NO_VARIANT, EMPTY_LEDGER, false, false, NO_SPLIT)

  // ---------- transitions between parts ----------

  function StartPart(c: Checkpoint, start: int): Checkpoint {
    c.(ledger := FreshPart(start),
       split := Split(c.split.pending, c.split.threshold, 0, false, false))
  }

  /** A genuine discontinuity: the next part re-anchors from scratch and keeps only the gaps. */
  function BeginNewPart(c: Checkpoint): Checkpoint {
    c.(stage := Auth,
       partIndex := c.partIndex + 1,
       variant := NO_VARIANT,
       ledger := EMPTY_LEDGER.(gaps := c.ledger.gaps),
       endListSeen := false,
       split := NO_SPLIT)
  }

  /** A split that produced no output: re-anchor under the same part number. */
  function ReanchorCurrentPart(c: Checkpoint): Checkpoint {
    c.(stage := Auth,
       reanchors := c.reanchors + 1,
       variant := NO_VARIANT,
       ledger := EMPTY_LEDGER,
       endListSeen := false,
       split := NO_SPLIT)
  }

  /** The last sequence of the current part, as the next part's opening reads it. */
  function PartEnd(c: Checkpoint): int {
    if c.split.Sealed() then c.split.boundary else c.ledger.frontier
  }

  /** A clean cut in one continuous stream: the next part starts right after this one. */
  function ContinuePart(c: Checkpoint): Checkpoint {
    c.(stage := Auth,
       partIndex := c.partIndex + 1,
       ledger := FreshPart(PartEnd(c) + 1),
       endListSeen := c.endListSeen && !(c.split.threshold && !c.split.endListAtBoundary),
       split := NO_SPLIT)
  }

  function SealSplit(c: Checkpoint, boundary: int): Checkpoint {
    c.(ledger := Seal(c.ledger, boundary),
       split := c.split.(boundary := boundary, boundarySet := true))
  }

  /** A part whose fetch is over: it is being finalized, or its split is already decided. */
  predicate ShouldSkipSegmentFetch(c: Checkpoint) {
    c.stage.AtOrAfter(PrepareInput) || c.split.pending
  }

  datatype OpenDecision = OpenNext | NoSplit | CapExceeded

  function ShouldOpenNextPart(c: Checkpoint, maxDiscontinuityParts: int, maxThresholdParts: int): OpenDecision {
    if !c.split.pending then NoSplit else
      var maxParts := if c.split.threshold then maxThresholdParts else maxDiscontinuityParts;
      var attempt := c.partIndex + if c.split.threshold then 0 else c.reanchors;
      if maxParts <= 0 then OpenNext
      else if attempt >= maxParts then CapExceeded
      else OpenNext
  }

  // ---------- JSON ----------

  datatype Accounting = Accounting(seqNo: int, media: Media)

  /** The serialized fields. */
  datatype Saved = Saved(
    stage: Stage,
    partIndex: int,
    reanchors: int,
    variant: Variant,
    partStart: int,
    started: bool,
    frontier: int,
    completed: seq<int>,
    accounting: seq<Accounting>,
    gaps: seq<Gap>,
    total: Media,
    endListSeen: bool,
    hadWindowRoll: bool,
    split: Split)

  predicate Ascending(s: seq<int>) {
    forall i, j | 0 <= i < j < |s| :: s[i] < s[j]
  }

  function ToSet(s: seq<int>): set<int> { set x | x in s }

  /** MarshalJSON lists the accounting of the buffered sequences in buffer order. */
  function AccountingList(completed: seq<int>, accounting: map<int, Media>): seq<Accounting> {
    if completed == [] then [] else
      var s := completed[|completed| - 1];
      AccountingList(completed[..|completed| - 1], accounting)
      + if s in accounting then [Accounting(s, accounting[s])] else []
  }

  /** Init keeps the entries of sequences buffered above the frontier. */
  function LoadAccounting(entries: seq<Accounting>, completed: seq<int>, frontier: int): map<int, Media> {
    if entries == [] then map[] else
      var e := entries[|entries| - 1];
      var rest := LoadAccounting(entries[..|entries| - 1], completed, frontier);
      if e.seqNo > frontier && e.seqNo in completed then rest[e.seqNo := e.media] else rest
  }

  function Marshal(c: Checkpoint, completed: seq<int>): Saved {
    Saved(c.stage, c.partIndex, c.reanchors, c.variant, c.ledger.partStart, c.ledger.started,
          c.ledger.frontier, completed, AccountingList(completed, c.ledger.accounting), c.ledger.gaps,
          c.ledger.total, c.endListSeen, c.hadWindowRoll, c.split)
  }

  /** What json.Unmarshal followed by Init yields. */
  function Load(j: Saved): Checkpoint {
    var started := j.started || j.partStart != 0 || j.frontier != 0 || j.completed != [] || j.gaps != []
                   || j.stage.AtOrAfter(PrepareInput);
    var buffered := ToSet(j.completed);
    var ledger := Ledger(j.partStart, started, j.frontier, buffered,
                         LoadAccounting(j.accounting, j.completed, j.frontier), j.gaps,
                         Above(buffered, j.frontier) + Above(GapSeqs(j.gaps), j.frontier), j.total);
    Checkpoint(j.stage, j.partIndex, j.reanchors, j.variant, ledger, j.endListSeen, j.hadWindowRoll, j.split)
  }

  /** j is what MarshalJSON writes for c; an ascending listing of the buffer is unique. */
  ghost predicate Saves(c: Checkpoint, j: Saved) {
    Ascending(j.completed) && ToSet(j.completed) == c.ledger.buffered && j == Marshal(c, j.completed)
  }

  // ---------- facts ----------

  /** Deleting or inserting one entry of the sorted buffer. */
  lemma DeleteEntry(s: seq<int>, i: nat)
    requires Ascending(s) && i < |s|
    ensures var r := s[..i] + s[i + 1..];
            Ascending(r) && ToSet(r) == ToSet(s) - {s[i]}
  {
    var r := s[..i] + s[i + 1..];
    forall x ensures x in r <==> x in s && x != s[i] {
      if x in s && x != s[i] {
        var k :| 0 <= k < |s| && s[k] == x;
        assert x == r[if k < i then k else k - 1];
      }
    }
  }

  lemma PrefixBelow(s: seq<int>, i: nat)
    requires Ascending(s) && i < |s|
    ensures ToSet(s[..i + 1]) == ToSet(s[..i]) + {s[i]}
    ensures forall x <- s[..i] :: x < s[i]
  {
    assert s[..i + 1] == s[..i] + [s[i]];
  }

  lemma InsertEntry(s: seq<int>, i: nat, x: int)
    requires Ascending(s) && i <= |s|
    requires (forall k | 0 <= k < i :: s[k] < x) && (forall k | i <= k < |s| :: s[k] > x)
    ensures var r := s[..i] + [x] + s[i..];
            Ascending(r) && ToSet(r) == ToSet(s) + {x}
  {
    var r := s[..i] + [x] + s[i..];
    assert r[i] == x;
    assert forall k | 0 <= k < |s| :: s[k] == r[if k < i then k else k + 1];
    forall y ensures y in r <==> y in s || y == x {}
  }

  lemma {:induction false} AccountingListEntries(completed: seq<int>, accounting: map<int, Media>)
    ensures forall e :: e in AccountingList(completed, accounting) <==>
                        e.seqNo in completed && e.seqNo in accounting && e.media == accounting[e.seqNo]
  {
    if completed != [] {
      var n := |completed| - 1;
      AccountingListEntries(completed[..n], accounting);
      assert completed == completed[..n] + [completed[n]];
    }
  }

  lemma {:induction false} LoadAccountingIs(entries: seq<Accounting>, completed: seq<int>, frontier: int,
                                            accounting: map<int, Media>)
    requires forall e <- entries :: e.seqNo in accounting && e.media == accounting[e.seqNo]
    ensures var r := LoadAccounting(entries, completed, frontier);
            && (forall s :: s in r <==> s > frontier && s in completed && exists e <- entries :: e.seqNo == s)
            && (forall s <- r.Keys :: r[s] == accounting[s])
  {
    if entries != [] {
      var n := |entries| - 1;
      LoadAccountingIs(entries[..n], completed, frontier, accounting);
      assert entries == entries[..n] + [entries[n]];
      forall s | s > frontier && s in completed && exists e <- entries :: e.seqNo == s
        ensures s in LoadAccounting(entries, completed, frontier)
      {
        var e :| e in entries && e.seqNo == s;
        if e in entries[..n] { assert e in entries[..n]; }
      }
    }
  }

  /** Crash round trip: for every started part in a valid state, marshalling and reloading give
      back the very same checkpoint, so every later event behaves as in the uncrashed run. */
  lemma CrashRoundTrip(c: Checkpoint, media: map<int, Media>, j: Saved)
    requires Sound(c.ledger, media) && Saves(c, j)
    ensures Load(j) == c
  {
    var l, l' := c.ledger, Load(j).ledger;
    AccountingListEntries(j.completed, l.accounting);
    LoadAccountingIs(j.accounting, j.completed, l.frontier, l.accounting);
    forall s ensures s in l'.accounting <==> s in l.accounting {
      if s in l.accounting {
        assert Accounting(s, l.accounting[s]) in j.accounting;
      }
    }
    assert l'.accounting == l.accounting;
    forall s ensures s in l'.resolved <==> s in l.resolved {
      assert s in l'.resolved <==> s > l.frontier && (s in l.buffered || s in GapSeqs(l.gaps));
    }
    assert l'.resolved == l.resolved;
  }

  lemma EmptyListing(s: seq<int>)
    ensures s == [] <==> ToSet(s) == {}
  {
    if s != [] { assert s[0] in ToSet(s); }
  }

  /** So does a part that has nothing recorded yet. */
  lemma EmptyRoundTrip(c: Checkpoint, j: Saved)
    requires Saves(c, j) && c.ledger == EMPTY_LEDGER && !c.stage.AtOrAfter(PrepareInput)
    ensures Load(j) == c
  {
    EmptyListing(j.completed);
  }

  /** The window between BeginNewPart and the first poll: a crash there round-trips exactly when
      no gap was carried over. With a gap, Init takes the unanchored part for a started one. */
  lemma BeginNewPartRoundTrip(c: Checkpoint, j: Saved)
    requires Saves(BeginNewPart(c), j)
    ensures Load(j) == BeginNewPart(c) <==> c.ledger.gaps == []
    ensures Load(j).ledger.started <==> c.ledger.gaps != []
  {
    EmptyListing(j.completed);
    assert j.accounting == [];
  }

  /** Re-anchoring drops the gaps, so its window always round-trips. */
  lemma ReanchorRoundTrip(c: Checkpoint, j: Saved)
    requires Saves(ReanchorCurrentPart(c), j)
    ensures Load(j) == ReanchorCurrentPart(c)
  {
    EmptyListing(j.completed);
  }
}
