/** The orders of the video list page, told by the rows and the strings of the options. */
module VideoSorts {
  import opened Prelude
  import opened Videos
  import opened Sql
  import opened VideoOrder

  // ---------- what each sort promises ----------

  predicate InTurn(asc: bool, x: int, y: int) { if asc then x < y else x > y }

  /** Among rows that tie otherwise: the newer recording first, then the ids in the direction asked for. */
  predicate NewerFirst(asc: bool, a: Video, b: Video) {
    || a.startDownloadAt > b.startDownloadAt
    || (a.startDownloadAt == b.startDownloadAt && InTurn(asc, a.id, b.id))
  }

  /** A known length comes before an unknown one in either direction. */
  predicate LengthInTurn(asc: bool, x: Option<real>, y: Option<real>) {
    x.Some? && (y.None? || if asc then x.value < y.value else x.value > y.value)
  }

  predicate SizeInTurn(asc: bool, x: Option<int>, y: Option<int>) {
    x.Some? && (y.None? || InTurn(asc, x.value, y.value))
  }

  /** At the first place where they differ a has the smaller character, or it ends there. */
  ghost predicate TextBefore(a: string, b: string) {
    exists k :: 0 <= k <= |a| && k < |b| && a[..k] == b[..k] && (k == |a| || a[k] < b[k])
  }

  function OrElse(x: Option<int>, otherwise: int): int { if x.Some? then x.value else otherwise }

  /** When the history shows a video: its deletion, else its download, else its recording. */
  function ShownAt(v: Video): int { OrElse(v.deletedAt, OrElse(v.downloadedAt, v.startDownloadAt)) }

  /** a stands before b on a page with these options. Only "asc" ascends, and an unknown sort is newest
      first whatever the order says. */
  ghost predicate ComesBefore(o: ListVideosOpts, a: Video, b: Video) {
    var asc := o.order == "asc";
    if o.sort == "duration" then
      LengthInTurn(asc, a.durationSeconds, b.durationSeconds)
      || (a.durationSeconds == b.durationSeconds && NewerFirst(asc, a, b))
    else if o.sort == "size" then
      SizeInTurn(asc, a.sizeBytes, b.sizeBytes) || (a.sizeBytes == b.sizeBytes && NewerFirst(asc, a, b))
    else if o.sort == "channel" then
      (if asc then TextBefore(a.displayName, b.displayName) else TextBefore(b.displayName, a.displayName))
      || (a.displayName == b.displayName && NewerFirst(asc, a, b))
    else if o.sort == "history_when" then
      InTurn(asc, ShownAt(a), ShownAt(b)) || (ShownAt(a) == ShownAt(b) && InTurn(asc, a.id, b.id))
    else
      var asc' := asc && o.sort == "created_at";
      || InTurn(asc', a.startDownloadAt, b.startDownloadAt)
      || (a.startDownloadAt == b.startDownloadAt && InTurn(asc', a.id, b.id))
  }

  // ---------- the rendered ORDER BY keeps the promise ----------

  lemma {:induction false} TextLessIs(a: string, b: string)
    ensures TextLess(a, b) <==> TextBefore(a, b)
    decreases |a|
  {
    if a != "" && b != "" && a[0] == b[0] {
      TextLessIs(a[1..], b[1..]);
      if TextBefore(a[1..], b[1..]) {
        var k :| 0 <= k <= |a[1..]| && k < |b[1..]| && a[1..][..k] == b[1..][..k]
                 && (k == |a[1..]| || a[1..][k] < b[1..][k]);
        assert a[..k + 1] == [a[0]] + a[1..][..k] && b[..k + 1] == [b[0]] + b[1..][..k];
      }
      if TextBefore(a, b) {
        var k :| 0 <= k <= |a| && k < |b| && a[..k] == b[..k] && (k == |a| || a[k] < b[k]);
        assert k > 0;
        assert a[1..][..k - 1] == a[..k][1..] && b[1..][..k - 1] == b[..k][1..];
      }
    } else if a == "" && b != "" {
      assert a[..0] == b[..0];
    } else if a != "" && b != "" {
      assert a[..0] == b[..0];
    }
  }

  lemma HistoryOrderMeans(postgres: bool, m: Mode, a: Video, b: Video)
    requires m.key.HistoryWhen?
    ensures Before(postgres, OrderBy(m), a, b) <==>
            InTurn(m.asc, ShownAt(a), ShownAt(b)) || (ShownAt(a) == ShownAt(b) && InTurn(m.asc, a.id, b.id))
  {
    TwoKeyIsBefore(postgres, m, a, b);
    WhenIs(postgres, a, {}, 0);
    WhenIs(postgres, b, {}, 0);
  }

  lemma ChannelOrderMeans(postgres: bool, m: Mode, a: Video, b: Video)
    requires m.key.Channel?
    ensures Before(postgres, OrderBy(m), a, b) <==>
            (if m.asc then TextBefore(a.displayName, b.displayName) else TextBefore(b.displayName, a.displayName))
            || (a.displayName == b.displayName && NewerFirst(m.asc, a, b))
  {
    ThreeKeyIsBefore(postgres, m, a, b);
    TextLessIs(a.displayName, b.displayName);
    TextLessIs(b.displayName, a.displayName);
  }

  /** In either dialect the ORDER BY of the options puts the rows in the order the option strings promise. */
  lemma OrderMeans(postgres: bool, o: ListVideosOpts, a: Video, b: Video)
    ensures Before(postgres, OrderBy(NormalizeVideoListSort(o)), a, b) <==> ComesBefore(o, a, b)
  {
    var m := NormalizeVideoListSort(o);
    match m.key
    case CreatedAt => TwoKeyIsBefore(postgres, m, a, b);
    case HistoryWhen => HistoryOrderMeans(postgres, m, a, b);
    case Channel => ChannelOrderMeans(postgres, m, a, b);
    case Duration => ThreeKeyIsBefore(postgres, m, a, b);
    case Size => ThreeKeyIsBefore(postgres, m, a, b);
  }
}
