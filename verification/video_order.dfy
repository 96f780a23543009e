/** The orders of the video list page, and the cursor condition each order resumes with. */
module VideoOrder {
  import opened Prelude
  import opened Videos
  import opened Sql
  import opened VideoFilters

  // ---------- ORDER BY ----------

  datatype OrderKey = OrderKey(x: Expr, asc: bool, nullsLast: bool)

  const WHEN := Coalesce(Col(DeletedAt), Coalesce(Col(DownloadedAt), Col(StartDownloadAt)))

  function OrderBy(m: Mode): seq<OrderKey> {
    var id := OrderKey(Col(Id), m.asc, false);
    var newest := OrderKey(Col(StartDownloadAt), false, false);
    match m.key
    case CreatedAt => [OrderKey(Col(StartDownloadAt), m.asc, false), id]
    case HistoryWhen => [OrderKey(WHEN, m.asc, false), id]
    case Channel => [OrderKey(Col(DisplayName), m.asc, false), newest, id]
    case Duration => [OrderKey(Col(DurationSeconds), m.asc, true), newest, id]
    case Size => [OrderKey(Col(SizeBytes), m.asc, true), newest, id]
  }

  /** Where NULLs go when the text does not say: above everything in Postgres, below in SQLite. */
  predicate NullsFirst(postgres: bool, k: OrderKey) { !k.nullsLast && (k.asc != postgres) }

  predicate KeyBefore(postgres: bool, k: OrderKey, x: Value, y: Value) {
    if x.Null? || y.Null? then x != y && (if NullsFirst(postgres, k) then x.Null? else y.Null?)
    else if k.asc then Less(x, y)
    else Less(y, x)
  }

  function KeyOf(postgres: bool, k: OrderKey, v: Video): Value { EvalExpr(k.x, Env(postgres, v, {}, 0)) }

  /** a comes strictly before b. */
  predicate Before(postgres: bool, ks: seq<OrderKey>, a: Video, b: Video) {
    ks != [] &&
    var x, y := KeyOf(postgres, ks[0], a), KeyOf(postgres, ks[0], b);
    KeyBefore(postgres, ks[0], x, y) || (x == y && Before(postgres, ks[1..], a, b))
  }

  predicate SameKeys(postgres: bool, ks: seq<OrderKey>, a: Video, b: Video) {
    forall k <- ks :: KeyOf(postgres, k, a) == KeyOf(postgres, k, b)
  }

  lemma KeyOrder(postgres: bool, k: OrderKey, x: Value, y: Value, z: Value)
    ensures !KeyBefore(postgres, k, x, x)
    ensures x == y || KeyBefore(postgres, k, x, y) || KeyBefore(postgres, k, y, x)
    ensures KeyBefore(postgres, k, x, y) && KeyBefore(postgres, k, y, z) ==> KeyBefore(postgres, k, x, z)
  {
    ValueOrder(x, y, z);
    ValueOrder(z, y, x);
  }

  lemma SameKeysSplit(postgres: bool, ks: seq<OrderKey>, a: Video, b: Video)
    requires ks != []
    ensures SameKeys(postgres, ks, a, b) <==>
            KeyOf(postgres, ks[0], a) == KeyOf(postgres, ks[0], b) && SameKeys(postgres, ks[1..], a, b)
  {
    assert ks == [ks[0]] + ks[1..];
  }

  lemma {:induction false} BeforeIsStrict(postgres: bool, ks: seq<OrderKey>, a: Video, b: Video)
    ensures SameKeys(postgres, ks, a, b) ==> !Before(postgres, ks, a, b)
    ensures SameKeys(postgres, ks, a, b) || Before(postgres, ks, a, b) || Before(postgres, ks, b, a)
  {
    if ks != [] {
      SameKeysSplit(postgres, ks, a, b);
      var x, y := KeyOf(postgres, ks[0], a), KeyOf(postgres, ks[0], b);
      KeyOrder(postgres, ks[0], x, y, y);
      BeforeIsStrict(postgres, ks[1..], a, b);
    }
  }

  lemma {:induction false} BeforeIsTransitive(postgres: bool, ks: seq<OrderKey>, a: Video, b: Video, c: Video)
    requires Before(postgres, ks, a, b) && Before(postgres, ks, b, c)
    ensures Before(postgres, ks, a, c)
  {
    var x, y, z := KeyOf(postgres, ks[0], a), KeyOf(postgres, ks[0], b), KeyOf(postgres, ks[0], c);
    KeyOrder(postgres, ks[0], x, y, z);
    if x == y && y == z { BeforeIsTransitive(postgres, ks[1..], a, b, c); }
  }

  /** Only the keys matter. */
  lemma {:induction false} BeforeCongruent(postgres: bool, ks: seq<OrderKey>, a: Video, a': Video, b: Video, b': Video)
    requires SameKeys(postgres, ks, a, a') && SameKeys(postgres, ks, b, b')
    ensures Before(postgres, ks, a, b) <==> Before(postgres, ks, a', b')
  {
    if ks != [] {
      SameKeysSplit(postgres, ks, a, a');
      SameKeysSplit(postgres, ks, b, b');
      BeforeCongruent(postgres, ks[1..], a, a', b, b');
    }
  }

  /** Every order ends in the id, so different videos never tie. */
  lemma KeysIncludeId(postgres: bool, m: Mode, a: Video, b: Video)
    requires SameKeys(postgres, OrderBy(m), a, b)
    ensures a.id == b.id
  {
    var ks := OrderBy(m);
    var k := ks[|ks| - 1];
    assert k in ks && k.x == Col(Id);
    assert KeyOf(postgres, k, a) == Int(a.id) && KeyOf(postgres, k, b) == Int(b.id);
  }

  // ---------- the cursor condition ----------

  function Past<H>(asc: bool, x: Expr, h: H): Pred<H> { Rel(if asc then Gt else Lt, Of(x), Hole(h)) }

  function Tie<H>(asc: bool, t0: H, t1: H, i: H): Pred<H> {
    Or(Rel(Lt, Of(Col(StartDownloadAt)), Hole(t0)),
       And(Rel(Eq, Of(Col(StartDownloadAt)), Hole(t1)), Past(asc, Col(Id), i)))
  }

  function TwoKeyAfter<H>(asc: bool, x: Expr, t0: H, t1: H, t2: H, i: H): Pred<H> {
    Or(Or(Is(IsNull, Hole(t0)), Past(asc, x, t1)), And(Rel(Eq, Of(x), Hole(t2)), Past(asc, Col(Id), i)))
  }

  function ChannelAfter<H>(asc: bool, x0: H, x1: H, x2: H, t0: H, t1: H, i: H): Pred<H> {
    Or(Or(Is(IsNull, Hole(x0)), Past(asc, Col(DisplayName), x1)),
       And(Rel(Eq, Of(Col(DisplayName)), Hole(x2)), Tie(asc, t0, t1, i)))
  }

  /** The cursor row has no value in the column: only such rows are left. */
  function AmongNulls<H>(asc: bool, c: Column, n: H, t0: H, t1: H, i: H): Pred<H> {
    And(And(Is(IsNull, Hole(n)), Is(IsNull, Of(Col(c)))), Tie(asc, t0, t1, i))
  }

  function AmongValues<H>(asc: bool, c: Column, n0: H, n1: H, n2: H, t0: H, t1: H, i: H): Pred<H> {
    And(Is(NotNull, Hole(n0)),
        Or(Or(Is(IsNull, Of(Col(c))), Past(asc, Col(c), n1)),
           And(Rel(Eq, Of(Col(c)), Hole(n2)), Tie(asc, t0, t1, i))))
  }

  function NullableAfter<H>(asc: bool, c: Column, t: H, n: H, t0: H, t1: H, i: H,
                            n0: H, n1: H, n2: H, t2: H, t3: H, j: H): Pred<H> {
    Or(Or(Is(IsNull, Hole(t)), AmongNulls(asc, c, n, t0, t1, i)), AmongValues(asc, c, n0, n1, n2, t2, t3, j))
  }

  /** What a cursor binds. */
  datatype Slots<H> = Slots(t: H, sortTime: H, id: H, text: H, num: H, bigint: H)

  function CursorAfter<H>(m: Mode, s: Slots<H>): Pred<H> {
    match m.key
    case CreatedAt => TwoKeyAfter(m.asc, Col(StartDownloadAt), s.t, s.t, s.t, s.id)
    case HistoryWhen => TwoKeyAfter(m.asc, WHEN, s.sortTime, s.sortTime, s.sortTime, s.id)
    case Channel => ChannelAfter(m.asc, s.text, s.text, s.text, s.t, s.t, s.id)
    case Duration =>
      NullableAfter(m.asc, DurationSeconds, s.t, s.num, s.t, s.t, s.id, s.num, s.num, s.num, s.t, s.t, s.id)
    case Size =>
      NullableAfter(m.asc, SizeBytes, s.t, s.bigint, s.t, s.t, s.id, s.bigint, s.bigint, s.bigint, s.t, s.t, s.id)
  }

  function CursorBinds(cursor: Option<VideoListPageCursor>): Slots<Bind> {
    match cursor
    case None =>
      Slots(TimeBind(0, false), TimeBind(0, false), IdBind(0), TextPtrBind(None), FloatPtrBind(None), IntPtrBind(None))
    case Some(c) =>
      Slots(TimeBind(c.startDownloadAt, true),
            TimeBind(if c.sortTime.Some? then c.sortTime.value else c.startDownloadAt, true),
            IdBind(c.id), TextPtrBind(c.sortText), FloatPtrBind(c.sortNumber), IntPtrBind(c.sortInt))
  }

  function SlotValues(s: Slots<Bind>): Slots<Value> {
    Slots(s.t.v, s.sortTime.v, s.id.v, s.text.v, s.num.v, s.bigint.v)
  }

  // ---------- the cursor condition against the order ----------

  predicate PastValue(asc: bool, x: Value, bound: Value) {
    !x.Null? && !bound.Null? && (if asc then Less(bound, x) else Less(x, bound))
  }

  predicate AfterTie(asc: bool, start: int, id: int, v: Video) {
    v.startDownloadAt < start || (v.startDownloadAt == start && if asc then v.id > id else v.id < id)
  }

  lemma PastMeans(asc: bool, x: Expr, bound: Value, e: Env)
    ensures Holding(Past(asc, x, bound), e).True? <==> PastValue(asc, EvalExpr(x, e), bound)
  {
  }

  lemma TieMeans(asc: bool, start: int, id: int, e: Env)
    ensures Holding(Tie(asc, Time(start), Time(start), Int(id)), e).True? <==> AfterTie(asc, start, id, e.row)
  {
    PastMeans(asc, Col(Id), Int(id), e);
    var same := And(Rel(Eq, Of(Col(StartDownloadAt)), Hole(Time(start))), Past(asc, Col(Id), Int(id)));
    assert Holding(same, e).True? <==>
           e.row.startDownloadAt == start && if asc then e.row.id > id else e.row.id < id;
  }

  lemma TwoKeyMeans(asc: bool, x: Expr, t: Value, id: int, e: Env)
    ensures Holding(TwoKeyAfter(asc, x, t, t, t, Int(id)), e).True? <==>
            var y := EvalExpr(x, e);
            || t.Null? || PastValue(asc, y, t)
            || (y == t && !y.Null? && if asc then e.row.id > id else e.row.id < id)
  {
    PastMeans(asc, x, t, e);
    PastMeans(asc, Col(Id), Int(id), e);
    var same := And(Rel(Eq, Of(x), Hole(t)), Past(asc, Col(Id), Int(id)));
    assert Holding(same, e).True? <==>
           var y := EvalExpr(x, e); y == t && !y.Null? && if asc then e.row.id > id else e.row.id < id;
    assert Holding(Or(Is(IsNull, Hole(t)), Past(asc, x, t)), e).True? <==> t.Null? || PastValue(asc, EvalExpr(x, e), t);
  }

  lemma ChannelMeans(asc: bool, name: Value, start: int, id: int, e: Env)
    ensures Holding(ChannelAfter(asc, name, name, name, Time(start), Time(start), Int(id)), e).True? <==>
            || name.Null?
            || PastValue(asc, Text(e.row.displayName), name)
            || (Text(e.row.displayName) == name && AfterTie(asc, start, id, e.row))
  {
    PastMeans(asc, Col(DisplayName), name, e);
    TieMeans(asc, start, id, e);
    var same := And(Rel(Eq, Of(Col(DisplayName)), Hole(name)), Tie(asc, Time(start), Time(start), Int(id)));
    assert Holding(same, e).True? <==> Text(e.row.displayName) == name && AfterTie(asc, start, id, e.row);
    assert Holding(Or(Is(IsNull, Hole(name)), Past(asc, Col(DisplayName), name)), e).True? <==>
           name.Null? || PastValue(asc, Text(e.row.displayName), name);
  }

  lemma AmongNullsMeans(asc: bool, c: Column, n: Value, start: int, id: int, e: Env)
    ensures Holding(AmongNulls(asc, c, n, Time(start), Time(start), Int(id)), e).True? <==>
            n.Null? && Cell(e.postgres, e.row, c).Null? && AfterTie(asc, start, id, e.row)
  {
    TieMeans(asc, start, id, e);
    assert Holding(And(Is(IsNull, Hole(n)), Is(IsNull, Of(Col(c)))), e).True? <==>
           n.Null? && Cell(e.postgres, e.row, c).Null?;
  }

  lemma AmongValuesMeans(asc: bool, c: Column, n: Value, start: int, id: int, e: Env)
    ensures Holding(AmongValues(asc, c, n, n, n, Time(start), Time(start), Int(id)), e).True? <==>
            var y := Cell(e.postgres, e.row, c);
            !n.Null? && (y.Null? || PastValue(asc, y, n) || (y == n && AfterTie(asc, start, id, e.row)))
  {
    TieMeans(asc, start, id, e);
    PastMeans(asc, Col(c), n, e);
    var y := Cell(e.postgres, e.row, c);
    var same := And(Rel(Eq, Of(Col(c)), Hole(n)), Tie(asc, Time(start), Time(start), Int(id)));
    assert Holding(same, e).True? <==> y == n && !y.Null? && AfterTie(asc, start, id, e.row);
    var later := Or(Is(IsNull, Of(Col(c))), Past(asc, Col(c), n));
    assert Holding(later, e).True? <==> y.Null? || PastValue(asc, y, n);
    assert Holding(Or(later, same), e).True? <==> Holding(later, e).True? || Holding(same, e).True?;
  }

  lemma NullableMeans(asc: bool, c: Column, n: Value, start: int, id: int, e: Env)
    ensures var t := Time(start);
            var i := Int(id);
            var y := Cell(e.postgres, e.row, c);
            Holding(NullableAfter(asc, c, t, n, t, t, i, n, n, n, t, t, i), e).True? <==>
            if n.Null? then y.Null? && AfterTie(asc, start, id, e.row)
            else y.Null? || PastValue(asc, y, n) || (y == n && AfterTie(asc, start, id, e.row))
  {
    AmongNullsMeans(asc, c, n, start, id, e);
    AmongValuesMeans(asc, c, n, start, id, e);
    var t, i := Time(start), Int(id);
    var nulls := AmongNulls(asc, c, n, t, t, i);
    assert Holding(Or(Is(IsNull, Hole(t)), nulls), e).True? <==> Holding(nulls, e).True?;
  }

  lemma WhenIs(postgres: bool, v: Video, states: set<UserState>, weekAgo: int)
    ensures EvalExpr(WHEN, Env(postgres, v, states, weekAgo)) == Time(VideoHistoryWhen(v))
  {
    var e := Env(postgres, v, states, weekAgo);
    assert EvalExpr(Col(DeletedAt), e) == FromTime(v.deletedAt);
    assert EvalExpr(Coalesce(Col(DownloadedAt), Col(StartDownloadAt)), e) ==
           if v.downloadedAt.Some? then Time(v.downloadedAt.value) else Time(v.startDownloadAt);
  }

  lemma TieIsBefore(postgres: bool, asc: bool, a: Video, b: Video)
    ensures Before(postgres, [OrderKey(Col(StartDownloadAt), false, false), OrderKey(Col(Id), asc, false)], a, b) <==>
            AfterTie(asc, a.startDownloadAt, a.id, b)
  {
    IdIsBefore(postgres, asc, a, b);
    var ks := [OrderKey(Col(StartDownloadAt), false, false), OrderKey(Col(Id), asc, false)];
    assert ks[1..] == [OrderKey(Col(Id), asc, false)];
  }

  lemma IdIsBefore(postgres: bool, asc: bool, a: Video, b: Video)
    ensures Before(postgres, [OrderKey(Col(Id), asc, false)], a, b) <==> if asc then a.id < b.id else b.id < a.id
  {
    assert [OrderKey(Col(Id), asc, false)][1..] == [];
  }

  function CursorRow(m: Mode, src: Video): Slots<Value> {
    SlotValues(CursorBinds(Some(VideoListCursorFromVideo(src, m))))
  }

  lemma TwoKeyIsBefore(postgres: bool, m: Mode, src: Video, v: Video)
    requires m.key.CreatedAt? || m.key.HistoryWhen?
    ensures var x, y := KeyOf(postgres, OrderBy(m)[0], src), KeyOf(postgres, OrderBy(m)[0], v);
            Before(postgres, OrderBy(m), src, v) <==>
            || (if m.asc then Less(x, y) else Less(y, x))
            || (x == y && if m.asc then src.id < v.id else v.id < src.id)
  {
    var ks := OrderBy(m);
    assert ks[1..] == [OrderKey(Col(Id), m.asc, false)];
    IdIsBefore(postgres, m.asc, src, v);
    if m.key.HistoryWhen? {
      WhenIs(postgres, src, {}, 0);
      WhenIs(postgres, v, {}, 0);
    }
  }

  lemma ThreeKeyIsBefore(postgres: bool, m: Mode, src: Video, v: Video)
    requires m.key.Channel? || m.key.Duration? || m.key.Size?
    ensures var k := OrderBy(m)[0];
            var x, y := KeyOf(postgres, k, src), KeyOf(postgres, k, v);
            Before(postgres, OrderBy(m), src, v) <==>
            KeyBefore(postgres, k, x, y) || (x == y && AfterTie(m.asc, src.startDownloadAt, src.id, v))
  {
    var ks := OrderBy(m);
    assert ks[1..] == [OrderKey(Col(StartDownloadAt), false, false), OrderKey(Col(Id), m.asc, false)];
    TieIsBefore(postgres, m.asc, src, v);
  }

  lemma TwoKeyCursor(m: Mode, src: Video, e: Env)
    requires m.key.CreatedAt? || m.key.HistoryWhen?
    ensures Holding(CursorAfter(m, CursorRow(m, src)), e).True? <==> Before(e.postgres, OrderBy(m), src, e.row)
  {
    TwoKeyIsBefore(e.postgres, m, src, e.row);
    if m.key.CreatedAt? {
      TwoKeyMeans(m.asc, Col(StartDownloadAt), Time(src.startDownloadAt), src.id, e);
    } else {
      WhenIs(e.postgres, src, {}, 0);
      WhenIs(e.postgres, e.row, {}, 0);
      WhenIs(e.postgres, e.row, e.states, e.weekAgo);
      TwoKeyMeans(m.asc, WHEN, Time(VideoHistoryWhen(src)), src.id, e);
    }
  }

  lemma ChannelCursor(m: Mode, src: Video, e: Env)
    requires m.key.Channel?
    ensures Holding(CursorAfter(m, CursorRow(m, src)), e).True? <==> Before(e.postgres, OrderBy(m), src, e.row)
  {
    ThreeKeyIsBefore(e.postgres, m, src, e.row);
    ChannelMeans(m.asc, Text(src.displayName), src.startDownloadAt, src.id, e);
  }

  lemma NullableCursor(m: Mode, src: Video, e: Env)
    requires m.key.Duration? || m.key.Size?
    ensures Holding(CursorAfter(m, CursorRow(m, src)), e).True? <==> Before(e.postgres, OrderBy(m), src, e.row)
  {
    ThreeKeyIsBefore(e.postgres, m, src, e.row);
    if m.key.Duration? {
      NullableMeans(m.asc, DurationSeconds, FromReal(src.durationSeconds), src.startDownloadAt, src.id, e);
    } else {
      NullableMeans(m.asc, SizeBytes, FromInt(src.sizeBytes), src.startDownloadAt, src.id, e);
    }
  }

  /** Under three-valued logic the cursor condition accepts exactly the rows strictly after the
      row the cursor came from, in the order the query asks for. */
  lemma CursorPicksLaterRows(m: Mode, src: Video, e: Env)
    ensures Holding(CursorAfter(m, CursorRow(m, src)), e).True? <==> Before(e.postgres, OrderBy(m), src, e.row)
  {
    match m.key
    case CreatedAt => TwoKeyCursor(m, src, e);
    case HistoryWhen => TwoKeyCursor(m, src, e);
    case Channel => ChannelCursor(m, src, e);
    case Duration => NullableCursor(m, src, e);
    case Size => NullableCursor(m, src, e);
  }

  /** Without a cursor the condition accepts every row. */
  lemma NoCursorAcceptsAll(m: Mode, e: Env)
    ensures Holding(CursorAfter(m, SlotValues(CursorBinds(None))), e).True?
  {
    var s := SlotValues(CursorBinds(None));
    match m.key
    case CreatedAt => TwoKeyMeans(m.asc, Col(StartDownloadAt), Null, 0, e);
    case HistoryWhen => TwoKeyMeans(m.asc, WHEN, Null, 0, e);
    case Channel => assert Holding(Or(Is(IsNull, Hole(s.text)), Past(m.asc, Col(DisplayName), s.text)), e).True?;
    case Duration =>
      var none := AmongNulls(m.asc, DurationSeconds, s.num, s.t, s.t, s.id);
      assert Holding(Or(Is(IsNull, Hole(s.t)), none), e).True?;
    case Size =>
      var none := AmongNulls(m.asc, SizeBytes, s.bigint, s.t, s.t, s.id);
      assert Holding(Or(Is(IsNull, Hole(s.t)), none), e).True?;
  }

  predicate Accepts(m: Mode, c: VideoListPageCursor, e: Env) {
    Holding(CursorAfter(m, SlotValues(CursorBinds(Some(c)))), e).True?
  }

  /** The row that a cursor lacking the order's own key stands for: the same one, without its value. */
  function WithoutKey(m: Mode, src: Video): Video {
    match m.key
    case CreatedAt => src
    case HistoryWhen => src.(deletedAt := None, downloadedAt := None)
    case Channel => src
    case Duration => src.(durationSeconds := None)
    case Size => src.(sizeBytes := None)
  }

  /** A cursor minted for another order: the channel order ignores it and starts over, the creation
      order takes it as its own, the history order puts the start of the recording in place of its key,
      and the duration and size orders take its row for one that has no value. */
  lemma ForeignCursor(m: Mode, other: Mode, src: Video, e: Env)
    requires m.key != other.key
    ensures Accepts(m, VideoListCursorFromVideo(src, other), e) <==>
            m.key.Channel? || Before(e.postgres, OrderBy(m), WithoutKey(m, src), e.row)
  {
    if m.key.Channel? { ChannelMeans(m.asc, Null, src.startDownloadAt, src.id, e); }
    else { CursorPicksLaterRows(m, WithoutKey(m, src), e); }
  }

  /** The row of the cursor itself, seen by its sort keys. */
  function RowAt(e: Env, name: string, start: int, id: int): Env {
    e.(row := e.row.(displayName := name, startDownloadAt := start, id := id))
  }

  lemma OwnRowRejected(m: Mode, c: VideoListPageCursor, e: Env)
    requires m.key.Channel? && c.sortText.Some?
    ensures !Accepts(m, c, RowAt(e, c.sortText.value, c.startDownloadAt, c.id))
  {
    ChannelMeans(m.asc, Text(c.sortText.value), c.startDownloadAt, c.id,
                 RowAt(e, c.sortText.value, c.startDownloadAt, c.id));
    ValueOrder(Text(c.sortText.value), Text(c.sortText.value), Null);
  }

  /** The channel order ignores a cursor, accepting every row, if and only if the cursor has no name. */
  lemma ChannelIgnoresCursor(m: Mode, c: VideoListPageCursor, sample: Env)
    requires m.key.Channel?
    ensures (forall e :: Accepts(m, c, e)) <==> c.sortText.None?
  {
    if c.sortText.Some? { OwnRowRejected(m, c, sample); }
    else {
      forall e ensures Accepts(m, c, e) { ChannelMeans(m.asc, Null, c.startDownloadAt, c.id, e); }
    }
  }
}
