/** What the rendered page query asks of the engine, whichever dialect wrote it. */
module VideoPageMeaning {
  import opened Prelude
  import opened Videos
  import opened Sql
  import opened VideoFilters
  import opened VideoOrder
  import opened VideoSorts
  import opened VideoPageSql

  /** The engine's reading of a query text and its argument list. */
  function ReadQuery(args: seq<Value>, q: Query<Mark>): Query<Value> {
    Query(Resolve(args, 0, q.cond), q.order, ResolveTerm(args, Questions(q.cond), q.limit))
  }

  function Meant(q: Query<Bind>): Query<Value> { Query(Fill(q.cond), q.order, FillTerm(q.limit)) }

  /** The placeholders of either dialect read back as the query the builder meant. */
  lemma QueryReadsBack(postgres: bool, args: seq<Value>, q: Query<Mark>, meant: Query<Bind>)
    requires RendersQuery(postgres, args, q, meant)
    ensures ReadQuery(args, q) == Meant(meant)
  {
    var bs := Binds(meant.cond);
    assert args[0..|bs|] == ValuesOf(bs);
    assert StandAt(args, 0, bs);
    Resolved(postgres, args, 0, 0, meant.cond);
    assert args[|bs|] == meant.limit.h.v;
    TermResolved(postgres, args, |bs|, if postgres then 0 else |bs|, meant.limit) by {
      assert args[|bs|..|bs| + 1] == [meant.limit.h.v] == ValuesOf(TermBinds(meant.limit));
    }
  }

  // ---------- the condition, clause by clause ----------

  predicate Accepts(p: Pred<Bind>, e: Env) { Holding(Fill(p), e).True? }

  lemma BothAccept(a: Pred<Bind>, b: Pred<Bind>, e: Env)
    ensures Accepts(And(a, b), e) <==> Accepts(a, e) && Accepts(b, e)
  {
    assert Fill(And(a, b)) == And(Fill(a), Fill(b));
    assert Holding(And(Fill(a), Fill(b)), e) == AndT(Holding(Fill(a), e), Holding(Fill(b), e));
  }

  lemma FillOr(a: Pred<Bind>, b: Pred<Bind>)
    ensures Fill(Or(a, b)) == Or(Fill(a), Fill(b))
    ensures Fill(And(a, b)) == And(Fill(a), Fill(b))
  {
  }

  lemma EqualsOrAnyAccepts(c: Column, s: string, e: Env)
    ensures Accepts(EqualsOrAny(c, TextBind(s), TextBind(s)), e) <==> s == "" || Cell(e.postgres, e.row, c) == Text(s)
  {
    EqualsOrAnyMeans(c, s, e);
    assert Fill(EqualsOrAny(c, TextBind(s), TextBind(s))) == EqualsOrAny(c, Text(s), Text(s));
  }

  lemma QualityAccepts(q: string, e: Env)
    ensures Accepts(QualityPart(q), e) <==> HasQuality(q, e.row)
  {
    QualityMatchMeans(q, e);
    var b, t := TextBind(q), Text(q);
    var any := EqualsOrAny(Quality, b, b);
    var picked, height := Rel(Eq, Of(Col(SelectedQuality)), Hole(b)), Rel(Eq, Of(HEIGHT_P), Hole(b));
    assert Fill(any) == EqualsOrAny(Quality, t, t);
    assert Fill(Playing()) == Playing();
    FillOr(Playing(), Rel(Eq, Of(Concat(HEIGHT_P, FpsText)), Hole(b)));
    assert Fill(FpsMatch(b)) == FpsMatch(t);
    FillOr(any, picked);
    FillOr(Or(any, picked), height);
    FillOr(Or(Or(any, picked), height), FpsMatch(b));
  }

  lemma LibraryAccepts(o: ListVideosOpts, e: Env)
    ensures Accepts(LibraryPart(o), e) <==>
            && InScope(o.scope, e.row)
            && HasQuality(o.quality, e.row)
            && (o.broadcasterId == "" || e.row.broadcasterId == o.broadcasterId)
            && (o.language == "" || e.row.language == o.language)
  {
    ScopeMatchMeans(o.scope, e);
    assert Fill(ScopeMatch(o.scope)) == ScopeMatch(o.scope);
    QualityAccepts(o.quality, e);
    EqualsOrAnyAccepts(BroadcasterId, o.broadcasterId, e);
    EqualsOrAnyAccepts(Language, o.language, e);
    var b := EqualsOrAny(BroadcasterId, TextBind(o.broadcasterId), TextBind(o.broadcasterId));
    var l := EqualsOrAny(Language, TextBind(o.language), TextBind(o.language));
    BothAccept(ScopeMatch(o.scope), QualityPart(o.quality), e);
    BothAccept(And(ScopeMatch(o.scope), QualityPart(o.quality)), b, e);
    BothAccept(And(And(ScopeMatch(o.scope), QualityPart(o.quality)), b), l, e);
  }

  lemma RangeAccepts(o: ListVideosOpts, e: Env)
    ensures Accepts(RangePart(o), e) <==>
            && AtLeast(o.durationMinSeconds, e.row.durationSeconds)
            && Under(o.durationMaxSeconds, e.row.durationSeconds)
            && AtLeastBytes(o.sizeMinBytes, e.row.sizeBytes)
            && UnderBytes(o.sizeMaxBytes, e.row.sizeBytes)
  {
    var a, b := FloatRange(Ge, o.durationMinSeconds), FloatRange(Lt, o.durationMaxSeconds);
    var c, d := IntRange(Ge, o.sizeMinBytes), IntRange(Lt, o.sizeMaxBytes);
    FloatAccepts(Ge, o.durationMinSeconds, e);
    FloatAccepts(Lt, o.durationMaxSeconds, e);
    IntAccepts(Ge, o.sizeMinBytes, e);
    IntAccepts(Lt, o.sizeMaxBytes, e);
    BothAccept(a, b, e);
    BothAccept(And(a, b), c, e);
    BothAccept(And(And(a, b), c), d, e);
  }

  lemma FloatAccepts(op: Op, p: Option<real>, e: Env)
    ensures Accepts(FloatRange(op, p), e) <==>
            p.None? || Compare(op, FromReal(e.row.durationSeconds), FromReal(p)).True?
  {
    NullOrMeans(op, DurationSeconds, FromReal(p), e);
    assert Fill(FloatRange(op, p)) == NullOr(op, DurationSeconds, FromReal(p), FromReal(p));
  }

  lemma IntAccepts(op: Op, p: Option<int>, e: Env)
    ensures Accepts(IntRange(op, p), e) <==> p.None? || Compare(op, FromInt(e.row.sizeBytes), FromInt(p)).True?
  {
    NullOrMeans(op, SizeBytes, FromInt(p), e);
    assert Fill(IntRange(op, p)) == NullOr(op, SizeBytes, FromInt(p), FromInt(p));
  }

  lemma FlagAccepts(o: ListVideosOpts, e: Env)
    ensures Accepts(FlagPart(e.postgres, o), e) <==>
            && InWindow(o.window, e.weekAgo, e.row)
            && (o.incompleteOnly ==> e.row.completionKind == "partial" || e.row.truncated)
            && (o.terminalOnly ==> e.row.status == "DONE" || e.row.status == "FAILED")
  {
    var w := WindowMatch(TextBind(o.window), TextBind(o.window));
    var i := IncompleteMatch(e.postgres, BoolBind(e.postgres, o.incompleteOnly));
    var t := TerminalMatch(BoolBind(e.postgres, o.terminalOnly));
    WindowAccepts(o.window, e);
    IncompleteAccepts(o.incompleteOnly, e);
    TerminalMatchMeans(o.terminalOnly, e);
    assert Fill(t) == TerminalMatch(FromBool(e.postgres, o.terminalOnly));
    BothAccept(w, i, e);
    BothAccept(And(w, i), t, e);
  }

  lemma WindowAccepts(w: string, e: Env)
    ensures Accepts(WindowMatch(TextBind(w), TextBind(w)), e) <==> InWindow(w, e.weekAgo, e.row)
  {
    WindowMatchMeans(w, e);
    assert Fill(Recent(TextBind(w))) == Recent(Text(w));
    assert Fill(WindowMatch(TextBind(w), TextBind(w))) == WindowMatch(Text(w), Text(w));
  }

  lemma OffFills(postgres: bool, flag: bool)
    ensures Fill(Off(postgres, BoolBind(postgres, flag))) == Off(postgres, FromBool(postgres, flag))
  {
  }

  lemma IncompleteAccepts(flag: bool, e: Env)
    ensures Accepts(IncompleteMatch(e.postgres, BoolBind(e.postgres, flag)), e) <==>
            (flag ==> e.row.completionKind == "partial" || e.row.truncated)
  {
    IncompleteMatchMeans(flag, e);
    OffFills(e.postgres, flag);
    var off := Off(e.postgres, BoolBind(e.postgres, flag));
    var kind := Rel(Eq, Of(Col(CompletionKind)), Of(Lit(Text("partial"))));
    FillOr(off, kind);
    FillOr(Or(off, kind), IsTruncated(e.postgres));
    assert Fill(IsTruncated(e.postgres)) == IsTruncated(e.postgres);
  }

  lemma UserAccepts(o: ListVideosOpts, e: Env)
    ensures Accepts(UserPart(e.postgres, o), e) <==>
            && (o.watchLaterOnly ==> SavedForLater(e.states, o.userId, e.row.id))
            && (o.unwatchedOnly ==> o.userId != "" && e.row.status == "DONE" && !Watched(e.states, o.userId, e.row.id))
  {
    var u := TextBind(o.userId);
    var off := Off(e.postgres, BoolBind(e.postgres, o.watchLaterOnly));
    var off' := Off(e.postgres, BoolBind(e.postgres, o.unwatchedOnly));
    WatchLaterMatchMeans(o.watchLaterOnly, o.userId, e);
    UnwatchedMatchMeans(o.unwatchedOnly, o.userId, e);
    OffFills(e.postgres, o.watchLaterOnly);
    OffFills(e.postgres, o.unwatchedOnly);
    FillOr(off, Is(Saved, Hole(u)));
    UnwatchedFills(o.userId);
    FillOr(off', Unwatched(u, u));
    BothAccept(Or(off, Is(Saved, Hole(u))), Or(off', Unwatched(u, u)), e);
  }

  lemma UnwatchedFills(user: string)
    ensures Fill(Unwatched(TextBind(user), TextBind(user))) == Unwatched(Text(user), Text(user))
  {
    var u := TextBind(user);
    var known, done := Rel(Ne, Hole(u), Of(EMPTY)), Rel(Eq, Of(Col(Status)), Of(Lit(Text("DONE"))));
    FillOr(known, done);
    FillOr(And(known, done), Not(Is(Seen, Hole(u))));
  }

  lemma FiltersAccept(o: ListVideosOpts, e: Env)
    ensures Accepts(And(StatusPart(o), FiltersPart(e.postgres, o)), e) <==> Wanted(o, e.row, e.states, e.weekAgo)
  {
    EqualsOrAnyAccepts(Status, o.status, e);
    LibraryAccepts(o, e);
    RangeAccepts(o, e);
    FlagAccepts(o, e);
    UserAccepts(o, e);
    BothAccept(LibraryPart(o), RangePart(o), e);
    BothAccept(FlagPart(e.postgres, o), UserPart(e.postgres, o), e);
    BothAccept(And(LibraryPart(o), RangePart(o)), And(FlagPart(e.postgres, o), UserPart(e.postgres, o)), e);
    BothAccept(StatusPart(o), FiltersPart(e.postgres, o), e);
  }

  // ---------- the cursor ----------

  lemma TieFills(asc: bool, t: Bind, i: Bind)
    ensures Fill(Tie(asc, t, t, i)) == Tie(asc, t.v, t.v, i.v)
  {
    var same := And(Rel(Eq, Of(Col(StartDownloadAt)), Hole(t)), Past(asc, Col(Id), i));
    FillOr(Rel(Eq, Of(Col(StartDownloadAt)), Hole(t)), Past(asc, Col(Id), i));
    FillOr(Rel(Lt, Of(Col(StartDownloadAt)), Hole(t)), same);
  }

  lemma TwoKeyFills(asc: bool, x: Expr, t: Bind, i: Bind)
    ensures Fill(TwoKeyAfter(asc, x, t, t, t, i)) == TwoKeyAfter(asc, x, t.v, t.v, t.v, i.v)
  {
    var same := And(Rel(Eq, Of(x), Hole(t)), Past(asc, Col(Id), i));
    FillOr(Rel(Eq, Of(x), Hole(t)), Past(asc, Col(Id), i));
    FillOr(Is(IsNull, Hole(t)), Past(asc, x, t));
    FillOr(Or(Is(IsNull, Hole(t)), Past(asc, x, t)), same);
  }

  lemma ChannelFills(asc: bool, n: Bind, t: Bind, i: Bind)
    ensures Fill(ChannelAfter(asc, n, n, n, t, t, i)) == ChannelAfter(asc, n.v, n.v, n.v, t.v, t.v, i.v)
  {
    TieFills(asc, t, i);
    var name := Col(DisplayName);
    FillOr(Rel(Eq, Of(name), Hole(n)), Tie(asc, t, t, i));
    FillOr(Is(IsNull, Hole(n)), Past(asc, name, n));
    FillOr(Or(Is(IsNull, Hole(n)), Past(asc, name, n)), And(Rel(Eq, Of(name), Hole(n)), Tie(asc, t, t, i)));
  }

  lemma NullsFill(asc: bool, c: Column, n: Bind, t: Bind, i: Bind)
    ensures Fill(AmongNulls(asc, c, n, t, t, i)) == AmongNulls(asc, c, n.v, t.v, t.v, i.v)
  {
    TieFills(asc, t, i);
    FillOr(Is(IsNull, Hole(n)), Is(IsNull, Of(Col(c))));
    FillOr(And(Is(IsNull, Hole(n)), Is(IsNull, Of(Col(c)))), Tie(asc, t, t, i));
  }

  lemma ValuesFill(asc: bool, c: Column, n: Bind, t: Bind, i: Bind)
    ensures Fill(AmongValues(asc, c, n, n, n, t, t, i)) == AmongValues(asc, c, n.v, n.v, n.v, t.v, t.v, i.v)
  {
    TieFills(asc, t, i);
    var past := Or(Is(IsNull, Of(Col(c))), Past(asc, Col(c), n));
    var same := And(Rel(Eq, Of(Col(c)), Hole(n)), Tie(asc, t, t, i));
    FillOr(Is(IsNull, Of(Col(c))), Past(asc, Col(c), n));
    FillOr(Rel(Eq, Of(Col(c)), Hole(n)), Tie(asc, t, t, i));
    FillOr(past, same);
    FillOr(Is(NotNull, Hole(n)), Or(past, same));
  }

  lemma NullableFills(asc: bool, c: Column, n: Bind, t: Bind, i: Bind)
    ensures Fill(NullableAfter(asc, c, t, n, t, t, i, n, n, n, t, t, i)) ==
            NullableAfter(asc, c, t.v, n.v, t.v, t.v, i.v, n.v, n.v, n.v, t.v, t.v, i.v)
  {
    NullsFill(asc, c, n, t, i);
    ValuesFill(asc, c, n, t, i);
    var nulls, values := AmongNulls(asc, c, n, t, t, i), AmongValues(asc, c, n, n, n, t, t, i);
    FillOr(Is(IsNull, Hole(t)), nulls);
    FillOr(Or(Is(IsNull, Hole(t)), nulls), values);
  }

  lemma CursorFills(m: Mode, s: Slots<Bind>)
    ensures Fill(CursorAfter(m, s)) == CursorAfter(m, SlotValues(s))
  {
    match m.key
    case CreatedAt => TwoKeyFills(m.asc, Col(StartDownloadAt), s.t, s.id);
    case HistoryWhen => TwoKeyFills(m.asc, WHEN, s.sortTime, s.id);
    case Channel => ChannelFills(m.asc, s.text, s.t, s.id);
    case Duration => NullableFills(m.asc, DurationSeconds, s.num, s.t, s.id);
    case Size => NullableFills(m.asc, SizeBytes, s.bigint, s.t, s.id);
  }

  // ---------- the whole query ----------

  function CursorOf(m: Mode, src: Option<Video>): Option<VideoListPageCursor> {
    if src.Some? then Some(VideoListCursorFromVideo(src.value, m)) else None
  }

  /** The rows a first page asks for are the rows the options want; the rows a later page asks for
      are those of them strictly after the row its cursor was minted from. */
  lemma PageQueryMeans(o: ListVideosOpts, src: Option<Video>, e: Env)
    ensures var m := NormalizeVideoListSort(o);
            var q := Meant(PageQuery(e.postgres, o, CursorOf(m, src)));
            && (Holding(q.cond, e).True? <==>
                Wanted(o, e.row, e.states, e.weekAgo)
                && (src.Some? ==> Before(e.postgres, OrderBy(m), src.value, e.row)))
            && q.order == OrderBy(m)
            && q.limit == Hole(Int(ListVideosPageQueryLimit(o.limit)))
  {
    var m := NormalizeVideoListSort(o);
    var cursor := CursorOf(m, src);
    FiltersAccept(o, e);
    var after := CursorAfter(m, CursorBinds(cursor));
    BothAccept(And(StatusPart(o), FiltersPart(e.postgres, o)), after, e);
    CursorFills(m, CursorBinds(cursor));
    if src.Some? { CursorPicksLaterRows(m, src.value, e); } else { NoCursorAcceptsAll(m, e); }
    assert PageQuery(e.postgres, o, cursor).cond == And(And(StatusPart(o), FiltersPart(e.postgres, o)), after);
  }

  /** From the text the builder wrote to the rows: the engine keeps exactly the wanted rows that
      come after the cursor's row in the order the option strings promise, hands them out in that order,
      and at most one more than the page shows. */
  lemma RenderedQueryMeans(o: ListVideosOpts, src: Option<Video>, args: seq<Value>, text: Query<Mark>, e: Env)
    requires RendersQuery(e.postgres, args, text, PageQuery(e.postgres, o, CursorOf(NormalizeVideoListSort(o), src)))
    ensures var m := NormalizeVideoListSort(o);
            var q := ReadQuery(args, text);
            && (Holding(q.cond, e).True? <==>
                Wanted(o, e.row, e.states, e.weekAgo)
                && (src.Some? ==> Before(e.postgres, OrderBy(m), src.value, e.row)))
            && (Holding(q.cond, e).True? <==>
                Wanted(o, e.row, e.states, e.weekAgo) && (src.Some? ==> ComesBefore(o, src.value, e.row)))
            && q.order == OrderBy(m)
            && (forall a, b :: Before(e.postgres, q.order, a, b) <==> ComesBefore(o, a, b))
            && q.limit == Hole(Int(ListVideosPageQueryLimit(o.limit)))
  {
    QueryReadsBack(e.postgres, args, text, PageQuery(e.postgres, o, CursorOf(NormalizeVideoListSort(o), src)));
    PageQueryMeans(o, src, e);
    forall a, b ensures Before(e.postgres, OrderBy(NormalizeVideoListSort(o)), a, b) <==> ComesBefore(o, a, b) {
      OrderMeans(e.postgres, o, a, b);
    }
  }

  /** Both engines order rows alike, wherever each puts NULLs by itself. */
  lemma SameOrder(m: Mode, a: Video, b: Video)
    ensures Before(true, OrderBy(m), a, b) <==> Before(false, OrderBy(m), a, b)
  {
    match m.key
    case CreatedAt => TwoKeyIsBefore(true, m, a, b); TwoKeyIsBefore(false, m, a, b);
    case HistoryWhen =>
      TwoKeyIsBefore(true, m, a, b);
      TwoKeyIsBefore(false, m, a, b);
      WhenIs(true, a, {}, 0);
      WhenIs(true, b, {}, 0);
      WhenIs(false, a, {}, 0);
      WhenIs(false, b, {}, 0);
    case _ => ThreeKeyIsBefore(true, m, a, b); ThreeKeyIsBefore(false, m, a, b);
  }

  /** The two dialects' texts, each read with its own arguments, keep the same rows. */
  lemma DialectsAgree(o: ListVideosOpts, src: Option<Video>, pgArgs: seq<Value>, pgText: Query<Mark>,
                      liteArgs: seq<Value>, liteText: Query<Mark>, v: Video, states: set<UserState>, weekAgo: int)
    requires RendersQuery(true, pgArgs, pgText, PageQuery(true, o, CursorOf(NormalizeVideoListSort(o), src)))
    requires RendersQuery(false, liteArgs, liteText, PageQuery(false, o, CursorOf(NormalizeVideoListSort(o), src)))
    ensures Holding(ReadQuery(pgArgs, pgText).cond, Env(true, v, states, weekAgo)).True? <==>
            Holding(ReadQuery(liteArgs, liteText).cond, Env(false, v, states, weekAgo)).True?
    ensures ReadQuery(pgArgs, pgText).order == ReadQuery(liteArgs, liteText).order
    ensures ReadQuery(pgArgs, pgText).limit == ReadQuery(liteArgs, liteText).limit
  {
    RenderedQueryMeans(o, src, pgArgs, pgText, Env(true, v, states, weekAgo));
    RenderedQueryMeans(o, src, liteArgs, liteText, Env(false, v, states, weekAgo));
    if src.Some? { SameOrder(NormalizeVideoListSort(o), src.value, v); }
  }
}
