/** The page query: a builder that renders it for either dialect while it collects the bound
    values, and what the rendered text means to the engine that reads it. */
module VideoPageSql {
  import opened Prelude
  import opened Videos
  import opened Sql
  import opened VideoFilters
  import opened VideoOrder

  datatype Query<H> = Query(cond: Pred<H>, order: seq<OrderKey>, limit: Term<H>)

  // ---------- the query with its values, before placeholders ----------

  function StatusPart(o: ListVideosOpts): Pred<Bind> {
    EqualsOrAny(Status, TextBind(o.status), TextBind(o.status))
  }

  function QualityPart(q: string): Pred<Bind> {
    QualityMatch(TextBind(q), TextBind(q), TextBind(q), TextBind(q), TextBind(q))
  }

  function LibraryPart(o: ListVideosOpts): Pred<Bind> {
    And(And(And(ScopeMatch(o.scope), QualityPart(o.quality)),
            EqualsOrAny(BroadcasterId, TextBind(o.broadcasterId), TextBind(o.broadcasterId))),
        EqualsOrAny(Language, TextBind(o.language), TextBind(o.language)))
  }

  function FloatRange(op: Op, p: Option<real>): Pred<Bind> {
    NullOr(op, DurationSeconds, FloatPtrBind(p), FloatPtrBind(p))
  }

  function IntRange(op: Op, p: Option<int>): Pred<Bind> { NullOr(op, SizeBytes, IntPtrBind(p), IntPtrBind(p)) }

  function RangePart(o: ListVideosOpts): Pred<Bind> {
    And(And(And(FloatRange(Ge, o.durationMinSeconds), FloatRange(Lt, o.durationMaxSeconds)),
            IntRange(Ge, o.sizeMinBytes)),
        IntRange(Lt, o.sizeMaxBytes))
  }

  function FlagPart(postgres: bool, o: ListVideosOpts): Pred<Bind> {
    And(And(WindowMatch(TextBind(o.window), TextBind(o.window)),
            IncompleteMatch(postgres, BoolBind(postgres, o.incompleteOnly))),
        TerminalMatch(BoolBind(postgres, o.terminalOnly)))
  }

  function UserPart(postgres: bool, o: ListVideosOpts): Pred<Bind> {
    And(WatchLaterMatch(postgres, BoolBind(postgres, o.watchLaterOnly), TextBind(o.userId)),
        UnwatchedMatch(postgres, BoolBind(postgres, o.unwatchedOnly), TextBind(o.userId), TextBind(o.userId)))
  }

  /** The AND chain of filtersSQL; AND is associative, so the grouping is only for reading. */
  function FiltersPart(postgres: bool, o: ListVideosOpts): Pred<Bind> {
    And(And(LibraryPart(o), RangePart(o)), And(FlagPart(postgres, o), UserPart(postgres, o)))
  }

  function CondPart(postgres: bool, o: ListVideosOpts, cursor: Option<VideoListPageCursor>): Pred<Bind> {
    And(And(StatusPart(o), FiltersPart(postgres, o)), CursorAfter(NormalizeVideoListSort(o), CursorBinds(cursor)))
  }

  function PageQuery(postgres: bool, o: ListVideosOpts, cursor: Option<VideoListPageCursor>): Query<Bind> {
    Query(CondPart(postgres, o, cursor), OrderBy(NormalizeVideoListSort(o)),
          Hole(IdBind(ListVideosPageQueryLimit(o.limit))))
  }

  // ---------- rendering ----------

  /** Between two moments of the builder, it wrote this text and appended these values. */
  predicate Renders(postgres: bool, before: seq<Value>, after: seq<Value>, text: Pred<Mark>, meant: Pred<Bind>) {
    after == before + ValuesOf(Binds(meant)) && text == Place(postgres, |before|, meant)
  }

  lemma JoinRenders(postgres: bool, a: seq<Value>, b: seq<Value>, c: seq<Value>, conj: bool,
                    text0: Pred<Mark>, meant0: Pred<Bind>, text1: Pred<Mark>, meant1: Pred<Bind>)
    requires Renders(postgres, a, b, text0, meant0) && Renders(postgres, b, c, text1, meant1)
    ensures Renders(postgres, a, c, Join(conj, text0, text1), Join(conj, meant0, meant1))
  {
    var v0, v1 := Binds(meant0), Binds(meant1);
    assert Binds(Join(conj, meant0, meant1)) == v0 + v1;
    assert ValuesOf(v0 + v1) == ValuesOf(v0) + ValuesOf(v1);
    assert c == a + (ValuesOf(v0) + ValuesOf(v1));
    assert |b| == |a| + |v0|;
  }

  /** One placeholder call: it appended this value and wrote this mark. */
  predicate Bound(postgres: bool, before: seq<Value>, after: seq<Value>, m: Mark, b: Bind) {
    after == before + [b.v] && m == MarkFor(postgres, |before|, b.cast)
  }

  lemma RecentRenders(postgres: bool, before: seq<Value>, after: seq<Value>, m: Mark, b: Bind)
    requires Bound(postgres, before, after, m, b)
    ensures Renders(postgres, before, after, Recent(m), Recent(b))
  {
    var left, recent := Rel(Eq, Hole(b), Of(Lit(Text("this_week")))), Rel(Ge, Of(Col(StartDownloadAt)), Of(WeekAgo));
    assert Binds(left) == [b] && Binds(recent) == [];
    assert Binds(Recent(b)) == [b];
    assert ValuesOf([b]) == [b.v];
  }

  lemma UnwatchedRenders(postgres: bool, a: seq<Value>, b: seq<Value>, c: seq<Value>, m0: Mark, m1: Mark, u: Bind)
    requires Bound(postgres, a, b, m0, u) && Bound(postgres, b, c, m1, u)
    ensures Renders(postgres, a, c, Unwatched(m0, m1), Unwatched(u, u))
  {
    assert Renders(postgres, b, c, Is(Seen, Hole(m1)), Is(Seen, Hole(u))) by { assert ValuesOf([u]) == [u.v]; }
    assert Renders(postgres, b, c, Not(Is(Seen, Hole(m1))), Not(Is(Seen, Hole(u))));
    var known: Pred<Mark>, known': Pred<Bind> := Rel(Ne, Hole(m0), Of(EMPTY)), Rel(Ne, Hole(u), Of(EMPTY));
    assert Renders(postgres, a, b, known, known') by { assert ValuesOf([u]) == [u.v] && [u] + [] == [u]; }
    var done: Pred<Mark>, done': Pred<Bind> :=
      Rel(Eq, Of(Col(Status)), Of(Lit(Text("DONE")))), Rel(Eq, Of(Col(Status)), Of(Lit(Text("DONE"))));
    assert Renders(postgres, b, b, done, done');
    JoinRenders(postgres, a, b, b, true, known, known', done, done');
    var unseen: Pred<Mark>, unseen': Pred<Bind> := Not(Is(Seen, Hole(m1))), Not(Is(Seen, Hole(u)));
    JoinRenders(postgres, a, b, c, true, And(known, done), And(known', done'), unseen, unseen');
  }

  lemma TailRenders(postgres: bool, a: seq<Value>, b: seq<Value>, c: seq<Value>, d: seq<Value>,
                    text: Pred<Mark>, meant: Pred<Bind>, m0: Mark, m1: Mark, q: Bind)
    requires Renders(postgres, a, b, text, meant) && Bound(postgres, b, c, m0, q) && Bound(postgres, c, d, m1, q)
    ensures Renders(postgres, a, d, Or(Or(text, Rel(Eq, Of(HEIGHT_P), Hole(m0))), FpsMatch(m1)),
                    Or(Or(meant, Rel(Eq, Of(HEIGHT_P), Hole(q))), FpsMatch(q)))
  {
    var h, h' := Rel(Eq, Of(HEIGHT_P), Hole(m0)), Rel(Eq, Of(HEIGHT_P), Hole(q));
    assert Renders(postgres, b, c, h, h') by { assert ValuesOf([q]) == [q.v]; }
    JoinRenders(postgres, a, b, c, false, text, meant, h, h');
    var p: Pred<Mark>, p': Pred<Bind> := Playing(), Playing();
    assert Renders(postgres, c, c, p, p');
    var f, f' := Rel(Eq, Of(Concat(HEIGHT_P, FpsText)), Hole(m1)), Rel(Eq, Of(Concat(HEIGHT_P, FpsText)), Hole(q));
    assert Renders(postgres, c, d, f, f') by { assert ValuesOf([q]) == [q.v]; }
    JoinRenders(postgres, c, c, d, true, p, p', f, f');
    JoinRenders(postgres, a, c, d, false, Or(text, h), Or(meant, h'), And(p, f), And(p', f'));
  }

  function NumBind(m: Mode, c: Option<VideoListPageCursor>): Bind {
    if m.key.Size? then CursorBinds(c).bigint else CursorBinds(c).num
  }

  function KeyTimeBind(history: bool, c: Option<VideoListPageCursor>): Bind {
    if history then CursorBinds(c).sortTime else CursorBinds(c).t
  }

  function TieBind(asc: bool, c: Option<VideoListPageCursor>): Pred<Bind> {
    Tie(asc, CursorBinds(c).t, CursorBinds(c).t, CursorBinds(c).id)
  }

  function NullsBind(m: Mode, col: Column, c: Option<VideoListPageCursor>): Pred<Bind> {
    AmongNulls(m.asc, col, NumBind(m, c), CursorBinds(c).t, CursorBinds(c).t, CursorBinds(c).id)
  }

  function LaterBind(m: Mode, col: Column, c: Option<VideoListPageCursor>): Pred<Bind> {
    var n := NumBind(m, c);
    Or(Or(Is(IsNull, Of(Col(col))), Past(m.asc, Col(col), n)), And(Rel(Eq, Of(Col(col)), Hole(n)), TieBind(m.asc, c)))
  }

  function ValuesBind(m: Mode, col: Column, c: Option<VideoListPageCursor>): Pred<Bind> {
    AmongValues(m.asc, col, NumBind(m, c), NumBind(m, c), NumBind(m, c), CursorBinds(c).t, CursorBinds(c).t,
        CursorBinds(c).id)
  }

  lemma IsRenders(postgres: bool, a: seq<Value>, b: seq<Value>, check: Check, m: Mark, bind: Bind)
    requires Bound(postgres, a, b, m, bind)
    ensures Renders(postgres, a, b, Is(check, Hole(m)), Is(check, Hole(bind)))
  {
    assert ValuesOf([bind]) == [bind.v];
  }

  lemma EqThenRenders(postgres: bool, a: seq<Value>, b: seq<Value>, c: seq<Value>, x: Expr, m: Mark, bind: Bind,
                      text: Pred<Mark>, meant: Pred<Bind>)
    requires Bound(postgres, a, b, m, bind) && Renders(postgres, b, c, text, meant)
    ensures Renders(postgres, a, c, And(Rel(Eq, Of(x), Hole(m)), text), And(Rel(Eq, Of(x), Hole(bind)), meant))
  {
    assert Renders(postgres, a, b, Rel(Eq, Of(x), Hole(m)), Rel(Eq, Of(x), Hole(bind))) by {
      assert ValuesOf([bind]) == [bind.v];
    }
    JoinRenders(postgres, a, b, c, true, Rel(Eq, Of(x), Hole(m)), Rel(Eq, Of(x), Hole(bind)), text, meant);
  }

  lemma EqThenPastRenders(postgres: bool, a: seq<Value>, b: seq<Value>, c: seq<Value>, asc: bool, x: Expr, y: Expr,
                          m0: Mark, b0: Bind, m1: Mark, b1: Bind)
    requires Bound(postgres, a, b, m0, b0) && Bound(postgres, b, c, m1, b1)
    ensures Renders(postgres, a, c, And(Rel(Eq, Of(x), Hole(m0)), Past(asc, y, m1)),
                    And(Rel(Eq, Of(x), Hole(b0)), Past(asc, y, b1)))
  {
    assert Renders(postgres, b, c, Past(asc, y, m1), Past(asc, y, b1)) by { assert ValuesOf([b1]) == [b1.v]; }
    EqThenRenders(postgres, a, b, c, x, m0, b0, Past(asc, y, m1), Past(asc, y, b1));
  }

  lemma NullOrPastRenders(postgres: bool, a: seq<Value>, b: seq<Value>, c: seq<Value>, asc: bool, x: Expr,
                          m0: Mark, b0: Bind, m1: Mark, b1: Bind)
    requires Bound(postgres, a, b, m0, b0) && Bound(postgres, b, c, m1, b1)
    ensures Renders(postgres, a, c, Or(Is(IsNull, Hole(m0)), Past(asc, x, m1)),
                    Or(Is(IsNull, Hole(b0)), Past(asc, x, b1)))
  {
    IsRenders(postgres, a, b, IsNull, m0, b0);
    assert Renders(postgres, b, c, Past(asc, x, m1), Past(asc, x, b1)) by { assert ValuesOf([b1]) == [b1.v]; }
    JoinRenders(postgres, a, b, c, false, Is(IsNull, Hole(m0)), Is(IsNull, Hole(b0)),
                Past(asc, x, m1), Past(asc, x, b1));
  }

  lemma ColumnNullOrPastRenders(postgres: bool, a: seq<Value>, b: seq<Value>, asc: bool, c: Column, m: Mark, bind: Bind)
    requires Bound(postgres, a, b, m, bind)
    ensures Renders(postgres, a, b, Or(Is(IsNull, Of(Col(c))), Past(asc, Col(c), m)),
                    Or(Is(IsNull, Of(Col(c))), Past(asc, Col(c), bind)))
  {
    assert Renders(postgres, a, a, Is(IsNull, Of(Col(c))), Is(IsNull, Of(Col(c))));
    assert Renders(postgres, a, b, Past(asc, Col(c), m), Past(asc, Col(c), bind)) by {
      assert ValuesOf([bind]) == [bind.v];
    }
    var none: Pred<Mark>, none': Pred<Bind> := Is(IsNull, Of(Col(c))), Is(IsNull, Of(Col(c)));
    JoinRenders(postgres, a, a, b, false, none, none', Past(asc, Col(c), m), Past(asc, Col(c), bind));
  }

  /** The text, its order and its limit, against the list of arguments bound along the way. */
  predicate RendersQuery(postgres: bool, args: seq<Value>, q: Query<Mark>, meant: Query<Bind>) {
    var n := |Binds(meant.cond)|;
    && meant.limit.Hole?
    && args == ValuesOf(Binds(meant.cond)) + [meant.limit.h.v]
    && q == Query(Place(postgres, 0, meant.cond), meant.order, Hole(MarkFor(postgres, n, meant.limit.h.cast)))
  }

  class VideoPageBuilder {
    const postgres: bool
    var args: seq<Value>

    constructor (postgres: bool)
      ensures this.postgres == postgres && args == []
    {
      this.postgres := postgres;
      args := [];
    }

    method Ph(v: Value, pgCast: string) returns (m: Mark)
      modifies this`args
      ensures args == old(args) + [v] && m == MarkFor(postgres, |old(args)|, pgCast)
    {
      args := args + [v];
      if !postgres { return Question; }
      m := Dollar(|args|, pgCast);
    }

    method PhText(v: string) returns (m: Mark)
      modifies this`args
      ensures Bound(postgres, old(args), args, m, TextBind(v))
    {
      m := Ph(Text(v), "text");
    }

    method PhTextPtr(p: Option<string>) returns (m: Mark)
      modifies this`args
      ensures Bound(postgres, old(args), args, m, TextPtrBind(p))
    {
      if postgres { m := Ph(FromText(p), "text"); return; }
      var v := Null;
      if p.Some? { v := Text(p.value); }
      m := Ph(v, "");
    }

    method PhFloatPtr(p: Option<real>) returns (m: Mark)
      modifies this`args
      ensures Bound(postgres, old(args), args, m, FloatPtrBind(p))
    {
      if postgres { m := Ph(FromReal(p), "double precision"); return; }
      var v := Null;
      if p.Some? { v := Real(p.value); }
      m := Ph(v, "");
    }

    method PhIntPtr(p: Option<int>) returns (m: Mark)
      modifies this`args
      ensures Bound(postgres, old(args), args, m, IntPtrBind(p))
    {
      if postgres { m := Ph(FromInt(p), "bigint"); return; }
      var v := Null;
      if p.Some? { v := Int(p.value); }
      m := Ph(v, "");
    }

    method PhID(id: int) returns (m: Mark)
      modifies this`args
      ensures Bound(postgres, old(args), args, m, IdBind(id))
    {
      m := Ph(Int(id), "");
    }

    method PhBool(v: bool) returns (m: Mark)
      modifies this`args
      ensures Bound(postgres, old(args), args, m, BoolBind(postgres, v))
    {
      if postgres { m := Ph(Bool(v), "boolean"); return; }
      var n := 0;
      if v { n := 1; }
      m := Ph(Int(n), "");
    }

    method PhTime(t: int, present: bool) returns (m: Mark)
      modifies this`args
      ensures Bound(postgres, old(args), args, m, TimeBind(t, present))
    {
      if !present { m := Ph(Null, "timestamptz"); return; }
      m := Ph(Time(t), "timestamptz");
    }

    method EqualsOrAnySQL(c: Column, s: string) returns (p: Pred<Mark>)
      modifies this`args
      ensures Renders(postgres, old(args), args, p, EqualsOrAny(c, TextBind(s), TextBind(s)))
    {
      var h0 := PhText(s);
      var h1 := PhText(s);
      p := EqualsOrAny(c, h0, h1);
    }

    method FloatRangeSQL(op: Op, b: Option<real>) returns (p: Pred<Mark>)
      modifies this`args
      ensures Renders(postgres, old(args), args, p, FloatRange(op, b))
    {
      var h0 := PhFloatPtr(b);
      var h1 := PhFloatPtr(b);
      p := NullOr(op, DurationSeconds, h0, h1);
    }

    method IntRangeSQL(op: Op, b: Option<int>) returns (p: Pred<Mark>)
      modifies this`args
      ensures Renders(postgres, old(args), args, p, IntRange(op, b))
    {
      var h0 := PhIntPtr(b);
      var h1 := PhIntPtr(b);
      p := NullOr(op, SizeBytes, h0, h1);
    }

    method QualitySQL(q: string) returns (p: Pred<Mark>)
      modifies this`args
      ensures Renders(postgres, old(args), args, p, QualityPart(q))
    {
      ghost var a0, b := args, TextBind(q);
      var any := EqualsOrAnySQL(Quality, q);
      ghost var a2 := args;
      var h2 := PhText(q);
      JoinRenders(postgres, a0, a2, args, false, any, EqualsOrAny(Quality, b, b),
                  Rel(Eq, Of(Col(SelectedQuality)), Hole(h2)), Rel(Eq, Of(Col(SelectedQuality)), Hole(b)));
      ghost var a3 := args;
      var h3 := PhText(q);
      ghost var a4 := args;
      var h4 := PhText(q);
      TailRenders(postgres, a0, a3, a4, args,
                  Or(any, Rel(Eq, Of(Col(SelectedQuality)), Hole(h2))),
                  Or(EqualsOrAny(Quality, b, b), Rel(Eq, Of(Col(SelectedQuality)), Hole(b))), h3, h4, b);
      p := Or(Or(Or(any, Rel(Eq, Of(Col(SelectedQuality)), Hole(h2))), Rel(Eq, Of(HEIGHT_P), Hole(h3))), FpsMatch(h4));
    }

    method WindowSQL(w: string) returns (p: Pred<Mark>)
      modifies this`args
      ensures Renders(postgres, old(args), args, p, WindowMatch(TextBind(w), TextBind(w)))
    {
      var h0 := PhText(w);
      ghost var a1 := args;
      var h1 := PhText(w);
      RecentRenders(postgres, a1, args, h1, TextBind(w));
      p := WindowMatch(h0, h1);
    }

    method OffSQL(flag: bool) returns (p: Pred<Mark>)
      modifies this`args
      ensures Renders(postgres, old(args), args, p, Off(postgres, BoolBind(postgres, flag)))
    {
      var h := PhBool(flag);
      p := Off(postgres, h);
    }

    method IncompleteSQL(flag: bool) returns (p: Pred<Mark>)
      modifies this`args
      ensures Renders(postgres, old(args), args, p, IncompleteMatch(postgres, BoolBind(postgres, flag)))
    {
      var h := PhBool(flag);
      p := IncompleteMatch(postgres, h);
    }

    method TerminalSQL(flag: bool) returns (p: Pred<Mark>)
      modifies this`args
      ensures Renders(postgres, old(args), args, p, TerminalMatch(BoolBind(postgres, flag)))
    {
      var h := PhBool(flag);
      p := TerminalMatch(h);
    }

    method WatchLaterSQL(flag: bool, user: string) returns (p: Pred<Mark>)
      modifies this`args
      ensures Renders(postgres, old(args), args, p, WatchLaterMatch(postgres, BoolBind(postgres, flag), TextBind(user)))
    {
      ghost var a0 := args;
      var off := OffSQL(flag);
      ghost var a1 := args;
      var u := PhText(user);
      JoinRenders(postgres, a0, a1, args, false, off, Off(postgres, BoolBind(postgres, flag)),
                  Is(Saved, Hole(u)), Is(Saved, Hole(TextBind(user))));
      p := Or(off, Is(Saved, Hole(u)));
    }

    method UnwatchedSQL(flag: bool, user: string) returns (p: Pred<Mark>)
      modifies this`args
      ensures Renders(postgres, old(args), args, p,
                      UnwatchedMatch(postgres, BoolBind(postgres, flag), TextBind(user), TextBind(user)))
    {
      ghost var a0, b := args, TextBind(user);
      var off := OffSQL(flag);
      ghost var a1 := args;
      var u0 := PhText(user);
      ghost var a2 := args;
      var u1 := PhText(user);
      UnwatchedRenders(postgres, a1, a2, args, u0, u1, b);
      JoinRenders(postgres, a0, a1, args, false, off, Off(postgres, BoolBind(postgres, flag)), Unwatched(u0, u1),
          Unwatched(b, b));
      p := Or(off, Unwatched(u0, u1));
    }

    method LibrarySQL(o: ListVideosOpts) returns (p: Pred<Mark>)
      modifies this`args
      ensures Renders(postgres, old(args), args, p, LibraryPart(o))
    {
      ghost var a0 := args;
      var scope: Pred<Mark> := ScopeMatch(o.scope);
      var quality := QualitySQL(o.quality);
      ghost var a1 := args;
      JoinRenders(postgres, a0, a0, a1, true, scope, ScopeMatch(o.scope), quality, QualityPart(o.quality));
      var broadcaster := EqualsOrAnySQL(BroadcasterId, o.broadcasterId);
      ghost var a2 := args;
      ghost var b := TextBind(o.broadcasterId);
      JoinRenders(postgres, a0, a1, a2, true, And(scope, quality), And(ScopeMatch(o.scope), QualityPart(o.quality)),
                  broadcaster, EqualsOrAny(BroadcasterId, b, b));
      var language := EqualsOrAnySQL(Language, o.language);
      ghost var l := TextBind(o.language);
      p := And(And(And(scope, quality), broadcaster), language);
      JoinRenders(postgres, a0, a2, args, true, And(And(scope, quality), broadcaster),
                  And(And(ScopeMatch(o.scope), QualityPart(o.quality)), EqualsOrAny(BroadcasterId, b, b)),
                  language, EqualsOrAny(Language, l, l));
    }

    method RangeSQL(o: ListVideosOpts) returns (p: Pred<Mark>)
      modifies this`args
      ensures Renders(postgres, old(args), args, p, RangePart(o))
    {
      ghost var a0 := args;
      var durationMin := FloatRangeSQL(Ge, o.durationMinSeconds);
      ghost var a1 := args;
      var durationMax := FloatRangeSQL(Lt, o.durationMaxSeconds);
      ghost var a2 := args;
      JoinRenders(postgres, a0, a1, a2, true, durationMin, FloatRange(Ge, o.durationMinSeconds),
                  durationMax, FloatRange(Lt, o.durationMaxSeconds));
      var sizeMin := IntRangeSQL(Ge, o.sizeMinBytes);
      ghost var a3 := args;
      ghost var meant := And(FloatRange(Ge, o.durationMinSeconds), FloatRange(Lt, o.durationMaxSeconds));
      JoinRenders(postgres, a0, a2, a3, true, And(durationMin, durationMax), meant,
                  sizeMin, IntRange(Ge, o.sizeMinBytes));
      var sizeMax := IntRangeSQL(Lt, o.sizeMaxBytes);
      p := And(And(And(durationMin, durationMax), sizeMin), sizeMax);
      JoinRenders(postgres, a0, a3, args, true, And(And(durationMin, durationMax), sizeMin),
                  And(meant, IntRange(Ge, o.sizeMinBytes)), sizeMax, IntRange(Lt, o.sizeMaxBytes));
    }

    method FlagSQL(o: ListVideosOpts) returns (p: Pred<Mark>)
      modifies this`args
      ensures Renders(postgres, old(args), args, p, FlagPart(postgres, o))
    {
      ghost var a0 := args;
      var window := WindowSQL(o.window);
      ghost var a1 := args;
      var incomplete := IncompleteSQL(o.incompleteOnly);
      ghost var a2 := args;
      ghost var w := WindowMatch(TextBind(o.window), TextBind(o.window));
      ghost var i := IncompleteMatch(postgres, BoolBind(postgres, o.incompleteOnly));
      JoinRenders(postgres, a0, a1, a2, true, window, w, incomplete, i);
      var terminal := TerminalSQL(o.terminalOnly);
      p := And(And(window, incomplete), terminal);
      JoinRenders(postgres, a0, a2, args, true, And(window, incomplete), And(w, i),
                  terminal, TerminalMatch(BoolBind(postgres, o.terminalOnly)));
    }

    method UserSQL(o: ListVideosOpts) returns (p: Pred<Mark>)
      modifies this`args
      ensures Renders(postgres, old(args), args, p, UserPart(postgres, o))
    {
      ghost var a0, u := args, TextBind(o.userId);
      var watchLater := WatchLaterSQL(o.watchLaterOnly, o.userId);
      ghost var a1 := args;
      var unwatched := UnwatchedSQL(o.unwatchedOnly, o.userId);
      p := And(watchLater, unwatched);
      JoinRenders(postgres, a0, a1, args, true,
                  watchLater, WatchLaterMatch(postgres, BoolBind(postgres, o.watchLaterOnly), u),
                  unwatched, UnwatchedMatch(postgres, BoolBind(postgres, o.unwatchedOnly), u, u));
    }

    method FiltersSQL(o: ListVideosOpts) returns (p: Pred<Mark>)
      modifies this`args
      ensures Renders(postgres, old(args), args, p, FiltersPart(postgres, o))
    {
      ghost var a0 := args;
      var library := LibrarySQL(o);
      ghost var a1 := args;
      var ranges := RangeSQL(o);
      ghost var a2 := args;
      JoinRenders(postgres, a0, a1, a2, true, library, LibraryPart(o), ranges, RangePart(o));
      var flags := FlagSQL(o);
      ghost var a3 := args;
      var user := UserSQL(o);
      JoinRenders(postgres, a2, a3, args, true, flags, FlagPart(postgres, o), user, UserPart(postgres, o));
      p := And(And(library, ranges), And(flags, user));
      JoinRenders(postgres, a0, a2, args, true, And(library, ranges), And(LibraryPart(o), RangePart(o)),
                  And(flags, user), And(FlagPart(postgres, o), UserPart(postgres, o)));
    }

    method T(c: Option<VideoListPageCursor>) returns (m: Mark)
      modifies this`args
      ensures Bound(postgres, old(args), args, m, CursorBinds(c).t)
    {
      if c.Some? { m := PhTime(c.value.startDownloadAt, true); } else { m := PhTime(0, false); }
    }

    method SortTime(c: Option<VideoListPageCursor>) returns (m: Mark)
      modifies this`args
      ensures Bound(postgres, old(args), args, m, CursorBinds(c).sortTime)
    {
      if c.None? { m := PhTime(0, false); return; }
      var t := c.value.startDownloadAt;
      if c.value.sortTime.Some? { t := c.value.sortTime.value; }
      m := PhTime(t, true);
    }

    method ID(c: Option<VideoListPageCursor>) returns (m: Mark)
      modifies this`args
      ensures Bound(postgres, old(args), args, m, CursorBinds(c).id)
    {
      var id := 0;
      if c.Some? { id := c.value.id; }
      m := PhID(id);
    }

    method TextKey(c: Option<VideoListPageCursor>) returns (m: Mark)
      modifies this`args
      ensures Bound(postgres, old(args), args, m, CursorBinds(c).text)
    {
      var p := None;
      if c.Some? { p := c.value.sortText; }
      m := PhTextPtr(p);
    }

    /** num() in the duration orders, bigint() in the size orders. */
    method NumKey(m: Mode, c: Option<VideoListPageCursor>) returns (mark: Mark)
      modifies this`args
      ensures Bound(postgres, old(args), args, mark, NumBind(m, c))
    {
      if m.key.Size? {
        var p := None;
        if c.Some? { p := c.value.sortInt; }
        mark := PhIntPtr(p);
      } else {
        var p := None;
        if c.Some? { p := c.value.sortNumber; }
        mark := PhFloatPtr(p);
      }
    }

    method TieSQL(asc: bool, c: Option<VideoListPageCursor>) returns (p: Pred<Mark>)
      modifies this`args
      ensures Renders(postgres, old(args), args, p, TieBind(asc, c))
    {
      ghost var a0, s := args, CursorBinds(c);
      var t0 := T(c);
      ghost var a1 := args;
      var t1 := T(c);
      ghost var a2 := args;
      var i := ID(c);
      p := Tie(asc, t0, t1, i);
      EqThenPastRenders(postgres, a1, a2, args, asc, Col(StartDownloadAt), Col(Id), t1, s.t, i, s.id);
      JoinRenders(postgres, a0, a1, args, false, Rel(Lt, Of(Col(StartDownloadAt)), Hole(t0)),
                  Rel(Lt, Of(Col(StartDownloadAt)), Hole(s.t)),
                  And(Rel(Eq, Of(Col(StartDownloadAt)), Hole(t1)), Past(asc, Col(Id), i)),
                  And(Rel(Eq, Of(Col(StartDownloadAt)), Hole(s.t)), Past(asc, Col(Id), s.id)));
    }

    method KeyTime(history: bool, c: Option<VideoListPageCursor>) returns (m: Mark)
      modifies this`args
      ensures Bound(postgres, old(args), args, m, KeyTimeBind(history, c))
    {
      if history { m := SortTime(c); } else { m := T(c); }
    }

    /** The created_at orders, and the history_when orders over sortTime and the COALESCE key. */
    method TwoKeySQL(asc: bool, history: bool, x: Expr, c: Option<VideoListPageCursor>) returns (p: Pred<Mark>)
      modifies this`args
      ensures var t := KeyTimeBind(history, c);
              Renders(postgres, old(args), args, p, TwoKeyAfter(asc, x, t, t, t, CursorBinds(c).id))
    {
      ghost var a0, s, t := args, CursorBinds(c), KeyTimeBind(history, c);
      var t0 := KeyTime(history, c);
      ghost var a1 := args;
      var t1 := KeyTime(history, c);
      ghost var a2 := args;
      var t2 := KeyTime(history, c);
      ghost var a3 := args;
      var i := ID(c);
      p := TwoKeyAfter(asc, x, t0, t1, t2, i);
      NullOrPastRenders(postgres, a0, a1, a2, asc, x, t0, t, t1, t);
      EqThenPastRenders(postgres, a2, a3, args, asc, x, Col(Id), t2, t, i, s.id);
      JoinRenders(postgres, a0, a2, args, false,
                  Or(Is(IsNull, Hole(t0)), Past(asc, x, t1)), Or(Is(IsNull, Hole(t)), Past(asc, x, t)),
                  And(Rel(Eq, Of(x), Hole(t2)), Past(asc, Col(Id), i)),
                  And(Rel(Eq, Of(x), Hole(t)), Past(asc, Col(Id), s.id)));
    }

    method ChannelSQL(asc: bool, c: Option<VideoListPageCursor>) returns (p: Pred<Mark>)
      modifies this`args
      ensures var s := CursorBinds(c);
              Renders(postgres, old(args), args, p, ChannelAfter(asc, s.text, s.text, s.text, s.t, s.t, s.id))
    {
      ghost var a0, s := args, CursorBinds(c);
      var x0 := TextKey(c);
      ghost var a1 := args;
      var x1 := TextKey(c);
      ghost var a2 := args;
      var x2 := TextKey(c);
      ghost var a3 := args;
      var tie := TieSQL(asc, c);
      var name := Col(DisplayName);
      NullOrPastRenders(postgres, a0, a1, a2, asc, name, x0, s.text, x1, s.text);
      EqThenRenders(postgres, a2, a3, args, name, x2, s.text, tie, TieBind(asc, c));
      p := Or(Or(Is(IsNull, Hole(x0)), Past(asc, name, x1)), And(Rel(Eq, Of(name), Hole(x2)), tie));
      JoinRenders(postgres, a0, a2, args, false,
                  Or(Is(IsNull, Hole(x0)), Past(asc, name, x1)), Or(Is(IsNull, Hole(s.text)), Past(asc, name, s.text)),
                  And(Rel(Eq, Of(name), Hole(x2)), tie), And(Rel(Eq, Of(name), Hole(s.text)), TieBind(asc, c)));
    }

    method AmongNullsSQL(m: Mode, col: Column, c: Option<VideoListPageCursor>) returns (p: Pred<Mark>)
      modifies this`args
      ensures Renders(postgres, old(args), args, p, NullsBind(m, col, c))
    {
      ghost var a0, n := args, NumBind(m, c);
      var n0 := NumKey(m, c);
      ghost var a1 := args;
      var tie := TieSQL(m.asc, c);
      p := And(And(Is(IsNull, Hole(n0)), Is(IsNull, Of(Col(col)))), tie);
      IsRenders(postgres, a0, a1, IsNull, n0, n);
      JoinRenders(postgres, a0, a1, a1, true, Is(IsNull, Hole(n0)), Is(IsNull, Hole(n)),
                  Is(IsNull, Of(Col(col))), Is(IsNull, Of(Col(col))));
      JoinRenders(postgres, a0, a1, args, true,
                  And(Is(IsNull, Hole(n0)), Is(IsNull, Of(Col(col)))),
                  And(Is(IsNull, Hole(n)), Is(IsNull, Of(Col(col)))),
                  tie, TieBind(m.asc, c));
    }

    method LaterSQL(m: Mode, col: Column, c: Option<VideoListPageCursor>) returns (p: Pred<Mark>)
      modifies this`args
      ensures Renders(postgres, old(args), args, p, LaterBind(m, col, c))
    {
      ghost var a1, n := args, NumBind(m, c);
      var n1 := NumKey(m, c);
      ghost var a2 := args;
      var n2 := NumKey(m, c);
      ghost var a3 := args;
      var tie := TieSQL(m.asc, c);
      var x := Col(col);
      ColumnNullOrPastRenders(postgres, a1, a2, m.asc, col, n1, n);
      EqThenRenders(postgres, a2, a3, args, x, n2, n, tie, TieBind(m.asc, c));
      p := Or(Or(Is(IsNull, Of(x)), Past(m.asc, x, n1)), And(Rel(Eq, Of(x), Hole(n2)), tie));
      JoinRenders(postgres, a1, a2, args, false,
                  Or(Is(IsNull, Of(x)), Past(m.asc, x, n1)), Or(Is(IsNull, Of(x)), Past(m.asc, x, n)),
                  And(Rel(Eq, Of(x), Hole(n2)), tie), And(Rel(Eq, Of(x), Hole(n)), TieBind(m.asc, c)));
    }

    method AmongValuesSQL(m: Mode, col: Column, c: Option<VideoListPageCursor>) returns (p: Pred<Mark>)
      modifies this`args
      ensures Renders(postgres, old(args), args, p, ValuesBind(m, col, c))
    {
      ghost var a0, n := args, NumBind(m, c);
      var n0 := NumKey(m, c);
      ghost var a1 := args;
      var later := LaterSQL(m, col, c);
      IsRenders(postgres, a0, a1, NotNull, n0, n);
      JoinRenders(postgres, a0, a1, args, true, Is(NotNull, Hole(n0)), Is(NotNull, Hole(n)),
                  later, LaterBind(m, col, c));
      p := And(Is(NotNull, Hole(n0)), later);
    }

    method NullableSQL(m: Mode, col: Column, c: Option<VideoListPageCursor>) returns (p: Pred<Mark>)
      modifies this`args
      ensures var s := CursorBinds(c);
              var n := NumBind(m, c);
              Renders(postgres, old(args), args, p,
                      NullableAfter(m.asc, col, s.t, n, s.t, s.t, s.id, n, n, n, s.t, s.t, s.id))
    {
      ghost var a0, s := args, CursorBinds(c);
      var t := T(c);
      ghost var a1 := args;
      var nulls := AmongNullsSQL(m, col, c);
      ghost var a2 := args;
      var values := AmongValuesSQL(m, col, c);
      p := Or(Or(Is(IsNull, Hole(t)), nulls), values);
      IsRenders(postgres, a0, a1, IsNull, t, s.t);
      JoinRenders(postgres, a0, a1, a2, false, Is(IsNull, Hole(t)), Is(IsNull, Hole(s.t)), nulls, NullsBind(m, col, c));
      JoinRenders(postgres, a0, a2, args, false, Or(Is(IsNull, Hole(t)), nulls),
                  Or(Is(IsNull, Hole(s.t)), NullsBind(m, col, c)), values, ValuesBind(m, col, c));
    }

    method CursorAndOrderSQL(m: Mode, c: Option<VideoListPageCursor>) returns (p: Pred<Mark>, order: seq<OrderKey>)
      modifies this`args
      ensures Renders(postgres, old(args), args, p, CursorAfter(m, CursorBinds(c)))
      ensures order == OrderBy(m)
    {
      order := OrderBy(m);
      match m.key {
        case CreatedAt => p := TwoKeySQL(m.asc, false, Col(StartDownloadAt), c);
        case HistoryWhen => p := TwoKeySQL(m.asc, true, WHEN, c);
        case Channel => p := ChannelSQL(m.asc, c);
        case Duration => p := NullableSQL(m, DurationSeconds, c);
        case Size => p := NullableSQL(m, SizeBytes, c);
      }
    }

    /** The text of a fresh builder's query; the bound values are then in args. */
    method Build(o: ListVideosOpts, cursor: Option<VideoListPageCursor>) returns (q: Query<Mark>)
      requires args == []
      modifies this`args
      ensures RendersQuery(postgres, args, q, PageQuery(postgres, o, cursor))
    {
      var m := NormalizeVideoListSort(o);
      var limit := ListVideosPageQueryLimit(o.limit);
      ghost var a0 := args;
      var status := EqualsOrAnySQL(Status, o.status);
      ghost var a1 := args;
      var filters := FiltersSQL(o);
      ghost var a2 := args;
      JoinRenders(postgres, a0, a1, a2, true, status, StatusPart(o), filters, FiltersPart(postgres, o));
      var after, order := CursorAndOrderSQL(m, cursor);
      ghost var a3 := args;
      JoinRenders(postgres, a0, a2, a3, true, And(status, filters), And(StatusPart(o), FiltersPart(postgres, o)),
                  after, CursorAfter(m, CursorBinds(cursor)));
      var h := PhID(limit);
      q := Query(And(And(status, filters), after), order, Hole(h));
      assert a3 == ValuesOf(Binds(CondPart(postgres, o, cursor)));
    }
  }

  /** The whole query of a page for one dialect, with the list of values it binds. */
  method BuildListVideosPageQuery(o: ListVideosOpts, cursor: Option<VideoListPageCursor>, postgres: bool)
      returns (q: Query<Mark>, args: seq<Value>)
    ensures RendersQuery(postgres, args, q, PageQuery(postgres, o, cursor))
  {
    var b := new VideoPageBuilder(postgres);
    q := b.Build(o, cursor);
    args := b.args;
  }
}
