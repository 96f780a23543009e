/** The conditions of the video list page: their shape, with a hole for every bound value, and
    what they mean for a row. */
module VideoFilters {
  import opened Prelude
  import opened Videos
  import opened Sql

  const EMPTY := Lit(Text(""))

  // ---------- the values to bind ----------

  function TextBind(s: string): Bind { Bind(Text(s), "text") }
  function TextPtrBind(p: Option<string>): Bind { Bind(FromText(p), "text") }
  function FloatPtrBind(p: Option<real>): Bind { Bind(FromReal(p), "double precision") }
  function IntPtrBind(p: Option<int>): Bind { Bind(FromInt(p), "bigint") }
  function IdBind(id: int): Bind { Bind(Int(id), "") }
  function BoolBind(postgres: bool, b: bool): Bind { Bind(FromBool(postgres, b), "boolean") }
  function TimeBind(t: int, present: bool): Bind { Bind(if present then Time(t) else Null, "timestamptz") }

  // ---------- shapes: one argument per hole, in the order of the text ----------

  function EqualsOrAny<H>(c: Column, h0: H, h1: H): Pred<H> {
    Or(Rel(Eq, Hole(h0), Of(EMPTY)), Rel(Eq, Of(Col(c)), Hole(h1)))
  }

  function NullOr<H>(op: Op, c: Column, h0: H, h1: H): Pred<H> {
    Or(Is(IsNull, Hole(h0)), Rel(op, Of(Col(c)), Hole(h1)))
  }

  const HEIGHT_P := Concat(Col(SelectedQuality), Lit(Text("p")))

  function Playing<H>(): Pred<H> {
    And(Is(NotNull, Of(Col(SelectedFps))), Rel(Gt, Of(Col(SelectedFps)), Of(Lit(Real(0.0)))))
  }

  function FpsMatch<H>(h: H): Pred<H> { And(Playing(), Rel(Eq, Of(Concat(HEIGHT_P, FpsText)), Hole(h))) }

  function QualityMatch<H>(h0: H, h1: H, h2: H, h3: H, h4: H): Pred<H> {
    Or(Or(Or(EqualsOrAny(Quality, h0, h1), Rel(Eq, Of(Col(SelectedQuality)), Hole(h2))),
          Rel(Eq, Of(HEIGHT_P), Hole(h3))),
       FpsMatch(h4))
  }

  function Recent<H>(h: H): Pred<H> {
    And(Rel(Eq, Hole(h), Of(Lit(Text("this_week")))), Rel(Ge, Of(Col(StartDownloadAt)), Of(WeekAgo)))
  }

  function WindowMatch<H>(h0: H, h1: H): Pred<H> { Or(Rel(Eq, Hole(h0), Of(EMPTY)), Recent(h1)) }

  /** A switched-off flag: NOT $n in Postgres, ? = 0 in SQLite. */
  function Off<H>(postgres: bool, h: H): Pred<H> {
    if postgres then Not(Is(Holds, Hole(h))) else Rel(Eq, Hole(h), Of(Lit(Int(0))))
  }

  function IsTruncated<H>(postgres: bool): Pred<H> {
    if postgres then Is(Holds, Of(Col(Truncated))) else Rel(Eq, Of(Col(Truncated)), Of(Lit(Int(1))))
  }

  function IncompleteMatch<H>(postgres: bool, h: H): Pred<H> {
    Or(Or(Off(postgres, h), Rel(Eq, Of(Col(CompletionKind)), Of(Lit(Text("partial"))))), IsTruncated(postgres))
  }

  function TerminalMatch<H>(h: H): Pred<H> {
    Or(Not(Is(Holds, Hole(h))), Is(OneOf([Text("DONE"), Text("FAILED")]), Of(Col(Status))))
  }

  function WatchLaterMatch<H>(postgres: bool, h: H, user: H): Pred<H> {
    Or(Off(postgres, h), Is(Saved, Hole(user)))
  }

  function Unwatched<H>(u0: H, u1: H): Pred<H> {
    And(And(Rel(Ne, Hole(u0), Of(EMPTY)), Rel(Eq, Of(Col(Status)), Of(Lit(Text("DONE"))))),
        Not(Is(Seen, Hole(u1))))
  }

  function UnwatchedMatch<H>(postgres: bool, h: H, u0: H, u1: H): Pred<H> {
    Or(Off(postgres, h), Unwatched(u0, u1))
  }

  /** The tombstone scope binds nothing; "all" adds no condition to the 1=1 the text starts with. */
  function ScopeMatch<H>(scope: string): Pred<H> {
    if scope == "removed" then Is(NotNull, Of(Col(DeletedAt)))
    else if scope == "all" then Rel(Eq, Of(Lit(Int(1))), Of(Lit(Int(1))))
    else Is(IsNull, Of(Col(DeletedAt)))
  }

  // ---------- what each shape means ----------

  lemma EqualsOrAnyMeans(c: Column, s: string, e: Env)
    ensures var p := EqualsOrAny(c, Text(s), Text(s));
            Holding(p, e).True? <==> s == "" || Cell(e.postgres, e.row, c) == Text(s)
  {
  }

  lemma NullOrMeans(op: Op, c: Column, bound: Value, e: Env)
    ensures var p := NullOr(op, c, bound, bound);
            Holding(p, e).True? <==> bound.Null? || Compare(op, Cell(e.postgres, e.row, c), bound).True?
  {
  }

  lemma HeightIs(e: Env)
    ensures EvalExpr(HEIGHT_P, e) ==
            if e.row.selectedQuality.Some? then Text(e.row.selectedQuality.value + "p") else Null
  {
  }

  lemma FpsMatchMeans(q: string, e: Env)
    ensures Holding(FpsMatch(Text(q)), e).True? <==>
            && e.row.selectedQuality.Some? && e.row.selectedFps.Some? && e.row.selectedFps.value > 0.0
            && e.row.selectedQuality.value + "p" + e.row.fpsText == q
  {
    HeightIs(e);
    assert Holding(Playing(), e).True? <==> e.row.selectedFps.Some? && e.row.selectedFps.value > 0.0;
    var joined := Concat(HEIGHT_P, FpsText);
    var h := EvalExpr(HEIGHT_P, e);
    assert EvalExpr(FpsText, e) == if e.row.selectedFps.Some? then Text(e.row.fpsText) else Null;
    assert EvalExpr(joined, e) ==
           if h.Text? && e.row.selectedFps.Some? then Text(h.s + e.row.fpsText) else Null;
    assert Holding(Rel(Eq, Of(joined), Hole(Text(q))), e) == Compare(Eq, EvalExpr(joined, e), Text(q));
    assert FpsMatch(Text(q)) == And(Playing(), Rel(Eq, Of(joined), Hole(Text(q))));
  }

  lemma QualityMatchMeans(q: string, e: Env)
    ensures var t := Text(q);
            Holding(QualityMatch(t, t, t, t, t), e).True? <==> HasQuality(q, e.row)
  {
    var t := Text(q);
    FpsMatchMeans(q, e);
    EqualsOrAnyMeans(Quality, q, e);
    HeightIs(e);
    var two := Or(EqualsOrAny(Quality, t, t), Rel(Eq, Of(Col(SelectedQuality)), Hole(t)));
    assert Holding(two, e).True? <==>
           q == "" || e.row.quality == q || (e.row.selectedQuality.Some? && e.row.selectedQuality.value == q);
    assert Holding(Or(two, Rel(Eq, Of(HEIGHT_P), Hole(t))), e).True? <==>
           Holding(two, e).True? || EvalExpr(HEIGHT_P, e) == t;
  }

  lemma WindowMatchMeans(w: string, e: Env)
    ensures Holding(WindowMatch(Text(w), Text(w)), e).True? <==> InWindow(w, e.weekAgo, e.row)
  {
    assert Holding(Recent(Text(w)), e).True? <==> w == "this_week" && e.row.startDownloadAt >= e.weekAgo;
  }

  lemma OffMeans(flag: bool, e: Env)
    ensures Holding(Off(e.postgres, FromBool(e.postgres, flag)), e) == Truly(!flag)
  {
  }

  lemma IncompleteMatchMeans(flag: bool, e: Env)
    ensures Holding(IncompleteMatch(e.postgres, FromBool(e.postgres, flag)), e).True? <==>
            (flag ==> e.row.completionKind == "partial" || e.row.truncated)
  {
    OffMeans(flag, e);
    var h := FromBool(e.postgres, flag);
    var off := Or(Off(e.postgres, h), Rel(Eq, Of(Col(CompletionKind)), Of(Lit(Text("partial")))));
    assert Holding(off, e) == Truly(!flag || e.row.completionKind == "partial");
    assert Holding(IsTruncated(e.postgres), e) == Truly(e.row.truncated);
  }

  lemma TerminalMatchMeans(flag: bool, e: Env)
    ensures Holding(TerminalMatch(FromBool(e.postgres, flag)), e).True? <==>
            (flag ==> e.row.status == "DONE" || e.row.status == "FAILED")
  {
    assert Holding(Not(Is(Holds, Hole(FromBool(e.postgres, flag)))), e) == Truly(!flag);
  }

  lemma WatchLaterMatchMeans(flag: bool, user: string, e: Env)
    ensures Holding(WatchLaterMatch(e.postgres, FromBool(e.postgres, flag), Text(user)), e).True? <==>
            (flag ==> SavedForLater(e.states, user, e.row.id))
  {
    OffMeans(flag, e);
  }

  lemma UnwatchedMatchMeans(flag: bool, user: string, e: Env)
    ensures Holding(UnwatchedMatch(e.postgres, FromBool(e.postgres, flag), Text(user), Text(user)), e).True? <==>
            (flag ==> user != "" && e.row.status == "DONE" && !Watched(e.states, user, e.row.id))
  {
    OffMeans(flag, e);
    var ready: Pred<Value> := And(Rel(Ne, Hole(Text(user)), Of(EMPTY)),
                                  Rel(Eq, Of(Col(Status)), Of(Lit(Text("DONE")))));
    assert Holding(ready, e).True? <==> user != "" && e.row.status == "DONE";
    assert Holding(Not(Is(Seen, Hole(Text(user)))), e) == Truly(!Watched(e.states, user, e.row.id));
    assert Holding(Unwatched(Text(user), Text(user)), e).True? <==>
           user != "" && e.row.status == "DONE" && !Watched(e.states, user, e.row.id);
  }

  lemma ScopeMatchMeans(scope: string, e: Env)
    ensures Holding(ScopeMatch(scope), e).True? <==> InScope(scope, e.row)
  {
  }
}
