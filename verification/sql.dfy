/** The SQL the page builder writes: terms and predicates with a hole for every bound value,
    three-valued evaluation, and the two ways an engine finds the value of a placeholder. */
module Sql {
  import opened Prelude
  import opened Videos

  // ---------- values ----------

  datatype Value = Null | Bool(b: bool) | Int(i: int) | Real(r: real) | Text(s: string) | Time(t: int)

  /** SQL truth: a row is kept only when its condition is True. */
  datatype Truth = True | False | Unknown

  function Truly(b: bool): Truth { if b then True else False }

  function NotT(a: Truth): Truth {
    match a
    case True => False
    case False => True
    case Unknown => Unknown
  }

  function AndT(a: Truth, b: Truth): Truth {
    if a.False? || b.False? then False else if a.True? && b.True? then True else Unknown
  }

  function OrT(a: Truth, b: Truth): Truth {
    if a.True? || b.True? then True else if a.False? && b.False? then False else Unknown
  }

  predicate TextLess(a: string, b: string) {
    b != "" && (a == "" || a[0] < b[0] || (a[0] == b[0] && TextLess(a[1..], b[1..])))
  }

  function Kind(a: Value): int {
    match a
    case Null => 0
    case Bool(_) => 1
    case Int(_) => 2
    case Real(_) => 3
    case Text(_) => 4
    case Time(_) => 5
  }

  predicate Less(a: Value, b: Value) {
    match a
    case Bool(x) => if b.Bool? then !x && b.b else 1 < Kind(b)
    case Int(x) => if b.Int? then x < b.i else 2 < Kind(b)
    case Real(x) => if b.Real? then x < b.r else 3 < Kind(b)
    case Text(x) => if b.Text? then TextLess(x, b.s) else 4 < Kind(b)
    case Time(x) => if b.Time? then x < b.t else 5 < Kind(b)
    case Null => !b.Null?
  }

  lemma {:induction false} TextOrder(a: string, b: string, c: string)
    ensures !TextLess(a, a)
    ensures a == b || TextLess(a, b) || TextLess(b, a)
    ensures TextLess(a, b) && TextLess(b, c) ==> TextLess(a, c)
    decreases |a| + |b| + |c|
  {
    if a != "" && b != "" && c != "" {
      assert a == [a[0]] + a[1..] && b == [b[0]] + b[1..];
      TextOrder(a[1..], b[1..], c[1..]);
    } else if a != "" && b != "" {
      assert a == [a[0]] + a[1..] && b == [b[0]] + b[1..];
      TextOrder(a[1..], b[1..], "");
    } else if a != "" {
      TextOrder(a[1..], "", "");
    }
  }

  /** The comparison of values is a strict total order. */
  lemma ValueOrder(a: Value, b: Value, c: Value)
    ensures !Less(a, a)
    ensures a == b || Less(a, b) || Less(b, a)
    ensures Less(a, b) && Less(b, c) ==> Less(a, c)
  {
    if a.Text? {
      TextOrder(a.s, if b.Text? then b.s else "", if c.Text? then c.s else "");
    }
  }

  // ---------- terms and predicates ----------

  datatype Column =
    | Id | DisplayName | Status | Quality | SelectedQuality | SelectedFps | BroadcasterId | Language
    | DurationSeconds | SizeBytes | StartDownloadAt | DownloadedAt | DeletedAt | CompletionKind | Truncated

  /** What a row alone determines. */
  datatype Expr =
    | Col(c: Column)
    | Lit(v: Value)
    | Coalesce(a: Expr, b: Expr)
    | Concat(a: Expr, b: Expr)
    | FpsText
    | WeekAgo

  /** H is what stands where a value goes. */
  datatype Term<H> = Hole(h: H) | Of(e: Expr)

  datatype Op = Eq | Ne | Lt | Le | Gt | Ge

  /** Tests of one term; Saved and Seen are EXISTS over the user's video_user_states rows. */
  datatype Check = IsNull | NotNull | Holds | OneOf(vs: seq<Value>) | Saved | Seen

  datatype Atom<H> = Test(check: Check, t: Term<H>) | Cmp(op: Op, a: Term<H>, b: Term<H>)

  datatype Pred<H> = Fact(atom: Atom<H>) | Not(p: Pred<H>) | Join(conj: bool, p: Pred<H>, q: Pred<H>)

  function And<H>(p: Pred<H>, q: Pred<H>): Pred<H> { Join(true, p, q) }
  function Or<H>(p: Pred<H>, q: Pred<H>): Pred<H> { Join(false, p, q) }
  function Is<H>(check: Check, t: Term<H>): Pred<H> { Fact(Test(check, t)) }
  function Rel<H>(op: Op, a: Term<H>, b: Term<H>): Pred<H> { Fact(Cmp(op, a, b)) }

  /** What a row's condition is evaluated against. */
  datatype Env = Env(postgres: bool, row: Video, states: set<UserState>, weekAgo: int)

  function FromInt(x: Option<int>): Value { if x.None? then Null else Int(x.value) }
  function FromReal(x: Option<real>): Value { if x.None? then Null else Real(x.value) }
  function FromText(x: Option<string>): Value { if x.None? then Null else Text(x.value) }
  function FromTime(x: Option<int>): Value { if x.None? then Null else Time(x.value) }

  /** Booleans are a type of their own in Postgres and 0 or 1 in SQLite. */
  function FromBool(postgres: bool, b: bool): Value {
    if postgres then Bool(b) else Int(if b then 1 else 0)
  }

  function Cell(postgres: bool, v: Video, c: Column): Value {
    match c
    case Id => Int(v.id)
    case DisplayName => Text(v.displayName)
    case Status => Text(v.status)
    case Quality => Text(v.quality)
    case SelectedQuality => FromText(v.selectedQuality)
    case SelectedFps => FromReal(v.selectedFps)
    case BroadcasterId => Text(v.broadcasterId)
    case Language => Text(v.language)
    case DurationSeconds => FromReal(v.durationSeconds)
    case SizeBytes => FromInt(v.sizeBytes)
    case StartDownloadAt => Time(v.startDownloadAt)
    case DownloadedAt => FromTime(v.downloadedAt)
    case DeletedAt => FromTime(v.deletedAt)
    case CompletionKind => Text(v.completionKind)
    case Truncated => FromBool(postgres, v.truncated)
  }

  function EvalExpr(x: Expr, e: Env): Value {
    match x
    case Col(c) => Cell(e.postgres, e.row, c)
    case Lit(v) => v
    case Coalesce(a, b) => if EvalExpr(a, e).Null? then EvalExpr(b, e) else EvalExpr(a, e)
    case Concat(a, b) =>
      if EvalExpr(a, e).Text? && EvalExpr(b, e).Text? then Text(EvalExpr(a, e).s + EvalExpr(b, e).s) else Null
    case FpsText => if e.row.selectedFps.None? then Null else Text(e.row.fpsText)
    case WeekAgo => Time(e.weekAgo)
  }

  function Eval(t: Term<Value>, e: Env): Value {
    match t
    case Hole(v) => v
    case Of(x) => EvalExpr(x, e)
  }

  /** A comparison with NULL is Unknown. */
  function Compare(op: Op, x: Value, y: Value): Truth {
    if x.Null? || y.Null? then Unknown
    else
      match op
      case Eq => Truly(x == y)
      case Ne => Truly(x != y)
      case Lt => Truly(Less(x, y))
      case Le => Truly(!Less(y, x))
      case Gt => Truly(Less(y, x))
      case Ge => Truly(!Less(x, y))
  }

  function TruthOf(v: Value): Truth {
    match v
    case Bool(b) => Truly(b)
    case Int(i) => Truly(i != 0)
    case _ => Unknown
  }

  function Checking(check: Check, v: Value, e: Env): Truth {
    match check
    case IsNull => Truly(v.Null?)
    case NotNull => Truly(!v.Null?)
    case Holds => TruthOf(v)
    case OneOf(vs) => if v.Null? then Unknown else Truly(v in vs)
    case Saved => Truly(v.Text? && SavedForLater(e.states, v.s, e.row.id))
    case Seen => Truly(v.Text? && Watched(e.states, v.s, e.row.id))
  }

  function AtomHolds(a: Atom<Value>, e: Env): Truth {
    match a
    case Test(check, t) => Checking(check, Eval(t, e), e)
    case Cmp(op, x, y) => Compare(op, Eval(x, e), Eval(y, e))
  }

  /** The truth of a condition on a row. */
  function Holding(p: Pred<Value>, e: Env): Truth {
    match p
    case Fact(a) => AtomHolds(a, e)
    case Not(q) => NotT(Holding(q, e))
    case Join(conj, a, b) =>
      if conj then AndT(Holding(a, e), Holding(b, e)) else OrT(Holding(a, e), Holding(b, e))
  }

  // ---------- placeholders ----------

  /** A value to bind, with the cast Postgres writes after its placeholder. */
  datatype Bind = Bind(v: Value, cast: string)

  /** What the text holds instead: SQLite's positional mark, or Postgres's number and cast. */
  datatype Mark = Question | Dollar(n: int, cast: string)

  function ValuesOf(bs: seq<Bind>): (vs: seq<Value>)
    ensures |vs| == |bs|
  {
    seq(|bs|, i requires 0 <= i < |bs| => bs[i].v)
  }

  /** The bound values, in the order the text mentions them. */
  function TermBinds(t: Term<Bind>): seq<Bind> { if t.Hole? then [t.h] else [] }

  function AtomBinds(a: Atom<Bind>): seq<Bind> {
    match a
    case Test(_, t) => TermBinds(t)
    case Cmp(_, x, y) => TermBinds(x) + TermBinds(y)
  }

  function Binds(p: Pred<Bind>): seq<Bind> {
    match p
    case Fact(a) => AtomBinds(a)
    case Not(q) => Binds(q)
    case Join(_, a, b) => Binds(a) + Binds(b)
  }

  function MarkFor(postgres: bool, n: nat, cast: string): Mark {
    if postgres then Dollar(n + 1, cast) else Question
  }

  /** The text whose first bound value goes to position n of the argument list. */
  function PlaceTerm(postgres: bool, n: nat, t: Term<Bind>): Term<Mark> {
    match t
    case Hole(b) => Hole(MarkFor(postgres, n, b.cast))
    case Of(x) => Of(x)
  }

  function PlaceAtom(postgres: bool, n: nat, a: Atom<Bind>): Atom<Mark> {
    match a
    case Test(check, t) => Test(check, PlaceTerm(postgres, n, t))
    case Cmp(op, x, y) => Cmp(op, PlaceTerm(postgres, n, x), PlaceTerm(postgres, n + |TermBinds(x)|, y))
  }

  function Place(postgres: bool, n: nat, p: Pred<Bind>): Pred<Mark>
    decreases p
  {
    match p
    case Fact(a) => Fact(PlaceAtom(postgres, n, a))
    case Not(q) => Not(Place(postgres, n, q))
    case Join(conj, a, b) => Join(conj, Place(postgres, n, a), Place(postgres, n + |Binds(a)|, b))
  }

  /** How many positional marks the text holds. */
  function TermQuestions(t: Term<Mark>): nat { if t.Hole? && t.h.Question? then 1 else 0 }

  function AtomQuestions(a: Atom<Mark>): nat {
    match a
    case Test(_, t) => TermQuestions(t)
    case Cmp(_, x, y) => TermQuestions(x) + TermQuestions(y)
  }

  function Questions(p: Pred<Mark>): nat {
    match p
    case Fact(a) => AtomQuestions(a)
    case Not(q) => Questions(q)
    case Join(_, a, b) => Questions(a) + Questions(b)
  }

  /** $n is argument n, wherever it stands; the k-th ? of the whole text is argument k. */
  function Lookup(args: seq<Value>, k: nat, m: Mark): Value {
    match m
    case Question => if k < |args| then args[k] else Null
    case Dollar(n, _) => if 1 <= n <= |args| then args[n - 1] else Null
  }

  /** The engine's reading of a text that k positional marks precede. */
  function ResolveTerm(args: seq<Value>, k: nat, t: Term<Mark>): Term<Value> {
    match t
    case Hole(m) => Hole(Lookup(args, k, m))
    case Of(x) => Of(x)
  }

  function ResolveAtom(args: seq<Value>, k: nat, a: Atom<Mark>): Atom<Value> {
    match a
    case Test(check, t) => Test(check, ResolveTerm(args, k, t))
    case Cmp(op, x, y) => Cmp(op, ResolveTerm(args, k, x), ResolveTerm(args, k + TermQuestions(x), y))
  }

  function Resolve(args: seq<Value>, k: nat, p: Pred<Mark>): Pred<Value>
    decreases p
  {
    match p
    case Fact(a) => Fact(ResolveAtom(args, k, a))
    case Not(q) => Not(Resolve(args, k, q))
    case Join(conj, a, b) => Join(conj, Resolve(args, k, a), Resolve(args, k + Questions(a), b))
  }

  /** The same text with every value written in its place. */
  function FillTerm(t: Term<Bind>): Term<Value> {
    match t
    case Hole(b) => Hole(b.v)
    case Of(x) => Of(x)
  }

  function FillAtom(a: Atom<Bind>): Atom<Value> {
    match a
    case Test(check, t) => Test(check, FillTerm(t))
    case Cmp(op, x, y) => Cmp(op, FillTerm(x), FillTerm(y))
  }

  function Fill(p: Pred<Bind>): Pred<Value> {
    match p
    case Fact(a) => Fact(FillAtom(a))
    case Not(q) => Not(Fill(q))
    case Join(conj, a, b) => Join(conj, Fill(a), Fill(b))
  }

  /** The values of bs stand at position n of args. */
  predicate StandAt(args: seq<Value>, n: nat, bs: seq<Bind>) {
    n + |bs| <= |args| && args[n..n + |bs|] == ValuesOf(bs)
  }

  lemma StandAtSplit(args: seq<Value>, n: nat, a: seq<Bind>, b: seq<Bind>)
    requires StandAt(args, n, a + b)
    ensures StandAt(args, n, a) && StandAt(args, n + |a|, b)
  {
    var here := args[n..n + |a + b|];
    assert ValuesOf(a + b) == ValuesOf(a) + ValuesOf(b);
    assert args[n..n + |a|] == here[..|a|] && args[n + |a|..n + |a| + |b|] == here[|a|..];
  }

  lemma TermResolved(postgres: bool, args: seq<Value>, n: nat, k: nat, t: Term<Bind>)
    requires StandAt(args, n, TermBinds(t)) && (postgres || k == n)
    ensures TermQuestions(PlaceTerm(postgres, n, t)) == if postgres then 0 else |TermBinds(t)|
    ensures ResolveTerm(args, k, PlaceTerm(postgres, n, t)) == FillTerm(t)
  {
    if t.Hole? { assert args[n..n + 1][0] == ValuesOf([t.h])[0]; }
  }

  lemma AtomResolved(postgres: bool, args: seq<Value>, n: nat, k: nat, a: Atom<Bind>)
    requires StandAt(args, n, AtomBinds(a)) && (postgres || k == n)
    ensures AtomQuestions(PlaceAtom(postgres, n, a)) == if postgres then 0 else |AtomBinds(a)|
    ensures ResolveAtom(args, k, PlaceAtom(postgres, n, a)) == FillAtom(a)
  {
    match a
    case Test(_, t) => TermResolved(postgres, args, n, k, t);
    case Cmp(_, x, y) =>
      StandAtSplit(args, n, TermBinds(x), TermBinds(y));
      TermResolved(postgres, args, n, k, x);
      TermResolved(postgres, args, n + |TermBinds(x)|, k + TermQuestions(PlaceTerm(postgres, n, x)), y);
  }

  /** Read back against its arguments, the text gives every value in its own place. */
  predicate ReadsBack(postgres: bool, args: seq<Value>, n: nat, k: nat, p: Pred<Bind>) {
    && Questions(Place(postgres, n, p)) == (if postgres then 0 else |Binds(p)|)
    && Resolve(args, k, Place(postgres, n, p)) == Fill(p)
  }

  lemma JoinReadsBack(postgres: bool, args: seq<Value>, n: nat, k: nat, conj: bool, a: Pred<Bind>, b: Pred<Bind>)
    requires ReadsBack(postgres, args, n, k, a)
    requires ReadsBack(postgres, args, n + |Binds(a)|, k + Questions(Place(postgres, n, a)), b)
    ensures ReadsBack(postgres, args, n, k, Join(conj, a, b))
  {
  }

  lemma NotReadsBack(postgres: bool, args: seq<Value>, n: nat, k: nat, q: Pred<Bind>)
    requires ReadsBack(postgres, args, n, k, q)
    ensures ReadsBack(postgres, args, n, k, Not(q))
  {
  }

  lemma FactReadsBack(postgres: bool, args: seq<Value>, n: nat, k: nat, a: Atom<Bind>)
    requires StandAt(args, n, AtomBinds(a)) && (postgres || k == n)
    ensures ReadsBack(postgres, args, n, k, Fact(a))
  {
    AtomResolved(postgres, args, n, k, a);
  }

  /** Placeholders lose nothing: SQLite counts marks and Postgres goes by number, and either way
      the rendered condition reads back as the one the builder meant. */
  lemma {:induction false} Resolved(postgres: bool, args: seq<Value>, n: nat, k: nat, p: Pred<Bind>)
    requires StandAt(args, n, Binds(p)) && (postgres || k == n)
    ensures ReadsBack(postgres, args, n, k, p)
    decreases p
  {
    match p
    case Fact(a) => FactReadsBack(postgres, args, n, k, a);
    case Not(q) =>
      Resolved(postgres, args, n, k, q);
      NotReadsBack(postgres, args, n, k, q);
    case Join(conj, a, b) =>
      StandAtSplit(args, n, Binds(a), Binds(b));
      Resolved(postgres, args, n, k, a);
      Resolved(postgres, args, n + |Binds(a)|, k + Questions(Place(postgres, n, a)), b);
      JoinReadsBack(postgres, args, n, k, conj, a, b);
  }
}
