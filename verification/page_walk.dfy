/** Walking the video list page by page, while rows come and go between the pages. */
module PageWalk {
  import opened Prelude
  import opened Videos
  import opened Sql
  import opened VideoOrder
  import opened VideoSorts
  import opened VideoPageSql
  import opened VideoPageMeaning

  /** The database at the moment one page is read. */
  datatype Snapshot = Snapshot(rows: set<Video>, states: set<UserState>, weekAgo: int)

  /** One page: the text and arguments sent, the database that answered, the rows it gave. */
  datatype Step = Step(args: seq<Value>, text: Query<Mark>, db: Snapshot, out: seq<Video>)

  /** The id is the primary key. */
  ghost predicate UniqueIds(rows: set<Video>) {
    forall a <- rows, b <- rows :: a.id == b.id ==> a == b
  }

  predicate Kept(postgres: bool, q: Query<Value>, db: Snapshot, v: Video) {
    v in db.rows && Holding(q.cond, Env(postgres, v, db.states, db.weekAgo)).True?
  }

  /** What an engine promises of SELECT .. WHERE .. ORDER BY .. LIMIT n. */
  ghost predicate Answers(postgres: bool, q: Query<Value>, n: int, db: Snapshot, out: seq<Video>) {
    && |out| <= n
    && (forall v <- out :: Kept(postgres, q, db, v))
    && (forall i, j | 0 <= i < j < |out| :: out[i] != out[j] && !Before(postgres, q.order, out[j], out[i]))
    && (forall v <- db.rows | v !in out && Kept(postgres, q, db, v) ::
          |out| == n && forall u <- out :: !Before(postgres, q.order, v, u))
  }

  /** The engine answered the query the builder renders for this cursor. */
  ghost predicate Reads(postgres: bool, o: ListVideosOpts, cursor: Option<VideoListPageCursor>, s: Step) {
    && UniqueIds(s.db.rows)
    && RendersQuery(postgres, s.args, s.text, PageQuery(postgres, o, cursor))
    && ReadQuery(s.args, s.text).limit.Hole?
    && ReadQuery(s.args, s.text).limit.h.Int?
    && Answers(postgres, ReadQuery(s.args, s.text), ReadQuery(s.args, s.text).limit.h.i, s.db, s.out)
  }

  /** Each page after the first is asked for with the cursor the page before it returned. */
  ghost predicate Walk(postgres: bool, o: ListVideosOpts, cursor: Option<VideoListPageCursor>, steps: seq<Step>)
    decreases |steps|
  {
    steps != [] ==>
      && Reads(postgres, o, cursor, steps[0])
      && (|steps| > 1 ==> ToVideoListPage(steps[0].out, o).nextCursor.Some?)
      && Walk(postgres, o, ToVideoListPage(steps[0].out, o).nextCursor, steps[1..])
  }

  predicate Ended(o: ListVideosOpts, steps: seq<Step>) {
    steps != [] && ToVideoListPage(steps[|steps| - 1].out, o).nextCursor.None?
  }

  /** Everything the walk returned, in order. */
  function Items(o: ListVideosOpts, steps: seq<Step>): seq<Video> {
    if steps == [] then [] else ToVideoListPage(steps[0].out, o).items + Items(o, steps[1..])
  }

  predicate Ascending(postgres: bool, ks: seq<OrderKey>, vs: seq<Video>) {
    forall i, j | 0 <= i < j < |vs| :: Before(postgres, ks, vs[i], vs[j])
  }

  predicate AllAfter(postgres: bool, ks: seq<OrderKey>, src: Option<Video>, vs: seq<Video>) {
    src.Some? ==> forall v <- vs :: Before(postgres, ks, src.value, v)
  }

  function OrderOf(o: ListVideosOpts): seq<OrderKey> { OrderBy(NormalizeVideoListSort(o)) }

  // ---------- one page ----------

  function Last(vs: seq<Video>): Option<Video> { if vs == [] then None else Some(vs[|vs| - 1]) }

  predicate After(postgres: bool, ks: seq<OrderKey>, src: Option<Video>, v: Video) {
    src.Some? ==> Before(postgres, ks, src.value, v)
  }

  /** A row the page is about: there, wanted, and past the cursor. */
  predicate Due(postgres: bool, o: ListVideosOpts, src: Option<Video>, db: Snapshot, v: Video) {
    v in db.rows && Wanted(o, v, db.states, db.weekAgo) && After(postgres, OrderOf(o), src, v)
  }

  /** An answer in terms of the rows alone. */
  ghost predicate TopRows(postgres: bool, o: ListVideosOpts, src: Option<Video>, db: Snapshot, out: seq<Video>) {
    && UniqueIds(db.rows)
    && |out| <= ListVideosPageQueryLimit(o.limit)
    && (forall v <- out :: Due(postgres, o, src, db, v))
    && (forall i, j | 0 <= i < j < |out| :: out[i] != out[j] && !Before(postgres, OrderOf(o), out[j], out[i]))
    && (forall v | v !in out && Due(postgres, o, src, db, v) ::
          |out| == ListVideosPageQueryLimit(o.limit) && forall u <- out :: !Before(postgres, OrderOf(o), v, u))
  }

  lemma KeptIsDue(postgres: bool, o: ListVideosOpts, src: Option<Video>, s: Step, v: Video)
    requires Reads(postgres, o, CursorOf(NormalizeVideoListSort(o), src), s)
    ensures Kept(postgres, ReadQuery(s.args, s.text), s.db, v) <==> Due(postgres, o, src, s.db, v)
  {
    RenderedQueryMeans(o, src, s.args, s.text, Env(postgres, v, s.db.states, s.db.weekAgo));
  }

  lemma AnswerIsTopRows(postgres: bool, o: ListVideosOpts, src: Option<Video>, s: Step)
    requires Reads(postgres, o, CursorOf(NormalizeVideoListSort(o), src), s)
    ensures TopRows(postgres, o, src, s.db, s.out)
  {
    QueryReadsBack(postgres, s.args, s.text, PageQuery(postgres, o, CursorOf(NormalizeVideoListSort(o), src)));
    forall v ensures Kept(postgres, ReadQuery(s.args, s.text), s.db, v) <==> Due(postgres, o, src, s.db, v) {
      KeptIsDue(postgres, o, src, s, v);
    }
  }

  /** The rows of a page ascend strictly and come after the cursor. */
  lemma PageAscends(postgres: bool, o: ListVideosOpts, src: Option<Video>, db: Snapshot, out: seq<Video>)
    requires TopRows(postgres, o, src, db, out)
    ensures Ascending(postgres, OrderOf(o), out) && AllAfter(postgres, OrderOf(o), src, out)
  {
    forall i, j | 0 <= i < j < |out| ensures Before(postgres, OrderOf(o), out[i], out[j]) {
      assert Due(postgres, o, src, db, out[i]) && Due(postgres, o, src, db, out[j]);
      DistinctRowsDiffer(postgres, o, db.rows, out[i], out[j]);
    }
    forall v <- out ensures src.Some? ==> Before(postgres, OrderOf(o), src.value, v) {
      assert Due(postgres, o, src, db, v);
    }
  }

  /** Two rows of one snapshot are in one order or the other. */
  lemma DistinctRowsDiffer(postgres: bool, o: ListVideosOpts, rows: set<Video>, u: Video, v: Video)
    requires UniqueIds(rows) && u in rows && v in rows && u != v
    ensures Before(postgres, OrderOf(o), u, v) || Before(postgres, OrderOf(o), v, u)
  {
    BeforeIsStrict(postgres, OrderOf(o), u, v);
    if SameKeys(postgres, OrderOf(o), u, v) { KeysIncludeId(postgres, NormalizeVideoListSort(o), u, v); }
  }

  /** A wanted row past the cursor is on the page, or past its last row when more pages follow. */
  predicate Covers(postgres: bool, o: ListVideosOpts, src: Option<Video>, db: Snapshot, page: VideoListPage) {
    forall v <- db.rows | Due(postgres, o, src, db, v) ::
      v in page.items || (page.nextCursor.Some? && After(postgres, OrderOf(o), Last(page.items), v))
  }

  predicate GoodPage(postgres: bool, o: ListVideosOpts, src: Option<Video>, db: Snapshot, page: VideoListPage) {
    && Ascending(postgres, OrderOf(o), page.items)
    && AllAfter(postgres, OrderOf(o), src, page.items)
    && Covers(postgres, o, src, db, page)
    && (page.nextCursor.Some? ==>
          page.items != [] && page.nextCursor == CursorOf(NormalizeVideoListSort(o), Last(page.items)))
  }

  /** A row the limit cut off comes after every row given. */
  lemma CutOffComesLater(postgres: bool, o: ListVideosOpts, src: Option<Video>, db: Snapshot, out: seq<Video>,
                         u: Video, v: Video)
    requires TopRows(postgres, o, src, db, out) && Due(postgres, o, src, db, v) && v !in out && u in out
    ensures Before(postgres, OrderOf(o), u, v)
  {
    assert Due(postgres, o, src, db, u);
    DistinctRowsDiffer(postgres, o, db.rows, u, v);
  }

  lemma RowIsCovered(postgres: bool, o: ListVideosOpts, src: Option<Video>, db: Snapshot, out: seq<Video>, v: Video)
    requires o.limit >= 1 && TopRows(postgres, o, src, db, out) && Due(postgres, o, src, db, v)
    ensures var page := ToVideoListPage(out, o);
            v in page.items || (page.nextCursor.Some? && After(postgres, OrderOf(o), Last(page.items), v))
  {
    PageAscends(postgres, o, src, db, out);
    if v !in out {
      CutOffComesLater(postgres, o, src, db, out, out[o.limit - 1], v);
    } else if |out| > o.limit && v !in out[..o.limit] {
      assert v == out[o.limit];
    }
  }

  lemma PageCovers(postgres: bool, o: ListVideosOpts, src: Option<Video>, db: Snapshot, out: seq<Video>)
    requires o.limit >= 1 && TopRows(postgres, o, src, db, out)
    ensures Covers(postgres, o, src, db, ToVideoListPage(out, o))
  {
    var page := ToVideoListPage(out, o);
    forall v <- db.rows | Due(postgres, o, src, db, v)
      ensures v in page.items || (page.nextCursor.Some? && After(postgres, OrderOf(o), Last(page.items), v))
    {
      RowIsCovered(postgres, o, src, db, out, v);
    }
  }

  lemma PrefixAscends(postgres: bool, ks: seq<OrderKey>, src: Option<Video>, vs: seq<Video>, n: nat)
    requires n <= |vs| && Ascending(postgres, ks, vs) && AllAfter(postgres, ks, src, vs)
    ensures Ascending(postgres, ks, vs[..n]) && AllAfter(postgres, ks, src, vs[..n])
  {
    assert forall v <- vs[..n] :: v in vs;
  }

  lemma PageIsGood(postgres: bool, o: ListVideosOpts, src: Option<Video>, db: Snapshot, out: seq<Video>)
    requires o.limit >= 1 && TopRows(postgres, o, src, db, out)
    ensures GoodPage(postgres, o, src, db, ToVideoListPage(out, o))
  {
    PageAscends(postgres, o, src, db, out);
    PrefixAscends(postgres, OrderOf(o), src, out, if |out| <= o.limit then |out| else o.limit);
    assert out[..|out|] == out;
    PageCovers(postgres, o, src, db, out);
  }

  // ---------- the whole walk ----------

  lemma AscendingJoin(postgres: bool, ks: seq<OrderKey>, a: seq<Video>, b: seq<Video>)
    requires Ascending(postgres, ks, a) && Ascending(postgres, ks, b)
    requires AllAfter(postgres, ks, Last(a), b)
    ensures Ascending(postgres, ks, a + b)
  {
    forall i, j | 0 <= i < j < |a + b| ensures Before(postgres, ks, (a + b)[i], (a + b)[j]) {
      if i < |a| <= j {
        assert b[j - |a|] in b;
        if i < |a| - 1 { BeforeIsTransitive(postgres, ks, a[i], a[|a| - 1], b[j - |a|]); }
      }
    }
  }

  /** A page shows only rows it is about, ends the walk exactly when it leaves none of them over, and is
      full when it does not. */
  lemma PageIsFull(postgres: bool, o: ListVideosOpts, src: Option<Video>, db: Snapshot, out: seq<Video>)
    requires o.limit >= 1 && TopRows(postgres, o, src, db, out)
    ensures var page := ToVideoListPage(out, o);
            && (forall v <- page.items :: Due(postgres, o, src, db, v))
            && |page.items| <= o.limit
            && (page.nextCursor.Some? <==> exists v :: Due(postgres, o, src, db, v) && v !in page.items)
            && (page.nextCursor.Some? ==> |page.items| == o.limit)
  {
    if |out| > o.limit {
      assert Due(postgres, o, src, db, out[o.limit]);
      assert out[o.limit] !in out[..o.limit];
    }
  }

  /** The walk as the rows see it: each page good, each cursor the last row of the page before. */
  ghost predicate GoodWalk(postgres: bool, o: ListVideosOpts, src: Option<Video>, steps: seq<Step>)
    decreases |steps|
  {
    steps != [] ==>
      var page := ToVideoListPage(steps[0].out, o);
      && GoodPage(postgres, o, src, steps[0].db, page)
      && (|steps| > 1 ==> page.nextCursor.Some? && GoodWalk(postgres, o, Last(page.items), steps[1..]))
  }

  lemma {:induction false} WalkIsGood(postgres: bool, o: ListVideosOpts, src: Option<Video>, steps: seq<Step>)
    requires o.limit >= 1 && Walk(postgres, o, CursorOf(NormalizeVideoListSort(o), src), steps)
    ensures GoodWalk(postgres, o, src, steps)
    decreases |steps|
  {
    if steps != [] {
      var page := ToVideoListPage(steps[0].out, o);
      AnswerIsTopRows(postgres, o, src, steps[0]);
      PageIsGood(postgres, o, src, steps[0].db, steps[0].out);
      if |steps| > 1 { WalkIsGood(postgres, o, Last(page.items), steps[1..]); }
    }
  }

  lemma {:induction false} WalkAscends(postgres: bool, o: ListVideosOpts, src: Option<Video>, steps: seq<Step>)
    requires GoodWalk(postgres, o, src, steps)
    ensures Ascending(postgres, OrderOf(o), Items(o, steps)) && AllAfter(postgres, OrderOf(o), src, Items(o, steps))
    decreases |steps|
  {
    if |steps| == 1 {
      assert Items(o, steps[1..]) == [];
      assert Items(o, steps) == ToVideoListPage(steps[0].out, o).items;
    } else if steps != [] {
      var items, later := ToVideoListPage(steps[0].out, o).items, Items(o, steps[1..]);
      WalkAscends(postgres, o, Last(items), steps[1..]);
      AscendingJoin(postgres, OrderOf(o), items, later);
      AfterJoin(postgres, OrderOf(o), src, items, later);
    }
  }

  lemma AfterJoin(postgres: bool, ks: seq<OrderKey>, src: Option<Video>, a: seq<Video>, b: seq<Video>)
    requires a != [] && AllAfter(postgres, ks, src, a) && AllAfter(postgres, ks, Last(a), b)
    ensures AllAfter(postgres, ks, src, a + b)
  {
    if src.Some? {
      forall v <- a + b ensures Before(postgres, ks, src.value, v) {
        if v !in a { BeforeIsTransitive(postgres, ks, src.value, a[|a| - 1], v); }
      }
    }
  }

  /** The row was in the table, and wanted, when one of the pages was read. */
  ghost predicate WantedOnAPage(o: ListVideosOpts, v: Video, steps: seq<Step>) {
    exists s <- steps :: v in s.db.rows && Wanted(o, v, s.db.states, s.db.weekAgo)
  }

  lemma PageItemsWanted(postgres: bool, o: ListVideosOpts, src: Option<Video>, s: Step)
    requires o.limit >= 1 && Reads(postgres, o, CursorOf(NormalizeVideoListSort(o), src), s)
    ensures forall v <- ToVideoListPage(s.out, o).items :: v in s.db.rows && Wanted(o, v, s.db.states, s.db.weekAgo)
  {
    AnswerIsTopRows(postgres, o, src, s);
    PageIsFull(postgres, o, src, s.db, s.out);
    forall v <- ToVideoListPage(s.out, o).items ensures v in s.db.rows && Wanted(o, v, s.db.states, s.db.weekAgo) {
      assert Due(postgres, o, src, s.db, v);
    }
  }

  /** A walk returns nothing but rows the options want. */
  lemma {:induction false} OnlyWanted(postgres: bool, o: ListVideosOpts, src: Option<Video>, steps: seq<Step>)
    requires o.limit >= 1 && Walk(postgres, o, CursorOf(NormalizeVideoListSort(o), src), steps)
    ensures forall v <- Items(o, steps) :: WantedOnAPage(o, v, steps)
    decreases |steps|
  {
    if steps != [] {
      PageItemsWanted(postgres, o, src, steps[0]);
      if steps[1..] != [] {
        NextCursorIsLast(postgres, o, src, steps[0]);
        OnlyWanted(postgres, o, Last(ToVideoListPage(steps[0].out, o).items), steps[1..]);
      }
      MoreWanted(o, steps);
    }
  }

  lemma NextCursorIsLast(postgres: bool, o: ListVideosOpts, src: Option<Video>, s: Step)
    requires o.limit >= 1 && Reads(postgres, o, CursorOf(NormalizeVideoListSort(o), src), s)
    ensures var page := ToVideoListPage(s.out, o);
            page.nextCursor.Some? ==> page.nextCursor == CursorOf(NormalizeVideoListSort(o), Last(page.items))
  {
    AnswerIsTopRows(postgres, o, src, s);
    PageIsGood(postgres, o, src, s.db, s.out);
  }

  lemma MoreWanted(o: ListVideosOpts, steps: seq<Step>)
    requires steps != [] && forall v <- Items(o, steps[1..]) :: WantedOnAPage(o, v, steps[1..])
    requires var s := steps[0];
             forall v <- ToVideoListPage(s.out, o).items :: v in s.db.rows && Wanted(o, v, s.db.states, s.db.weekAgo)
    ensures forall v <- Items(o, steps) :: WantedOnAPage(o, v, steps)
  {
    forall v <- Items(o, steps) ensures WantedOnAPage(o, v, steps) {
      if v in ToVideoListPage(steps[0].out, o).items { assert steps[0] in steps; }
      else {
        var s :| s in steps[1..] && v in s.db.rows && Wanted(o, v, s.db.states, s.db.weekAgo);
        assert s in steps;
      }
    }
  }

  /** The row r, with these keys, is there and wanted whenever a page is read. Its other columns
      may change. */
  ghost predicate Throughout(postgres: bool, o: ListVideosOpts, r: Video, steps: seq<Step>) {
    forall s <- steps :: PresentIn(postgres, o, r, s.db)
  }

  ghost predicate PresentIn(postgres: bool, o: ListVideosOpts, r: Video, db: Snapshot) {
    exists v <- db.rows :: SameKeys(postgres, OrderOf(o), v, r) && Wanted(o, v, db.states, db.weekAgo)
  }

  predicate Returned(postgres: bool, o: ListVideosOpts, r: Video, items: seq<Video>) {
    exists v <- items :: SameKeys(postgres, OrderOf(o), v, r)
  }

  lemma {:induction false} WalkFinds(postgres: bool, o: ListVideosOpts, src: Option<Video>, steps: seq<Step>, r: Video)
    requires GoodWalk(postgres, o, src, steps) && Ended(o, steps) && Throughout(postgres, o, r, steps)
    requires After(postgres, OrderOf(o), src, r)
    ensures Returned(postgres, o, r, Items(o, steps))
    decreases |steps|
  {
    var s, rest := steps[0], steps[1..];
    var page := ToVideoListPage(s.out, o);
    assert PresentIn(postgres, o, r, s.db);
    FoundOrLater(postgres, o, src, s.db, page, r);
    if Returned(postgres, o, r, page.items) {
      var v :| v in page.items && SameKeys(postgres, OrderOf(o), v, r);
      assert v in Items(o, steps);
    } else {
      assert forall t <- rest :: t in steps;
      WalkFinds(postgres, o, Last(page.items), rest, r);
      var v :| v in Items(o, rest) && SameKeys(postgres, OrderOf(o), v, r);
      assert v in Items(o, steps);
    }
  }

  lemma FoundOrLater(postgres: bool, o: ListVideosOpts, src: Option<Video>, db: Snapshot, page: VideoListPage, r: Video)
    requires GoodPage(postgres, o, src, db, page) && PresentIn(postgres, o, r, db)
    requires After(postgres, OrderOf(o), src, r)
    ensures Returned(postgres, o, r, page.items) ||
            (page.nextCursor.Some? && After(postgres, OrderOf(o), Last(page.items), r))
  {
    var ks := OrderOf(o);
    var v :| v in db.rows && SameKeys(postgres, ks, v, r) && Wanted(o, v, db.states, db.weekAgo);
    if src.Some? { BeforeCongruent(postgres, ks, src.value, src.value, r, v); }
    if v !in page.items && page.items != [] {
      var last := page.items[|page.items| - 1];
      BeforeCongruent(postgres, ks, last, last, v, r);
    }
  }

  /** No walk, ended or not, returns a row twice: two items with one id differ in a sort key, so
      the row was moved between the two pages. */
  lemma NoRowTwice(postgres: bool, o: ListVideosOpts, steps: seq<Step>, i: nat, j: nat)
    requires o.limit >= 1 && Walk(postgres, o, None, steps)
    requires i < j < |Items(o, steps)|
    ensures !SameKeys(postgres, OrderOf(o), Items(o, steps)[i], Items(o, steps)[j])
    ensures Before(postgres, OrderOf(o), Items(o, steps)[i], Items(o, steps)[j])
  {
    WalkIsGood(postgres, o, None, steps);
    WalkAscends(postgres, o, None, steps);
    BeforeIsStrict(postgres, OrderOf(o), Items(o, steps)[i], Items(o, steps)[j]);
  }

  /** Whatever changes between the pages, a walk hands out its items in the order that the option strings
      promise. */
  lemma WalkInOrder(postgres: bool, o: ListVideosOpts, steps: seq<Step>, i: nat, j: nat)
    requires o.limit >= 1 && Walk(postgres, o, None, steps)
    requires i < j < |Items(o, steps)|
    ensures ComesBefore(o, Items(o, steps)[i], Items(o, steps)[j])
  {
    WalkIsGood(postgres, o, None, steps);
    WalkAscends(postgres, o, None, steps);
    OrderMeans(postgres, o, Items(o, steps)[i], Items(o, steps)[j]);
  }

  lemma SameKeysTrans(postgres: bool, ks: seq<OrderKey>, a: Video, b: Video, r: Video)
    requires SameKeys(postgres, ks, a, r) && SameKeys(postgres, ks, b, r)
    ensures SameKeys(postgres, ks, a, b)
  {
  }

  /** A row that is present throughout with the same sort keys is returned exactly once by a walk
      that ends, in every order, for every page size, whatever else is inserted or deleted. */
  lemma ExactlyOnce(postgres: bool, o: ListVideosOpts, steps: seq<Step>, r: Video)
    requires o.limit >= 1 && Walk(postgres, o, None, steps) && Ended(o, steps) && Throughout(postgres, o, r, steps)
    ensures var items := Items(o, steps);
            && Returned(postgres, o, r, items)
            && forall i, j | 0 <= i < j < |items| ::
                 !(SameKeys(postgres, OrderOf(o), items[i], r) && SameKeys(postgres, OrderOf(o), items[j], r))
  {
    WalkIsGood(postgres, o, None, steps);
    WalkFinds(postgres, o, None, steps, r);
    var items := Items(o, steps);
    forall i, j | 0 <= i < j < |items|
      ensures !(SameKeys(postgres, OrderOf(o), items[i], r) && SameKeys(postgres, OrderOf(o), items[j], r))
    {
      NoRowTwice(postgres, o, steps, i, j);
      if SameKeys(postgres, OrderOf(o), items[i], r) && SameKeys(postgres, OrderOf(o), items[j], r) {
        SameKeysTrans(postgres, OrderOf(o), items[i], items[j], r);
      }
    }
  }
}
