/** The columns of the videos table that the list page reads, and the per-user library rows. */
module Videos {
  import opened Prelude

  datatype Video = Video(
    id: int,
    displayName: string,
    status: string,
    quality: string,
    selectedQuality: Option<string>,
    selectedFps: Option<real>,
    fpsText: string,
    broadcasterId: string,
    language: string,
    durationSeconds: Option<real>,
    sizeBytes: Option<int>,
    startDownloadAt: int,
    downloadedAt: Option<int>,
    deletedAt: Option<int>,
    completionKind: string,
    truncated: bool)

  /** A row of video_user_states. */
  datatype UserState = UserState(video: int, user: string, watchLater: bool, watchedAt: Option<int>)

  datatype ListVideosOpts = ListVideosOpts(
    userId: string,
    status: string,
    sort: string,
    order: string,
    quality: string,
    broadcasterId: string,
    language: string,
    durationMinSeconds: Option<real>,
    durationMaxSeconds: Option<real>,
    sizeMinBytes: Option<int>,
    sizeMaxBytes: Option<int>,
    window: string,
    incompleteOnly: bool,
    watchLaterOnly: bool,
    unwatchedOnly: bool,
    terminalOnly: bool,
    scope: string,
    limit: int)

  datatype VideoListPageCursor = VideoListPageCursor(
    sortNumber: Option<real>,
    sortInt: Option<int>,
    sortText: Option<string>,
    sortTime: Option<int>,
    startDownloadAt: int,
    id: int)

  datatype VideoListPage = VideoListPage(items: seq<Video>, nextCursor: Option<VideoListPageCursor>)

  datatype SortKey = CreatedAt | Duration | Size | Channel | HistoryWhen
  datatype Mode = Mode(key: SortKey, asc: bool)

  function NormalizeVideoListSort(opts: ListVideosOpts): Mode {
    var asc := opts.order == "asc";
    if opts.sort == "created_at" then Mode(CreatedAt, asc)
    else if opts.sort == "duration" then Mode(Duration, asc)
    else if opts.sort == "size" then Mode(Size, asc)
    else if opts.sort == "channel" then Mode(Channel, asc)
    else if opts.sort == "history_when" then Mode(HistoryWhen, asc)
    else Mode(CreatedAt, false)
  }

  function ListVideosPageQueryLimit(limit: int): (n: int)
    ensures n >= 1 && n > limit && (limit >= 0 ==> n <= limit + 1)
  {
    if limit < 1 then 1 else limit + 1
  }

  function VideoHistoryWhen(v: Video): int {
    if v.deletedAt.Some? then v.deletedAt.value
    else if v.downloadedAt.Some? then v.downloadedAt.value
    else v.startDownloadAt
  }

  function VideoListCursorFromVideo(v: Video, m: Mode): VideoListPageCursor {
    var c := VideoListPageCursor(None, None, None, None, v.startDownloadAt, v.id);
    match m.key
    case CreatedAt => c
    case Duration => c.(sortNumber := v.durationSeconds)
    case Size => c.(sortInt := v.sizeBytes)
    case Channel => c.(sortText := Some(v.displayName))
    case HistoryWhen => c.(sortTime := Some(VideoHistoryWhen(v)))
  }

  /** Drops the over-fetched row and mints the next cursor from the last row kept. */
  function ToVideoListPage(items: seq<Video>, opts: ListVideosOpts): (page: VideoListPage)
    ensures page.items <= items && |page.items| <= if opts.limit < 0 then 0 else opts.limit
    ensures page.nextCursor.Some? ==> page.items != []
  {
    if opts.limit <= 0 then VideoListPage([], None)
    else if |items| <= opts.limit then VideoListPage(items, None)
    else VideoListPage(items[..opts.limit],
                       Some(VideoListCursorFromVideo(items[opts.limit - 1], NormalizeVideoListSort(opts))))
  }

  // ---------- what the options ask for, without SQL ----------

  predicate InScope(scope: string, v: Video) {
    if scope == "removed" then v.deletedAt.Some? else if scope == "all" then true else v.deletedAt.None?
  }

  predicate HasQuality(q: string, v: Video) {
    || q == ""
    || v.quality == q
    || (v.selectedQuality.Some? &&
        (|| v.selectedQuality.value == q
         || v.selectedQuality.value + "p" == q
         || (v.selectedFps.Some? && v.selectedFps.value > 0.0 && v.selectedQuality.value + "p" + v.fpsText == q)))
  }

  predicate AtLeast(low: Option<real>, x: Option<real>) { low.None? || (x.Some? && x.value >= low.value) }
  predicate Under(high: Option<real>, x: Option<real>) { high.None? || (x.Some? && x.value < high.value) }
  predicate AtLeastBytes(low: Option<int>, x: Option<int>) { low.None? || (x.Some? && x.value >= low.value) }
  predicate UnderBytes(high: Option<int>, x: Option<int>) { high.None? || (x.Some? && x.value < high.value) }

  predicate InWindow(window: string, weekAgo: int, v: Video) {
    window == "" || (window == "this_week" && v.startDownloadAt >= weekAgo)
  }

  predicate SavedForLater(states: set<UserState>, user: string, video: int) {
    exists s <- states :: s.video == video && s.user == user && s.watchLater
  }

  predicate Watched(states: set<UserState>, user: string, video: int) {
    exists s <- states :: s.video == video && s.user == user && s.watchedAt.Some?
  }

  /** The rows the options ask for, in whatever order. */
  predicate Wanted(opts: ListVideosOpts, v: Video, states: set<UserState>, weekAgo: int) {
    && (opts.status == "" || v.status == opts.status)
    && InScope(opts.scope, v)
    && HasQuality(opts.quality, v)
    && (opts.broadcasterId == "" || v.broadcasterId == opts.broadcasterId)
    && (opts.language == "" || v.language == opts.language)
    && AtLeast(opts.durationMinSeconds, v.durationSeconds)
    && Under(opts.durationMaxSeconds, v.durationSeconds)
    && AtLeastBytes(opts.sizeMinBytes, v.sizeBytes)
    && UnderBytes(opts.sizeMaxBytes, v.sizeBytes)
    && InWindow(opts.window, weekAgo, v)
    && (opts.incompleteOnly ==> v.completionKind == "partial" || v.truncated)
    && (opts.terminalOnly ==> v.status == "DONE" || v.status == "FAILED")
    && (opts.watchLaterOnly ==> SavedForLater(states, opts.userId, v.id))
    && (opts.unwatchedOnly ==> opts.userId != "" && v.status == "DONE" && !Watched(states, opts.userId, v.id))
  }
}
