/**
 * The HTTP layer (app.py) where it decides something: the input checks of the
 * feed and folder routes and the status each storage outcome maps to, the
 * 404 of the single-article route, and the shaping of `/api/parse-feed`.
 * A JSON field is `None` when the request body lacks it; Flask plumbing is
 * not modelled.
 */
module Api {
  import opened Wrappers
  import opened Text
  import opened FeedParsing
  import opened Schema
  import opened Reconcile
  import opened Queries
  import opened Store
  import opened Params

  /** `if not name` on a string field: absent or empty. */
  predicate Missing(field: Option<string>)
  {
    field.None? || field.value == ""
  }

  // ---------------------------------------------------------------------------
  // POST /api/feeds

  /** The status `add_feed` answers for each outcome of `Feed.create`: a ValueError is 400, any other exception 500. */
  function CreateStatus(r: CreateOutcome): (status: int)
  {
    match r
    case Created(_) => 200
    case InvalidFeed => 400
    case UrlConflict => 500
    case FetchFailed(_) => 500
  }

  /**
   * `add_feed`: the tables afterwards, the status, and the new id on success.
   * After a good parse, `Feed.create` binds `folder_id` in its INSERT; one
   * beyond 64 bits raises OverflowError there, before anything is written.
   */
  function AddFeedSpec(t: Tables, url: Option<string>, folderId: Option<int>, up: Upstream): (Tables, int, Option<int>)
  {
    if Missing(url) then (t, 400, None)
    else if !ParseFailed(up.meta) && folderId.Some? && !Bindable(folderId.value) then (t, 500, None)
    else
      var (t', r) := CreateSpec(t, url.value, folderId, up);
      (t', CreateStatus(r), if r.Created? then Some(r.feedId) else None)
  }

  method AddFeed(store: FeedStore, url: Option<string>, folderId: Option<int>, up: Upstream)
      returns (status: int, id: Option<int>)
    requires store.Valid()
    modifies store
    ensures store.Valid()
    ensures (store.Snapshot(), status, id) == AddFeedSpec(old(store.Snapshot()), url, folderId, up)
  {
    if Missing(url) {
      return 400, None;
    }
    if !ParseFailed(up.meta) && folderId.Some? && !Bindable(folderId.value) {
      return 500, None;
    }
    var r := store.CreateFeed(url.value, folderId, up);
    status := CreateStatus(r);
    id := if r.Created? then Some(r.feedId) else None;
  }

  /**
   * The statuses of `add_feed`: 400 exactly for a missing URL or a failed
   * parse, and then nothing is stored; 200 exactly when the feed and its
   * articles were stored; 500 for a `folder_id` beyond 64 bits (nothing
   * stored), a stored URL or a failing article fetch.
   */
  lemma AddFeedStatuses(t: Tables, url: Option<string>, folderId: Option<int>, up: Upstream)
    ensures var (t', status, id) := AddFeedSpec(t, url, folderId, up);
      && (status == 400 <==> Missing(url) || ParseFailed(up.meta))
      && (status == 400 ==> t' == t && id.None?)
      && (status == 200 <==> !Missing(url) && !ParseFailed(up.meta) && (folderId.None? || Bindable(folderId.value))
                             && !UrlTaken(t.feeds, url.value)
                             && (ParseFailed(up.entries) || DistinctGuids(up.entries.entries)))
      && (status == 200 ==> id == Some(t.feedSeq + 1))
      && (status == 500 <==> !Missing(url) && !ParseFailed(up.meta)
                             && ((folderId.Some? && !Bindable(folderId.value)) || UrlTaken(t.feeds, url.value)
                                 || (!ParseFailed(up.entries) && !DistinctGuids(up.entries.entries))))
      && (folderId.Some? && !Bindable(folderId.value) ==> t' == t && id.None?)
  {
    if !Missing(url) && !ParseFailed(up.meta) && (folderId.None? || Bindable(folderId.value)) && !UrlTaken(t.feeds, url.value) {
      CreateUnfolds(t, url.value, folderId, up);
      FetchFailureIsNoOp(AfterFeedInsert(t, url.value, folderId, up), t.feedSeq + 1, up.entries);
    }
  }

  // ---------------------------------------------------------------------------
  // POST /api/folders and PUT /api/folders/<id>

  /** `create_folder`: 400 without a name, 500 when `Folder.create` hits the UNIQUE name, else 200 and the new id. */
  method CreateFolder(store: FeedStore, name: Option<string>) returns (status: int, id: Option<int>)
    requires store.Valid()
    modifies store
    ensures store.Valid()
    ensures status == 200 || status == 400 || status == 500
    ensures status == 400 <==> Missing(name)
    ensures status == 500 <==> !Missing(name) && old(NameTaken(store.folders, name.value))
    ensures status != 200 ==> id.None? && store.Snapshot() == old(store.Snapshot())
    ensures status == 200 ==> id == Some(old(store.folderSeq) + 1)
    ensures status == 200 ==> store.Snapshot() == old(store.Snapshot()).(
      folders := old(store.folders) + [FolderRow(old(store.folderSeq) + 1, name.value)],
      folderSeq := old(store.folderSeq) + 1)
  {
    if Missing(name) {
      return 400, None;
    }
    id := store.CreateFolder(name.value);
    status := if id.Some? then 200 else 500;
  }

  /**
   * `update_folder`: 400 without a name; 500 when the id does not fit a 64-bit
   * parameter or another folder holds the name; else 200 (also for an unknown id).
   */
  method UpdateFolder(store: FeedStore, folderId: int, name: Option<string>) returns (status: int)
    requires store.Valid()
    modifies store
    ensures store.Valid()
    ensures status == 200 || status == 400 || status == 500
    ensures status == 400 <==> Missing(name)
    ensures status == 500 <==> !Missing(name) && (!Bindable(folderId) || old(RenameClashes(store.folders, folderId, name.value)))
    ensures status != 200 ==> store.Snapshot() == old(store.Snapshot())
    ensures status == 200 ==> store.Snapshot() == old(store.Snapshot()).(folders := RenameRows(old(store.folders), folderId, name.value))
  {
    if Missing(name) {
      return 400;
    }
    if !Bindable(folderId) {
      return 500;
    }
    var ok := store.RenameFolder(folderId, name.value);
    status := if ok then 200 else 500;
  }

  // ---------------------------------------------------------------------------
  // GET /api/articles

  /**
   * `get_articles`' query string as the keyword arguments of `Article.get_all`:
   * a `feed_id` or `limit` that `int()` refuses counts as absent, so `limit`
   * falls back to 100; `read` and `starred` follow FlagArg; `search` is passed on.
   */
  function ArticleQuery(feedId: Option<string>, read: Option<string>, starred: Option<string>,
                        search: Option<string>, limit: Option<string>): (q: ArticleFilter)
    ensures feedId.Some? && IsIntText(feedId.value) ==> q.feedId == IntOf(feedId.value)
    ensures feedId.None? || !IsIntText(feedId.value) ==> q.feedId.None?
    ensures limit.Some? && IsIntText(limit.value) ==> Some(q.limit) == IntOf(limit.value)
    ensures limit.None? || !IsIntText(limit.value) ==> q.limit == DefaultFilter.limit
    ensures q.read == FlagArg(read) && q.starred == FlagArg(starred)
    ensures q.search == search
  {
    ArticleFilter(IntArg(feedId, None), FlagArg(read), FlagArg(starred), search,
                  IntArg(limit, Some(DefaultFilter.limit)).value)
  }

  /** With no arguments the route asks for the defaults: no filter and at most 100 articles. */
  lemma ArticleQueryDefaults()
    ensures ArticleQuery(None, None, None, None, None) == DefaultFilter
  {
  }

  /**
   * `read=1` is not `read=true`: it lists only unread articles; and a limit
   * that is not a number lists up to 100.
   */
  lemma ReadOneListsUnread(t: Tables)
    ensures forall a :: a in ListArticles(t, ArticleQuery(None, Some("1"), None, None, None)) ==> !a.read
    ensures ArticleQuery(None, None, None, None, Some("all")).limit == 100
  {
    FlagArgReadsOnlyTrue();
    assert !IsIntText("all") by { assert Unsigned("all") == "all" && "all"[0] == 'a'; }
  }

  /**
   * `get_articles`' answer: `Article.get_all` binds `feed_id` when present and
   * always `limit`; either beyond 64 bits raises, answered 500.
   */
  function ArticleListResponse(t: Tables, q: ArticleFilter): (r: (int, seq<ArticleRow>))
    ensures r.0 == 200 || r.0 == 500
    ensures r.0 == 500 <==> (q.feedId.Some? && !Bindable(q.feedId.value)) || !Bindable(q.limit)
    ensures r.0 == 500 ==> r.1 == []
    ensures r.0 == 200 ==> r.1 == ListArticles(t, q)
  {
    if (q.feedId.Some? && !Bindable(q.feedId.value)) || !Bindable(q.limit) then (500, [])
    else (200, ListArticles(t, q))
  }

  /**
   * Integer text beyond 64 bits but within `int()`'s digit limit passes `int()`
   * and not the binding: a `feed_id` or `limit` like that answers 500.
   */
  lemma ArticleListBeyond64(t: Tables, n: int)
    requires !Bindable(n) && DigitCount(n) <= MaxIntDigits
    ensures ArticleListResponse(t, ArticleQuery(Some(Show(n)), None, None, None, None)).0 == 500
    ensures ArticleListResponse(t, ArticleQuery(None, None, None, None, Some(Show(n)))).0 == 500
  {
    IntOfShow(n);
  }

  /** Integer text beyond `int()`'s digit limit counts as absent: no feed filter, and the limit of 100. */
  lemma ArticleListTooLong(t: Tables, n: int)
    requires DigitCount(n) > MaxIntDigits
    ensures ArticleQuery(Some(Show(n)), None, None, None, None) == DefaultFilter
    ensures ArticleQuery(None, None, None, None, Some(Show(n))) == DefaultFilter
    ensures ArticleListResponse(t, ArticleQuery(None, None, None, None, Some(Show(n)))) == (200, ListArticles(t, DefaultFilter))
  {
    IntOfShow(n);
  }

  // ---------------------------------------------------------------------------
  // PUT /api/articles/<id>/read, PUT /api/articles/<id>/star, POST /api/articles/mark-all-read

  /**
   * `mark_article_read`: 500 when the body is not a JSON object or the id does
   * not fit a 64-bit parameter; otherwise the row takes the truthiness of
   * `read` (True when absent) and the answer is 200, for an unknown id too.
   */
  method MarkArticleRead(store: FeedStore, articleId: int, body: Option<Json>) returns (status: int)
    requires store.Valid()
    modifies store
    ensures store.Valid()
    ensures status == 200 || status == 500
    ensures status == 500 <==> FlagField(body, "read").None? || !Bindable(articleId)
    ensures status == 500 ==> store.Snapshot() == old(store.Snapshot())
    ensures status == 200 ==>
      store.Snapshot() == old(store.Snapshot()).(articles := SetRead(old(store.articles), articleId, FlagField(body, "read").value))
  {
    var flag := FlagField(body, "read");
    if flag.None? || !Bindable(articleId) {
      return 500;
    }
    store.MarkRead(articleId, flag.value);
    return 200;
  }

  /** `mark_article_starred`: as MarkArticleRead, on the `starred` field and column. */
  method MarkArticleStarred(store: FeedStore, articleId: int, body: Option<Json>) returns (status: int)
    requires store.Valid()
    modifies store
    ensures store.Valid()
    ensures status == 200 || status == 500
    ensures status == 500 <==> FlagField(body, "starred").None? || !Bindable(articleId)
    ensures status == 500 ==> store.Snapshot() == old(store.Snapshot())
    ensures status == 200 ==>
      store.Snapshot() == old(store.Snapshot()).(articles := SetStarred(old(store.articles), articleId, FlagField(body, "starred").value))
  {
    var flag := FlagField(body, "starred");
    if flag.None? || !Bindable(articleId) {
      return 500;
    }
    store.MarkStarred(articleId, flag.value);
    return 200;
  }

  /**
   * `mark_all_read`: 500 when the body cannot be read or its `feed_id` cannot
   * be bound; every article for a falsy `feed_id`; that feed's articles for an
   * integer one; nothing for a text SQLite does not read as one.
   */
  method MarkAllArticlesRead(store: FeedStore, body: Option<Json>) returns (status: int)
    requires store.Valid()
    modifies store
    ensures store.Valid()
    ensures status == 200 || status == 500
    ensures status == 500 <==> MarkAllTargetOf(body).None? || MarkAllTargetOf(body) == Some(BindError)
    ensures status == 500 || MarkAllTargetOf(body) == Some(NoFeed) ==> store.Snapshot() == old(store.Snapshot())
    ensures MarkAllTargetOf(body) == Some(AllFeeds) ==>
      store.Snapshot() == old(store.Snapshot()).(articles := MarkAllRead(old(store.articles), None))
    ensures forall n :: MarkAllTargetOf(body) == Some(OneFeed(n)) ==>
      store.Snapshot() == old(store.Snapshot()).(articles := MarkAllRead(old(store.articles), Some(n)))
  {
    var target := MarkAllTargetOf(body);
    if target.None? || target.value.BindError? {
      return 500;
    }
    match target.value {
      case AllFeeds => store.MarkAllReadIn(None);
      case OneFeed(n) => store.MarkAllReadIn(Some(n));
      case NoFeed =>
    }
    return 200;
  }

  // ---------------------------------------------------------------------------
  // GET /api/articles/<id>

  /** `get_article`: 500 when the id does not fit a 64-bit parameter, 404 when no row has it, else 200 with that row. */
  function ArticleResponse(t: Tables, id: int): (r: (int, Option<ArticleRow>))
    ensures r.0 == 200 || r.0 == 404 || r.0 == 500
    ensures r.0 == 500 <==> !Bindable(id)
    ensures r.0 == 404 <==> Bindable(id) && forall i :: 0 <= i < |t.articles| ==> t.articles[i].id != id
    ensures r.0 != 200 ==> r.1.None?
    ensures r.0 == 200 ==> r.1.Some? && r.1.value in t.articles && r.1.value.id == id
  {
    if !Bindable(id) then (500, None) else
    var found := GetArticle(t, id);
    if found.None? then (404, None) else (200, found)
  }

  // ---------------------------------------------------------------------------
  // POST /api/parse-feed

  /** The `feed` object of the answer. */
  datatype FeedView = FeedView(title: string, description: string, link: string, updated: string)

  /** One element of the answer's `entries`. */
  datatype EntryView = EntryView(title: string, link: string, description: string, published: string, author: string)

  datatype ParseReply =
    | Rejected(status: int)
    | Parsed(feed: FeedView, entries: seq<EntryView>)

  /** The most entries the route returns. */
  const MaxEntries := 50

  /** One entry's view: every key falls back in order, then to its default. */
  function ShapeEntry(e: Entry): (v: EntryView)
  {
    EntryView(
      e.title.GetOr("Untitled"),
      e.link.GetOr(""),
      e.description.GetOr(e.summary.GetOr("")),
      e.published.GetOr(e.updated.GetOr("")),
      e.author.GetOr(""))
  }

  /** Each field is the first key the entry has, in the order of its fallbacks, or the default. */
  lemma ShapeEntryDefaults(e: Entry)
    ensures ShapeEntry(e).title == FirstPresent([e.title], "Untitled")
    ensures ShapeEntry(e).link == FirstPresent([e.link], "")
    ensures ShapeEntry(e).description == FirstPresent([e.description, e.summary], "")
    ensures ShapeEntry(e).published == FirstPresent([e.published, e.updated], "")
    ensures ShapeEntry(e).author == FirstPresent([e.author], "")
  {
    assert NoneBefore([e.description, e.summary], 0);
    assert NoneBefore([e.published, e.updated], 0);
    assert e.description.None? ==> NoneBefore([e.description, e.summary], 1);
    assert e.published.None? ==> NoneBefore([e.published, e.updated], 1);
  }

  function FeedViewOf(info: FeedInfo): (v: FeedView)
    ensures FeedMeta(v.title, v.description, v.link) == FeedMetadata(info)
    ensures v.updated == FirstPresent([info.updated], "")
  {
    var meta := FeedMetadata(info);
    FeedView(meta.title, meta.description, meta.link, info.updated.GetOr(""))
  }

  /** The loop over `feed.entries[:50]`. */
  method ShapeEntries(entries: seq<Entry>) returns (views: seq<EntryView>)
    ensures |views| == if |entries| < MaxEntries then |entries| else MaxEntries
    ensures forall i :: 0 <= i < |views| ==> views[i] == ShapeEntry(entries[i])
  {
    var n := if |entries| < MaxEntries then |entries| else MaxEntries;
    views := [];
    var i := 0;
    while i < n
      invariant 0 <= i <= n
      invariant |views| == i
      invariant forall k :: 0 <= k < i ==> views[k] == ShapeEntry(entries[k])
    {
      views := views + [ShapeEntry(entries[i])];
      i := i + 1;
    }
  }

  /**
   * `parse_feed` on the document `doc` the parser returned for the URL:
   * 400 without a URL or on a failed parse; otherwise the feed's view and
   * the first fifty entries' views, in document order.
   */
  method ParseFeed(url: Option<string>, doc: Document) returns (reply: ParseReply)
    ensures reply.Rejected? <==> Missing(url) || ParseFailed(doc)
    ensures reply.Rejected? ==> reply.status == 400
    ensures reply.Parsed? ==> reply.feed == FeedViewOf(doc.feed)
    ensures reply.Parsed? ==> |reply.entries| == if |doc.entries| < MaxEntries then |doc.entries| else MaxEntries
    ensures reply.Parsed? ==> forall i :: 0 <= i < |reply.entries| ==> reply.entries[i] == ShapeEntry(doc.entries[i])
  {
    if Missing(url) || ParseFailed(doc) {
      return Rejected(400);
    }
    var views := ShapeEntries(doc.entries);
    reply := Parsed(FeedViewOf(doc.feed), views);
  }
}
