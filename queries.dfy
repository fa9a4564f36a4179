/**
 * The read side of the models: `Folder.get_all`, `Feed.get_all` and
 * `Article.get_all` (models.py:11-15, 38-52, 129-157) as functions of the tables.
 */
module Queries {
  import opened Wrappers
  import opened Sorting
  import opened Text
  import opened FeedParsing
  import opened Schema

  // ---------------------------------------------------------------------------
  // Folder.get_all: SELECT * FROM folders ORDER BY name

  predicate FolderLe(a: FolderRow, b: FolderRow)
  {
    TextLe(a.name, b.name)
  }

  lemma FolderOrderIsTotal()
    ensures TotalPreorder(FolderLe)
  {
    forall x: FolderRow, y: FolderRow ensures FolderLe(x, y) || FolderLe(y, x) {
      TextLeTotal(x.name, y.name);
    }
    forall x: FolderRow, y: FolderRow, z: FolderRow | FolderLe(x, y) && FolderLe(y, z) ensures FolderLe(x, z) {
      TextLeTransitive(x.name, y.name, z.name);
    }
  }

  /** Every folder row once, by name. */
  function ListFolders(t: Tables): (r: seq<FolderRow>)
    ensures multiset(r) == multiset(t.folders)
    ensures forall i, j :: 0 <= i < j < |r| ==> TextLe(r[i].name, r[j].name)
  {
    FolderOrderIsTotal();
    var r := SortBy(t.folders, FolderLe);
    assert forall i, j :: 0 <= i < j < |r| ==> FolderLe(r[i], r[j]);
    r
  }

  // ---------------------------------------------------------------------------
  // Feed.get_all: the live feeds with folder name and unread count, by title

  /** One row of `Feed.get_all`: the feed's columns plus `folder_name` and `unread_count`. */
  datatype FeedListing = FeedListing(feed: FeedRow, folderName: Option<string>, unreadCount: nat)

  function Annotate(t: Tables, f: FeedRow): FeedListing
  {
    FeedListing(f, FolderName(t.folders, f.folderId), UnreadCount(t.articles, f.id))
  }

  /** `WHERE f.deleted = 0`. */
  function LiveFeeds(rows: seq<FeedRow>): (r: seq<FeedRow>)
    ensures forall f :: f in r <==> f in rows && !f.deleted
  {
    if rows == [] then []
    else (if rows[0].deleted then [] else [rows[0]]) + LiveFeeds(rows[1..])
  }

  function AnnotateAll(t: Tables, rows: seq<FeedRow>): (r: seq<FeedListing>)
    ensures |r| == |rows|
    ensures forall i :: 0 <= i < |rows| ==> r[i] == Annotate(t, rows[i])
  {
    seq(|rows|, i requires 0 <= i < |rows| => Annotate(t, rows[i]))
  }

  /** The annotated listing holds exactly the annotations of the given rows. */
  lemma AnnotatedMembers(t: Tables, rows: seq<FeedRow>)
    ensures forall x :: x in AnnotateAll(t, rows) <==> x.feed in rows && x == Annotate(t, x.feed)
  {
    var annotated := AnnotateAll(t, rows);
    forall x ensures x in annotated <==> x.feed in rows && x == Annotate(t, x.feed) {
      if x.feed in rows && x == Annotate(t, x.feed) {
        var i :| 0 <= i < |rows| && rows[i] == x.feed;
        assert annotated[i] == x;
      }
    }
  }

  predicate TitleLe(a: FeedListing, b: FeedListing)
  {
    TextLe(a.feed.title, b.feed.title)
  }

  lemma TitleOrderIsTotal()
    ensures TotalPreorder(TitleLe)
  {
    forall x: FeedListing, y: FeedListing ensures TitleLe(x, y) || TitleLe(y, x) {
      TextLeTotal(x.feed.title, y.feed.title);
    }
    forall x: FeedListing, y: FeedListing, z: FeedListing | TitleLe(x, y) && TitleLe(y, z) ensures TitleLe(x, z) {
      TextLeTransitive(x.feed.title, y.feed.title, z.feed.title);
    }
  }

  /**
   * Exactly the feeds not soft-deleted, each once with its folder's name (NULL
   * when no folder row has its `folder_id`) and its count of unread articles,
   * ordered by title.
   */
  function ListFeeds(t: Tables): (r: seq<FeedListing>)
    ensures |r| == |LiveFeeds(t.feeds)|
    ensures multiset(r) == multiset(AnnotateAll(t, LiveFeeds(t.feeds)))
    ensures forall x :: x in r <==> x.feed in t.feeds && !x.feed.deleted && x == Annotate(t, x.feed)
    ensures forall i, j :: 0 <= i < j < |r| ==> TextLe(r[i].feed.title, r[j].feed.title)
  {
    TitleOrderIsTotal();
    var live := LiveFeeds(t.feeds);
    var annotated := AnnotateAll(t, live);
    SortByKeepsMembers(annotated, TitleLe);
    AnnotatedMembers(t, live);
    var r := SortBy(annotated, TitleLe);
    assert forall i, j :: 0 <= i < j < |r| ==> TitleLe(r[i], r[j]);
    r
  }

  // ---------------------------------------------------------------------------
  // Article.get_all

  /** The keyword arguments of `Article.get_all`; `None` is an argument left at None. */
  datatype ArticleFilter = ArticleFilter(
    feedId: Option<int>,
    read: Option<bool>,
    starred: Option<bool>,
    search: Option<string>,
    limit: int)

  /** The query's defaults: no filter, `limit=100`. */
  const DefaultFilter := ArticleFilter(None, None, None, None, 100)

  /**
   * The WHERE clause: the inner JOIN needs a feed row with the article's
   * `feed_id` (deleted or not); each supplied filter is AND-ed in; an empty
   * search string adds no condition.
   */
  predicate Matches(t: Tables, q: ArticleFilter, a: ArticleRow)
  {
    && FindFeed(t.feeds, a.feedId).Some?
    && (q.feedId.Some? ==> a.feedId == q.feedId.value)
    && (q.read.Some? ==> a.read == q.read.value)
    && (q.starred.Some? ==> a.starred == q.starred.value)
    && (q.search.Some? && q.search.value != "" ==>
          Like(a.data.title, q.search.value) || Like(a.data.description, q.search.value))
  }

  function Matching(t: Tables, q: ArticleFilter, rows: seq<ArticleRow>): (r: seq<ArticleRow>)
    ensures forall a :: a in r <==> a in rows && Matches(t, q, a)
  {
    if rows == [] then []
    else (if Matches(t, q, rows[0]) then [rows[0]] else []) + Matching(t, q, rows[1..])
  }

  /** `ORDER BY a.published DESC`: a later timestamp first, NULL last. */
  predicate NewerFirst(a: ArticleRow, b: ArticleRow)
  {
    PublishedLe(b.data.published, a.data.published)
  }

  lemma NewerFirstIsTotal()
    ensures TotalPreorder(NewerFirst)
  {
  }

  /**
   * Only matching articles, newest first, at most `limit` of them (all of them
   * for a negative limit), and the ones left out are no newer than any returned.
   */
  function ListArticles(t: Tables, q: ArticleFilter): (r: seq<ArticleRow>)
    ensures forall a :: a in r ==> a in t.articles && Matches(t, q, a)
    ensures multiset(r) <= multiset(Matching(t, q, t.articles))
    ensures q.limit < 0 ==> multiset(r) == multiset(Matching(t, q, t.articles))
    ensures |r| == if q.limit < 0 || |Matching(t, q, t.articles)| <= q.limit then |Matching(t, q, t.articles)| else q.limit
    ensures forall i, j :: 0 <= i < j < |r| ==> PublishedLe(r[j].data.published, r[i].data.published)
    ensures forall a, i :: a in multiset(Matching(t, q, t.articles)) - multiset(r) && 0 <= i < |r| ==>
              PublishedLe(a.data.published, r[i].data.published)
  {
    var all := Matching(t, q, t.articles);
    NewestFirst(all, q.limit);
    Limit(SortBy(all, NewerFirst), q.limit)
  }

  /** Sorting newest first and cutting at the limit keeps only given rows, the newest ones. */
  lemma NewestFirst(all: seq<ArticleRow>, limit: int)
    ensures TotalPreorder(NewerFirst)
    ensures var r := Limit(SortBy(all, NewerFirst), limit);
      && (forall a :: a in r ==> a in all)
      && multiset(r) <= multiset(all)
      && (limit < 0 ==> multiset(r) == multiset(all))
      && |r| == (if limit < 0 || |all| <= limit then |all| else limit)
      && (forall i, j :: 0 <= i < j < |r| ==> PublishedLe(r[j].data.published, r[i].data.published))
      && (forall a, i :: a in multiset(all) - multiset(r) && 0 <= i < |r| ==> PublishedLe(a.data.published, r[i].data.published))
  {
    NewerFirstIsTotal();
    var sorted := SortBy(all, NewerFirst);
    TopOfSorted(sorted, limit, NewerFirst);
    var r := Limit(sorted, limit);
    forall a | a in r ensures a in all {
      assert a in multiset(r);
      assert a in multiset(sorted);
    }
    forall i, j | 0 <= i < j < |r| ensures PublishedLe(r[j].data.published, r[i].data.published) {
      assert NewerFirst(r[i], r[j]);
    }
    forall a, i | a in multiset(all) - multiset(r) && 0 <= i < |r| ensures PublishedLe(a.data.published, r[i].data.published) {
      assert NewerFirst(r[i], a);
    }
  }

  /** `Article.get_by_id`. */
  function GetArticle(t: Tables, id: int): (r: Option<ArticleRow>)
    ensures r.Some? ==> r.value in t.articles && r.value.id == id
    ensures r.None? <==> forall i :: 0 <= i < |t.articles| ==> t.articles[i].id != id
  {
    FindArticle(t.articles, id)
  }

  // ---------------------------------------------------------------------------
  // How the listings react to the writes

  lemma {:induction false} SoftDeleteFindsSame(rows: seq<FeedRow>, id: int, x: int)
    ensures FindFeed(SoftDelete(rows, id), x).Some? == FindFeed(rows, x).Some?
  {
    var r := SoftDelete(rows, id);
    if FindFeed(rows, x).None? {
      assert forall i :: 0 <= i < |r| ==> r[i].id == rows[i].id;
    } else {
      var i :| 0 <= i < |rows| && rows[i].id == x;
      assert r[i].id == x;
    }
  }

  lemma {:induction false} MatchingSameFeeds(t: Tables, u: Tables, q: ArticleFilter, rows: seq<ArticleRow>)
    requires forall x :: FindFeed(u.feeds, x).Some? == FindFeed(t.feeds, x).Some?
    ensures Matching(u, q, rows) == Matching(t, q, rows)
  {
    if rows != [] {
      assert Matches(u, q, rows[0]) == Matches(t, q, rows[0]);
      MatchingSameFeeds(t, u, q, rows[1..]);
    }
  }

  /**
   * Deleting a feed only sets its `deleted` flag, and the article listing joins
   * on every feed row: the feed's articles stay listed, exactly as before.
   */
  lemma SoftDeleteKeepsArticles(t: Tables, id: int, q: ArticleFilter)
    ensures ListArticles(t.(feeds := SoftDelete(t.feeds, id)), q) == ListArticles(t, q)
  {
    var u := t.(feeds := SoftDelete(t.feeds, id));
    forall x ensures FindFeed(u.feeds, x).Some? == FindFeed(t.feeds, x).Some? {
      SoftDeleteFindsSame(t.feeds, id, x);
    }
    MatchingSameFeeds(t, u, q, t.articles);
  }

  /** After a delete the feed is gone from the feed listing; every other live feed stays, annotated as before. */
  lemma SoftDeleteHidesFeed(t: Tables, id: int)
    ensures var u := t.(feeds := SoftDelete(t.feeds, id));
      && (forall x :: x in ListFeeds(u) ==> x.feed.id != id)
      && (forall x :: x in ListFeeds(t) && x.feed.id != id ==> x in ListFeeds(u))
  {
    var u := t.(feeds := SoftDelete(t.feeds, id));
    forall x | x in ListFeeds(u) ensures x.feed.id != id {
      var i :| 0 <= i < |u.feeds| && u.feeds[i] == x.feed;
    }
    forall x | x in ListFeeds(t) && x.feed.id != id ensures x in ListFeeds(u) {
      var i :| 0 <= i < |t.feeds| && t.feeds[i] == x.feed;
      assert u.feeds[i] == x.feed;
      assert Annotate(u, x.feed) == Annotate(t, x.feed);
    }
  }

  /**
   * Deleting a folder leaves its feeds' `folder_id` in place; with no folder row
   * left for that id the feeds are still listed, with no folder name.
   */
  lemma DeleteFolderOrphansFeeds(t: Tables, folderId: int, f: FeedRow)
    requires f in t.feeds && !f.deleted && f.folderId == Some(folderId)
    ensures var u := t.(folders := RemoveFolder(t.folders, folderId));
      exists x :: x in ListFeeds(u) && x.feed == f && x.folderName.None?
  {
    var u := t.(folders := RemoveFolder(t.folders, folderId));
    var x := Annotate(u, f);
    assert !HasFolder(u.folders, folderId);
    assert x in ListFeeds(u);
  }

  lemma {:induction false} MatchingOneFeed(t: Tables, feedId: int, rows: seq<ArticleRow>)
    requires FindFeed(t.feeds, feedId).Some?
    ensures Matching(t, ArticleFilter(Some(feedId), None, None, None, -1), rows) == Select(rows, feedId, true)
  {
    if rows != [] {
      MatchingOneFeed(t, feedId, rows[1..]);
    }
  }

  /**
   * Asking for one existing feed's articles with no limit lists each of its
   * articles once, and nothing else.
   */
  lemma ArticlesOfFeedListed(t: Tables, feedId: int)
    requires FindFeed(t.feeds, feedId).Some?
    ensures var q := ArticleFilter(Some(feedId), None, None, None, -1);
      multiset(ListArticles(t, q)) == multiset(Select(t.articles, feedId, true))
  {
    MatchingOneFeed(t, feedId, t.articles);
  }
}
