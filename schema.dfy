/**
 * The three tables of the store as values (database.py:56-101), the schema's
 * invariants, the row-level UPDATE/DELETE statements the models issue, and the
 * effect of the multi-statement operations: the article refresh of
 * `Article.fetch_for_feed`, `Feed.create` and `Feed.refresh`. Each of these is
 * one or more `with get_db()` blocks (database.py:9-21): a block commits when it
 * completes and rolls back when it raises, so a failing block leaves the tables
 * as they were.
 */
module Schema {
  import opened Wrappers
  import opened FeedParsing

  datatype FolderRow = FolderRow(id: int, name: string)

  datatype FeedRow = FeedRow(
    id: int,
    url: string,
    title: string,
    description: string,
    link: string,
    folderId: Option<int>,
    lastUpdated: Option<DateTime>,
    deleted: bool)

  datatype ArticleRow = ArticleRow(id: int, feedId: int, data: ArticleData, read: bool, starred: bool)

  /** The tables in rowid order, with the AUTOINCREMENT counters that `sqlite_sequence` keeps. */
  datatype Tables = Tables(
    folders: seq<FolderRow>,
    feeds: seq<FeedRow>,
    articles: seq<ArticleRow>,
    folderSeq: int,
    feedSeq: int,
    articleSeq: int)

  /** What the outside world answers during one `Feed.create`: its two parses of the URL and the clock. */
  datatype Upstream = Upstream(meta: Document, entries: Document, now: DateTime)

  datatype FetchOutcome =
    | ParseFailure        // bozo with no entries: returned early, nothing touched
    | Replaced(count: nat) // committed: old rows deleted, `count` rows inserted
    | DuplicateGuid       // UNIQUE(feed_id, guid) violated: the whole block rolled back

  datatype CreateOutcome =
    | Created(feedId: int)
    | InvalidFeed           // ValueError before any write
    | UrlConflict           // UNIQUE(url) violated: feed insert rolled back
    | FetchFailed(feedId: int) // the feed row stays committed, the article fetch raised

  datatype RefreshOutcome =
    | UnknownFeed
    | Refreshed(fetch: FetchOutcome)
    | RefreshFailed         // the article fetch raised; last_updated not written

  // ---------------------------------------------------------------------------
  // Schema invariants

  ghost predicate FoldersOk(rows: seq<FolderRow>, last: int)
  {
    && (forall i :: 0 <= i < |rows| ==> 0 < rows[i].id <= last)
    && (forall i, j :: 0 <= i < j < |rows| ==> rows[i].id < rows[j].id)
    && (forall i, j :: 0 <= i < j < |rows| ==> rows[i].name != rows[j].name)
  }

  ghost predicate FeedsOk(rows: seq<FeedRow>, last: int)
  {
    && (forall i :: 0 <= i < |rows| ==> 0 < rows[i].id <= last)
    && (forall i, j :: 0 <= i < j < |rows| ==> rows[i].id < rows[j].id)
    && (forall i, j :: 0 <= i < j < |rows| ==> rows[i].url != rows[j].url)
  }

  predicate SameKey(a: ArticleRow, b: ArticleRow)
  {
    a.feedId == b.feedId && a.data.guid == b.data.guid
  }

  ghost predicate ArticlesOk(rows: seq<ArticleRow>, last: int)
  {
    && (forall i :: 0 <= i < |rows| ==> 0 < rows[i].id <= last)
    && (forall i, j :: 0 <= i < j < |rows| ==> rows[i].id < rows[j].id)
    && (forall i, j :: 0 <= i < j < |rows| ==> !SameKey(rows[i], rows[j]))
  }

  /** Primary keys increase with insertion and stay below the AUTOINCREMENT counter; UNIQUE columns hold. */
  ghost predicate WellFormed(t: Tables)
  {
    && 0 <= t.folderSeq && 0 <= t.feedSeq && 0 <= t.articleSeq
    && FoldersOk(t.folders, t.folderSeq)
    && FeedsOk(t.feeds, t.feedSeq)
    && ArticlesOk(t.articles, t.articleSeq)
  }

  /** Replacing the articles table by well-formed rows under a counter that did not go back keeps the tables well formed. */
  lemma WithArticles(t: Tables, rows: seq<ArticleRow>, last: int)
    requires WellFormed(t) && ArticlesOk(rows, last) && t.articleSeq <= last
    ensures WellFormed(t.(articles := rows, articleSeq := last))
  {
    var t' := t.(articles := rows, articleSeq := last);
    assert t'.folders == t.folders && t'.feeds == t.feeds;
  }

  /** The same for the feeds table. */
  lemma WithFeeds(t: Tables, rows: seq<FeedRow>, last: int)
    requires WellFormed(t) && FeedsOk(rows, last) && t.feedSeq <= last
    ensures WellFormed(t.(feeds := rows, feedSeq := last))
  {
    var t' := t.(feeds := rows, feedSeq := last);
    assert t'.folders == t.folders && t'.articles == t.articles;
  }

  /** Stamping a feed touches no id and no URL. */
  lemma StampKeepsWellFormed(t: Tables, id: int, now: DateTime)
    requires WellFormed(t)
    ensures WellFormed(t.(feeds := Stamp(t.feeds, id, now)))
  {
    var rows := Stamp(t.feeds, id, now);
    SameKeysKeepFeedsOk(t.feeds, rows, t.feedSeq);
    WithFeeds(t, rows, t.feedSeq);
  }

  /** `init_db` on an empty database file. */
  function EmptyTables(): (t: Tables)
    ensures WellFormed(t)
    ensures t.folders == [] && t.feeds == [] && t.articles == []
  {
    Tables([], [], [], 0, 0, 0)
  }

  // ---------------------------------------------------------------------------
  // Lookups

  predicate NameTaken(rows: seq<FolderRow>, name: string)
  {
    exists i | 0 <= i < |rows| :: rows[i].name == name
  }

  predicate UrlTaken(rows: seq<FeedRow>, url: string)
  {
    exists i | 0 <= i < |rows| :: rows[i].url == url
  }

  predicate KeyTaken(rows: seq<ArticleRow>, feedId: int, guid: string)
  {
    exists i | 0 <= i < |rows| :: rows[i].feedId == feedId && rows[i].data.guid == guid
  }

  predicate HasFolder(rows: seq<FolderRow>, id: int)
  {
    exists i | 0 <= i < |rows| :: rows[i].id == id
  }

  /** `SELECT * FROM feeds WHERE id = ?` (models.py:55-60): deleted rows are found too. */
  function FindFeed(rows: seq<FeedRow>, id: int): (r: Option<FeedRow>)
    ensures r.Some? ==> r.value in rows && r.value.id == id
    ensures r.None? <==> forall i :: 0 <= i < |rows| ==> rows[i].id != id
  {
    if rows == [] then None
    else if rows[0].id == id then Some(rows[0])
    else FindFeed(rows[1..], id)
  }

  /** `SELECT * FROM articles WHERE id = ?` (models.py:160-165). */
  function FindArticle(rows: seq<ArticleRow>, id: int): (r: Option<ArticleRow>)
    ensures r.Some? ==> r.value in rows && r.value.id == id
    ensures r.None? <==> forall i :: 0 <= i < |rows| ==> rows[i].id != id
  {
    if rows == [] then None
    else if rows[0].id == id then Some(rows[0])
    else FindArticle(rows[1..], id)
  }

  /** The folder name a LEFT JOIN on `folder_id` attaches: NULL when no folder row has that id. */
  function FolderName(rows: seq<FolderRow>, folderId: Option<int>): (r: Option<string>)
    ensures r.Some? ==> folderId.Some? && FolderRow(folderId.value, r.value) in rows
    ensures r.None? ==> folderId.None? || !HasFolder(rows, folderId.value)
  {
    if folderId.None? || rows == [] then None
    else if rows[0].id == folderId.value then Some(rows[0].name)
    else FolderName(rows[1..], folderId)
  }

  // ---------------------------------------------------------------------------
  // Selecting the articles of one feed

  /** The rows whose `feed_id` is (keep) or is not (!keep) the given one, in table order. */
  function Select(rows: seq<ArticleRow>, feedId: int, keep: bool): (r: seq<ArticleRow>)
    ensures |r| <= |rows|
    ensures forall x :: x in r <==> x in rows && (x.feedId == feedId) == keep
  {
    if rows == [] then []
    else (if (rows[0].feedId == feedId) == keep then [rows[0]] else []) + Select(rows[1..], feedId, keep)
  }

  lemma {:induction false} SelectConcat(a: seq<ArticleRow>, b: seq<ArticleRow>, feedId: int, keep: bool)
    ensures Select(a + b, feedId, keep) == Select(a, feedId, keep) + Select(b, feedId, keep)
  {
    if a == [] {
      assert a + b == b;
    } else {
      assert (a + b)[0] == a[0];
      assert (a + b)[1..] == a[1..] + b;
      SelectConcat(a[1..], b, feedId, keep);
    }
  }

  /** Selecting on a feed whose rows are all (or none) of `rows` gives all (or none) of them. */
  lemma {:induction false} SelectUniform(rows: seq<ArticleRow>, feedId: int, keep: bool)
    requires forall i :: 0 <= i < |rows| ==> (rows[i].feedId == feedId) == keep
    ensures Select(rows, feedId, keep) == rows
    ensures Select(rows, feedId, !keep) == []
  {
    if rows != [] {
      SelectUniform(rows[1..], feedId, keep);
    }
  }

  lemma {:induction false} SelectKeepsOk(rows: seq<ArticleRow>, feedId: int, keep: bool, last: int)
    requires ArticlesOk(rows, last)
    ensures ArticlesOk(Select(rows, feedId, keep), last)
  {
    if rows != [] {
      var tail := rows[1..];
      ArticlesOkTail(rows, last);
      SelectKeepsOk(tail, feedId, keep, last);
      if (rows[0].feedId == feedId) == keep {
        ArticlesOkCons(rows, Select(tail, feedId, keep), last);
      }
    }
  }

  lemma ArticlesOkTail(rows: seq<ArticleRow>, last: int)
    requires rows != [] && ArticlesOk(rows, last)
    ensures ArticlesOk(rows[1..], last)
  {
    var tail := rows[1..];
    forall i, j | 0 <= i < j < |tail| ensures tail[i].id < tail[j].id && !SameKey(tail[i], tail[j]) {
      assert tail[i] == rows[i + 1] && tail[j] == rows[j + 1];
    }
  }

  lemma ArticlesOkCons(rows: seq<ArticleRow>, rest: seq<ArticleRow>, last: int)
    requires rows != [] && ArticlesOk(rows, last) && ArticlesOk(rest, last)
    requires forall x :: x in rest ==> x in rows[1..]
    ensures ArticlesOk([rows[0]] + rest, last)
  {
    var r := [rows[0]] + rest;
    forall j | 0 < j < |r| ensures rows[0].id < r[j].id && !SameKey(rows[0], r[j]) {
      assert r[j] in rest;
      var k :| 0 <= k < |rows| - 1 && rows[1..][k] == r[j];
      assert rows[k + 1] == r[j];
    }
    forall i, j | 0 <= i < j < |r| ensures r[i].id < r[j].id && !SameKey(r[i], r[j]) {
      if i > 0 {
        assert r[i] == rest[i - 1] && r[j] == rest[j - 1];
      }
    }
  }

  // ---------------------------------------------------------------------------
  // Row-level UPDATE and DELETE statements

  /** `UPDATE articles SET read = ? WHERE id = ?` (models.py:171). */
  function SetRead(rows: seq<ArticleRow>, id: int, read: bool): (r: seq<ArticleRow>)
    ensures |r| == |rows|
    ensures forall i :: 0 <= i < |rows| && rows[i].id == id ==> r[i] == rows[i].(read := read)
    ensures forall i :: 0 <= i < |rows| && rows[i].id != id ==> r[i] == rows[i]
  {
    seq(|rows|, i requires 0 <= i < |rows| => if rows[i].id == id then rows[i].(read := read) else rows[i])
  }

  /** `UPDATE articles SET starred = ? WHERE id = ?` (models.py:178). */
  function SetStarred(rows: seq<ArticleRow>, id: int, starred: bool): (r: seq<ArticleRow>)
    ensures |r| == |rows|
    ensures forall i :: 0 <= i < |rows| && rows[i].id == id ==> r[i] == rows[i].(starred := starred)
    ensures forall i :: 0 <= i < |rows| && rows[i].id != id ==> r[i] == rows[i]
  {
    seq(|rows|, i requires 0 <= i < |rows| => if rows[i].id == id then rows[i].(starred := starred) else rows[i])
  }

  /** Python truthiness of the optional `feed_id`: None and 0 are both false (models.py:185). */
  predicate Truthy(feedId: Option<int>)
  {
    feedId.Some? && feedId.value != 0
  }

  /** `mark_all_read` (models.py:182-188): one feed's rows when `feed_id` is truthy, every row otherwise. */
  function MarkAllRead(rows: seq<ArticleRow>, feedId: Option<int>): (r: seq<ArticleRow>)
    ensures |r| == |rows|
    ensures forall i :: 0 <= i < |rows| ==>
      r[i] == if !Truthy(feedId) || rows[i].feedId == feedId.value then rows[i].(read := true) else rows[i]
  {
    seq(|rows|, i requires 0 <= i < |rows| =>
      if !Truthy(feedId) || rows[i].feedId == feedId.value then rows[i].(read := true) else rows[i])
  }

  /** Count of a feed's unread rows: `COUNT(CASE WHEN a.read = 0 THEN 1 END)` per feed (models.py:44). */
  function UnreadCount(rows: seq<ArticleRow>, feedId: int): (n: nat)
    ensures n <= |Select(rows, feedId, true)|
  {
    if rows == [] then 0
    else (if rows[0].feedId == feedId && !rows[0].read then 1 else 0) + UnreadCount(rows[1..], feedId)
  }

  /** After marking one feed read, that feed has no unread article and every other feed's count is unchanged. */
  lemma {:induction false} MarkAllReadCounts(rows: seq<ArticleRow>, feedId: int, other: int)
    requires feedId != 0 && other != feedId
    ensures UnreadCount(MarkAllRead(rows, Some(feedId)), feedId) == 0
    ensures UnreadCount(MarkAllRead(rows, Some(feedId)), other) == UnreadCount(rows, other)
  {
    if rows != [] {
      MarkAllReadCounts(rows[1..], feedId, other);
      assert MarkAllRead(rows, Some(feedId))[1..] == MarkAllRead(rows[1..], Some(feedId));
    }
  }

  /** Marking everything read leaves no unread article anywhere. */
  lemma {:induction false} MarkAllReadGlobal(rows: seq<ArticleRow>, feedId: Option<int>, any: int)
    requires !Truthy(feedId)
    ensures UnreadCount(MarkAllRead(rows, feedId), any) == 0
  {
    if rows != [] {
      MarkAllReadGlobal(rows[1..], feedId, any);
      assert MarkAllRead(rows, feedId)[1..] == MarkAllRead(rows[1..], feedId);
    }
  }

  /** `UPDATE feeds SET last_updated = ? WHERE id = ?` (models.py:122). */
  function Stamp(rows: seq<FeedRow>, id: int, now: DateTime): (r: seq<FeedRow>)
    ensures |r| == |rows|
    ensures forall i :: 0 <= i < |rows| && rows[i].id == id ==> r[i] == rows[i].(lastUpdated := Some(now))
    ensures forall i :: 0 <= i < |rows| && rows[i].id != id ==> r[i] == rows[i]
  {
    seq(|rows|, i requires 0 <= i < |rows| => if rows[i].id == id then rows[i].(lastUpdated := Some(now)) else rows[i])
  }

  /** `Feed.update` (models.py:92-99): each column whose argument is not None, on the row with that id. */
  function UpdateFeedRows(rows: seq<FeedRow>, id: int, title: Option<string>, folderId: Option<int>): (r: seq<FeedRow>)
    ensures |r| == |rows|
    ensures forall i :: 0 <= i < |rows| && rows[i].id != id ==> r[i] == rows[i]
    ensures forall i :: 0 <= i < |rows| && rows[i].id == id ==>
      && r[i].title == title.GetOr(rows[i].title)
      && r[i].folderId == (if folderId.Some? then folderId else rows[i].folderId)
      && r[i] == rows[i].(title := r[i].title, folderId := r[i].folderId)
  {
    seq(|rows|, i requires 0 <= i < |rows| =>
      if rows[i].id != id then rows[i]
      else
        var withTitle := if title.Some? then rows[i].(title := title.value) else rows[i];
        if folderId.Some? then withTitle.(folderId := folderId) else withTitle)
  }

  /** `Feed.delete` (models.py:107): a soft delete, the row stays. */
  function SoftDelete(rows: seq<FeedRow>, id: int): (r: seq<FeedRow>)
    ensures |r| == |rows|
    ensures forall i :: 0 <= i < |rows| && rows[i].id == id ==> r[i] == rows[i].(deleted := true)
    ensures forall i :: 0 <= i < |rows| && rows[i].id != id ==> r[i] == rows[i]
  {
    seq(|rows|, i requires 0 <= i < |rows| => if rows[i].id == id then rows[i].(deleted := true) else rows[i])
  }

  /** `UPDATE folders SET name = ? WHERE id = ?` (models.py:28). */
  function RenameRows(rows: seq<FolderRow>, id: int, name: string): (r: seq<FolderRow>)
    ensures |r| == |rows|
    ensures forall i :: 0 <= i < |rows| && rows[i].id == id ==> r[i] == FolderRow(id, name)
    ensures forall i :: 0 <= i < |rows| && rows[i].id != id ==> r[i] == rows[i]
  {
    seq(|rows|, i requires 0 <= i < |rows| => if rows[i].id == id then FolderRow(id, name) else rows[i])
  }

  /** The rename violates UNIQUE(name): the folder exists and another folder already has the name. */
  predicate RenameClashes(rows: seq<FolderRow>, id: int, name: string)
  {
    HasFolder(rows, id) && exists j | 0 <= j < |rows| :: rows[j].id != id && rows[j].name == name
  }

  /** `DELETE FROM folders WHERE id = ?` (models.py:34): no other table is touched. */
  function RemoveFolder(rows: seq<FolderRow>, id: int): (r: seq<FolderRow>)
    ensures forall x :: x in r <==> x in rows && x.id != id
  {
    if rows == [] then []
    else (if rows[0].id == id then [] else [rows[0]]) + RemoveFolder(rows[1..], id)
  }

  lemma {:induction false} RenameKeepsOk(rows: seq<FolderRow>, id: int, name: string, last: int)
    requires FoldersOk(rows, last)
    requires !RenameClashes(rows, id, name)
    ensures FoldersOk(RenameRows(rows, id, name), last)
  {
    var r := RenameRows(rows, id, name);
    forall i, j | 0 <= i < j < |r| ensures r[i].name != r[j].name {
      if rows[i].id == id {
        assert rows[j].id != id;
      } else if rows[j].id == id {
        assert rows[i].id != id;
      }
    }
  }

  lemma {:induction false} RemoveFolderKeepsOk(rows: seq<FolderRow>, id: int, last: int)
    requires FoldersOk(rows, last)
    ensures FoldersOk(RemoveFolder(rows, id), last)
  {
    if rows != [] {
      var tail := rows[1..];
      assert FoldersOk(tail, last) by {
        forall i, j | 0 <= i < j < |tail| ensures tail[i].id < tail[j].id && tail[i].name != tail[j].name {
          assert tail[i] == rows[i + 1] && tail[j] == rows[j + 1];
        }
      }
      RemoveFolderKeepsOk(tail, id, last);
      var rest := RemoveFolder(tail, id);
      if rows[0].id != id {
        HeadBeforeRest(rows, rest, last);
      }
    }
  }

  /** A row may stay in front of rows drawn from the ones that followed it. */
  lemma HeadBeforeRest(rows: seq<FolderRow>, rest: seq<FolderRow>, last: int)
    requires rows != [] && FoldersOk(rows, last) && FoldersOk(rest, last)
    requires forall x :: x in rest ==> x in rows[1..]
    ensures FoldersOk([rows[0]] + rest, last)
  {
    var r := [rows[0]] + rest;
    forall j | 0 < j < |r| ensures rows[0].id < r[j].id && rows[0].name != r[j].name {
      assert r[j] == rest[j - 1];
      assert r[j] in rows[1..];
      var k :| 0 <= k < |rows[1..]| && rows[1..][k] == r[j];
      assert rows[k + 1] == r[j];
    }
    forall i, j | 0 <= i < j < |r| ensures r[i].id < r[j].id && r[i].name != r[j].name {
      if i > 0 {
        assert r[i] == rest[i - 1] && r[j] == rest[j - 1];
      }
    }
  }

  /** An UPDATE that leaves ids and URLs alone keeps the feeds table well formed. */
  lemma SameKeysKeepFeedsOk(a: seq<FeedRow>, b: seq<FeedRow>, last: int)
    requires FeedsOk(a, last) && |a| == |b|
    requires forall i :: 0 <= i < |a| ==> b[i].id == a[i].id && b[i].url == a[i].url
    ensures FeedsOk(b, last)
  {
  }

  /** An UPDATE that leaves ids, feed ids and guids alone keeps the articles table well formed. */
  lemma SameKeysKeepArticlesOk(a: seq<ArticleRow>, b: seq<ArticleRow>, last: int)
    requires ArticlesOk(a, last) && |a| == |b|
    requires forall i :: 0 <= i < |a| ==> b[i].id == a[i].id && b[i].feedId == a[i].feedId && b[i].data == a[i].data
    ensures ArticlesOk(b, last)
  {
  }
}
