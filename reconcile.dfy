/**
 * The article refresh and the two operations built on it, as functions from
 * the tables before to the tables after and an outcome:
 * `Article.fetch_for_feed` (models.py:191-237), `Feed.create` (models.py:63-89)
 * and `Feed.refresh` (models.py:111-125).
 */
module Reconcile {
  import opened Wrappers
  import opened FeedParsing
  import opened Schema

  /** The rows `fetch_for_feed` inserts: one per entry, in entry order, read and starred 0. */
  function NewRows(feedId: int, entries: seq<Entry>, firstId: int): (r: seq<ArticleRow>)
    ensures |r| == |entries|
    ensures forall i :: 0 <= i < |entries| ==>
      r[i] == ArticleRow(firstId + i, feedId, NormaliseEntry(entries[i]), false, false)
  {
    seq(|entries|, i requires 0 <= i < |entries| =>
      ArticleRow(firstId + i, feedId, NormaliseEntry(entries[i]), false, false))
  }

  /** No two entries normalise to the same guid, so their inserts cannot violate UNIQUE(feed_id, guid). */
  predicate DistinctGuids(entries: seq<Entry>)
  {
    forall i, j :: 0 <= i < j < |entries| ==> GuidOf(entries[i]) != GuidOf(entries[j])
  }

  /**
   * `fetch_for_feed`: a parse failure returns before any write; otherwise one
   * transaction deletes the feed's rows and inserts one row per entry, and a
   * repeated guid makes an insert fail, which rolls the delete back too.
   */
  function FetchSpec(t: Tables, feedId: int, doc: Document): (Tables, FetchOutcome)
  {
    if ParseFailed(doc) then (t, ParseFailure)
    else if !DistinctGuids(doc.entries) then (t, DuplicateGuid)
    else (ReplaceArticles(t, feedId, doc.entries), Replaced(|doc.entries|))
  }

  /** The committed block of `fetch_for_feed`: DELETE the feed's rows, INSERT the new ones. */
  function ReplaceArticles(t: Tables, feedId: int, entries: seq<Entry>): (t': Tables)
    ensures t'.articles == Select(t.articles, feedId, false) + NewRows(feedId, entries, t.articleSeq + 1)
    ensures t'.articleSeq == t.articleSeq + |entries|
    ensures t'.folders == t.folders && t'.feeds == t.feeds
    ensures t'.folderSeq == t.folderSeq && t'.feedSeq == t.feedSeq
  {
    t.(articles := Select(t.articles, feedId, false) + NewRows(feedId, entries, t.articleSeq + 1),
       articleSeq := t.articleSeq + |entries|)
  }

  /** A document that parses and has distinct guids is committed as a replacement. */
  lemma FetchCommits(t: Tables, feedId: int, doc: Document)
    requires !ParseFailed(doc) && DistinctGuids(doc.entries)
    ensures FetchSpec(t, feedId, doc) == (ReplaceArticles(t, feedId, doc.entries), Replaced(|doc.entries|))
  {
  }

  /** A failed parse or a repeated guid leaves every table as it was. */
  lemma FetchFailureIsNoOp(t: Tables, feedId: int, doc: Document)
    ensures FetchSpec(t, feedId, doc).1 == ParseFailure <==> ParseFailed(doc)
    ensures FetchSpec(t, feedId, doc).1 == DuplicateGuid <==> !ParseFailed(doc) && !DistinctGuids(doc.entries)
    ensures !FetchSpec(t, feedId, doc).1.Replaced? ==> FetchSpec(t, feedId, doc).0 == t
  {
  }

  /**
   * After a committed refresh the feed's articles are exactly the new rows, one
   * per entry in entry order with both flags cleared, and the other feeds'
   * articles are the same rows in the same order as before.
   */
  lemma FetchReplaces(t: Tables, feedId: int, doc: Document)
    requires !ParseFailed(doc) && DistinctGuids(doc.entries)
    ensures var t' := FetchSpec(t, feedId, doc).0;
      && Select(t'.articles, feedId, true) == NewRows(feedId, doc.entries, t.articleSeq + 1)
      && Select(t'.articles, feedId, false) == Select(t.articles, feedId, false)
  {
    FetchCommits(t, feedId, doc);
    SelectAfterReplace(t.articles, feedId, NewRows(feedId, doc.entries, t.articleSeq + 1));
  }

  /** The rows of other feeds followed by rows of this feed: each half is recovered by selecting on the feed. */
  lemma SelectAfterReplace(articles: seq<ArticleRow>, feedId: int, inserted: seq<ArticleRow>)
    requires forall i :: 0 <= i < |inserted| ==> inserted[i].feedId == feedId
    ensures Select(Select(articles, feedId, false) + inserted, feedId, true) == inserted
    ensures Select(Select(articles, feedId, false) + inserted, feedId, false) == Select(articles, feedId, false)
  {
    var kept := Select(articles, feedId, false);
    SelectConcat(kept, inserted, feedId, true);
    SelectConcat(kept, inserted, feedId, false);
    assert forall i :: 0 <= i < |kept| ==> kept[i].feedId != feedId by {
      forall i | 0 <= i < |kept| ensures kept[i].feedId != feedId {
        assert kept[i] in kept;
      }
    }
    SelectUniform(kept, feedId, false);
    SelectUniform(inserted, feedId, true);
  }

  /** Read and starred flags do not survive a refresh, even for an entry whose guid is unchanged. */
  lemma FetchResetsFlags(t: Tables, feedId: int, doc: Document, a: ArticleRow)
    requires !ParseFailed(doc) && DistinctGuids(doc.entries)
    requires a in FetchSpec(t, feedId, doc).0.articles && a.feedId == feedId
    ensures !a.read && !a.starred
    ensures exists i :: 0 <= i < |doc.entries| && a.data == NormaliseEntry(doc.entries[i])
  {
    FetchReplaces(t, feedId, doc);
    var t' := FetchSpec(t, feedId, doc).0;
    assert a in Select(t'.articles, feedId, true);
  }

  /** Refreshing twice from the same document stores the same article contents both times. */
  lemma RefetchSameContents(t: Tables, feedId: int, doc: Document)
    requires !ParseFailed(doc) && DistinctGuids(doc.entries)
    ensures var t1 := FetchSpec(t, feedId, doc).0;
            var t2 := FetchSpec(t1, feedId, doc).0;
      && FetchSpec(t1, feedId, doc).1 == FetchSpec(t, feedId, doc).1
      && |Select(t2.articles, feedId, true)| == |Select(t1.articles, feedId, true)| == |doc.entries|
      && forall i :: 0 <= i < |doc.entries| ==>
           Select(t2.articles, feedId, true)[i].data == Select(t1.articles, feedId, true)[i].data
  {
    var t1 := FetchSpec(t, feedId, doc).0;
    FetchReplaces(t, feedId, doc);
    FetchReplaces(t1, feedId, doc);
  }

  lemma FetchKeepsWellFormed(t: Tables, feedId: int, doc: Document)
    requires WellFormed(t)
    ensures WellFormed(FetchSpec(t, feedId, doc).0)
  {
    if !ParseFailed(doc) && DistinctGuids(doc.entries) {
      ReplaceKeepsWellFormed(t, feedId, doc.entries);
    }
  }

  lemma ReplaceKeepsWellFormed(t: Tables, feedId: int, entries: seq<Entry>)
    requires WellFormed(t) && DistinctGuids(entries)
    ensures WellFormed(ReplaceArticles(t, feedId, entries))
  {
    var rows := Select(t.articles, feedId, false) + NewRows(feedId, entries, t.articleSeq + 1);
    ReplacedRowsOk(t.articles, feedId, entries, t.articleSeq);
    WithArticles(t, rows, t.articleSeq + |entries|);
    assert ReplaceArticles(t, feedId, entries) == t.(articles := rows, articleSeq := t.articleSeq + |entries|);
  }

  /** The articles table after the replacement, on its own. */
  lemma ReplacedRowsOk(articles: seq<ArticleRow>, feedId: int, entries: seq<Entry>, last: int)
    requires ArticlesOk(articles, last) && 0 <= last && DistinctGuids(entries)
    ensures ArticlesOk(Select(articles, feedId, false) + NewRows(feedId, entries, last + 1), last + |entries|)
  {
    var kept := Select(articles, feedId, false);
    SelectKeepsOk(articles, feedId, false, last);
    NewRowsOk(feedId, entries, last);
    AppendOk(kept, NewRows(feedId, entries, last + 1), feedId, last, last + |entries|);
  }

  /** The inserted rows on their own: increasing ids above the old counter, one feed, distinct guids. */
  lemma NewRowsOk(feedId: int, entries: seq<Entry>, prev: int)
    requires 0 <= prev && DistinctGuids(entries)
    ensures var rows := NewRows(feedId, entries, prev + 1);
      && ArticlesOk(rows, prev + |entries|)
      && (forall i :: 0 <= i < |rows| ==> prev < rows[i].id && rows[i].feedId == feedId)
  {
  }

  /** Rows of other feeds followed by rows of this feed with larger ids keep the articles table well formed. */
  lemma AppendOk(kept: seq<ArticleRow>, added: seq<ArticleRow>, feedId: int, prev: int, last: int)
    requires ArticlesOk(kept, prev) && ArticlesOk(added, last) && prev <= last
    requires forall x :: x in kept ==> x.feedId != feedId
    requires forall i :: 0 <= i < |added| ==> prev < added[i].id && added[i].feedId == feedId
    ensures ArticlesOk(kept + added, last)
  {
    var all := kept + added;
    forall i, j | 0 <= i < j < |all| ensures all[i].id < all[j].id && !SameKey(all[i], all[j]) {
      if j < |kept| {
        assert all[i] == kept[i] && all[j] == kept[j];
      } else if i < |kept| {
        assert all[i] == kept[i] && all[j] == added[j - |kept|];
        assert all[i] in kept;
      } else {
        assert all[i] == added[i - |kept|] && all[j] == added[j - |kept|];
      }
    }
  }

  /** The feed row `Feed.create` inserts (models.py:72-81): metadata defaults, the clock, not deleted. */
  function NewFeedRow(id: int, url: string, folderId: Option<int>, up: Upstream): (r: FeedRow)
    ensures r.id == id && r.url == url && r.folderId == folderId
    ensures r.lastUpdated == Some(up.now) && !r.deleted
    ensures FeedMeta(r.title, r.description, r.link) == FeedMetadata(up.meta.feed)
  {
    var meta := FeedMetadata(up.meta.feed);
    FeedRow(id, url, meta.title, meta.description, meta.link, folderId, Some(up.now), false)
  }

  /**
   * `Feed.create`: reject a failed parse; insert the feed row in a transaction
   * of its own (a taken URL rolls it back); then run the article fetch for it
   * on a second parse of the URL. A failure of that fetch does not remove the feed row.
   */
  function CreateSpec(t: Tables, url: string, folderId: Option<int>, up: Upstream): (Tables, CreateOutcome)
  {
    if ParseFailed(up.meta) then (t, InvalidFeed)
    else if UrlTaken(t.feeds, url) then (t, UrlConflict)
    else
      var id := t.feedSeq + 1;
      var (t2, fetched) := FetchSpec(AfterFeedInsert(t, url, folderId, up), id, up.entries);
      (t2, if fetched == DuplicateGuid then FetchFailed(id) else Created(id))
  }

  /** A document that is bozo and has no entries raises before any write. */
  lemma CreateRejectsInvalid(t: Tables, url: string, folderId: Option<int>, up: Upstream)
    requires ParseFailed(up.meta)
    ensures CreateSpec(t, url, folderId, up) == (t, InvalidFeed)
  {
  }

  /** A URL already stored, deleted or not, is refused and nothing is written. */
  lemma CreateRejectsTakenUrl(t: Tables, url: string, folderId: Option<int>, up: Upstream)
    requires !ParseFailed(up.meta) && UrlTaken(t.feeds, url)
    ensures CreateSpec(t, url, folderId, up) == (t, UrlConflict)
  {
  }

  /**
   * Creation is not atomic with the first fetch: when the second parse repeats a
   * guid, `Feed.create` raises, yet the new feed row stays committed.
   */
  lemma CreateKeepsFeedWhenFetchFails(t: Tables, url: string, folderId: Option<int>, up: Upstream)
    requires !ParseFailed(up.meta) && !UrlTaken(t.feeds, url)
    requires !ParseFailed(up.entries) && !DistinctGuids(up.entries.entries)
    ensures var (t', r) := CreateSpec(t, url, folderId, up);
      && r == FetchFailed(t.feedSeq + 1)
      && UrlTaken(t'.feeds, url)
      && t'.articles == t.articles
  {
    var (t', r) := CreateSpec(t, url, folderId, up);
    assert t'.feeds[|t.feeds|].url == url;
  }

  /**
   * A successful creation adds exactly one feed row, not deleted, under the
   * next id, and (unless the second parse failed) stores the entries as that
   * feed's articles by the same replacement a refresh performs.
   */
  lemma CreateSucceeds(t: Tables, url: string, folderId: Option<int>, up: Upstream)
    requires !ParseFailed(up.meta) && !UrlTaken(t.feeds, url)
    requires DistinctGuids(up.entries.entries)
    ensures CreateSpec(t, url, folderId, up).1 == Created(t.feedSeq + 1)
    ensures CreateSpec(t, url, folderId, up).0.feeds == t.feeds + [NewFeedRow(t.feedSeq + 1, url, folderId, up)]
    ensures !ParseFailed(up.entries) ==>
      CreateSpec(t, url, folderId, up).0 == ReplaceArticles(AfterFeedInsert(t, url, folderId, up), t.feedSeq + 1, up.entries.entries)
  {
    var t1 := AfterFeedInsert(t, url, folderId, up);
    CreateUnfolds(t, url, folderId, up);
    FetchFailureIsNoOp(t1, t.feedSeq + 1, up.entries);
    if !ParseFailed(up.entries) {
      FetchCommits(t1, t.feedSeq + 1, up.entries);
    }
  }

  /** The tables between the two transactions of `Feed.create`: the feed row committed, no article yet. */
  function AfterFeedInsert(t: Tables, url: string, folderId: Option<int>, up: Upstream): (t1: Tables)
    ensures t1.feeds == t.feeds + [NewFeedRow(t.feedSeq + 1, url, folderId, up)]
    ensures t1.feedSeq == t.feedSeq + 1
    ensures t1.folders == t.folders && t1.articles == t.articles && t1.articleSeq == t.articleSeq
  {
    t.(feeds := t.feeds + [NewFeedRow(t.feedSeq + 1, url, folderId, up)], feedSeq := t.feedSeq + 1)
  }

  lemma CreateUnfolds(t: Tables, url: string, folderId: Option<int>, up: Upstream)
    requires !ParseFailed(up.meta) && !UrlTaken(t.feeds, url)
    ensures var fetched := FetchSpec(AfterFeedInsert(t, url, folderId, up), t.feedSeq + 1, up.entries);
      CreateSpec(t, url, folderId, up) ==
        (fetched.0, if fetched.1 == DuplicateGuid then FetchFailed(t.feedSeq + 1) else Created(t.feedSeq + 1))
  {
  }

  lemma CreateKeepsWellFormed(t: Tables, url: string, folderId: Option<int>, up: Upstream)
    requires WellFormed(t)
    ensures WellFormed(CreateSpec(t, url, folderId, up).0)
  {
    if !ParseFailed(up.meta) && !UrlTaken(t.feeds, url) {
      var id := t.feedSeq + 1;
      var t1 := AfterFeedInsert(t, url, folderId, up);
      InsertKeepsWellFormed(t, url, folderId, up);
      FetchKeepsWellFormed(t1, id, up.entries);
      CreateUnfolds(t, url, folderId, up);
    }
  }

  /** The first transaction of `Feed.create` keeps ids increasing and URLs unique. */
  lemma InsertKeepsWellFormed(t: Tables, url: string, folderId: Option<int>, up: Upstream)
    requires WellFormed(t) && !UrlTaken(t.feeds, url)
    ensures WellFormed(AfterFeedInsert(t, url, folderId, up))
  {
    var id := t.feedSeq + 1;
    var rows := t.feeds + [NewFeedRow(id, url, folderId, up)];
    assert FeedsOk(rows, id) by {
      forall i | 0 <= i < |rows| ensures 0 < rows[i].id <= id {
        if i < |t.feeds| { assert rows[i] == t.feeds[i]; }
      }
      forall i, j | 0 <= i < j < |rows| ensures rows[i].id < rows[j].id && rows[i].url != rows[j].url {
        assert rows[i] == t.feeds[i];
        if j < |t.feeds| {
          assert rows[j] == t.feeds[j];
        } else {
          assert t.feeds[i] in t.feeds;
        }
      }
    }
    WithFeeds(t, rows, id);
  }

  /** Creation never removes or rewrites a stored feed row. */
  lemma CreateKeepsFeeds(t: Tables, url: string, folderId: Option<int>, up: Upstream)
    ensures t.feeds <= CreateSpec(t, url, folderId, up).0.feeds
  {
  }

  /**
   * `Feed.refresh`: an unknown id is a no-op; for a stored feed (deleted or
   * not) run the fetch, then stamp `last_updated` in a second transaction.
   * The stamp is written even when the fetch returned early on a failed
   * parse, and skipped only when the fetch raised.
   */
  function RefreshSpec(t: Tables, feedId: int, doc: Document, now: DateTime): (Tables, RefreshOutcome)
  {
    if FindFeed(t.feeds, feedId).None? then (t, UnknownFeed)
    else
      var (t1, fetched) := FetchSpec(t, feedId, doc);
      if fetched == DuplicateGuid then (t, RefreshFailed)
      else (t1.(feeds := Stamp(t1.feeds, feedId, now)), Refreshed(fetched))
  }

  lemma RefreshUnknownIsNoOp(t: Tables, feedId: int, doc: Document, now: DateTime)
    requires forall i :: 0 <= i < |t.feeds| ==> t.feeds[i].id != feedId
    ensures RefreshSpec(t, feedId, doc, now) == (t, UnknownFeed)
  {
  }

  /** A failed parse leaves the articles alone but still stamps the feed as updated. */
  lemma RefreshStampsOnParseFailure(t: Tables, feedId: int, doc: Document, now: DateTime)
    requires FindFeed(t.feeds, feedId).Some?
    requires ParseFailed(doc)
    ensures var (t', r) := RefreshSpec(t, feedId, doc, now);
      && r == Refreshed(ParseFailure)
      && t'.articles == t.articles
      && forall i :: 0 <= i < |t'.feeds| && t'.feeds[i].id == feedId ==> t'.feeds[i].lastUpdated == Some(now)
  {
  }

  /** A repeated guid during refresh rolls everything back, `last_updated` included. */
  lemma RefreshDuplicateRollsBack(t: Tables, feedId: int, doc: Document, now: DateTime)
    requires FindFeed(t.feeds, feedId).Some?
    requires !ParseFailed(doc) && !DistinctGuids(doc.entries)
    ensures RefreshSpec(t, feedId, doc, now) == (t, RefreshFailed)
  {
  }

  lemma RefreshKeepsWellFormed(t: Tables, feedId: int, doc: Document, now: DateTime)
    requires WellFormed(t)
    ensures WellFormed(RefreshSpec(t, feedId, doc, now).0)
  {
    if FindFeed(t.feeds, feedId).Some? {
      FetchKeepsWellFormed(t, feedId, doc);
      var (t1, fetched) := FetchSpec(t, feedId, doc);
      if fetched != DuplicateGuid {
        StampKeepsWellFormed(t1, feedId, now);
      }
    }
  }
}
