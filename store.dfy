/**
 * The store as the models use it (models.py): a connection-free object holding
 * the three tables, whose methods are `Folder`, `Feed` and `Article` operations.
 * Every method keeps the schema invariants and says what the tables are
 * afterwards; the multi-statement ones are proved against the functions of
 * module Reconcile.
 */
module Store {
  import opened Wrappers
  import opened FeedParsing
  import opened Schema
  import opened Reconcile

  class FeedStore {
    var folders: seq<FolderRow>
    var feeds: seq<FeedRow>
    var articles: seq<ArticleRow>
    var folderSeq: int
    var feedSeq: int
    var articleSeq: int

    /** The tables as a value. */
    function Snapshot(): Tables
      reads this
    {
      Tables(folders, feeds, articles, folderSeq, feedSeq, articleSeq)
    }

    ghost predicate Valid()
      reads this
    {
      WellFormed(Snapshot())
    }

    /** `init_db` on a new database file (database.py:56-109): three empty tables. */
    constructor ()
      ensures Valid()
      ensures Snapshot() == EmptyTables()
    {
      folders, feeds, articles := [], [], [];
      folderSeq, feedSeq, articleSeq := 0, 0, 0;
    }

    /** The rollback of a `with get_db()` block: back to the tables it started from. */
    method Restore(t: Tables)
      modifies this
      ensures Snapshot() == t
    {
      folders, feeds, articles := t.folders, t.feeds, t.articles;
      folderSeq, feedSeq, articleSeq := t.folderSeq, t.feedSeq, t.articleSeq;
    }

    // -------------------------------------------------------------------------
    // Folder (models.py:9-34)

    /** `Folder.create`: a new row under the next id, or an IntegrityError when the name is taken. */
    method CreateFolder(name: string) returns (id: Option<int>)
      requires Valid()
      modifies this
      ensures Valid()
      ensures id.None? <==> old(NameTaken(folders, name))
      ensures id.None? ==> Snapshot() == old(Snapshot())
      ensures id.Some? ==> id.value == old(folderSeq) + 1 && folderSeq == id.value
      ensures id.Some? ==> folders == old(folders) + [FolderRow(id.value, name)]
      ensures feeds == old(feeds) && articles == old(articles)
      ensures feedSeq == old(feedSeq) && articleSeq == old(articleSeq)
    {
      if NameTaken(folders, name) {
        return None;
      }
      folderSeq := folderSeq + 1;
      folders := folders + [FolderRow(folderSeq, name)];
      id := Some(folderSeq);
    }

    /** `Folder.update`: renames the folder, or raises when another folder has the name. */
    method RenameFolder(id: int, name: string) returns (ok: bool)
      requires Valid()
      modifies this
      ensures Valid()
      ensures ok <==> !old(RenameClashes(folders, id, name))
      ensures ok ==> folders == RenameRows(old(folders), id, name)
      ensures !ok ==> folders == old(folders)
      ensures feeds == old(feeds) && articles == old(articles)
      ensures folderSeq == old(folderSeq) && feedSeq == old(feedSeq) && articleSeq == old(articleSeq)
    {
      if RenameClashes(folders, id, name) {
        return false;
      }
      RenameKeepsOk(folders, id, name, folderSeq);
      folders := RenameRows(folders, id, name);
      ok := true;
    }

    /**
     * `Folder.delete`: removes the folder row only. Foreign keys are not
     * enforced (database.py:12-13), so feeds keep their `folder_id`.
     */
    method DeleteFolder(id: int)
      requires Valid()
      modifies this
      ensures Valid()
      ensures folders == RemoveFolder(old(folders), id)
      ensures feeds == old(feeds) && articles == old(articles)
      ensures folderSeq == old(folderSeq) && feedSeq == old(feedSeq) && articleSeq == old(articleSeq)
    {
      RemoveFolderKeepsOk(folders, id, folderSeq);
      folders := RemoveFolder(folders, id);
    }

    // -------------------------------------------------------------------------
    // Feed (models.py:36-125)

    /** `Feed.create`. */
    method CreateFeed(url: string, folderId: Option<int>, up: Upstream) returns (r: CreateOutcome)
      requires Valid()
      modifies this
      ensures Valid()
      ensures (Snapshot(), r) == CreateSpec(old(Snapshot()), url, folderId, up)
    {
      if ParseFailed(up.meta) {
        return InvalidFeed;
      }
      // first transaction: INSERT INTO feeds
      if UrlTaken(feeds, url) {
        return UrlConflict;
      }
      ghost var before := Snapshot();
      InsertKeepsWellFormed(before, url, folderId, up);
      var id := feedSeq + 1;
      feeds := feeds + [NewFeedRow(id, url, folderId, up)];
      feedSeq := id;
      assert Snapshot() == AfterFeedInsert(before, url, folderId, up);
      CreateUnfolds(before, url, folderId, up);
      // second step: the initial article fetch
      var fetched := FetchForFeed(id, up.entries);
      r := if fetched == DuplicateGuid then FetchFailed(id) else Created(id);
    }

    /** `Feed.update`: only the arguments that are not None are written. */
    method UpdateFeed(id: int, title: Option<string>, folderId: Option<int>)
      requires Valid()
      modifies this
      ensures Valid()
      ensures feeds == UpdateFeedRows(old(feeds), id, title, folderId)
      ensures folders == old(folders) && articles == old(articles)
      ensures folderSeq == old(folderSeq) && feedSeq == old(feedSeq) && articleSeq == old(articleSeq)
    {
      var updated := UpdateFeedRows(feeds, id, title, folderId);
      SameKeysKeepFeedsOk(feeds, updated, feedSeq);
      feeds := updated;
    }

    /** `Feed.delete`: sets `deleted` on the row; the row and its articles stay. */
    method DeleteFeed(id: int)
      requires Valid()
      modifies this
      ensures Valid()
      ensures feeds == SoftDelete(old(feeds), id)
      ensures folders == old(folders) && articles == old(articles)
      ensures folderSeq == old(folderSeq) && feedSeq == old(feedSeq) && articleSeq == old(articleSeq)
    {
      var updated := SoftDelete(feeds, id);
      SameKeysKeepFeedsOk(feeds, updated, feedSeq);
      feeds := updated;
    }

    /** `Feed.refresh`: `doc` is the parse of the stored URL, `now` the clock. */
    method RefreshFeed(id: int, doc: Document, now: DateTime) returns (r: RefreshOutcome)
      requires Valid()
      modifies this
      ensures Valid()
      ensures (Snapshot(), r) == RefreshSpec(old(Snapshot()), id, doc, now)
    {
      var feed := FindFeed(feeds, id);
      if feed.None? {
        return UnknownFeed;
      }
      ghost var before := Snapshot();
      var fetched := FetchForFeed(id, doc);
      if fetched == DuplicateGuid {
        return RefreshFailed;
      }
      // second transaction: UPDATE feeds SET last_updated
      ghost var t1 := Snapshot();
      StampKeepsWellFormed(t1, id, now);
      feeds := Stamp(feeds, id, now);
      assert Snapshot() == t1.(feeds := Stamp(t1.feeds, id, now));
      r := Refreshed(fetched);
    }

    // -------------------------------------------------------------------------
    // Article (models.py:127-237)

    /** `Article.mark_read`: one flag of one article. */
    method MarkRead(id: int, read: bool)
      requires Valid()
      modifies this
      ensures Valid()
      ensures articles == SetRead(old(articles), id, read)
      ensures folders == old(folders) && feeds == old(feeds)
      ensures folderSeq == old(folderSeq) && feedSeq == old(feedSeq) && articleSeq == old(articleSeq)
    {
      var updated := SetRead(articles, id, read);
      SameKeysKeepArticlesOk(articles, updated, articleSeq);
      articles := updated;
    }

    /** `Article.mark_starred`: one flag of one article. */
    method MarkStarred(id: int, starred: bool)
      requires Valid()
      modifies this
      ensures Valid()
      ensures articles == SetStarred(old(articles), id, starred)
      ensures folders == old(folders) && feeds == old(feeds)
      ensures folderSeq == old(folderSeq) && feedSeq == old(feedSeq) && articleSeq == old(articleSeq)
    {
      var updated := SetStarred(articles, id, starred);
      SameKeysKeepArticlesOk(articles, updated, articleSeq);
      articles := updated;
    }

    /** `Article.mark_all_read`. */
    method MarkAllReadIn(feedId: Option<int>)
      requires Valid()
      modifies this
      ensures Valid()
      ensures articles == MarkAllRead(old(articles), feedId)
      ensures folders == old(folders) && feeds == old(feeds)
      ensures folderSeq == old(folderSeq) && feedSeq == old(feedSeq) && articleSeq == old(articleSeq)
    {
      var updated := MarkAllRead(articles, feedId);
      SameKeysKeepArticlesOk(articles, updated, articleSeq);
      articles := updated;
    }

    /** One `INSERT INTO articles`: fails on a taken (feed_id, guid), else appends under the next id. */
    method InsertArticle(feedId: int, data: ArticleData) returns (ok: bool)
      modifies this
      ensures ok <==> !old(KeyTaken(articles, feedId, data.guid))
      ensures ok ==> articleSeq == old(articleSeq) + 1
      ensures ok ==> articles == old(articles) + [ArticleRow(articleSeq, feedId, data, false, false)]
      ensures !ok ==> articles == old(articles) && articleSeq == old(articleSeq)
      ensures folders == old(folders) && feeds == old(feeds)
      ensures folderSeq == old(folderSeq) && feedSeq == old(feedSeq)
    {
      if KeyTaken(articles, feedId, data.guid) {
        return false;
      }
      articleSeq := articleSeq + 1;
      articles := articles + [ArticleRow(articleSeq, feedId, data, false, false)];
      ok := true;
    }

    /**
     * `Article.fetch_for_feed`: delete the feed's rows, then insert one row per
     * entry; an insert that repeats a (feed_id, guid) raises and the block's
     * rollback restores the tables it started from.
     */
    method FetchForFeed(feedId: int, doc: Document) returns (outcome: FetchOutcome)
      modifies this
      ensures old(Valid()) ==> Valid()
      ensures (Snapshot(), outcome) == FetchSpec(old(Snapshot()), feedId, doc)
    {
      if ParseFailed(doc) {
        return ParseFailure;
      }
      var saved := Snapshot();
      articles := Select(articles, feedId, false);
      var ok := InsertEntries(feedId, doc.entries);
      if !ok {
        FetchFailureIsNoOp(saved, feedId, doc);
        Restore(saved);
        return DuplicateGuid;
      }
      FetchCommits(saved, feedId, doc);
      assert Snapshot() == ReplaceArticles(saved, feedId, doc.entries);
      if WellFormed(saved) {
        FetchKeepsWellFormed(saved, feedId, doc);
      }
      outcome := Replaced(|doc.entries|);
    }

    /**
     * The insert loop of `fetch_for_feed`, after the DELETE: one row per entry
     * in order, stopping at the first UNIQUE(feed_id, guid) clash. It gets
     * through exactly when the guids are distinct; the caller rolls back
     * otherwise.
     */
    method InsertEntries(feedId: int, entries: seq<Entry>) returns (ok: bool)
      requires forall x :: x in articles ==> x.feedId != feedId
      modifies this
      ensures folders == old(folders) && feeds == old(feeds)
      ensures folderSeq == old(folderSeq) && feedSeq == old(feedSeq)
      ensures ok <==> DistinctGuids(entries)
      ensures ok ==> articles == old(articles) + NewRows(feedId, entries, old(articleSeq) + 1)
      ensures ok ==> articleSeq == old(articleSeq) + |entries|
    {
      var kept := articles;
      var i := 0;
      while i < |entries|
        invariant 0 <= i <= |entries|
        invariant folders == old(folders) && feeds == old(feeds)
        invariant folderSeq == old(folderSeq) && feedSeq == old(feedSeq)
        invariant articles == kept + NewRows(feedId, entries[..i], old(articleSeq) + 1)
        invariant articleSeq == old(articleSeq) + i
        invariant DistinctGuids(entries[..i])
      {
        var inserted := InsertArticle(feedId, NormaliseEntry(entries[i]));
        if !inserted {
          RepeatedGuid(kept, feedId, entries, i, old(articleSeq) + 1);
          return false;
        }
        NewRowsGrow(feedId, entries, i, old(articleSeq) + 1);
        NoRepeatSoFar(kept, feedId, entries, i, old(articleSeq) + 1);
        i := i + 1;
      }
      assert entries[..i] == entries;
      return true;
    }
  }

  lemma NewRowsGrow(feedId: int, entries: seq<Entry>, i: int, firstId: int)
    requires 0 <= i < |entries|
    ensures NewRows(feedId, entries[..i + 1], firstId) ==
            NewRows(feedId, entries[..i], firstId) + [ArticleRow(firstId + i, feedId, NormaliseEntry(entries[i]), false, false)]
  {
    assert entries[..i + 1][..i] == entries[..i];
  }

  /** A clash on the insert of entry `i` means an earlier entry had the same guid. */
  lemma RepeatedGuid(kept: seq<ArticleRow>, feedId: int, entries: seq<Entry>, i: int, firstId: int)
    requires 0 <= i < |entries|
    requires forall x :: x in kept ==> x.feedId != feedId
    requires KeyTaken(kept + NewRows(feedId, entries[..i], firstId), feedId, NormaliseEntry(entries[i]).guid)
    ensures !DistinctGuids(entries)
  {
    var added := NewRows(feedId, entries[..i], firstId);
    KeyTakenInAdded(kept, added, feedId, NormaliseEntry(entries[i]).guid);
    var j :| 0 <= j < |added| && added[j].feedId == feedId && added[j].data.guid == NormaliseEntry(entries[i]).guid;
    assert added[j].data == NormaliseEntry(entries[..i][j]);
    assert entries[..i][j] == entries[j];
    assert GuidOf(entries[j]) == GuidOf(entries[i]);
  }

  /** Rows of other feeds cannot hold a key of this feed. */
  lemma KeyTakenInAdded(kept: seq<ArticleRow>, added: seq<ArticleRow>, feedId: int, guid: string)
    requires forall x :: x in kept ==> x.feedId != feedId
    requires KeyTaken(kept + added, feedId, guid)
    ensures KeyTaken(added, feedId, guid)
  {
    var rows := kept + added;
    var k :| 0 <= k < |rows| && rows[k].feedId == feedId && rows[k].data.guid == guid;
    if k >= |kept| {
      assert rows[k] == added[k - |kept|];
    }
  }

  /** Without a clash on the insert of entry `i`, the first `i + 1` guids are still distinct. */
  lemma NoRepeatSoFar(kept: seq<ArticleRow>, feedId: int, entries: seq<Entry>, i: int, firstId: int)
    requires 0 <= i < |entries|
    requires DistinctGuids(entries[..i])
    requires !KeyTaken(kept + NewRows(feedId, entries[..i], firstId), feedId, NormaliseEntry(entries[i]).guid)
    ensures DistinctGuids(entries[..i + 1])
  {
    var rows := kept + NewRows(feedId, entries[..i], firstId);
    var p := entries[..i + 1];
    forall a, b | 0 <= a < b < |p| ensures GuidOf(p[a]) != GuidOf(p[b]) {
      if b == i {
        assert rows[|kept| + a] == NewRows(feedId, entries[..i], firstId)[a];
        assert rows[|kept| + a].feedId == feedId;
      } else {
        assert p[a] == entries[..i][a] && p[b] == entries[..i][b];
      }
    }
  }
}
