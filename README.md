# RSS reader store, in Dafny

This project models the core of a small RSS/Atom reader. The reader is a Flask
application backed by SQLite.

- **The store.** `Store.FeedStore` is a class holding the three tables
  (`folders`, `feeds`, `articles`) and their AUTOINCREMENT counters. Its
  methods are the `Folder`, `Feed` and `Article` operations of `models.py`.
  Each method keeps the schema's invariants:
  - ids increase in insertion order;
  - folder names are unique, and so are feed URLs;
  - `(feed_id, guid)` is unique.
- **The multi-statement operations.** The article refresh `fetch_for_feed`,
  `Feed.create` and `Feed.refresh` are proved against functions on the value
  `Schema.Tables` (`FetchSpec`, `CreateSpec`, `RefreshSpec` in module
  `Reconcile`). `get_db`'s commit-or-rollback is modelled as follows:
  - a failed block returns the tables it started from;
  - in the imperative fetch, `Restore` puts a saved snapshot back after a
    UNIQUE clash.
- **The parser, the network and the clock.** The feed document that
  `feedparser` returns is an abstract `FeedParsing.Document`: a bozo flag,
  feed metadata and entries with optional keys. `Feed.create` parses its URL
  twice, and the `Upstream` record carries both parses and the clock.
- **The read side.** `Feed.get_all` and `Article.get_all` are functions in
  module `Queries`.
- **Seeding.** `add_default_feeds` is `Seeding.AddDefaultFeeds`.
- **The routes.** The decisions of the HTTP routes are in `Api`; how the article routes read their query strings and JSON bodies is in `Params`. The OPML
  export, with its grouping loop and its string assembly, is in `Opml`.
- **The client.** The client's `escapeHtml` and the day buckets of
  `formatDate` are in `ClientText`.

Notable behaviours of the code, which the model follows:
- A repeated folder name or feed URL is an IntegrityError and answers 500,
  not a 4xx.
- `Feed.create` commits the feed row before the initial fetch, so creation
  is not atomic with it. A failed fetch leaves a feed without articles.
- A refresh replaces every article row, so read and starred flags are lost
  even for unchanged guids.
- `Feed.refresh` stamps `last_updated` even when the fetch returned early on
  a failed parse.
- Foreign keys are not enforced. Deleting a folder leaves its feeds'
  `folder_id` dangling, and the listing then shows no folder name.
- `formatDate` shows a future date as `-Nd ago`.
- The OPML export writes titles and URLs into attributes without XML
  escaping.
- The article filters read only the word `true` as True, so `read=1`
  lists unread articles. The mark routes store the truthiness of any JSON
  value, so `{"read": "false"}` marks an article read.
- `sqlite3` binds only 64-bit integers. An article or folder id, a
  `feed_id`, a `folder_id` or a `limit` beyond that range answers 500 once
  it reaches SQLite. In the query string, `int()` first refuses text of more
  than 4300 digits, so there such text counts as absent. A `feed_id` sent as text that long is
  converted by SQLite to a REAL and matches no feed instead.

## Model

| member | source | states |
|---|---|---|
| Text.FirstPresent | models.py:211-215 | a `dict.get` fallback chain yields the first key present (even if empty), else the default |
| Text.Fold | models.py:148-151 | SQLite's LIKE folds ASCII upper-case letters only, position by position |
| Text.TextLeTotal | models.py:14 | the TEXT order used by ORDER BY relates every two strings |
| Text.TextLeTransitive | models.py:50 | the TEXT order used by ORDER BY is transitive |
| Text.TextLeAntisymmetric | models.py:50 | two strings ordered both ways are equal |
| FeedParsing.DaysInMonth | models.py:221 | the month lengths `datetime` accepts: 28 to 31, and 29 exactly for February of a leap year |
| FeedParsing.ToDateTime | models.py:220-223 | `datetime(*parsed[:6])` gives the same six fields, or None exactly when the constructor would raise |
| FeedParsing.PublishedDate | models.py:218-228 | `published_parsed` wins when present, even if unconvertible; `updated_parsed` only without it; else NULL; a date results exactly when the chosen key converts |
| FeedParsing.NormaliseEntry | models.py:211-228 | guid id→link→"", title "Untitled", link "", description→summary→"", author "", published by the date rule |
| FeedParsing.FeedMetadata | models.py:72-74 | feed title defaults to "Untitled Feed", description falls back to subtitle then "", link to "" |
| FeedParsing.EmptyIdIsKept | models.py:211 | an entry whose `id` key is present but empty keeps the empty guid instead of its link |
| FeedParsing.BadPublishedHidesUpdated | models.py:219-228 | an unconvertible `published_parsed` gives NULL even when `updated_parsed` would convert |
| Schema.EmptyTables | database.py:56-109 | `init_db` on a fresh file gives three empty tables that satisfy every schema invariant |
| Schema.WithArticles | database.py:85-100 | a new articles table with unique keys and ids below a counter that did not go back keeps the schema invariants |
| Schema.WithFeeds | database.py:70-82 | the same for a new feeds table |
| Schema.StampKeepsWellFormed | models.py:120-123 | stamping `last_updated` keeps every schema invariant |
| Schema.FindFeed | models.py:55-60 | the row with that id, deleted or not, and None exactly when no row has it |
| Schema.FindArticle | models.py:160-165 | the article with that id, and None exactly when no row has it |
| Schema.FolderName | models.py:43-46 | the LEFT JOIN yields a name only for a folder row with that id, else NULL |
| Schema.Select | models.py:204 | the rows of one feed (or of all other feeds), in table order: the filter and what the DELETE leaves |
| Schema.SelectConcat | models.py:204 | selecting by feed distributes over concatenation of tables |
| Schema.SelectKeepsOk | database.py:99 | a selection of a well-formed articles table is well formed |
| Schema.SetRead | models.py:167-172 | exactly the rows with that id get the new read flag; all other rows are unchanged |
| Schema.SetStarred | models.py:174-179 | exactly the rows with that id get the new starred flag; all other rows are unchanged |
| Schema.MarkAllRead | models.py:181-188 | with a truthy feed id only that feed's rows become read; otherwise every row does |
| Schema.UnreadCount | models.py:44 | a feed's unread count never exceeds its article count |
| Schema.MarkAllReadCounts | models.py:185-186 | after marking one feed read, it has no unread article and every other feed's count is unchanged |
| Schema.MarkAllReadGlobal | models.py:187-188 | with no feed id (or 0), every feed's unread count becomes zero |
| Schema.Stamp | models.py:120-123 | only the rows with that id get the new `last_updated` |
| Schema.UpdateFeedRows | models.py:91-99 | only arguments that are not None are written, so `folder_id` cannot be cleared |
| Schema.SoftDelete | models.py:101-108 | the row stays and only its deleted flag is set |
| Schema.RenameRows | models.py:24-28 | only the folder with that id is renamed |
| Schema.RemoveFolder | models.py:30-34 | exactly the folder rows with another id remain |
| Schema.RenameKeepsOk | database.py:65 | a rename that does not clash keeps folder names unique |
| Schema.RemoveFolderKeepsOk | database.py:62-67 | deleting a folder keeps the folders table well formed |
| Sorting.InsertBy | models.py:153 | inserting into an ordered sequence keeps it ordered and adds exactly that row |
| Sorting.SortBy | models.py:153 | ORDER BY returns a permutation of the rows that is ordered |
| Sorting.Limit | models.py:153-154 | LIMIT keeps a prefix of at most n rows; a negative limit keeps all |
| Sorting.TopOfSorted | models.py:153-154 | the rows LIMIT keeps are ordered, drawn from the input, and sort before every row left out |
| Queries.ListFolders | models.py:11-15 | every folder once, ordered by name |
| Queries.LiveFeeds | models.py:48 | exactly the feeds not soft-deleted |
| Queries.ListFeeds | models.py:37-52 | exactly the live feeds, each once with its folder name and unread count (a permutation of the annotated live rows), ordered by title |
| Queries.Matching | models.py:133-151 | exactly the rows that match every supplied filter and whose feed row exists |
| Queries.Matches | models.py:133-151 | the WHERE clause as a predicate: the JOIN needs the article's feed row (deleted or not), every supplied filter must hold, and an empty search adds nothing; its consequences are stated by `Matching` and `ListArticles` |
| Queries.ListArticles | models.py:128-157 | matching rows only, newest first with NULL last; at most `limit` of them (all for a negative limit); none left out is newer than a kept one |
| Queries.NewestFirst | models.py:153-154 | sorting by published DESC then LIMIT keeps a sub-multiset, in order, of the right size |
| Queries.GetArticle | models.py:159-165 | the article with that id, or None exactly when there is none |
| Queries.SoftDeleteKeepsArticles | models.py:133 | soft-deleting a feed does not change any article listing: the JOIN ignores `deleted` |
| Queries.SoftDeleteHidesFeed | models.py:101-108 | after a soft delete no feed listing has that id, and every other live feed is still listed |
| Queries.DeleteFolderOrphansFeeds | models.py:30-34 | after a folder delete its live feeds are still listed, with no folder name |
| Queries.MatchingOneFeed | models.py:136-138 | filtering on a stored feed id gives exactly that feed's rows, in table order |
| Queries.ArticlesOfFeedListed | models.py:133-138 | with no limit, the listing for a stored feed holds exactly that feed's articles |
| Reconcile.NewRows | models.py:210-235 | one row per entry, in entry order, with consecutive ids, the normalised columns, read = 0 and starred = 0 |
| Reconcile.ReplaceArticles | models.py:200-235 | the committed block: other feeds' rows, then the new rows; the counter advances by the entry count |
| Reconcile.FetchSpec | models.py:190-237 | `fetch_for_feed` as a function of the tables: a failed parse returns early, a repeated guid rolls back, otherwise the replacement; its properties are the lemmas below and `Store.FeedStore.FetchForFeed` is proved equal to it |
| Reconcile.FetchCommits | models.py:200-235 | a parsed document with distinct guids commits the replacement |
| Reconcile.FetchFailureIsNoOp | models.py:194-198 | the outcome is a parse failure or a repeated guid exactly in those cases, and then no table changes |
| Reconcile.FetchReplaces | models.py:204-235 | after a commit the feed's articles are exactly the new rows, and other feeds' articles are as before, in order |
| Reconcile.FetchResetsFlags | models.py:231-234 | after a commit every article of the feed is unread and unstarred and comes from some entry |
| Reconcile.RefetchSameContents | models.py:190-237 | refreshing twice from the same document commits again and stores the same article contents |
| Reconcile.FetchKeepsWellFormed | database.py:99 | a fetch, committed or not, keeps every schema invariant |
| Reconcile.ReplaceKeepsWellFormed | database.py:85-100 | the replacement keeps ids increasing and (feed_id, guid) unique when the guids are distinct |
| Reconcile.NewRowsOk | database.py:99 | the inserted rows have increasing ids above the old counter and distinct guids |
| Reconcile.NewFeedRow | models.py:72-81 | the new feed row has the URL, folder, metadata defaults, the clock, and deleted = 0 |
| Reconcile.CreateSpec | models.py:62-89 | `Feed.create` as a function of the tables: the bozo check, the feed insert in its own transaction, then the fetch; its properties are the lemmas below |
| Reconcile.CreateRejectsInvalid | models.py:66-70 | a bozo document with no entries raises and adds no feed and no article |
| Reconcile.CreateRejectsTakenUrl | models.py:76-82 | a URL already stored, even soft-deleted, fails the insert and changes nothing |
| Reconcile.CreateKeepsFeedWhenFetchFails | models.py:76-87 | when the initial fetch hits a repeated guid, the committed feed row stays and has no articles |
| Reconcile.CreateSucceeds | models.py:63-89 | a fresh URL with a good document is created under the next id, and its entries are stored by the refresh replacement |
| Reconcile.AfterFeedInsert | models.py:76-82 | the first transaction appends the new feed row and advances the feed counter only |
| Reconcile.CreateUnfolds | models.py:76-89 | creation is the feed insert followed by the fetch; only a repeated guid makes it report failure |
| Reconcile.CreateKeepsWellFormed | database.py:70-100 | every outcome of creation keeps the schema invariants |
| Reconcile.InsertKeepsWellFormed | database.py:73 | inserting a URL not yet stored keeps ids increasing and URLs unique |
| Reconcile.CreateKeepsFeeds | models.py:63-89 | creation never removes or rewrites a stored feed row |
| Reconcile.RefreshSpec | models.py:110-125 | `Feed.refresh` as a function of the tables: unknown id, fetch, then the stamp unless the fetch raised; its properties are the lemmas below |
| Reconcile.RefreshUnknownIsNoOp | models.py:113-116 | refreshing an unknown id changes nothing |
| Reconcile.RefreshStampsOnParseFailure | models.py:118-123 | a failed parse leaves the articles alone but still stamps `last_updated` |
| Reconcile.RefreshDuplicateRollsBack | database.py:14-19 | a repeated guid during refresh rolls back, so nothing changes, `last_updated` included |
| Reconcile.RefreshKeepsWellFormed | models.py:110-125 | a refresh keeps every schema invariant |
| Store.FeedStore.constructor | database.py:56-109 | a new store holds the empty tables |
| Store.FeedStore.Restore | database.py:17-19 | rollback: the tables become the saved snapshot |
| Store.FeedStore.CreateFolder | models.py:17-22 | a taken name fails and changes nothing; otherwise the folder is appended under the next id |
| Store.FeedStore.RenameFolder | models.py:24-28 | a clashing name fails and changes nothing; otherwise only that folder is renamed |
| Store.FeedStore.DeleteFolder | models.py:30-34 | only the folder row goes; feeds and articles are untouched |
| Store.FeedStore.CreateFeed | models.py:62-89 | the new tables and outcome are those of `CreateSpec` |
| Store.FeedStore.UpdateFeed | models.py:91-99 | the feeds table becomes `UpdateFeedRows` of the old one; the rest is unchanged |
| Store.FeedStore.DeleteFeed | models.py:101-108 | the feeds table becomes its soft delete; articles are untouched |
| Store.FeedStore.RefreshFeed | models.py:110-125 | the new tables and outcome are those of `RefreshSpec` |
| Store.FeedStore.MarkRead | models.py:167-172 | the articles become `SetRead` of the old ones; nothing else changes |
| Store.FeedStore.MarkStarred | models.py:174-179 | the articles become `SetStarred` of the old ones; nothing else changes |
| Store.FeedStore.MarkAllReadIn | models.py:181-188 | the articles become `MarkAllRead` of the old ones; nothing else changes |
| Store.FeedStore.InsertArticle | models.py:231-234 | the insert succeeds exactly when the (feed_id, guid) key is free, and then appends a new unread, unstarred row |
| Store.FeedStore.FetchForFeed | models.py:190-237 | the insert loop ends in the tables and outcome of `FetchSpec`, rolling back on a clash |
| Store.FeedStore.InsertEntries | models.py:209-235 | the insert loop gets through exactly when the guids are distinct, and then has appended one new row per entry in order |
| Store.RepeatedGuid | database.py:99 | a clash on inserting entry i means an earlier entry has the same guid |
| Store.NoRepeatSoFar | database.py:99 | without a clash on entry i, the first i + 1 guids are distinct |
| Seeding.LiveCount | database.py:29-30 | the count is zero exactly when every feed is soft-deleted |
| Seeding.SeedFrom | database.py:44-52 | the creation loop over a URL list, counting the `Created` outcomes |
| Seeding.SeedSpec | database.py:23-54 | the whole routine: nothing when a live feed exists, else the loop over the default list |
| Seeding.AddDefaultFeeds | database.py:23-54 | the loop ends in the tables and success count of `SeedSpec` |
| Seeding.SeedSkippedWhenLive | database.py:29-32 | one live feed switches seeding off and nothing changes |
| Seeding.SeedCountBound | database.py:45-54 | the success count never exceeds the number of URLs |
| Seeding.SeedKeepsWellFormed | database.py:46-48 | seeding keeps every schema invariant |
| Seeding.SeedKeepsFeeds | database.py:46-52 | seeding never removes a stored feed row |
| Seeding.SeedAllCreated | database.py:45-50 | distinct new URLs with good documents are all created, so the count equals the list length |
| Seeding.DefaultsAllCreated | database.py:34-50 | on an empty store with good documents all eight defaults are added |
| Seeding.DefaultsDistinct | database.py:34-43 | the eight default URLs are distinct |
| Seeding.SeedTakenUrlFails | database.py:46-52 | a URL already stored, even soft-deleted, makes the count fall short |
| Seeding.SeedAllTaken | database.py:44-52 | over URLs all already stored, soft-deleted or not, the loop leaves the tables unchanged and counts zero |
| Seeding.SeedAfterDeletingAll | database.py:29-52 | when every feed row is soft-deleted and every default URL is stored, seeding runs, leaves the tables unchanged and reports a count of zero |
| Params.IntOf | app.py:145 | `int()` succeeds exactly on an optional sign followed by at most 4300 decimal digits (CPython's default digit limit), with the value and sign of the text |
| Params.IntOfShow | app.py:145 | `int()` reads back the decimal text of every whole number of at most 4300 digits and refuses longer ones |
| Params.IntArg | app.py:145-149 | `type=int` gives the number for integer text within the digit limit and the default for an absent key or any other text |
| Params.IntArgShow | app.py:145-149 | a number's text gives that number within the digit limit and the default beyond it; an absent key gives the default |
| Params.FlagArg | app.py:146-147 | absent or empty is no filter; otherwise True exactly for a case-insensitive `true` |
| Params.FlagArgReadsOnlyTrue | app.py:146-147 | `TRUE` and `True` mean True; `1` and `yes` mean False; empty means no filter |
| Params.FlagField | app.py:178-180 | `None` (500) exactly when the body is not a JSON object; False exactly for a present falsy value; True otherwise, the absent key included |
| Params.FlagFieldDefaults | models.py:167-172 | `{}` and `{"read": "false"}` set the flag, `0` clears it, a list body fails |
| Params.MarkAllTargetOf | app.py:200-202 | 500 exactly for an undecodable body or a truthy non-object one; every article exactly for a falsy body or `feed_id`; a bind error exactly for a truthy list, object or number beyond 64 bits; a feed target is never 0 and fits in 64 bits |
| Params.MarkAllTextOrNumber | models.py:185-186 | a non-zero 64-bit feed id selects that feed whether sent as a number or as its decimal text |
| Params.MarkAllBeyond64 | models.py:185-186 | beyond 64 bits a number `feed_id` is a bind error (500) and its decimal text matches no feed |
| Api.AddFeed | app.py:89-106 | the tables, status and id are those of `AddFeedSpec` |
| Api.CreateStatus | app.py:97-106 | 200 exactly for a created feed, 400 exactly for a failed parse, 500 for a taken URL or a failing fetch |
| Api.AddFeedSpec | app.py:89-106 | `add_feed` as a function of the tables: 400 without a URL, 500 for a `folder_id` beyond 64 bits after a good parse, else `Feed.create` and its status; characterised by `AddFeedStatuses` |
| Api.AddFeedStatuses | app.py:97-106 | 400 exactly for a missing URL or a failed parse, with nothing stored; 200 exactly for a new URL with a 64-bit or absent `folder_id` whose articles store; 500 otherwise, with nothing stored for a `folder_id` beyond 64 bits |
| Api.CreateFolder | app.py:217-231 | 400 exactly for a missing name, 500 exactly for a taken one, each with nothing stored; else 200, the new id, and the tables gain exactly that folder row and its counter step |
| Api.UpdateFolder | app.py:233-247 | 400 exactly for a missing name, 500 exactly for an id beyond 64 bits or a clash, each with nothing changed; else 200 and only the folder rows change, by the rename |
| Api.ArticleResponse | app.py:163-172 | 500 exactly for an id beyond 64 bits; 404 exactly when no article has the id; 200 with that article otherwise |
| Api.ArticleQuery | app.py:141-161 | a `feed_id` or `limit` that `int()` refuses (not integer text, or more than 4300 digits) counts as absent, so `limit` falls back to 100; `read`/`starred` as `FlagArg`; `search` passed on |
| Api.ArticleListResponse | app.py:151-161 | 500 exactly when a present `feed_id` or the `limit` is beyond 64 bits, with no rows; else 200 with `Article.get_all`'s rows |
| Api.ArticleListBeyond64 | app.py:145-161 | integer text beyond 64 bits but within 4300 digits, as `feed_id` or `limit`, passes `int()` and answers 500 |
| Api.ArticleListTooLong | app.py:145-161 | integer text of more than 4300 digits, as `feed_id` or `limit`, counts as absent, so the route lists with the defaults and answers 200 |
| Api.ArticleQueryDefaults | app.py:145-149 | with no arguments the route asks `Article.get_all` for its defaults |
| Api.ReadOneListsUnread | app.py:146-151 | `read=1` lists only unread articles, and `limit=all` lists up to 100 |
| Api.MarkArticleRead | app.py:174-183 | 500 exactly when the body is not a JSON object or the id is beyond 64 bits, with nothing changed; else 200 and the row takes the truthiness of `read`, True when absent |
| Api.MarkArticleStarred | app.py:185-194 | the same for `starred` |
| Api.MarkAllArticlesRead | app.py:196-206 | 500 exactly when the body or its `feed_id` cannot be used, with nothing changed; every article for a falsy `feed_id`; that feed's articles for a 64-bit integer one; nothing for other text |
| Api.ShapeEntryDefaults | app.py:63-69 | title "Untitled", link "", description→summary→"", published→updated→"", author "" |
| Api.ShapeEntry | app.py:63-69 | one entry's view; its fallbacks are stated by `ShapeEntryDefaults` |
| Api.FeedViewOf | app.py:54-59 | the feed object uses the stored feed's defaults, plus `updated` or "" |
| Api.ShapeEntries | app.py:61-69 | the first min(n, 50) entries, each shaped, in document order |
| Api.ParseFeed | app.py:38-74 | 400 exactly without a URL or on a failed parse; otherwise the feed view and exactly min(50, n) shaped entries, in document order |
| Opml.GroupKey | app.py:276 | "Uncategorized" exactly when the folder name is NULL, empty or itself "Uncategorized"; otherwise the name |
| Opml.KeysCover | app.py:274-279 | the group keys are exactly the keys of the listed feeds |
| Opml.MembersExact | app.py:274-279 | a group holds exactly the listed feeds with its key |
| Opml.KeysDistinct | app.py:277-278 | each key opens one group |
| Opml.GroupsPartition | app.py:274-285 | the groups together hold every listed feed exactly as often as the listing does |
| Opml.OneGroupPerFeed | app.py:274-279 | each listed feed is in exactly one group: the one with its key |
| Opml.DocumentFrame | app.py:265-288 | the document starts with the XML declaration and `<opml version="2.0">` and ends with `</opml>` |
| Opml.Document | app.py:265-288 | the XML head with the date, one block per group in key order, and the closing tags; framed by `DocumentFrame` |
| Opml.GroupByFolder | app.py:274-279 | the loop yields groups in order of first appearance, each with its members in listing order |
| Opml.WriteGroup | app.py:282-285 | one opening outline, one line per feed in order, one closing outline |
| Opml.WriteDocument | app.py:265-288 | the accumulated text is head, the groups in order, and the closing tags |
| Opml.ExportOpml | app.py:259-290 | the export is the document for `Feed.get_all`'s listing |
| ClientText.EscapeHtml | static/script.js:364-372 | an absent or empty input gives "" |
| ClientText.EscapeChar | static/script.js:366-371 | any other character is kept as it is |
| ClientText.Chain | static/script.js:366-371 | the five `replace` calls, `&` first; proved equal to the per-character map by `ChainIsPerChar` |
| ClientText.ChainChar | static/script.js:366-371 | on one character the replace chain is the per-character entity map |
| ClientText.ChainIsPerChar | static/script.js:366-371 | with `&` replaced first, the chain equals the per-character map on every string |
| ClientText.EscapeHtmlPerChar | static/script.js:364-372 | `escapeHtml` is "" for a falsy input and the per-character map otherwise |
| ClientText.EscapeHtmlIsSafe | static/script.js:364-372 | the output contains no `<`, `>`, `"` or `'` |
| ClientText.EscapedPlain | static/script.js:366-371 | a string without special characters is returned unchanged |
| ClientText.EscapedNotShorter | static/script.js:366-371 | escaping never shortens its input |
| ClientText.UnescapeEscaped | static/script.js:366-371 | reversing the five entities recovers the input |
| Text.Show | static/script.js:354 | the decimal text of a number starts with `-` exactly for negatives |
| Text.ParseShow | static/script.js:354 | reading back the decimal text gives the number |
| ClientText.FormatDate | static/script.js:344-357 | an absent or empty date gives "" |
| ClientText.FormatDateBuckets | static/script.js:350-356 | 0 days "Today", 1 "Yesterday", 2 to 6 "<n>d ago" with n the floored day difference, 7 or more the locale date, a future date "-<n>d ago" |
| ClientText.AgoNumber | static/script.js:350-354 | the number in "<n>d ago" is the floored day difference, and it is below 7 |

## Left out

- Network fetching and the XML/RSS/Atom parsing of `feedparser` are not modelled. A parse is an input value of type `Document`.
- The SQLite engine is not modelled: SQL text, connections, indexes (database.py:104-107) and the `created_at` default column.
- `LIKE` wildcards `%` and `_` inside the search term are not modelled. `Text.Like` is a case-folded substring match.
- The `feed_title` column that `Article.get_all` joins in is not modelled. Only the article rows are returned.
- `datetime.now()` is a parameter (`Upstream.now`, `now`, `created`). `formatDate`'s `now - date` is a parameter `diffMs`.
- Flask routing, CORS, static files, JSON serialisation and logging are not modelled. In the feed and folder routes and in `/api/parse-feed` the JSON body is taken to be an object whose fields are strings or absent (`folder_id` an integer or absent), as the next four lines say.
- Api.AddFeed: a body that is a JSON list, string or number (the code answers 500, as `.get` raises) is not modelled, nor a `url` or `folder_id` of another JSON type.
- Api.CreateFolder: a body that is a JSON list, string or number (500 in the code) is not modelled, nor a `name` that is not a string.
- Api.UpdateFolder: a body that is a JSON list, string or number (500 in the code) is not modelled, nor a `name` that is not a string.
- Api.ParseFeed: a body that is a JSON list, string or number (500 in the code) is not modelled, nor a `url` that is not a string.
- A request body that does not decode as JSON is taken to make `request.get_json()` raise, as Flask 2.1 and later do, so every route that reads a body answers 500 for it.
- Six routes are one store call inside try/except 500 and have no route member of their own; the store operation each calls is modelled: list feeds (`Queries.ListFeeds`), update feed, delete feed, refresh feed, list folders and delete folder. Non-string `title` and non-integer `folder_id` values sent to the update-feed route are not modelled, nor the 500 that the update, delete and refresh routes answer for a path id or `folder_id` beyond 64 bits.
- Params.IntOf: `int()` also accepts surrounding whitespace, underscores between digits and non-ASCII digits; the model refuses those texts, so they fall back to the default. The 4300-digit limit is CPython's default `sys.int_max_str_digits` (Python 3.11 and later, and the 2022 security releases of 3.7 to 3.10); on an interpreter without it, longer text would be read as its number.
- Params.MarkAllTargetOf: JSON numbers are whole, so a fractional `feed_id` is not modelled. A text `feed_id` that reads as 0 is taken to match no article, which holds because articles are only stored under ids of stored feeds and those are positive. SQLite's numeric conversion also reads text such as `5.0`, `5e0` or ` 5 ` (decimal point, exponent, surrounding spaces) as the integer 5; the model reads only an optional sign and digits, and takes such text as matching no feed.
- Opml.ExportOpml: `ORDER BY f.title` (models.py:50) leaves the order of feeds with equal titles to SQLite. `Queries.ListFeeds` and so the export fix one such order, that of `Sorting.SortBy`; the code may list those feeds in another order.
- OPML import (app.py:295-330) is not modelled, because it needs an XML parser and a file upload.
- `stripTags`, the DOM, `fetch`, local storage and `refreshAll` in static/script.js are not modelled. `toLocaleDateString` is the opaque label `LocaleDate`.
- `ClientText.FormatDate` does not model an unparseable date (NaN). It also does not model `escapeHtml` on falsy values that are not strings (0, false, null behave as absent).
- Concurrency between requests is not modelled. Each operation runs alone.
- `Reconcile.CreateSucceeds` states the stored articles through `ReplaceArticles`. `Reconcile.FetchReplaces` then gives their exact contents.
