/**
 * `add_default_feeds` (database.py:23-54): when no live feed is stored, try
 * `Feed.create` on each of eight built-in URLs and count the ones that did
 * not raise. The network is a parameter: `net(url)` is what the two parses of
 * `url` return and when.
 */
module Seeding {
  import opened Wrappers
  import opened FeedParsing
  import opened Schema
  import opened Reconcile
  import opened Queries
  import opened Store

  /** The built-in feed list, in the order they are tried. */
  const DefaultFeedUrls: seq<string> := [
    "https://jvns.ca/atom.xml",
    "https://simonwillison.net/atom/everything/",
    "https://lucumr.pocoo.org/feed.atom",
    "https://samwho.dev/rss.xml",
    "https://blog.miguelgrinberg.com/feed",
    "https://world.hey.com/dhh/feed.atom",
    "https://herman.bearblog.dev/feed/",
    "https://harper.blog/index.xml"
  ]

  /** `SELECT COUNT(*) FROM feeds WHERE deleted = 0`. */
  function LiveCount(t: Tables): (n: nat)
    ensures n == 0 <==> forall i :: 0 <= i < |t.feeds| ==> t.feeds[i].deleted
  {
    var live := LiveFeeds(t.feeds);
    assert |live| == 0 <==> forall i :: 0 <= i < |t.feeds| ==> t.feeds[i].deleted by {
      if |live| > 0 {
        assert live[0] in live;
      } else {
        forall i | 0 <= i < |t.feeds| ensures t.feeds[i].deleted {
          assert t.feeds[i] in t.feeds;
        }
      }
    }
    |live|
  }

  /** The creation loop: each URL in turn, without a folder; a `Created` outcome is a success. */
  function SeedFrom(t: Tables, urls: seq<string>, net: string -> Upstream): (Tables, nat)
    decreases |urls|
  {
    if urls == [] then (t, 0)
    else
      var (t1, r) := CreateSpec(t, urls[0], None, net(urls[0]));
      var (t2, n) := SeedFrom(t1, urls[1..], net);
      (t2, n + if r.Created? then 1 else 0)
  }

  /** The whole routine: nothing when a live feed exists, else the loop over the default list and its success count. */
  function SeedSpec(t: Tables, net: string -> Upstream): (Tables, Option<nat>)
  {
    if LiveCount(t) > 0 then (t, None)
    else
      var (t', n) := SeedFrom(t, DefaultFeedUrls, net);
      (t', Some(n))
  }

  /** Running `add_default_feeds` on the store. */
  method AddDefaultFeeds(store: FeedStore, net: string -> Upstream) returns (successCount: Option<nat>)
    requires store.Valid()
    modifies store
    ensures store.Valid()
    ensures (store.Snapshot(), successCount) == SeedSpec(old(store.Snapshot()), net)
  {
    if LiveCount(store.Snapshot()) > 0 {
      return None;
    }
    ghost var goal := SeedFrom(store.Snapshot(), DefaultFeedUrls, net);
    var urls := DefaultFeedUrls;
    var count := 0;
    var i := 0;
    while i < |urls|
      invariant 0 <= i <= |urls|
      invariant store.Valid()
      invariant SeedFrom(store.Snapshot(), urls[i..], net).0 == goal.0
      invariant count + SeedFrom(store.Snapshot(), urls[i..], net).1 == goal.1
    {
      SeedStep(store.Snapshot(), urls, i, net);
      var r := store.CreateFeed(urls[i], None, net(urls[i]));
      if r.Created? {
        count := count + 1;
      }
      i := i + 1;
    }
    return Some(count);
  }

  lemma SeedStep(t: Tables, urls: seq<string>, i: int, net: string -> Upstream)
    requires 0 <= i < |urls|
    ensures var (t1, r) := CreateSpec(t, urls[i], None, net(urls[i]));
      SeedFrom(t, urls[i..], net) ==
        (SeedFrom(t1, urls[i + 1..], net).0, SeedFrom(t1, urls[i + 1..], net).1 + if r.Created? then 1 else 0)
  {
    assert urls[i..][1..] == urls[i + 1..];
  }

  // ---------------------------------------------------------------------------
  // Properties

  /** A single live feed switches the seeding off. */
  lemma SeedSkippedWhenLive(t: Tables, net: string -> Upstream)
    requires exists i :: 0 <= i < |t.feeds| && !t.feeds[i].deleted
    ensures SeedSpec(t, net) == (t, None)
  {
  }

  lemma {:induction false} SeedCountBound(t: Tables, urls: seq<string>, net: string -> Upstream)
    ensures SeedFrom(t, urls, net).1 <= |urls|
    decreases |urls|
  {
    if urls != [] {
      var (t1, r) := CreateSpec(t, urls[0], None, net(urls[0]));
      SeedCountBound(t1, urls[1..], net);
    }
  }

  lemma {:induction false} SeedKeepsWellFormed(t: Tables, urls: seq<string>, net: string -> Upstream)
    requires WellFormed(t)
    ensures WellFormed(SeedFrom(t, urls, net).0)
    decreases |urls|
  {
    if urls != [] {
      CreateKeepsWellFormed(t, urls[0], None, net(urls[0]));
      var (t1, r) := CreateSpec(t, urls[0], None, net(urls[0]));
      SeedKeepsWellFormed(t1, urls[1..], net);
    }
  }

  /** No stored URL is ever removed by seeding. */
  lemma {:induction false} SeedKeepsFeeds(t: Tables, urls: seq<string>, net: string -> Upstream)
    ensures t.feeds <= SeedFrom(t, urls, net).0.feeds
    decreases |urls|
  {
    if urls != [] {
      CreateKeepsFeeds(t, urls[0], None, net(urls[0]));
      var (t1, r) := CreateSpec(t, urls[0], None, net(urls[0]));
      SeedKeepsFeeds(t1, urls[1..], net);
    }
  }

  /**
   * When every URL is new and distinct and every response parses with
   * distinct guids, every creation succeeds.
   */
  lemma {:induction false} SeedAllCreated(t: Tables, urls: seq<string>, net: string -> Upstream)
    requires forall i, j :: 0 <= i < j < |urls| ==> urls[i] != urls[j]
    requires forall i :: 0 <= i < |urls| ==> !UrlTaken(t.feeds, urls[i])
    requires forall u :: u in urls ==> !ParseFailed(net(u).meta) && DistinctGuids(net(u).entries.entries)
    ensures SeedFrom(t, urls, net).1 == |urls|
    decreases |urls|
  {
    if urls != [] {
      var u := urls[0];
      CreateSucceeds(t, u, None, net(u));
      var (t1, r) := CreateSpec(t, u, None, net(u));
      var rest := urls[1..];
      forall i | 0 <= i < |rest| ensures !UrlTaken(t1.feeds, rest[i]) {
        assert rest[i] == urls[i + 1];
      }
      SeedAllCreated(t1, rest, net);
    }
  }

  /** The eight default URLs are distinct, so on an empty store with healthy responses all eight are added. */
  lemma DefaultsAllCreated(net: string -> Upstream)
    requires forall u :: u in DefaultFeedUrls ==> !ParseFailed(net(u).meta) && DistinctGuids(net(u).entries.entries)
    ensures SeedSpec(EmptyTables(), net).1 == Some(8)
  {
    var urls := DefaultFeedUrls;
    forall i, j | 0 <= i < j < |urls| ensures urls[i] != urls[j] {
      DefaultsDistinct(i, j);
    }
    SeedAllCreated(EmptyTables(), urls, net);
  }

  lemma DefaultsDistinct(i: int, j: int)
    requires 0 <= i < j < |DefaultFeedUrls|
    ensures DefaultFeedUrls[i] != DefaultFeedUrls[j]
  {
    var urls := DefaultFeedUrls;
    assert urls[i][8] != urls[j][8] || urls[i][9] != urls[j][9] || urls[i][10] != urls[j][10];
  }

  /**
   * A URL already in the feeds table, even soft-deleted, can never be created
   * again, so the count falls short of the list's length.
   */
  lemma {:induction false} SeedTakenUrlFails(t: Tables, urls: seq<string>, net: string -> Upstream, u: string)
    requires u in urls && UrlTaken(t.feeds, u)
    ensures SeedFrom(t, urls, net).1 < |urls|
    decreases |urls|
  {
    var (t1, r) := CreateSpec(t, urls[0], None, net(urls[0]));
    if urls[0] == u {
      SeedCountBound(t1, urls[1..], net);
    } else {
      CreateKeepsFeeds(t, urls[0], None, net(urls[0]));
      var k :| 0 <= k < |t.feeds| && t.feeds[k].url == u;
      assert t1.feeds[k] == t.feeds[k];
      SeedTakenUrlFails(t1, urls[1..], net, u);
    }
  }

  /** Over URLs that are all stored, even soft-deleted, the loop creates nothing and counts zero. */
  lemma {:induction false} SeedAllTaken(t: Tables, urls: seq<string>, net: string -> Upstream)
    requires forall u :: u in urls ==> UrlTaken(t.feeds, u)
    ensures SeedFrom(t, urls, net) == (t, 0)
    decreases |urls|
  {
    if urls != [] {
      SeedAllTaken(t, urls[1..], net);
    }
  }

  /**
   * Once every default feed has been deleted, the list counts as empty and
   * seeding runs on each start, yet every URL is still stored and no creation
   * can succeed: the tables stay as they were and the count is zero.
   */
  lemma SeedAfterDeletingAll(t: Tables, net: string -> Upstream)
    requires forall i :: 0 <= i < |t.feeds| ==> t.feeds[i].deleted
    requires forall u :: u in DefaultFeedUrls ==> UrlTaken(t.feeds, u)
    ensures SeedSpec(t, net) == (t, Some(0))
  {
    SeedAllTaken(t, DefaultFeedUrls, net);
  }
}
