/**
 * `export_opml` (app.py:259-293): the live feeds grouped by folder name, in
 * order of first appearance, written out as an OPML 2.0 document. The
 * creation time is a parameter (`datetime.now().isoformat()`).
 */
module Opml {
  import opened Wrappers
  import opened Schema
  import opened Queries

  const Uncategorized := "Uncategorized"

  /** `feed.get('folder_name') or 'Uncategorized'`: a NULL or empty name falls back. */
  function GroupKey(f: FeedListing): (key: string)
    ensures key == Uncategorized <==> f.folderName.None? || f.folderName.value in {"", Uncategorized}
    ensures key != Uncategorized ==> f.folderName == Some(key)
  {
    if f.folderName.None? || f.folderName.value == "" then Uncategorized else f.folderName.value
  }

  // ---------------------------------------------------------------------------
  // The grouping dict, as values

  /** The dict's keys in insertion order: each group key where it first appears. */
  function Keys(feeds: seq<FeedListing>): seq<string>
  {
    if feeds == [] then []
    else
      var prev := Keys(feeds[..|feeds| - 1]);
      var key := GroupKey(feeds[|feeds| - 1]);
      if key in prev then prev else prev + [key]
  }

  /** The dict's list under `key`: the feeds of that group in listing order. */
  function Members(feeds: seq<FeedListing>, key: string): seq<FeedListing>
  {
    if feeds == [] then []
    else
      var last := feeds[|feeds| - 1];
      Members(feeds[..|feeds| - 1], key) + if GroupKey(last) == key then [last] else []
  }

  /** The keys are exactly the group keys of the listed feeds. */
  lemma {:induction false} KeysCover(feeds: seq<FeedListing>)
    ensures forall k :: k in Keys(feeds) <==> exists i :: 0 <= i < |feeds| && GroupKey(feeds[i]) == k
  {
    if feeds != [] {
      var init := feeds[..|feeds| - 1];
      KeysCover(init);
      assert forall i :: 0 <= i < |init| ==> init[i] == feeds[i];
    }
  }

  /** A group holds exactly the listed feeds with its key. */
  lemma {:induction false} MembersExact(feeds: seq<FeedListing>, key: string)
    ensures forall f :: f in Members(feeds, key) <==> f in feeds && GroupKey(f) == key
  {
    if feeds != [] {
      var init := feeds[..|feeds| - 1];
      MembersExact(init, key);
      assert feeds == init + [feeds[|feeds| - 1]];
    }
  }

  lemma MembersSnoc(feeds: seq<FeedListing>, f: FeedListing, key: string)
    ensures Members(feeds + [f], key) == Members(feeds, key) + if GroupKey(f) == key then [f] else []
  {
    assert (feeds + [f])[..|feeds|] == feeds;
  }

  lemma KeysSnoc(feeds: seq<FeedListing>, f: FeedListing)
    ensures Keys(feeds + [f]) == if GroupKey(f) in Keys(feeds) then Keys(feeds) else Keys(feeds) + [GroupKey(f)]
  {
    assert (feeds + [f])[..|feeds|] == feeds;
  }

  lemma MembersNone(feeds: seq<FeedListing>, key: string)
    requires key !in Keys(feeds)
    ensures Members(feeds, key) == []
  {
    KeysCover(feeds);
    MembersExact(feeds, key);
  }

  predicate Distinct(keys: seq<string>)
  {
    forall i, j :: 0 <= i < j < |keys| ==> keys[i] != keys[j]
  }

  lemma {:induction false} KeysDistinct(feeds: seq<FeedListing>)
    ensures Distinct(Keys(feeds))
  {
    if feeds != [] {
      KeysDistinct(feeds[..|feeds| - 1]);
    }
  }

  /** All groups, concatenated in key order. */
  function Grouped(keys: seq<string>, feeds: seq<FeedListing>): seq<FeedListing>
  {
    if keys == [] then [] else Grouped(keys[..|keys| - 1], feeds) + Members(feeds, keys[|keys| - 1])
  }

  lemma {:induction false} GroupedAppend(keys: seq<string>, feeds: seq<FeedListing>, f: FeedListing)
    requires Distinct(keys)
    ensures multiset(Grouped(keys, feeds + [f])) ==
      multiset(Grouped(keys, feeds)) + if GroupKey(f) in keys then multiset{f} else multiset{}
  {
    if keys != [] {
      var init := keys[..|keys| - 1];
      GroupedAppend(init, feeds, f);
      assert (feeds + [f])[..|feeds + [f]| - 1] == feeds;
      assert GroupKey(f) in keys <==> GroupKey(f) in init || GroupKey(f) == keys[|keys| - 1];
    }
  }

  lemma {:induction false} GroupedUnused(keys: seq<string>, feeds: seq<FeedListing>, key: string)
    requires key !in Keys(feeds)
    ensures Grouped(keys + [key], feeds) == Grouped(keys, feeds)
  {
    assert (keys + [key])[..|keys|] == keys;
    MembersNone(feeds, key);
  }

  /** Every listed feed lands in exactly one group: the groups together hold the listing, each feed once. */
  lemma {:induction false} GroupsPartition(feeds: seq<FeedListing>)
    ensures multiset(Grouped(Keys(feeds), feeds)) == multiset(feeds)
  {
    if feeds != [] {
      var init := feeds[..|feeds| - 1];
      var f := feeds[|feeds| - 1];
      assert feeds == init + [f];
      GroupsPartition(init);
      var keys := Keys(feeds);
      KeysDistinct(feeds);
      GroupedAppend(keys, init, f);
      if keys != Keys(init) {
        GroupedUnused(Keys(init), init, GroupKey(f));
      }
    }
  }

  /** A feed is in the group of its own key and in no other. */
  lemma OneGroupPerFeed(feeds: seq<FeedListing>, f: FeedListing)
    requires f in feeds
    ensures exists i :: 0 <= i < |Keys(feeds)| && Keys(feeds)[i] == GroupKey(f) && f in Members(feeds, Keys(feeds)[i])
    ensures forall i :: 0 <= i < |Keys(feeds)| && f in Members(feeds, Keys(feeds)[i]) ==> Keys(feeds)[i] == GroupKey(f)
  {
    KeysCover(feeds);
    MembersExact(feeds, GroupKey(f));
    var k :| 0 <= k < |feeds| && feeds[k] == f;
    assert GroupKey(feeds[k]) in Keys(feeds);
    forall i | 0 <= i < |Keys(feeds)| && f in Members(feeds, Keys(feeds)[i]) ensures Keys(feeds)[i] == GroupKey(f) {
      MembersExact(feeds, Keys(feeds)[i]);
    }
  }

  // ---------------------------------------------------------------------------
  // The text

  const Prolog := "<?xml version=\"1.0\" encoding=\"UTF-8\"?>\n<opml version=\"2.0\">\n"
  const Epilog := "  </body>\n" + OpmlEnd
  const OpmlEnd := "</opml>"

  function Head(created: string): string
  {
    Prolog + HeadElement(created)
  }

  function HeadElement(created: string): string
  {
    "  <head>\n    <title>RSS Reader Export</title>\n    <dateCreated>" + created + "</dateCreated>\n  </head>\n  <body>\n"
  }

  function OpenGroup(key: string): string
  {
    "    <outline text=\"" + key + "\" title=\"" + key + "\">\n"
  }

  const CloseGroup := "    </outline>\n"

  function FeedLine(f: FeedListing): string
  {
    "      <outline type=\"rss\" text=\"" + f.feed.title + "\" title=\"" + f.feed.title
      + "\" xmlUrl=\"" + f.feed.url + "\" htmlUrl=\"" + f.feed.link + "\"/>\n"
  }

  function Lines(members: seq<FeedListing>): string
  {
    if members == [] then "" else Lines(members[..|members| - 1]) + FeedLine(members[|members| - 1])
  }

  lemma LinesStep(members: seq<FeedListing>, k: int)
    requires 0 <= k < |members|
    ensures Lines(members[..k + 1]) == Lines(members[..k]) + FeedLine(members[k])
  {
    assert members[..k + 1][..k] == members[..k];
  }

  function GroupText(key: string, members: seq<FeedListing>): string
  {
    OpenGroup(key) + Lines(members) + CloseGroup
  }

  function Body(keys: seq<string>, feeds: seq<FeedListing>): string
  {
    if keys == [] then "" else Body(keys[..|keys| - 1], feeds) + GroupText(keys[|keys| - 1], Members(feeds, keys[|keys| - 1]))
  }

  lemma BodyStep(keys: seq<string>, j: int, feeds: seq<FeedListing>)
    requires 0 <= j < |keys|
    ensures Body(keys[..j + 1], feeds) == Body(keys[..j], feeds) + GroupText(keys[j], Members(feeds, keys[j]))
  {
    assert keys[..j + 1][..j] == keys[..j];
  }

  /** The exported document for a listing. */
  function Document(created: string, feeds: seq<FeedListing>): string
  {
    Head(created) + Body(Keys(feeds), feeds) + Epilog
  }

  lemma Framed(a: string, b: string, c: string, y: string, z: string)
    ensures var d := (a + b) + c + (y + z);
      && |a| + |y + z| <= |d|
      && d[..|a|] == a
      && d[|d| - |y + z|..] == y + z
      && d[|d| - |z|..] == z
  {
    var d := (a + b) + c + (y + z);
    assert d == a + (b + c + y + z);
    assert d == (a + b + c + y) + z;
    assert d == (a + b + c) + (y + z);
  }

  /** The document opens with the XML declaration and the `opml` element, and closes that element last. */
  lemma DocumentFrame(created: string, feeds: seq<FeedListing>)
    ensures var d := Document(created, feeds);
      && |Prolog| + |Epilog| <= |d|
      && d[..|Prolog|] == Prolog
      && d[|d| - |Epilog|..] == Epilog
      && d[|d| - |OpmlEnd|..] == OpmlEnd
  {
    Framed(Prolog, HeadElement(created), Body(Keys(feeds), feeds), "  </body>\n", OpmlEnd);
  }

  // ---------------------------------------------------------------------------
  // The route

  /** The first loop of `export_opml`: the dict of groups and the order its keys were inserted in. */
  method GroupByFolder(feeds: seq<FeedListing>) returns (order: seq<string>, groups: map<string, seq<FeedListing>>)
    ensures order == Keys(feeds)
    ensures forall k :: k in groups <==> k in order
    ensures forall k :: k in groups ==> groups[k] == Members(feeds, k)
  {
    groups := map[];
    order := [];
    var i := 0;
    while i < |feeds|
      invariant 0 <= i <= |feeds|
      invariant order == Keys(feeds[..i])
      invariant forall k :: k in groups <==> k in order
      invariant forall k :: k in groups ==> groups[k] == Members(feeds[..i], k)
    {
      var f := feeds[i];
      var key := GroupKey(f);
      var prefix := feeds[..i];
      assert feeds[..i + 1] == prefix + [f];
      KeysSnoc(prefix, f);
      var before := groups;
      if key !in groups {
        groups := groups[key := [f]];
        order := order + [key];
      } else {
        groups := groups[key := groups[key] + [f]];
      }
      forall k | k in groups ensures groups[k] == Members(prefix + [f], k) {
        MembersSnoc(prefix, f, k);
        if k == key && key !in before {
          MembersNone(prefix, key);
        }
      }
      i := i + 1;
    }
    assert feeds[..i] == feeds;
  }

  /** One group's outline element, its feeds one line each. */
  method WriteGroup(key: string, members: seq<FeedListing>) returns (text: string)
    ensures text == GroupText(key, members)
  {
    var lines := "";
    var k := 0;
    while k < |members|
      invariant 0 <= k <= |members|
      invariant lines == Lines(members[..k])
    {
      LinesStep(members, k);
      lines := lines + FeedLine(members[k]);
      k := k + 1;
    }
    assert members[..k] == members;
    text := OpenGroup(key) + lines + CloseGroup;
  }

  /** `export_opml`: fill the dict in one pass over `Feed.get_all`, then write each group in insertion order. */
  method ExportOpml(t: Tables, created: string) returns (opml: string)
    ensures opml == Document(created, ListFeeds(t))
  {
    opml := WriteDocument(ListFeeds(t), created);
  }

  method WriteDocument(feeds: seq<FeedListing>, created: string) returns (opml: string)
    ensures opml == Document(created, feeds)
  {
    var head := Head(created);
    var order, groups := GroupByFolder(feeds);
    var body := "";
    var j := 0;
    while j < |order|
      invariant 0 <= j <= |order|
      invariant body == Body(order[..j], feeds)
    {
      var text := WriteGroup(order[j], groups[order[j]]);
      BodyStep(order, j, feeds);
      body := body + text;
      j := j + 1;
    }
    assert order[..j] == order;
    opml := head + body + Epilog;
  }
}
