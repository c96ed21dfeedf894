/** One ingestion cycle: select a feed, mark it fetched, fetch it, and attempt
    one post insert per item. */
module Ingest {
  import opened Wrappers
  import opened Errors
  import opened SqlNull
  import opened Rss
  import opened Store

  /** The insert parameters the cycle builds for one item. */
  function NewPost(item: RssItem, feedId: Uuid, now: Time, id: Uuid, parse: TimeParser): Post
  {
    Post(id, now, now, StringToSqlNullTime(item.pubDate, parse),
         StringToSqlNullString(item.title), item.link,
         StringToSqlNullString(item.description), feedId)
  }

  /** The inserts a cycle attempts for `items`, in item order, the k-th with
      the identity `firstId + k`. */
  function Attempts(items: seq<RssItem>, feedId: Uuid, now: Time, firstId: nat, parse: TimeParser): seq<Post>
    decreases |items|
  {
    if items == [] then []
    else
      var n := |items| - 1;
      Attempts(items[..n], feedId, now, firstId, parse) + [NewPost(items[n], feedId, now, Uuid(firstId + n), parse)]
  }

  /** The URLs of some posts. */
  function Urls(ps: seq<Post>): set<string>
  {
    set p | p in ps :: p.url
  }

  /** The links of some items. */
  function Links(items: seq<RssItem>): set<string>
  {
    set it | it in items :: it.link
  }

  /** What an available store does with one insert: a new URL is added, a
      known one is rejected. */
  function TryInsert(posts: map<string, Post>, p: Post): map<string, Post>
  {
    if p.url in posts then posts else posts[p.url := p]
  }

  /** The post table after the inserts `ps`, in order, on an available store. */
  function InsertAll(posts: map<string, Post>, ps: seq<Post>): map<string, Post>
    decreases |ps|
  {
    if ps == [] then posts
    else TryInsert(InsertAll(posts, ps[..|ps| - 1]), ps[|ps| - 1])
  }

  lemma UrlsSnoc(ps: seq<Post>, p: Post)
    ensures Urls(ps + [p]) == Urls(ps) + {p.url}
  {
  }

  /** One attempt per item, in item order: the k-th carries the cycle's feed,
      the k-th item's link, title, description and publication date, and the
      k-th fresh identity. */
  lemma {:induction false} AttemptsFollowItems(items: seq<RssItem>, feedId: Uuid, now: Time, firstId: nat, parse: TimeParser)
    ensures var ps := Attempts(items, feedId, now, firstId, parse);
            && |ps| == |items|
            && forall k :: 0 <= k < |items| ==>
                 && ps[k].feedId == feedId
                 && ps[k].url == items[k].link
                 && ps[k].id == Uuid(firstId + k)
                 && ps[k].title == StringToSqlNullString(items[k].title)
                 && ps[k].description == StringToSqlNullString(items[k].description)
                 && ps[k].publishedAt == StringToSqlNullTime(items[k].pubDate, parse)
                 && ps[k].createdAt == now && ps[k].updatedAt == now
    decreases |items|
  {
    if items != [] {
      var n := |items| - 1;
      AttemptsFollowItems(items[..n], feedId, now, firstId, parse);
    }
  }

  /** The attempted URLs are exactly the items' links. */
  lemma {:induction false} AttemptsUrls(items: seq<RssItem>, feedId: Uuid, now: Time, firstId: nat, parse: TimeParser)
    ensures Urls(Attempts(items, feedId, now, firstId, parse)) == Links(items)
    decreases |items|
  {
    if items != [] {
      var n := |items| - 1;
      AttemptsUrls(items[..n], feedId, now, firstId, parse);
      UrlsSnoc(Attempts(items[..n], feedId, now, firstId, parse), NewPost(items[n], feedId, now, Uuid(firstId + n), parse));
      assert items == items[..n] + [items[n]];
      assert Links(items) == Links(items[..n]) + {items[n].link};
    }
  }

  /** After the inserts, the table holds the old URLs and the attempted ones. */
  lemma {:induction false} InsertAllKeys(posts: map<string, Post>, ps: seq<Post>)
    ensures InsertAll(posts, ps).Keys == posts.Keys + Urls(ps)
    decreases |ps|
  {
    if ps != [] {
      var n := |ps| - 1;
      InsertAllKeys(posts, ps[..n]);
      assert ps == ps[..n] + [ps[n]];
      UrlsSnoc(ps[..n], ps[n]);
    }
  }

  /** A stored post is never overwritten. */
  lemma {:induction false} InsertAllRetains(posts: map<string, Post>, ps: seq<Post>)
    ensures Retains(posts, InsertAll(posts, ps))
    decreases |ps|
  {
    if ps != [] {
      InsertAllRetains(posts, ps[..|ps| - 1]);
    }
  }

  /** The table stays keyed by URL. */
  lemma {:induction false} InsertAllKeyedByUrl(posts: map<string, Post>, ps: seq<Post>)
    requires KeyedByUrl(posts)
    ensures KeyedByUrl(InsertAll(posts, ps))
    decreases |ps|
  {
    if ps != [] {
      InsertAllKeyedByUrl(posts, ps[..|ps| - 1]);
    }
  }

  /** A newly stored post is the first attempt with its URL. */
  lemma {:induction false} InsertAllFirstWins(posts: map<string, Post>, ps: seq<Post>, u: string)
    requires u in InsertAll(posts, ps) && u !in posts
    ensures exists k :: 0 <= k < |ps| && InsertAll(posts, ps)[u] == ps[k]
                        && forall j :: 0 <= j < k ==> ps[j].url != u
    decreases |ps|
  {
    var n := |ps| - 1;
    var before := InsertAll(posts, ps[..n]);
    if u in before {
      InsertAllFirstWins(posts, ps[..n], u);
      var k :| 0 <= k < n && before[u] == ps[..n][k] && forall j :: 0 <= j < k ==> ps[..n][j].url != u;
      assert InsertAll(posts, ps)[u] == ps[k];
      assert forall j :: 0 <= j < k ==> ps[j].url != u;
    } else {
      InsertAllKeys(posts, ps[..n]);
      assert InsertAll(posts, ps)[u] == ps[n];
      forall j | 0 <= j < n ensures ps[j].url != u {
        assert ps[..n][j] in ps[..n];
      }
    }
  }

  /** Inserting only known URLs changes nothing. */
  lemma {:induction false} InsertAllKnownUrls(posts: map<string, Post>, ps: seq<Post>)
    requires Urls(ps) <= posts.Keys
    ensures InsertAll(posts, ps) == posts
    decreases |ps|
  {
    if ps != [] {
      var n := |ps| - 1;
      assert ps == ps[..n] + [ps[n]];
      UrlsSnoc(ps[..n], ps[n]);
      InsertAllKnownUrls(posts, ps[..n]);
    }
  }

  /** The table grows by exactly the number of URLs it did not hold. */
  lemma InsertAllCount(posts: map<string, Post>, ps: seq<Post>)
    ensures |InsertAll(posts, ps)| == |posts| + |Urls(ps) - posts.Keys|
  {
    InsertAllKeys(posts, ps);
    var after := InsertAll(posts, ps);
    assert after.Keys == posts.Keys + (Urls(ps) - posts.Keys);
    assert |after.Keys| == |posts.Keys| + |Urls(ps) - posts.Keys|;
  }

  /** Ingesting the same items again, under new identities and a new time,
      leaves the table as it was. */
  lemma ReingestionAddsNothing(posts: map<string, Post>, items: seq<RssItem>, feedId: Uuid,
                               now1: Time, firstId1: nat, now2: Time, firstId2: nat, parse: TimeParser)
    ensures var once := InsertAll(posts, Attempts(items, feedId, now1, firstId1, parse));
            InsertAll(once, Attempts(items, feedId, now2, firstId2, parse)) == once
  {
    var first := Attempts(items, feedId, now1, firstId1, parse);
    var second := Attempts(items, feedId, now2, firstId2, parse);
    AttemptsUrls(items, feedId, now1, firstId1, parse);
    AttemptsUrls(items, feedId, now2, firstId2, parse);
    InsertAllKeys(posts, first);
    InsertAllKnownUrls(InsertAll(posts, first), second);
  }

  /** The per-item loop of a cycle: one insert attempt per item, in order,
      whatever became of the attempts before it. */
  method InsertItems(store: Store, items: seq<RssItem>, feedId: Uuid, parse: TimeParser)
    requires store.Valid()
    modifies store`posts, store`inserts, store`nextId
    ensures store.Valid()
    ensures var attempts := Attempts(items, feedId, store.clock, old(store.nextId), parse);
            && store.inserts == old(store.inserts) + attempts
            && store.nextId == old(store.nextId) + |items|
            && store.posts == if InsertPost in store.unavailable then old(store.posts)
                              else InsertAll(old(store.posts), attempts)
  {
    for i := 0 to |items|
      invariant store.Valid()
      invariant store.nextId == old(store.nextId) + i
      invariant store.inserts == old(store.inserts) + Attempts(items[..i], feedId, store.clock, old(store.nextId), parse)
      invariant store.posts == if InsertPost in store.unavailable then old(store.posts)
                               else InsertAll(old(store.posts), Attempts(items[..i], feedId, store.clock, old(store.nextId), parse))
    {
      var item := items[i];
      var id := store.NewUuid();
      var params := Post(id, store.clock, store.clock, StringToSqlNullTime(item.pubDate, parse),
                         StringToSqlNullString(item.title), item.link,
                         StringToSqlNullString(item.description), feedId);
      var created := store.CreatePost(params);
      // A failed insert (a known URL, or the store refusing it) is reported
      // and the loop goes on with the next item.
      assert items[..i + 1][..i] == items[..i];
    }
    assert items[..|items|] == items;
  }

  /** How a cycle ended, and with which feed once one was selected. */
  datatype Cycle =
    | SelectFailed(error: Error)
    | MarkFailed(feed: Feed, error: Error)
    | FetchFailed(feed: Feed, error: Error)
    | Ingested(feed: Feed)

  /** The clock and the refused operations stay, no post is lost or
      overwritten, and feeds change only their stamps. */
  ghost predicate Keeps(b: StoreState, a: StoreState)
  {
    && a.clock == b.clock && a.unavailable == b.unavailable
    && Retains(b.posts, a.posts)
    && SameFeedsUpToStamps(b.feeds, a.feeds)
  }

  /** What one ingestion cycle does to a store that was `b` and is now `a`,
      having ended as `cycle` and returned `err`:
      - a failed selection (no feed, or the store refusing) returns its error
        with nothing changed;
      - a failed mark returns its error with nothing changed and nothing fetched;
      - a failed fetch returns the error of the download made at the store's
        time, with the feed marked and no insert attempted;
      - otherwise one insert is attempted per item that download yielded, in
        order, for the selected feed, and the cycle returns no error.
      In every case the clock and the refused operations stay, no post is lost
      or overwritten, and feeds change only their stamps. */
  ghost predicate Cycled(b: StoreState, a: StoreState, cycle: Cycle, err: Option<Error>,
                         download: Downloader, parse: TimeParser)
  {
    && Keeps(b, a)
    && (cycle.SelectFailed? <==> SelectNextFeed in b.unavailable || b.feeds == [])
    && (!cycle.SelectFailed? ==> cycle.feed in b.feeds)
    && (cycle.SelectFailed? || cycle.MarkFailed? ==>
          && err == Some(cycle.error)
          && a.feeds == b.feeds
          && a.posts == b.posts
          && a.inserts == b.inserts
          && a.nextId == b.nextId)
    && (cycle.SelectFailed? ==>
          cycle.error == if SelectNextFeed in b.unavailable then StoreUnavailable else NoRows)
    && (cycle.MarkFailed? <==> !cycle.SelectFailed? && MarkFetched in b.unavailable)
    && (cycle.MarkFailed? ==> cycle.error == StoreUnavailable)
    && (cycle.FetchFailed? || cycle.Ingested? ==>
          a.feeds == Stamped(b.feeds, cycle.feed.id, b.clock))
    && (cycle.FetchFailed? ==>
          && download(cycle.feed.url, b.clock) == Failure(cycle.error)
          && err == Some(cycle.error)
          && a.posts == b.posts
          && a.inserts == b.inserts
          && a.nextId == b.nextId)
    && (cycle.Ingested? ==>
          && download(cycle.feed.url, b.clock).Success?
          && err == None
          && var items := download(cycle.feed.url, b.clock).value.items;
             var attempts := Attempts(items, cycle.feed.id, b.clock, b.nextId, parse);
             && a.inserts == b.inserts + attempts
             && a.nextId == b.nextId + |items|
             && a.posts == if InsertPost in b.unavailable then b.posts else InsertAll(b.posts, attempts))
  }

  /** One ingestion cycle (`scrapeFeeds`). Only selection, marking and fetching
      can end it early; a failed insert is reported and the next item is tried. */
  method ScrapeFeeds(store: Store, download: Downloader, unescape: Unescaper, parse: TimeParser)
    returns (err: Option<Error>, ghost cycle: Cycle)
    requires store.Valid()
    modifies store
    ensures store.Valid()
    ensures Cycled(old(store.State()), store.State(), cycle, err, download, parse)
  {
    var selected := store.GetNextFeedToFetch();
    if selected.Failure? {
      return Some(selected.error), SelectFailed(selected.error);
    }
    var feed := selected.value;

    var marked := store.MarkFeedFetched(feed.id);
    if marked.Some? {
      return marked, MarkFailed(feed, marked.value);
    }

    var fetched := FetchFeed(download, unescape, feed.url, store.clock);
    if fetched.Failure? {
      return Some(fetched.error), FetchFailed(feed, fetched.error);
    }
    var rss := fetched.value;

    ghost var posts0 := store.posts;
    InsertItems(store, rss.channel.items, feed.id, parse);
    InsertAllRetains(posts0, Attempts(rss.channel.items, feed.id, store.clock, old(store.nextId), parse));
    return None, Ingested(feed);
  }
}
