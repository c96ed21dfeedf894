/** The records the aggregator stores and the store operations its ingestion
    cycle calls. The SQL behind them is not part of this model; each operation
    states what the cycle relies on. */
module Store {
  import opened Wrappers
  import opened Errors
  import opened SqlNull

  /** A `uuid.UUID`; the model issues them from a counter, so they are fresh. */
  datatype Uuid = Uuid(n: nat)

  datatype User = User(id: Uuid, name: string)

  datatype Feed = Feed(id: Uuid, name: string, url: string, userId: Uuid, lastFetchedAt: NullTime)

  /** `CreatePostParams`, which is also the stored row. */
  datatype Post = Post(
    id: Uuid,
    createdAt: Time,
    updatedAt: Time,
    publishedAt: NullTime,
    title: NullString,
    url: string,
    description: NullString,
    feedId: Uuid)

  /** The store operations a caller of the cycle can see fail. */
  datatype Op = SelectNextFeed | MarkFetched | InsertPost

  ghost predicate DistinctIds(feeds: seq<Feed>)
  {
    forall i, j :: 0 <= i < j < |feeds| ==> feeds[i].id != feeds[j].id
  }

  /** The post table is keyed by each post's own URL. */
  ghost predicate KeyedByUrl(posts: map<string, Post>)
  {
    forall u :: u in posts ==> posts[u].url == u
  }

  /** Every feed with identity `id` stamped as fetched at `t`. */
  function Stamped(feeds: seq<Feed>, id: Uuid, t: Time): seq<Feed>
  {
    seq(|feeds|, i requires 0 <= i < |feeds| =>
      if feeds[i].id == id then feeds[i].(lastFetchedAt := NullTime(t, true)) else feeds[i])
  }

  /** `after` holds the same feeds as `before`, in the same order, except for
      their last-fetched stamps. */
  ghost predicate SameFeedsUpToStamps(before: seq<Feed>, after: seq<Feed>)
  {
    && |after| == |before|
    && forall i :: 0 <= i < |before| ==> after[i] == before[i].(lastFetchedAt := after[i].lastFetchedAt)
  }

  /** Every post of `before` is still in `after`, unchanged. */
  ghost predicate Retains(before: map<string, Post>, after: map<string, Post>)
  {
    forall u :: u in before ==> u in after && after[u] == before[u]
  }

  /** Marking the selected feed stamps that feed, at its place, and no other. */
  lemma StampedMarksOnlySelected(feeds: seq<Feed>, k: nat, t: Time)
    requires k < |feeds| && DistinctIds(feeds)
    ensures var after := Stamped(feeds, feeds[k].id, t);
            && SameFeedsUpToStamps(feeds, after)
            && after[k].lastFetchedAt == NullTime(t, true)
            && forall j :: 0 <= j < |feeds| && j != k ==> after[j] == feeds[j]
  {
  }

  /** Every stored post carries an identity issued before `nextId`. */
  ghost predicate IdsIssuedBefore(posts: map<string, Post>, nextId: nat)
  {
    forall u :: u in posts ==> posts[u].id.n < nextId
  }

  /** A snapshot of everything a `Store` holds. */
  datatype StoreState = StoreState(
    feeds: seq<Feed>,
    posts: map<string, Post>,
    clock: Time,
    nextId: nat,
    unavailable: set<Op>,
    inserts: seq<Post>)

  /** The store's contents, with the clock (`time.Now()` and SQL `NOW()`) and the
      source of fresh identities it shares with its callers. */
  class Store {
    var feeds: seq<Feed>
    var posts: map<string, Post>
    var clock: Time
    var nextId: nat
    /** The operations the store currently refuses (lost connection and the like). */
    var unavailable: set<Op>
    /** Every `CreatePost` call, successful or not, in call order. */
    ghost var inserts: seq<Post>

    ghost predicate Valid()
      reads this
    {
      DistinctIds(feeds) && KeyedByUrl(posts) && IdsIssuedBefore(posts, nextId)
    }

    ghost function State(): StoreState
      reads this
    {
      StoreState(feeds, posts, clock, nextId, unavailable, inserts)
    }

    constructor (feeds0: seq<Feed>, posts0: map<string, Post>, clock0: Time, nextId0: nat, unavailable0: set<Op>)
      requires DistinctIds(feeds0) && KeyedByUrl(posts0) && IdsIssuedBefore(posts0, nextId0)
      ensures Valid()
      ensures feeds == feeds0 && posts == posts0 && clock == clock0
      ensures nextId == nextId0 && unavailable == unavailable0 && inserts == []
    {
      feeds, posts, clock := feeds0, posts0, clock0;
      nextId, unavailable := nextId0, unavailable0;
      inserts := [];
    }

    /** Some feed of the store; which one is decided by SQL that is not modelled,
        so any feed may be chosen. No feeds is `NoRows`. */
    method GetNextFeedToFetch() returns (r: Result<Feed, Error>)
      ensures r.Success? <==> SelectNextFeed !in unavailable && feeds != []
      ensures r.Success? ==> r.value in feeds
      ensures r.Failure? ==> r.error == if SelectNextFeed in unavailable then StoreUnavailable else NoRows
    {
      if SelectNextFeed in unavailable {
        r := Failure(StoreUnavailable);
      } else if feeds == [] {
        r := Failure(NoRows);
      } else {
        var k :| 0 <= k < |feeds|;
        r := Success(feeds[k]);
      }
    }

    /** Stamps the feed with identity `id` as fetched now. */
    method MarkFeedFetched(id: Uuid) returns (err: Option<Error>)
      requires Valid()
      modifies this`feeds
      ensures Valid()
      ensures err == if MarkFetched in unavailable then Some(StoreUnavailable) else None
      ensures feeds == if err.Some? then old(feeds) else Stamped(old(feeds), id, clock)
    {
      if MarkFetched in unavailable {
        err := Some(StoreUnavailable);
      } else {
        feeds := Stamped(feeds, id, clock);
        err := None;
      }
    }

    /** Inserts a post unless one with the same URL is already stored. Its
        identity comes from `NewUuid`. */
    method CreatePost(p: Post) returns (r: Result<Post, Error>)
      requires Valid()
      requires p.id.n < nextId
      modifies this`posts, this`inserts
      ensures Valid()
      ensures inserts == old(inserts) + [p]
      ensures r == if InsertPost in unavailable then Failure(StoreUnavailable)
                   else if p.url in old(posts) then Failure(UniqueViolation(p.url))
                   else Success(p)
      ensures posts == if r.Success? then old(posts)[p.url := p] else old(posts)
    {
      inserts := inserts + [p];
      if InsertPost in unavailable {
        r := Failure(StoreUnavailable);
      } else if p.url in posts {
        r := Failure(UniqueViolation(p.url));
      } else {
        posts := posts[p.url := p];
        r := Success(p);
      }
    }

    /** Waiting `d` for the next tick. */
    method AdvanceClock(d: int)
      requires Valid() && d > 0
      modifies this`clock
      ensures Valid()
      ensures State() == old(State()).(clock := old(clock) + d)
    {
      clock := clock + d;
    }

    /** `uuid.New()`: an identity never issued before, so no stored post has it. */
    method NewUuid() returns (id: Uuid)
      requires Valid()
      modifies this`nextId
      ensures Valid()
      ensures forall u :: u in posts ==> posts[u].id != id
      ensures id == Uuid(old(nextId)) && nextId == old(nextId) + 1
    {
      id := Uuid(nextId);
      nextId := nextId + 1;
    }
  }
}
