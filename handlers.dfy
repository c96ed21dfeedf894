/** What the handlers decide before, or instead of, calling the store: their
    argument checks, the browse limit, and the `agg` driver. */
module Handlers {
  import opened Wrappers
  import opened Errors
  import opened SqlNull
  import opened Rss
  import opened Store
  import opened Ingest
  import opened Router
  import opened Auth

  const AggUsage := "agg handler expects a single argument, the time between request"
  const AddFeedUsage := "addfeed handler expects two arguments, the username and URL"

  /** The check of `unfollow`, `follow`, `login`, `register` and `agg`: exactly
      one argument, which the handler then uses; otherwise the handler's usage
      error, whose text each handler gives (only `agg`'s is part of this
      model). */
  function SingleArgument(cmd: Command, usage: string): (r: Result<string, Error>)
    ensures r.Success? <==> |cmd.args| == 1
    ensures r.Success? ==> r.value == cmd.args[0]
    ensures r.Failure? ==> r.error == Usage(usage)
  {
    if |cmd.args| != 1 then Failure(Usage(usage)) else Success(cmd.args[0])
  }

  /** The check of `addfeed`: exactly two arguments, the feed's name and URL. */
  function AddFeedArguments(cmd: Command): (r: Result<(string, string), Error>)
    ensures r.Success? <==> |cmd.args| == 2
    ensures r.Success? ==> r.value == (cmd.args[0], cmd.args[1])
    ensures r.Failure? ==> r.error == Usage(AddFeedUsage)
  {
    if |cmd.args| != 2 then Failure(Usage(AddFeedUsage)) else Success((cmd.args[0], cmd.args[1]))
  }

  /** `strconv.Atoi`, taken as given. */
  type IntParser = string -> Result<int, Error>

  const DefaultBrowseLimit := 2

  /** The browse limit: the default unless there is exactly one argument, in
      which case that argument must parse. */
  function BrowseLimit(args: seq<string>, atoi: IntParser): (r: Result<int, Error>)
    ensures |args| != 1 ==> r == Success(DefaultBrowseLimit)
    ensures |args| == 1 && atoi(args[0]).Success? ==> r == Success(atoi(args[0]).value)
    ensures |args| == 1 && atoi(args[0]).Failure? ==> r == Failure(InvalidLimit(atoi(args[0]).error))
  {
    if |args| == 1 then
      match atoi(args[0])
      case Success(n) => Success(n)
      case Failure(e) => Failure(InvalidLimit(e))
    else Success(DefaultBrowseLimit)
  }

  /** Go's `int32(x)`: keeps the low 32 bits, read as two's complement. */
  function Int32(x: int): (r: int)
    ensures -0x8000_0000 <= r < 0x8000_0000
    ensures (x - r) % 0x1_0000_0000 == 0
    ensures -0x8000_0000 <= x < 0x8000_0000 ==> r == x
  {
    var low := x % 0x1_0000_0000;
    if low < 0x8000_0000 then low else low - 0x1_0000_0000
  }

  /** `GetPostsForUser(userId, limit)`, taken as given. */
  type PostsQuery<!Db> = (Db, Uuid, int) -> Result<seq<Post>, Error>

  /** `browse`: an unparsable limit fails before the store is asked; otherwise
      the posts are asked for with the limit cut to 32 bits, and only a failed
      query is an error. Listing the posts is presentation and not modelled. */
  function HandlerBrowse<Db>(getPosts: PostsQuery<Db>, atoi: IntParser, s: State<Db>, cmd: Command, user: User)
    : (r: (State<Db>, Option<Error>))
    ensures r.0 == s
    ensures BrowseLimit(cmd.args, atoi).Failure? ==> r.1 == Some(BrowseLimit(cmd.args, atoi).error)
    ensures BrowseLimit(cmd.args, atoi).Success? ==>
              var query := getPosts(s.db, user.id, Int32(BrowseLimit(cmd.args, atoi).value));
              r.1 == if query.Failure? then Some(PostsQueryFailed(query.error)) else None
  {
    match BrowseLimit(cmd.args, atoi)
    case Failure(e) => (s, Some(e))
    case Success(limit) =>
      match getPosts(s.db, user.id, Int32(limit))
      case Failure(e) => (s, Some(PostsQueryFailed(e)))
      case Success(_) => (s, None)
  }

  /** `time.ParseDuration`, taken as given; a duration is a count of nanoseconds. */
  type DurationParser = string -> Result<int, Error>

  /** The interval `agg` runs at: exactly one argument, which must parse. */
  function AggInterval(cmd: Command, parseDuration: DurationParser): (r: Result<int, Error>)
    ensures |cmd.args| != 1 ==> r == Failure(Usage(AggUsage))
    ensures |cmd.args| == 1 ==> r == parseDuration(cmd.args[0])
  {
    match SingleArgument(cmd, AggUsage)
    case Failure(e) => Failure(e)
    case Success(arg) => parseDuration(arg)
  }

  /** Consecutive cycles with a wait of `d` after each: the k-th cycle starts
      from the state the (k-1)-th cycle and its wait left. */
  ghost predicate Chained(starts: seq<StoreState>, ends: seq<StoreState>, trace: seq<Cycle>,
                          cycleErrors: seq<Option<Error>>, d: int, download: Downloader, parse: TimeParser)
  {
    && |trace| == |cycleErrors| == |starts| == |ends|
    && (forall k :: 0 <= k < |starts| ==> Cycled(starts[k], ends[k], trace[k], cycleErrors[k], download, parse))
    && (forall k :: 0 <= k < |starts| - 1 ==> starts[k + 1] == ends[k].(clock := ends[k].clock + d))
  }

  /** Over any run of cycles, each keeping the store as `Keeps` says, with a
      wait of `d` after each, the clock advances one interval per wait, the
      refused operations (which no cycle changes) stay, no post is lost or overwritten, and feeds change
      only their stamps. */
  lemma {:induction false} CyclesKeepPostsAndFeeds(starts: seq<StoreState>, ends: seq<StoreState>, d: int, m: nat)
    requires |starts| == |ends| && m < |starts|
    requires forall k :: 0 <= k < |starts| ==> Keeps(starts[k], ends[k])
    requires forall k :: 0 <= k < |starts| - 1 ==> starts[k + 1] == ends[k].(clock := ends[k].clock + d)
    ensures ends[m].clock == starts[0].clock + m * d
    ensures ends[m].unavailable == starts[0].unavailable
    ensures Retains(starts[0].posts, ends[m].posts)
    ensures SameFeedsUpToStamps(starts[0].feeds, ends[m].feeds)
  {
    var first, before, last := starts[0], starts[m], ends[m];
    assert Keeps(before, last);
    if m > 0 {
      CyclesKeepPostsAndFeeds(starts, ends, d, m - 1);
      var previous := ends[m - 1];
      assert before == previous.(clock := previous.clock + d);
      assert last.clock == first.clock + (m - 1) * d + d;
      RetainsTransitive(first.posts, previous.posts, last.posts);
      SameFeedsTransitive(first.feeds, previous.feeds, last.feeds);
    }
  }

  lemma ChainedCyclesKeep(starts: seq<StoreState>, ends: seq<StoreState>, trace: seq<Cycle>,
                          cycleErrors: seq<Option<Error>>, d: int, download: Downloader, parse: TimeParser)
    requires Chained(starts, ends, trace, cycleErrors, d, download, parse)
    ensures forall k :: 0 <= k < |starts| ==> Keeps(starts[k], ends[k])
  {
  }

  /** A cycle from the state the last chained cycle and its wait left extends
      the chain. */
  lemma ChainedSnoc(starts: seq<StoreState>, ends: seq<StoreState>, trace: seq<Cycle>,
                    cycleErrors: seq<Option<Error>>, d: int, download: Downloader, parse: TimeParser,
                    start: StoreState, end: StoreState, cycle: Cycle, err: Option<Error>)
    requires Chained(starts, ends, trace, cycleErrors, d, download, parse)
    requires Cycled(start, end, cycle, err, download, parse)
    requires |ends| > 0 ==> start == ends[|ends| - 1].(clock := ends[|ends| - 1].clock + d)
    ensures Chained(starts + [start], ends + [end], trace + [cycle], cycleErrors + [err], d, download, parse)
  {
    var starts', ends', trace', cycleErrors' := starts + [start], ends + [end], trace + [cycle], cycleErrors + [err];
    forall k | 0 <= k < |starts'|
      ensures Cycled(starts'[k], ends'[k], trace'[k], cycleErrors'[k], download, parse)
    {
      if k < |starts| {
        assert starts'[k] == starts[k] && ends'[k] == ends[k] && trace'[k] == trace[k] && cycleErrors'[k] == cycleErrors[k];
      }
    }
    forall k | 0 <= k < |starts'| - 1
      ensures starts'[k + 1] == ends'[k].(clock := ends'[k].clock + d)
    {
      assert ends'[k] == ends[k];
    }
  }

  lemma RetainsTransitive(p0: map<string, Post>, p1: map<string, Post>, p2: map<string, Post>)
    requires Retains(p0, p1) && Retains(p1, p2)
    ensures Retains(p0, p2)
  {
  }

  lemma SameFeedsTransitive(f0: seq<Feed>, f1: seq<Feed>, f2: seq<Feed>)
    requires SameFeedsUpToStamps(f0, f1) && SameFeedsUpToStamps(f1, f2)
    ensures SameFeedsUpToStamps(f0, f2)
  {
  }

  /** The ticker loop of `agg`, bounded to `cycles` cycles. The first cycle
      runs at once; the ticker (`d` long) is waited on after each cycle. Every
      cycle is a `scrapeFeeds` run (`Cycled`) from the store as the previous
      wait left it, whatever the cycle before returned: the k-th cycle starts
      from `starts[k]`, ends in `ends[k]` as `trace[k]`, and returns
      `cycleErrors[k]`. */
  method RunCycles(store: Store, d: int, download: Downloader, unescape: Unescaper, parse: TimeParser, cycles: nat)
    returns (ghost trace: seq<Cycle>, ghost cycleErrors: seq<Option<Error>>,
             ghost starts: seq<StoreState>, ghost ends: seq<StoreState>)
    requires store.Valid() && d > 0
    modifies store
    ensures store.Valid()
    ensures |trace| == cycles && Chained(starts, ends, trace, cycleErrors, d, download, parse)
    ensures cycles == 0 ==> store.State() == old(store.State())
    ensures cycles > 0 ==> starts[0] == old(store.State())
                           && store.State() == ends[cycles - 1].(clock := ends[cycles - 1].clock + d)
  {
    trace, cycleErrors, starts, ends := [], [], [], [];
    var i := 0;
    while i < cycles
      invariant 0 <= i <= cycles
      invariant store.Valid()
      invariant |trace| == i && Chained(starts, ends, trace, cycleErrors, d, download, parse)
      invariant i == 0 ==> store.State() == old(store.State())
      invariant i > 0 ==> starts[0] == old(store.State())
                          && store.State() == ends[i - 1].(clock := ends[i - 1].clock + d)
    {
      ghost var start := store.State();
      var e, cycle := ScrapeFeeds(store, download, unescape, parse);
      // The error is reported and the loop goes on.
      ghost var end := store.State();
      ChainedSnoc(starts, ends, trace, cycleErrors, d, download, parse, start, end, cycle, e);
      trace, cycleErrors := trace + [cycle], cycleErrors + [e];
      starts, ends := starts + [start], ends + [end];
      store.AdvanceClock(d);
      i := i + 1;
    }
  }

  /** `agg`: the interval argument, then the ticker loop. A non-positive
      interval makes `time.NewTicker` panic. */
  method HandlerAgg(store: Store, cmd: Command, parseDuration: DurationParser, download: Downloader,
                    unescape: Unescaper, parse: TimeParser, cycles: nat)
    returns (err: Option<Error>, ghost trace: seq<Cycle>, ghost cycleErrors: seq<Option<Error>>,
             ghost starts: seq<StoreState>, ghost ends: seq<StoreState>)
    requires store.Valid()
    modifies store
    ensures store.Valid()
    ensures AggInterval(cmd, parseDuration).Failure? ==>
              err == Some(AggInterval(cmd, parseDuration).error) && unchanged(store)
    ensures AggInterval(cmd, parseDuration).Success? && AggInterval(cmd, parseDuration).value <= 0 ==>
              err.Some? && err.value.Panic? && unchanged(store)
    ensures AggInterval(cmd, parseDuration).Success? && AggInterval(cmd, parseDuration).value > 0 ==>
              var d := AggInterval(cmd, parseDuration).value;
              && err == None
              && |trace| == cycles && Chained(starts, ends, trace, cycleErrors, d, download, parse)
              && (cycles == 0 ==> store.State() == old(store.State()))
              && (cycles > 0 ==> starts[0] == old(store.State())
                                 && store.State() == ends[cycles - 1].(clock := ends[cycles - 1].clock + d))
              && store.clock == old(store.clock) + cycles * d
              && store.unavailable == old(store.unavailable)
              && Retains(old(store.posts), store.posts)
              && SameFeedsUpToStamps(old(store.feeds), store.feeds)
  {
    trace, cycleErrors, starts, ends := [], [], [], [];
    var interval := AggInterval(cmd, parseDuration);
    if interval.Failure? {
      return Some(interval.error), trace, cycleErrors, starts, ends;
    }
    var d := interval.value;
    if d <= 0 {
      return Some(Panic("non-positive interval for NewTicker")), trace, cycleErrors, starts, ends;
    }
    trace, cycleErrors, starts, ends := RunCycles(store, d, download, unescape, parse, cycles);
    if cycles > 0 {
      ChainedCyclesKeep(starts, ends, trace, cycleErrors, d, download, parse);
      CyclesKeepPostsAndFeeds(starts, ends, d, cycles - 1);
      assert store.clock == ends[cycles - 1].clock + d;
      assert (cycles - 1) * d + d == cycles * d;
    }
    err := None;
  }
}
