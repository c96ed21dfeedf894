# gator core, modelled in Dafny

gator is a command-line RSS aggregator. A user registers, follows feeds, and
the `agg` command runs an endless loop that fetches one feed per tick and stores
its items as posts. This project models the core of `main.go`:

- the command registry (`commands.register` / `commands.run`) and the way
  `main` registers its eleven handlers and dispatches `os.Args`;
- the `middlewareLoggedIn` gate in front of the handlers that act for the
  current user;
- one ingestion cycle (`scrapeFeeds`): select a feed, mark it fetched, fetch
  it, and attempt one post insert per item; and the `agg` driver, bounded to a
  given number of cycles;
- the small helpers: `stringToSqlNullString`, `stringtoSqlNullTime`,
  `DecodeEscapedStrings`, the browse limit and the handlers' argument checks.

Modules: `Wrappers` (Option, Result), `Errors`, `SqlNull`, `Rss` (the fetched
document), `Store` (records and the store class), `Ingest` (the cycle),
`Router` (the registry), `Auth` (state and gate), `Handlers` (argument checks,
browse, agg) and `Gator` (`main`).

The store is a class with a feed sequence whose entries carry last-fetched
stamps, a post table keyed by URL, the clock, a source of fresh identities, a
set of operations it currently refuses, and a ghost log of every insert
attempt. Handlers are function values from the shared state and the command to
the new state and an optional error; the shared state is the store contents
(a type parameter) and the configuration record. Library code (HTML
unescaping, RFC 3339 time parsing, duration and integer parsing, the HTTP
fetch with its XML decoding) enters as function parameters.

The registry and `main` work on an abstract store (the type parameter `Db`),
while `scrapeFeeds` and the `agg` loop work on the `Store` class; the `agg`
handler that `main` registers is therefore a given handler of the `HandlerSet`,
not `Handlers.HandlerAgg`, which models that handler's body on its own.

Where the program's documented design and its code differ, the model follows
the code:

- `DecodeEscapedStrings` unescapes only the channel title and description. Its
  loop over the items assigns to a copy of each item, so item titles and
  descriptions are stored still escaped (`Ingest.AttemptsFollowItems` shows the
  stored title is the raw item title).
- `main` registers and matches the browse command as `browser`; `browse` runs
  nothing and exits with 0.
- The order in which `GetNextFeedToFetch` picks feeds lives in SQL that is not
  part of this model, so the model lets it pick any feed; "never fetched
  first" is not assumed.
- The first cycle of `agg` runs at once; the ticker is waited on after each
  cycle.

## Model

| member | source | states |
|---|---|---|
| `Router.Commands.constructor` | main.go:73-75 | the registry starts with an empty table |
| `Router.Commands.Register` | main.go:517-519 | the table afterwards is the old one with `name` mapped to `f` (last registration wins, other entries unchanged); `Run` then runs `f` for that name and behaves as before for every other name |
| `Router.Commands.Run` | main.go:521-533 | an unregistered name yields `CommandNotFound(name)` with the state untouched and no handler run; a registered name yields exactly its handler's state and error, unchanged |
| `Errors.NotFoundMessageNamesCommand` | main.go:524-526 | the not-found error reads `command '<name>' not found`, with the name between the quotes (`Errors.Message` gives this text and the wrappings `invalid limit: ` and `couldn't get posts for user: ` of main.go:241 and 250) |
| `Auth.MiddlewareLoggedIn` | main.go:578-587 | when the configured current user cannot be resolved, the wrapped handler returns the lookup's error with the state unchanged, whatever the inner handler is; otherwise it returns the inner handler's result for the resolved user |
| `SqlNull.StringToSqlNullString` | main.go:654-659 | valid exactly when the string is non-empty, and the `String` field always reads back the input |
| `SqlNull.StringToSqlNullTime` | main.go:636-652 | valid exactly when the string is non-empty and parses as RFC 3339; then it holds the parsed time; otherwise it is the zero `NullTime` |
| `Rss.RssFeed.DecodeEscapedStrings` | main.go:567-576 | the channel title and description become their unescaped forms; link and every item stay as they were |
| `Rss.FetchFeed` | main.go:535-565 | a failed download is the fetch's error; a successful one yields a new document whose channel title and description are unescaped and whose items are the downloaded ones |
| `Store.Store.GetNextFeedToFetch` | main.go:591-594 | succeeds exactly when the store answers and holds a feed; the feed returned is one of the store's; no feeds is `NoRows` |
| `Store.Store.MarkFeedFetched` | main.go:600-603 | on success the feed with that identity is stamped with the current time; on failure nothing changes |
| `Store.Store.CreatePost` | main.go:612-623 | logs the attempt; inserts the post when its URL is new; a known URL is a `UniqueViolation` and a refused insert an error, both leaving the table unchanged |
| `Store.Store.NewUuid` | main.go:613 | the identity issued differs from every stored post's identity, and the counter moves on so it is not issued again; the store stays valid |
| `Store.Store.AdvanceClock` | main.go:444 | waiting for the next tick moves the clock on by the interval and changes nothing else in the store, which stays valid |
| `Store.StampedMarksOnlySelected` | main.go:600 | marking the selected feed stamps that feed with the given time, at its place, and leaves every other feed and the order as they were |
| `Ingest.InsertItems` | main.go:610-631 | one insert attempt per item, in item order, each with a fresh identity; the table afterwards is the in-order insertion of those attempts (unchanged if inserts are refused); no failed insert stops the loop |
| `Ingest.ScrapeFeeds` | main.go:589-634 | the cycle is `Cycled` from the old store state to the new one: a failed selection returns its error with no feed marked and no insert attempted; a failed mark returns before fetching, with nothing changed; a failed fetch returns its error with the feed already marked and no insert attempted; otherwise every item is attempted in order for the selected feed and the cycle returns no error; posts are never removed or overwritten and feeds only change their stamps |
| `Ingest.AttemptsFollowItems` | main.go:610-621 | the k-th attempt carries the selected feed's identity, the k-th item's link as URL, its title, description and publication date converted as the helpers say (not unescaped), and the k-th fresh identity; there are as many attempts as items |
| `Ingest.AttemptsUrls` | main.go:618 | the URLs attempted are exactly the items' links |
| `Ingest.InsertAllKeys` | main.go:623-630 | after the inserts the table holds exactly the old URLs and the attempted ones |
| `Ingest.InsertAllRetains` | main.go:623-630 | a stored post is never overwritten by a later attempt with its URL |
| `Ingest.InsertAllKeyedByUrl` | main.go:618-623 | the post table stays keyed by each post's own URL |
| `Ingest.InsertAllFirstWins` | main.go:610-630 | a newly stored post is the first attempt carrying its URL |
| `Ingest.InsertAllKnownUrls` | main.go:623-627 | attempts whose URLs are all stored change nothing |
| `Ingest.InsertAllCount` | main.go:623-630 | the table grows by exactly the number of attempted URLs it did not hold |
| `Ingest.ReingestionAddsNothing` | main.go:610-631 | ingesting the same items a second time, with new identities and a new time, leaves the table as the first ingestion left it |
| `Handlers.SingleArgument` | main.go:267-271 | succeeds exactly when there is one argument, and yields it; otherwise the handler's usage error (the same check, with its own message, at lines 293, 342, 365 and 431) |
| `Handlers.AddFeedArguments` | main.go:457-462 | succeeds exactly when there are two arguments, and yields the name and URL; otherwise the addfeed usage error |
| `Handlers.BrowseLimit` | main.go:236-243 | 2 unless there is exactly one argument; then the parsed integer, or an `InvalidLimit` error wrapping the parse error |
| `Handlers.Int32` | main.go:247 | the result is a 32-bit value congruent to the input modulo 2^32, and equals the input when it fits |
| `Handlers.HandlerBrowse` | main.go:234-251 | a bad limit fails without asking the store; otherwise the store is asked with the limit cut to 32 bits and only its failure is an error, wrapped; the state never changes |
| `Handlers.AggInterval` | main.go:431-439 | a wrong argument count is the agg usage error; otherwise the interval is the duration parse of the one argument |
| `Handlers.RunCycles` | main.go:443-452 | exactly `cycles` cycles run whatever their errors; the k-th is a `scrapeFeeds` cycle (`Cycled`) from the state the previous cycle and its wait left, the first from the initial state, and the store ends one wait after the last cycle |
| `Handlers.CyclesKeepPostsAndFeeds` | main.go:443-452 | over any run of chained cycles the clock advances one interval per wait, no post is lost or overwritten and feeds only change their stamps |
| `Handlers.HandlerAgg` | main.go:429-453 | a bad argument count or duration returns its error with the store untouched; a non-positive interval panics; otherwise the store goes through exactly `cycles` chained `scrapeFeeds` cycles (the trace of `RunCycles`), the clock advances one interval per cycle, no post is lost or overwritten and feeds only change their stamps |
| `Gator.Registered` | main.go:77-87 | after `main`'s registrations the table's names are the old ones plus the eleven dispatched names, and `browse` is not among them unless it was already |
| `Gator.RegisteredEntries` | main.go:77-87 | each of the eleven names is bound to its own handler: the five user-acting ones wrapped in the gate, the others as given |
| `Gator.RegisterAll` | main.go:73-87 | the table afterwards is `Registered` applied to the old table |
| `Gator.MainDispatch` | main.go:89-230 | fewer than two arguments exit with -1; a dispatched name is run and exits with -1 exactly when it returns an error; any other name runs nothing and exits with 0 |
| `Gator.MainRunsRegisteredHandler` | main.go:98-230 | with the standard registrations every dispatched name reaches its own handler, so the not-found error is unreachable from `main` |
| `Gator.GatedCommandsNeedCurrentUser` | main.go:82-87 | with the standard registrations and no resolvable current user, each of the five gated commands exits with -1 and leaves the state unchanged |
| `Gator.BrowserWithBadLimitFails` | main.go:218-251 | with `handlerBrowse` registered behind the gate and a resolvable current user, `browser` with an unparsable limit returns the limit's error, exits with -1 and leaves the state unchanged |
| `Gator.BrowseIsIgnored` | main.go:218-230 | `browse` (not `browser`) runs nothing and exits with 0 |

## Left out

- `fetchFeed`'s request building, `User-Agent` header, 60-second timeout, body read and XML decoding (main.go:535-560): network and library code; a `Downloader` function parameter, asked with the URL and the store's time, stands for all of them and its failure is the fetch's failure.
- `Handlers.RunCycles`: the set of operations the store refuses is fixed for the whole run (an outage neither starts nor ends between cycles), so `CyclesKeepPostsAndFeeds` and `HandlerAgg` can state that it stays; download results do vary, since each fetch is made at a later instant.
- `html.UnescapeString`, `time.Parse`, `time.ParseDuration` and `strconv.Atoi`: library code, taken as function parameters.
- The SQL behind the store operations: which feed `GetNextFeedToFetch` picks (so fair rotation and "never fetched first" are not proved), the uniqueness of post URLs (assumed by `CreatePost`), and any column `MarkFeedFetched` sets besides the last-fetched stamp.
- Store failures other than "this operation is refused" are not told apart.
- `Store.Store.CreatePost`: does not model failures other than a known URL or a refused insert.
- The bodies of `handlerLogin`, `handlerRegister`, `handlerReset`, `handlerGetUsers`, `handlerGetFeeds`, `handlerFollow`, `handlerFollowing`, `handlerUnfollow` and `handlerAddFeed` past their argument checks: store calls whose SQL is not shown and printing; they enter the registry as given handlers. The `os.Exit` paths in `handlerLogin` and `handlerRegister` are not modelled.
- `internal/config/config.go`: reading and writing the configuration file and `SetUser`'s persistence are I/O; the configuration is a record in the shared state.
- The configuration and database set-up in `main` (main.go:54-71) and all printing.
- `Handlers.HandlerAgg`: runs a given number of cycles and then returns no error, where the source loops forever; the clock advances by exactly one interval per cycle, whereas a real ticker drops ticks when a cycle overruns.
- `Handlers.HandlerAgg`: the panic of `time.NewTicker` on a non-positive interval is returned as a `Panic` error value; its unwinding through `run` and `main` (the process dies with exit status 2 and the error handling at main.go:152-157 is never reached) is not modelled.
- `uuid.New()` is a counter: identities are issued in increasing order and every stored post's identity lies below the counter, so each new one is fresh; `time.Now()` and SQL `NOW()` are the store's clock, which does not move within a cycle, so `CreatedAt` and `UpdatedAt` are equal.
- The browse limit may be any integer, since the 64-bit range `strconv.Atoi` enforces is part of the abstract parser.
