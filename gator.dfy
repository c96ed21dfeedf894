/** The program's entry: the registrations it makes and the way it dispatches
    the command-line arguments. */
module Gator {
  import opened Wrappers
  import opened Errors
  import opened Router
  import opened Auth
  import opened Store
  import opened Handlers

  /** The handlers `main` registers; the five that act for the current user
      take the user as well. */
  datatype HandlerSet<!Db> = HandlerSet(
    login: Handler<State<Db>>,
    register: Handler<State<Db>>,
    reset: Handler<State<Db>>,
    users: Handler<State<Db>>,
    agg: Handler<State<Db>>,
    addFeed: UserHandler<Db>,
    feeds: Handler<State<Db>>,
    follow: UserHandler<Db>,
    following: UserHandler<Db>,
    unfollow: UserHandler<Db>,
    browse: UserHandler<Db>)

  /** The names `main` tests the first argument against, in its own spelling:
      the browse command is `browser`. */
  const DispatchedNames: set<string> :=
    {"login", "register", "reset", "users", "agg", "addfeed", "feeds", "follow", "following", "unfollow", "browser"}

  /** `base` after `main`'s eleven registrations, in `main`'s order; the
      user-acting handlers go behind the gate. */
  function Registered<Db(!new)>(base: map<string, Handler<State<Db>>>, h: HandlerSet<Db>, getUser: UserLookup<Db>)
    : (table: map<string, Handler<State<Db>>>)
    ensures table.Keys == base.Keys + DispatchedNames
    ensures "browse" in table <==> "browse" in base
  {
    base
      ["login" := h.login]
      ["register" := h.register]
      ["reset" := h.reset]
      ["users" := h.users]
      ["agg" := h.agg]
      ["addfeed" := MiddlewareLoggedIn(getUser, h.addFeed)]
      ["feeds" := h.feeds]
      ["follow" := MiddlewareLoggedIn(getUser, h.follow)]
      ["following" := MiddlewareLoggedIn(getUser, h.following)]
      ["unfollow" := MiddlewareLoggedIn(getUser, h.unfollow)]
      ["browser" := MiddlewareLoggedIn(getUser, h.browse)]
  }

  /** Each dispatched name is bound to its own handler; the five user-acting
      ones behind the gate, the others as given. */
  lemma RegisteredEntries<Db(!new)>(base: map<string, Handler<State<Db>>>, h: HandlerSet<Db>, getUser: UserLookup<Db>)
    ensures var table := Registered(base, h, getUser);
      && table["login"] == h.login
      && table["register"] == h.register
      && table["reset"] == h.reset
      && table["users"] == h.users
      && table["agg"] == h.agg
      && table["addfeed"] == MiddlewareLoggedIn(getUser, h.addFeed)
      && table["feeds"] == h.feeds
      && table["follow"] == MiddlewareLoggedIn(getUser, h.follow)
      && table["following"] == MiddlewareLoggedIn(getUser, h.following)
      && table["unfollow"] == MiddlewareLoggedIn(getUser, h.unfollow)
      && table["browser"] == MiddlewareLoggedIn(getUser, h.browse)
  {
  }

  /** The registrations `main` makes on its empty table. */
  method RegisterAll<Db(!new)>(c: Commands<State<Db>>, h: HandlerSet<Db>, getUser: UserLookup<Db>)
    modifies c
    ensures c.cmds == Registered(old(c.cmds), h, getUser)
  {
    c.Register("login", h.login);
    c.Register("register", h.register);
    c.Register("reset", h.reset);
    c.Register("users", h.users);
    c.Register("agg", h.agg);
    c.Register("addfeed", MiddlewareLoggedIn(getUser, h.addFeed));
    c.Register("feeds", h.feeds);
    c.Register("follow", MiddlewareLoggedIn(getUser, h.follow));
    c.Register("following", MiddlewareLoggedIn(getUser, h.following));
    c.Register("unfollow", MiddlewareLoggedIn(getUser, h.unfollow));
    c.Register("browser", MiddlewareLoggedIn(getUser, h.browse));
  }

  /** How the process ends: its exit status and the state it leaves. */
  datatype Exit<S> = Exit(code: int, state: S)

  /** `main` after set-up, on `os.Args` (the program name first): too few
      arguments exit with -1; one of the dispatched names is run, and its error
      exits with -1; any other name does nothing and exits with 0. */
  function MainDispatch<S(!new)>(c: Commands<S>, s: S, args: seq<string>): (r: Exit<S>)
    reads c
    ensures |args| < 2 ==> r == Exit(-1, s)
    ensures |args| >= 2 && args[1] !in DispatchedNames ==> r == Exit(0, s)
    ensures |args| >= 2 && args[1] in DispatchedNames ==>
              var outcome := c.Run(s, Command(args[1], args[2..]));
              r.state == outcome.0 && (r.code == 0 <==> outcome.1.None?) && (r.code != 0 ==> r.code == -1)
  {
    if |args| < 2 then Exit(-1, s)
    else if args[1] in DispatchedNames then
      var outcome := c.Run(s, Command(args[1], args[2..]));
      if outcome.1.Some? then Exit(-1, outcome.0) else Exit(0, outcome.0)
    else Exit(0, s)
  }

  /** With the standard registrations, `main` never meets the not-found error:
      every name it dispatches reaches its registered handler. */
  lemma MainRunsRegisteredHandler<Db(!new)>(c: Commands<State<Db>>, h: HandlerSet<Db>, getUser: UserLookup<Db>,
                                            s: State<Db>, args: seq<string>)
    requires c.cmds == Registered(map[], h, getUser)
    requires |args| >= 2 && args[1] in DispatchedNames
    ensures c.Run(s, Command(args[1], args[2..])) == c.cmds[args[1]](s, Command(args[1], args[2..]))
    ensures MainDispatch(c, s, args).code == 0 <==> c.cmds[args[1]](s, Command(args[1], args[2..])).1.None?
  {
  }

  /** The names `main` registers behind the gate. */
  const GatedNames: set<string> := {"addfeed", "follow", "following", "unfollow", "browser"}

  /** With the standard registrations and no resolvable current user, every
      user-acting command exits with -1 and leaves the state as it was. */
  lemma GatedCommandsNeedCurrentUser<Db(!new)>(c: Commands<State<Db>>, h: HandlerSet<Db>, getUser: UserLookup<Db>,
                                               s: State<Db>, args: seq<string>)
    requires c.cmds == Registered(map[], h, getUser)
    requires |args| >= 2 && args[1] in GatedNames
    requires getUser(s.db, s.config.currentUserName).Failure?
    ensures MainDispatch(c, s, args) == Exit(-1, s)
  {
  }

  /** With `handlerBrowse` registered as the browse handler and a resolvable
      current user, `browser` with an unparsable limit exits with -1, leaves
      the state unchanged, and its error is the limit's, not a query's. */
  lemma BrowserWithBadLimitFails<Db(!new)>(c: Commands<State<Db>>, h: HandlerSet<Db>, getUser: UserLookup<Db>,
                                           getPosts: PostsQuery<Db>, atoi: IntParser,
                                           s: State<Db>, program: string, limit: string)
    requires c.cmds == Registered(map[], h, getUser)
    requires forall s': State<Db>, cmd: Command, u: User :: h.browse(s', cmd, u) == HandlerBrowse(getPosts, atoi, s', cmd, u)
    requires getUser(s.db, s.config.currentUserName).Success?
    requires atoi(limit).Failure?
    ensures c.Run(s, Command("browser", [limit])) == (s, Some(InvalidLimit(atoi(limit).error)))
    ensures MainDispatch(c, s, [program, "browser", limit]) == Exit(-1, s)
  {
  }

  /** `browse`, the name users would expect, is not dispatched: it runs
      nothing and exits with 0. */
  lemma BrowseIsIgnored<S(!new)>(c: Commands<S>, s: S, rest: seq<string>, program: string)
    ensures MainDispatch(c, s, [program, "browse"] + rest) == Exit(0, s)
  {
  }
}
