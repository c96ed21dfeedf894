/** The shared state handlers receive, and the gate in front of the handlers
    that act for the current user. */
module Auth {
  import opened Wrappers
  import opened Errors
  import opened Store
  import opened Router

  /** The loaded configuration; the file it is read from and written to is not
      part of this model. */
  datatype Config = Config(currentUserName: string, dbUrl: string)

  /** The shared state: the store handle and the configuration. */
  datatype State<Db> = State(db: Db, config: Config)

  /** `GetUser`: the store's lookup of a user by name, taken as given. */
  type UserLookup<!Db> = (Db, string) -> Result<User, Error>

  /** A handler that also receives the acting user. */
  type UserHandler<!Db> = (State<Db>, Command, User) -> (State<Db>, Option<Error>)

  /** Wraps `handler` so that it runs only for a resolved current user: an
      unresolved one yields the lookup's error and leaves the state as it was,
      whatever `handler` is. */
  function MiddlewareLoggedIn<Db(!new)>(getUser: UserLookup<Db>, handler: UserHandler<Db>): (wrapped: Handler<State<Db>>)
    ensures forall s: State<Db>, cmd: Command ::
              getUser(s.db, s.config.currentUserName).Failure? ==>
                wrapped(s, cmd) == (s, Some(getUser(s.db, s.config.currentUserName).error))
    ensures forall s: State<Db>, cmd: Command ::
              getUser(s.db, s.config.currentUserName).Success? ==>
                wrapped(s, cmd) == handler(s, cmd, getUser(s.db, s.config.currentUserName).value)
  {
    (s: State<Db>, cmd: Command) =>
      match getUser(s.db, s.config.currentUserName)
      case Failure(e) => (s, Some(e))
      case Success(user) => handler(s, cmd, user)
  }
}
