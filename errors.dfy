/** The errors the aggregator's core produces or passes through. */
module Errors {

  datatype Error =
    | CommandNotFound(name: string)    // commands.run: no handler under that name
    | Usage(message: string)           // a handler's argument-count check
    | InvalidLimit(cause: Error)       // handlerBrowse: the limit did not parse
    | PostsQueryFailed(cause: Error)   // handlerBrowse: GetPostsForUser failed
    | NoRows                           // the store found no matching row
    | UniqueViolation(url: string)     // the store already holds a post with that URL
    | StoreUnavailable                 // the store refused the operation
    | External(text: string)           // a library error (strconv, time, http, xml)
    | Panic(reason: string)            // the Go runtime panics instead of returning

  /** The text the program prints for an error, where the program fixes it.
      The texts of `UniqueViolation` and `StoreUnavailable` are placeholders:
      the program prints whatever the database driver reports. */
  function Message(e: Error): string
  {
    match e
    case CommandNotFound(name) => "command '" + name + "' not found"
    case Usage(message) => message
    case InvalidLimit(cause) => "invalid limit: " + Message(cause)
    case PostsQueryFailed(cause) => "couldn't get posts for user: " + Message(cause)
    case NoRows => "sql: no rows in result set"
    case UniqueViolation(url) => "duplicate post URL " + url
    case StoreUnavailable => "store unavailable"
    case External(text) => text
    case Panic(reason) => reason
  }

  /** The not-found message names the command, between the quotes. */
  lemma NotFoundMessageNamesCommand(name: string)
    ensures var m := Message(CommandNotFound(name));
            |m| == |name| + 20 && m[9..9 + |name|] == name
  {
  }
}
