/** The command registry: a name-to-handler table and the dispatcher over it. */
module Router {
  import opened Wrappers
  import opened Errors

  datatype Command = Command(name: string, args: seq<string>)

  /** A handler takes the shared state and the command, and yields the state it
      leaves behind and its error, if any. */
  type Handler<!S> = (S, Command) -> (S, Option<Error>)

  class Commands<S(!new)> {
    var cmds: map<string, Handler<S>>

    constructor ()
      ensures cmds == map[]
    {
      cmds := map[];
    }

    /** Stores `f` under `name`; a later registration replaces an earlier one. */
    method Register(name: string, f: Handler<S>)
      modifies this
      ensures cmds == old(cmds)[name := f]
      ensures forall s, cmd :: Run(s, cmd) == if cmd.name == name then f(s, cmd) else old(Run(s, cmd))
    {
      cmds := cmds[name := f];
    }

    /** An unknown name fails with an error naming it and runs nothing; a known
        one runs exactly its handler and passes its outcome on unchanged. */
    function Run(s: S, cmd: Command): (r: (S, Option<Error>))
      reads this
      ensures cmd.name !in cmds ==> r == (s, Some(CommandNotFound(cmd.name)))
      ensures cmd.name in cmds ==> r == cmds[cmd.name](s, cmd)
    {
      if cmd.name in cmds then cmds[cmd.name](s, cmd)
      else (s, Some(CommandNotFound(cmd.name)))
    }
  }
}
