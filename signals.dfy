/** The lifecycle signal read from `process.argv[1]` by `handleSquirrelEvent`. */
module Signals {
  import opened Options

  /** The four signals the dispatcher's switch recognises. */
  datatype Signal = Install | Updated | Uninstall | Obsolete

  /** The command-line token of each signal. */
  function Token(s: Signal): string
  {
    match s
    case Install => "--squirrel-install"
    case Updated => "--squirrel-updated"
    case Uninstall => "--squirrel-uninstall"
    case Obsolete => "--squirrel-obsolete"
  }

  /**
   The case of the switch that `arg` selects, or `None` when it falls through
   (an absent argument included); matching is exact string equality.
   */
  function ParseSignal(arg: Option<string>): (r: Option<Signal>)
    ensures r.Some? <==>
      (arg.Some? && arg.value in {"--squirrel-install", "--squirrel-updated", "--squirrel-uninstall", "--squirrel-obsolete"})
    ensures r.Some? ==> arg == Some(Token(r.value))
  {
    if arg == Some("--squirrel-install") then Some(Install)
    else if arg == Some("--squirrel-updated") then Some(Updated)
    else if arg == Some("--squirrel-uninstall") then Some(Uninstall)
    else if arg == Some("--squirrel-obsolete") then Some(Obsolete)
    else None
  }

  /** Each signal's token selects that signal's case. */
  lemma ParseToken(s: Signal)
    ensures ParseSignal(Some(Token(s))) == Some(s)
  {
  }
}
