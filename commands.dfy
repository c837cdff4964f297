/**
 The argument lists squirrel.js passes to Update.exe. `Render` builds the
 fixed lists of `createStartShortcut`, `createDesktopShortcut`,
 `removeShortcuts` and `installUpdate`; `Decode` reads a list back, so that
 "every logged call is one of these" can be stated and checked.
 */
module Commands {
  import opened Options

  /** The shell folder a `--createShortcut` call targets. */
  datatype Location = StartMenu | Desktop

  /** The calls the module makes to the updater. */
  datatype Call =
    | CreateShortcut(location: Location)
    | RemoveShortcut
    | Update(url: string)

  /** The argument list for `call`, with `exe` the executable name (`NAME + '.exe'`). */
  function Render(exe: string, call: Call): (args: seq<string>)
    ensures call.CreateShortcut? ==> |args| == 3 && args[0] == "--createShortcut" && args[1] == exe
    ensures call.RemoveShortcut? ==> |args| == 3 && args[0] == "--removeShortcut" && args[1] == exe
    ensures call.Update? ==> args == ["--update", call.url]
    ensures call == CreateShortcut(StartMenu) ==> args[2] == "-l=StartMenu"
    ensures call == CreateShortcut(Desktop) ==> args[2] == "-l=Desktop"
    ensures call.RemoveShortcut? ==> args[2] == "-l=Desktop,Startup,StartMenu"
  {
    match call
    case CreateShortcut(StartMenu) => ["--createShortcut", exe, "-l=StartMenu"]
    case CreateShortcut(Desktop) => ["--createShortcut", exe, "-l=Desktop"]
    case RemoveShortcut => ["--removeShortcut", exe, "-l=Desktop,Startup,StartMenu"]
    case Update(url) => ["--update", url]
  }

  /** The call an argument list stands for, if it is one the module makes. */
  function Decode(exe: string, args: seq<string>): Option<Call>
  {
    if |args| == 3 && args[0] == "--createShortcut" && args[1] == exe && args[2] == "-l=StartMenu" then
      Some(CreateShortcut(StartMenu))
    else if |args| == 3 && args[0] == "--createShortcut" && args[1] == exe && args[2] == "-l=Desktop" then
      Some(CreateShortcut(Desktop))
    else if |args| == 3 && args[0] == "--removeShortcut" && args[1] == exe
            && args[2] == "-l=Desktop,Startup,StartMenu" then
      Some(RemoveShortcut)
    else if |args| == 2 && args[0] == "--update" then
      Some(Update(args[1]))
    else None
  }

  /**
   Whether `args` is a call the module made, given the executable name `exe`
   and the configured update URL `url`.
   */
  predicate Issued(exe: string, url: string, args: seq<string>)
  {
    var call := Decode(exe, args);
    call.Some? && (call.value.Update? ==> call.value.url == url)
  }

  /** Every rendered call decodes to itself, so distinct calls give distinct lists. */
  lemma DecodeRender(exe: string, call: Call)
    ensures Decode(exe, Render(exe, call)) == Some(call)
  {
  }

  /** A list that decodes is exactly the rendering of what it decodes to. */
  lemma RenderDecode(exe: string, args: seq<string>)
    requires Decode(exe, args).Some?
    ensures Render(exe, Decode(exe, args).value) == args
  {
  }
}
