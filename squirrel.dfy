/**
 The installer-event handler of squirrel.js over an abstract environment.

 `Environment` holds what the module changes: the shortcut files that exist
 (with their contents), the ordered log of argument lists passed to
 Update.exe, whether the application was asked to quit, and whether the
 periodic update was scheduled. Each call to the updater takes a
 `Process.Run` saying how that child behaves; an operation whose callback
 would be invoked returns `Some` of the callback's argument, and `None` when
 the callback is never invoked. Continuations run in the order the code chains
 them, each one only after the step it waits for has completed.
 */
module Squirrel {
  import opened Options
  import opened Process
  import opened Commands
  import opened Signals

  /** The shortcut paths the module touches, as distinct opaque constants. */
  datatype Path = StartLink | DesktopLink | TaskbarLink | LegacyStartupLink

  type Bytes = seq<bv8>

  /**
   What `fs.unlink` reports to its callback: success, ENOENT, or another
   error (EPERM, EBUSY, EACCES, ...) that leaves the file in place.
   */
  datatype UnlinkResult = Unlinked | NotFound | Failed

  /**
   `files` with `dst` given the content of `src`, the raw copy of the taskbar
   refresh; when `src` does not exist the copy fails and nothing changes.
   */
  function CopyOnto(files: map<Path, Bytes>, src: Path, dst: Path): (r: map<Path, Bytes>)
    ensures src in files ==> dst in r && r[dst] == files[src]
    ensures src !in files ==> r == files
    ensures r.Keys - {dst} == files.Keys - {dst}
    ensures forall p :: p in files && p != dst ==> p in r && r[p] == files[p]
  {
    if src in files then files[dst := files[src]] else files
  }

  class Environment {
    /** `NAME + '.exe'` and `UPDATE_WIN_URL` from the configuration. */
    const exeName: string
    const updateUrl: string

    var files: map<Path, Bytes>
    var log: seq<seq<string>>
    var quitRequested: bool
    var updateScheduled: bool

    /**
     Every logged argument list is one of the calls the module makes, and
     every `--update` call carries the configured URL.
     */
    ghost predicate Valid()
      reads this
    {
      forall i :: 0 <= i < |log| ==> Issued(exeName, updateUrl, log[i])
    }

    constructor (name: string, url: string, existing: map<Path, Bytes>)
      ensures Valid()
      ensures exeName == name + ".exe" && updateUrl == url
      ensures files == existing && log == [] && !quitRequested && !updateScheduled
    {
      exeName := name + ".exe";
      updateUrl := url;
      files := existing;
      log := [];
      quitRequested := false;
      updateScheduled := false;
    }

    function StartMenuArgs(): seq<string>
    {
      Render(exeName, CreateShortcut(StartMenu))
    }

    function DesktopArgs(): seq<string>
    {
      Render(exeName, CreateShortcut(Desktop))
    }

    function RemoveArgs(): seq<string>
    {
      Render(exeName, RemoveShortcut)
    }

    /** The updater calls a taskbar pass issues when the files are `before`. */
    function TaskbarCalls(before: map<Path, Bytes>): seq<seq<string>>
    {
      if TaskbarLink in before then [StartMenuArgs()] else []
    }

    /** The files after a taskbar pass whose Start-Menu call behaves as `run`. */
    function TaskbarFiles(before: map<Path, Bytes>, run: Run): map<Path, Bytes>
    {
      if TaskbarLink in before && Completes(run) then CopyOnto(before, StartLink, TaskbarLink) else before
    }

    /** `spawnUpdate`: run Update.exe with the arguments of `call`. */
    method SpawnUpdate(call: Call, run: Run) returns (r: Option<Reply>)
      requires Valid()
      requires call.Update? ==> call.url == updateUrl
      modifies this`log
      ensures Valid()
      ensures log == old(log) + [Render(exeName, call)]
      ensures r == SpawnReply(run)
    {
      DecodeRender(exeName, call);
      log := log + [Render(exeName, call)];
      r := Spawn(run);
    }

    /** `createStartShortcut`: always issues the Start-Menu call. */
    method CreateStartShortcut(run: Run) returns (r: Option<Reply>)
      requires Valid()
      modifies this`log
      ensures Valid()
      ensures log == old(log) + [StartMenuArgs()]
      ensures r == SpawnReply(run)
    {
      r := SpawnUpdate(CreateShortcut(StartMenu), run);
    }

    /** `createDesktopShortcut`: always issues the Desktop call. */
    method CreateDesktopShortcut(run: Run) returns (r: Option<Reply>)
      requires Valid()
      modifies this`log
      ensures Valid()
      ensures log == old(log) + [DesktopArgs()]
      ensures r == SpawnReply(run)
    {
      r := SpawnUpdate(CreateShortcut(Desktop), run);
    }

    /**
     `updateDesktopShortcut`: refreshes the Desktop shortcut only if it exists;
     otherwise no call is made and the callback is never invoked.
     */
    method UpdateDesktopShortcut(run: Run) returns (r: Option<Reply>)
      requires Valid()
      modifies this`log
      ensures Valid()
      ensures DesktopLink in files ==> log == old(log) + [DesktopArgs()] && r == SpawnReply(run)
      ensures DesktopLink !in files ==> log == old(log) && r == None
    {
      if DesktopLink in files {
        r := CreateDesktopShortcut(run);
      } else {
        r := None;
      }
    }

    /**
     `updateTaskbarShortcut`: if the taskbar link exists, recreates the
     Start-Menu shortcut and, once that call completes, copies the Start-Menu
     link onto the taskbar link. It has no out-parameter because it never
     invokes the callback it is given.
     */
    method UpdateTaskbarShortcut(run: Run)
      requires Valid()
      modifies this`log, this`files
      ensures Valid()
      ensures log == old(log) + TaskbarCalls(old(files))
      ensures files == TaskbarFiles(old(files), run)
    {
      if TaskbarLink in files {
        var done := CreateStartShortcut(run);
        if done.Some? {
          files := CopyOnto(files, StartLink, TaskbarLink);
        }
      }
    }

    /**
     `removeShortcuts`: issues the removal call and, once it completes, tries
     to delete the taskbar link; the callback then gets the unlink result.
     `deletable` says whether the file system lets an existing link be deleted.
     */
    method RemoveShortcuts(run: Run, deletable: bool) returns (r: Option<UnlinkResult>)
      requires Valid()
      modifies this`log, this`files
      ensures Valid()
      ensures log == old(log) + [RemoveArgs()]
      ensures Completes(run) ==>
        r == Some(if TaskbarLink !in old(files) then NotFound else if deletable then Unlinked else Failed)
      ensures Completes(run) ==> files == (if deletable then old(files) - {TaskbarLink} else old(files))
      ensures Completes(run) && deletable ==> TaskbarLink !in files
      ensures !Completes(run) ==> files == old(files) && r == None
    {
      var done := SpawnUpdate(RemoveShortcut, run);
      if done.None? {
        r := None;
      } else if TaskbarLink !in files {
        r := Some(NotFound);
      } else if deletable {
        r := Some(Unlinked);
        files := files - {TaskbarLink};
      } else {
        r := Some(Failed);
      }
    }

    /** `installUpdate`: issues the update call; it passes no callback. */
    method InstallUpdate(run: Run)
      requires Valid()
      modifies this`log
      ensures Valid()
      ensures log == old(log) + [Render(exeName, Update(updateUrl))]
    {
      var _ := SpawnUpdate(Update(updateUrl), run);
    }

    /** `scheduleUpdate`: arms the timers that later run `installUpdate`. */
    method ScheduleUpdate()
      requires Valid()
      modifies this`updateScheduled
      ensures Valid()
      ensures updateScheduled
    {
      updateScheduled := true;
    }

    /**
     `handleSquirrelEvent`: dispatches on `argv1` (process.argv[1]). `first`
     and `second` are the behaviours of the first and second updater calls the
     chosen branch makes, in the order it makes them; `taskbarDeletable` says
     whether uninstalling may delete an existing taskbar link.
     */
    method HandleSquirrelEvent(argv1: Option<string>, shouldQuit: bool, first: Run, second: Run,
                               taskbarDeletable: bool)
      returns (handled: bool)
      requires Valid()
      modifies this
      ensures Valid()
      ensures handled <==> ParseSignal(argv1).Some?
      ensures ParseSignal(argv1) == Some(Install) ==>
        && log == old(log) + [StartMenuArgs()] + (if Completes(first) then [DesktopArgs()] else [])
        && quitRequested == (old(quitRequested) || (Completes(first) && Completes(second)))
        && files == old(files) && updateScheduled == old(updateScheduled)
      ensures ParseSignal(argv1) == Some(Updated) && DesktopLink !in old(files) ==>
        && log == old(log) && files == old(files)
        && quitRequested == old(quitRequested) && updateScheduled == old(updateScheduled)
      ensures ParseSignal(argv1) == Some(Updated) && DesktopLink in old(files) ==>
        && log == old(log) + [DesktopArgs()] + (if Completes(first) then TaskbarCalls(old(files)) else [])
        && files == (if Completes(first) then TaskbarFiles(old(files), second) else old(files))
        && quitRequested == (old(quitRequested) || Completes(first))
        && updateScheduled == old(updateScheduled)
      ensures ParseSignal(argv1) == Some(Uninstall) ==>
        && log == old(log) + [RemoveArgs()]
        && files == (if Completes(first) && taskbarDeletable then old(files) - {TaskbarLink} else old(files))
        && quitRequested == (old(quitRequested) || Completes(first))
        && updateScheduled == old(updateScheduled)
      ensures ParseSignal(argv1) == Some(Obsolete) ==>
        && quitRequested
        && log == old(log) && files == old(files) && updateScheduled == old(updateScheduled)
      ensures ParseSignal(argv1).None? ==>
        && quitRequested == (old(quitRequested) || shouldQuit)
        && updateScheduled
        && log == old(log) + TaskbarCalls(old(files))
        && files == TaskbarFiles(old(files), first)
    {
      match ParseSignal(argv1)
      case Some(Install) =>
        var started := CreateStartShortcut(first);
        if started.Some? {
          var created := CreateDesktopShortcut(second);
          if created.Some? {
            quitRequested := true;
          }
        }
        return true;
      case Some(Updated) =>
        var refreshed := UpdateDesktopShortcut(first);
        if refreshed.Some? {
          UpdateTaskbarShortcut(second);
          quitRequested := true;
        }
        return true;
      case Some(Uninstall) =>
        var removed := RemoveShortcuts(first, taskbarDeletable);
        if removed.Some? {
          quitRequested := true;
        }
        return true;
      case Some(Obsolete) =>
        quitRequested := true;
        return true;
      case None =>
        if shouldQuit {
          quitRequested := true;
        }
        ScheduleUpdate();
        UpdateTaskbarShortcut(first);
        return false;
    }

    /**
     `checkForOldStartup`: reports whether the legacy startup link existed and
     deletes it when it did.
     */
    method CheckForOldStartup() returns (existed: bool)
      requires Valid()
      modifies this`files
      ensures Valid()
      ensures existed <==> LegacyStartupLink in old(files)
      ensures existed ==> files == old(files) - {LegacyStartupLink}
      ensures !existed ==> files == old(files)
    {
      existed := LegacyStartupLink in files;
      if existed {
        files := files - {LegacyStartupLink};
      }
    }
  }
}
