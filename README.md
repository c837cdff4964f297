# Squirrel installer-event handler, modelled in Dafny

This project models `electron/js/squirrel.js` of the Wire desktop client. That
file handles Windows Squirrel installer events. It interprets the lifecycle
signal in `process.argv[1]` (`--squirrel-install`, `--squirrel-updated`,
`--squirrel-uninstall`, `--squirrel-obsolete`). It manages the Start-Menu,
Desktop and Taskbar shortcuts through `Update.exe` and a raw file copy. It
schedules background updates and deletes a legacy startup link.

The model runs against an abstract environment:

- `Options`: an `Option` datatype. `None` stands for `null`/`undefined`.
- `Process` models the process runner `spawn`. A child process is an input
  `Run`, which says:
  - whether `cp.spawn` threw;
  - which 'data' and 'error' events came before 'close';
  - the `(code, signal)` of 'close', if it closes.

  The imperative `Spawn` method runs the handler code over that trace: it
  appends to `stdout`, keeps the first error and fills missing fields in
  place. It is proved equal to the declarative `SpawnReply`, which gives the
  callback's `(error, stdout)`, or `None` when the callback never fires.
  Lemmas about `SpawnReply` state the classification rules.
- `Commands`: the fixed argument lists passed to `Update.exe`. `Render` builds
  them and `Decode` reads them back. The two are proved inverse.
- `Signals`: the switch over the lifecycle token.
- `Squirrel`: `class Environment` holds four fields:
  - `files`: the existing shortcut files and their contents;
  - `log`: the ordered log of `Update.exe` argument lists;
  - `quitRequested`: whether the application was asked to quit;
  - `updateScheduled`: whether the update timers were armed.

  Every operation of the module except `spawn` is a method on this class;
  `spawn` is `Process.Spawn`, which the class calls.

  Each updater call takes a `Run` as a parameter. An operation whose callback
  would be invoked returns `Some` of the callback's argument, and `None` when
  the source never invokes it. A continuation runs only once the step it is
  chained to has called back. So, for example, install requests quit only when
  both shortcut calls complete. The object invariant `Valid()` says that every
  logged argument list is one of the calls the module makes, and that every
  `--update` call carries the configured update URL.

Two quirks of the code are kept on purpose:

- `updateDesktopShortcut` drops its callback when the Desktop link is missing.
  So `--squirrel-updated` without a Desktop link returns true but never
  requests quit.
- `updateTaskbarShortcut` never calls its callback.

Two further behaviours of the code:

- `removeShortcuts` passes the `fs.unlink` result to its callback. That result
  is `NotFound` when the taskbar link was already missing, and `Failed` when
  the file system refuses the delete (EPERM, EBUSY, EACCES); the link then stays.
  Whether the delete is refused is an input of the model.
- A spawn whose child never closes never calls back, so the callback fires at
  most once.

## Model

| member | source | states |
|---|---|---|
| Process.Output | electron/js/squirrel.js:65-67 | the captured output is empty when no data chunk arrives, and starts with the first chunk when the trace starts with one |
| Process.FirstError | electron/js/squirrel.js:69-72 | a pending error is always the error of some 'error' event of the trace |
| Process.Synthesised | electron/js/squirrel.js:75-78 | the "Command failed" error names the signal when there is one, else the exit code, and has neither `code` nor `stdout` set yet |
| Process.Spawn | electron/js/squirrel.js:49-92 | running the data, error and close handlers over the trace delivers exactly the reply `SpawnReply` describes |
| Process.SpawnReply | electron/js/squirrel.js:55-91 | the callback fires iff the launch threw or the child closed; a launch that threw delivers its own error and empty stdout; otherwise stdout is the in-order concatenation of the data chunks |
| Process.Completed | electron/js/squirrel.js:80-89 | completing an error keeps its origin and any `code`/`stdout` it already has, and fills only the missing ones with the exit code and the captured output |
| Process.OutputAppend | electron/js/squirrel.js:65-67 | the captured output of two event runs in sequence is the concatenation of their outputs |
| Process.FirstErrorAppend | electron/js/squirrel.js:69-72 | the pending error after two runs is the first run's error if it has one, else the second's |
| Process.FirstErrorNone | electron/js/squirrel.js:69-72 | no error is pending exactly when no 'error' event occurred |
| Process.FirstErrorWins | electron/js/squirrel.js:70-72 | the earliest 'error' event is the one kept; later ones never replace it |
| Process.ErrorIffFailure | electron/js/squirrel.js:74-90 | after close, the callback's error is non-null iff the exit code is not 0 or an 'error' event occurred |
| Process.EventErrorKept | electron/js/squirrel.js:70-89 | when an 'error' event occurred, the delivered error is the first such event's error, with only its missing fields filled |
| Process.CommandFailure | electron/js/squirrel.js:75-89 | without error events, a non-zero close delivers a "Command failed" error naming the signal if any, else the code, carrying the exit code and the captured output |
| Commands.Render | electron/js/squirrel.js:100-139 | the argument lists are `--createShortcut exe -l=StartMenu`, `--createShortcut exe -l=Desktop`, `--removeShortcut exe -l=Desktop,Startup,StartMenu` and `--update url` |
| Commands.DecodeRender | electron/js/squirrel.js:100-139 | each fixed updater argument list decodes back to the call it encodes, so the four kinds of call are distinguishable |
| Commands.RenderDecode | electron/js/squirrel.js:100-139 | any argument list that decodes is exactly the rendering of its call |
| Signals.ParseSignal | electron/js/squirrel.js:149-174 | a case is selected iff the argument is present and equals one of the four tokens, and then the argument is that case's token |
| Signals.ParseToken | electron/js/squirrel.js:150-173 | each signal's token selects that signal's case |
| Squirrel.CopyOnto | electron/js/squirrel.js:123 | the copy gives the taskbar link the Start-Menu link's content and changes no other file; with no source file nothing changes |
| Squirrel.Environment.constructor | electron/js/squirrel.js:32-46 | the environment starts from the given existing files, with `exeName = NAME + ".exe"`, an empty call log and both flags clear |
| Squirrel.Environment.SpawnUpdate | electron/js/squirrel.js:95-97 | appends the call's argument list to the log, keeps the invariant (an update call must carry the configured URL) and returns the spawn reply |
| Squirrel.Environment.CreateStartShortcut | electron/js/squirrel.js:100-102 | unconditionally logs `--createShortcut exe -l=StartMenu` and returns its reply |
| Squirrel.Environment.CreateDesktopShortcut | electron/js/squirrel.js:105-107 | unconditionally logs `--createShortcut exe -l=Desktop` and returns its reply |
| Squirrel.Environment.UpdateDesktopShortcut | electron/js/squirrel.js:110-116 | issues the Desktop call iff the Desktop link exists; otherwise logs nothing and never invokes the callback |
| Squirrel.Environment.UpdateTaskbarShortcut | electron/js/squirrel.js:119-127 | without a taskbar link nothing changes; with one, the Start-Menu call is logged and only after it calls back does the taskbar link get the Start-Menu link's content; no other file changes and no callback is invoked |
| Squirrel.Environment.RemoveShortcuts | electron/js/squirrel.js:130-134 | logs `--removeShortcut exe -l=Desktop,Startup,StartMenu`; once it completes, the taskbar link is deleted unless the file system refuses, and the callback gets the unlink result: `NotFound` if the link was already missing, `Failed` (link kept) if the delete is refused, else `Unlinked` |
| Squirrel.Environment.InstallUpdate | electron/js/squirrel.js:137-139 | logs `--update <url>` |
| Squirrel.Environment.ScheduleUpdate | electron/js/squirrel.js:142-145 | marks the periodic update as scheduled |
| Squirrel.Environment.HandleSquirrelEvent | electron/js/squirrel.js:148-181 | returns true iff the signal is one of the four tokens. Install logs StartMenu then Desktop and requests quit only when both complete. Updated without a Desktop link changes nothing; with one it logs Desktop and, after that completes, runs a taskbar pass and requests quit. Uninstall removes (the taskbar link only if the delete is allowed) and quits after completion. Obsolete quits at once. Any other signal quits iff `shouldQuit`, schedules the update and runs a taskbar pass |
| Squirrel.Environment.CheckForOldStartup | electron/js/squirrel.js:185-192 | returns whether the legacy startup link existed; if it did it is gone afterwards, otherwise nothing changes |

## Left out

- Timing and asynchrony: `process.nextTick`, `fs.exists` callbacks, and the `setTimeout`/`setInterval` timers of `scheduleUpdate` are not modelled. Every step runs to completion in chain order. A launch failure is therefore delivered synchronously, not on the next tick. The timer-driven calls to `installUpdate` are not modelled, nor is their possible overlap.
- Squirrel.Environment.HandleSquirrelEvent: on `--squirrel-updated` the real quit request does not wait for the taskbar pass, which may never run before the process exits. The model performs the pass first. It does not model quit cutting the pass short.
- `app.quit` is the `quitRequested` flag. `app.setAppUserModelId`, run at module load, is omitted.
- `Update.exe` itself is opaque. Its calls are logged and do not create or remove shortcut files in the model.
- Squirrel.CopyOnto: the stream copy is a whole-content replacement. When the Start-Menu link is missing, the real read stream emits an unhandled error and the write stream may truncate the taskbar link. The model leaves the files unchanged in that case.
- `path.resolve`/`path.join`, `HOMEPATH` and `APPDATA` are not modelled. The four shortcut paths are distinct opaque constants.
- The `./config` module is not part of this model. `NAME` and `UPDATE_WIN_URL` are constructor parameters.
- `Origin.CommandFailed` records whether the "Command failed" message names the signal or the code, and which one; the message text itself is not kept.
- Node's byte-to-string conversion of stdout chunks is not modelled. Chunks are strings.
- Squirrel.Environment.CheckForOldStartup: the outcome of the callback-less `fs.unlink` is not handled. Depending on the Node version, a failed delete is re-thrown as an uncaught exception, or the call itself throws because the callback is missing. The model assumes the delete succeeds at once.
