/**
 The process runner `spawn(command, args, callback)` of squirrel.js.

 A child process is not run here: what the operating system and the child
 would do is an input `Run`, namely whether the launch threw, the events the
 child emitted before it closed ('data' chunks on stdout and 'error' events)
 and, if it closed at all, its exit code and signal. `Spawn` performs the
 handler code over that trace and returns what the completion callback would
 receive, or `None` when the callback is never invoked.
 */
module Process {
  import opened Options

  /** The value of an error object's `code` property. */
  datatype ErrCode =
    | ExitStatus(status: int)     // the numeric exit code filled in on close
    | SystemCode(name: string)    // a code the error already carried, such as "ENOENT"

  /** What the message of a synthesised "Command failed" error names. */
  datatype Cause = BySignal(signal: string) | ByCode(code: Option<int>)

  /** Where an error object came from. */
  datatype Origin =
    | Raised(tag: string)          // thrown by the launch or emitted as an 'error' event
    | CommandFailed(cause: Cause)  // created by the close handler

  /** An error object: its origin and its two properties `code` and `stdout`. */
  datatype ProcError = ProcError(origin: Origin, code: Option<ErrCode>, stdout: Option<string>)

  /** An event the child emits before 'close'. */
  datatype Event = Data(chunk: string) | Error(err: ProcError)

  /** The arguments of the 'close' event; `code` is null when a signal killed the child. */
  datatype Exit = Exit(code: Option<int>, signal: Option<string>)

  /** Whether `cp.spawn` returned a child or threw. */
  datatype Launch = Started | Threw(err: ProcError)

  /** Everything the environment contributes to one call of `spawn`. */
  datatype Run = Run(launch: Launch, events: seq<Event>, close: Option<Exit>)

  /** The two arguments `(error, stdout)` passed to the completion callback. */
  datatype Reply = Reply(error: Option<ProcError>, stdout: string)

  /** The captured output: the 'data' chunks concatenated in arrival order. */
  function Output(events: seq<Event>): (r: string)
    ensures (forall i :: 0 <= i < |events| ==> !events[i].Data?) ==> r == ""
    ensures |events| > 0 && events[0].Data? ==> events[0].chunk <= r
  {
    if events == [] then ""
    else (if events[0].Data? then events[0].chunk else "") + Output(events[1..])
  }

  /** The error of the earliest 'error' event, if there is one. */
  function FirstError(events: seq<Event>): (r: Option<ProcError>)
    ensures r.Some? ==> exists i :: 0 <= i < |events| && events[i] == Error(r.value)
  {
    if events == [] then None
    else if events[0].Error? then Some(events[0].err)
    else FirstError(events[1..])
  }

  /** The callback fires when the launch throws or when the child closes. */
  predicate Completes(run: Run)
  {
    run.launch.Threw? || run.close.Some?
  }

  /** The exit code as the value stored in an error's `code` property (null stays null). */
  function CodeValue(code: Option<int>): Option<ErrCode>
  {
    if code.Some? then Some(ExitStatus(code.value)) else None
  }

  /** The error a close handler synthesises: named by the signal if there is one, else by the code. */
  function Synthesised(exit: Exit): (e: ProcError)
    ensures e.origin.CommandFailed? && e.code.None? && e.stdout.None?
    ensures exit.signal.Some? ==> e.origin.cause == BySignal(exit.signal.value)
    ensures exit.signal.None? ==> e.origin.cause == ByCode(exit.code)
  {
    ProcError(CommandFailed(if exit.signal.Some? then BySignal(exit.signal.value) else ByCode(exit.code)),
              None, None)
  }

  /** `e` with only its missing `code` and `stdout` properties filled in. */
  function Completed(e: ProcError, exit: Exit, out: string): (r: ProcError)
    ensures r.origin == e.origin
    ensures e.code.Some? ==> r.code == e.code
    ensures e.code.None? ==> r.code == CodeValue(exit.code)
    ensures e.stdout.Some? ==> r.stdout == e.stdout
    ensures e.stdout.None? ==> r.stdout == Some(out)
  {
    e.(code := if e.code.Some? then e.code else CodeValue(exit.code),
       stdout := if e.stdout.Some? then e.stdout else Some(out))
  }

  /**
   What the completion callback of `spawn` receives for `run`, or `None` if
   it is never called. A launch that throws yields its exception and empty
   output; otherwise the first 'error' event, or else a synthesised error when
   the exit code is not 0, is completed with the exit code and the output.
   */
  function SpawnReply(run: Run): (r: Option<Reply>)
    ensures r.Some? <==> Completes(run)
    ensures run.launch.Threw? ==> r == Some(Reply(Some(run.launch.err), ""))
    ensures run.launch.Started? && r.Some? ==> r.value.stdout == Output(run.events)
  {
    match run.launch
    case Threw(e) => Some(Reply(Some(e), ""))
    case Started =>
      if run.close.None? then None
      else
        var exit, out := run.close.value, Output(run.events);
        var pending := FirstError(run.events);
        if pending.Some? then Some(Reply(Some(Completed(pending.value, exit, out)), out))
        else if exit.code == Some(0) then Some(Reply(None, out))
        else Some(Reply(Some(Completed(Synthesised(exit), exit, out)), out))
  }

  lemma {:induction false} OutputAppend(a: seq<Event>, b: seq<Event>)
    ensures Output(a + b) == Output(a) + Output(b)
  {
    if a == [] {
      assert a + b == b;
    } else {
      assert (a + b)[1..] == a[1..] + b;
      OutputAppend(a[1..], b);
    }
  }

  lemma {:induction false} FirstErrorAppend(a: seq<Event>, b: seq<Event>)
    ensures FirstError(a + b) == if FirstError(a).Some? then FirstError(a) else FirstError(b)
  {
    if a == [] {
      assert a + b == b;
    } else {
      assert (a + b)[1..] == a[1..] + b;
      FirstErrorAppend(a[1..], b);
    }
  }

  /** There is no pending error exactly when no 'error' event occurred. */
  lemma {:induction false} FirstErrorNone(events: seq<Event>)
    ensures FirstError(events).None? <==> forall i :: 0 <= i < |events| ==> !events[i].Error?
  {
    if events != [] {
      FirstErrorNone(events[1..]);
      assert forall i :: 1 <= i < |events| ==> events[i] == events[1..][i - 1];
    }
  }

  /** The earliest 'error' event wins over every later one. */
  lemma {:induction false} FirstErrorWins(events: seq<Event>, k: nat)
    requires k < |events| && events[k].Error?
    requires forall j :: 0 <= j < k ==> !events[j].Error?
    ensures FirstError(events) == Some(events[k].err)
  {
    if k > 0 {
      assert forall j :: 0 <= j < k - 1 ==> events[1..][j] == events[j + 1];
      FirstErrorWins(events[1..], k - 1);
    }
  }

  /**
   Once the child closes, the callback's error is non-null exactly when the
   exit code is not 0 or some 'error' event occurred.
   */
  lemma ErrorIffFailure(run: Run)
    requires run.launch.Started? && run.close.Some?
    ensures SpawnReply(run).Some?
    ensures SpawnReply(run).value.error.Some? <==>
      run.close.value.code != Some(0) || exists i :: 0 <= i < |run.events| && run.events[i].Error?
  {
    FirstErrorNone(run.events);
  }

  /**
   The error of an 'error' event is the one delivered, keeping its origin and
   every property it already had; only missing `code` and `stdout` are filled.
   */
  lemma EventErrorKept(run: Run, k: nat)
    requires run.launch.Started? && run.close.Some?
    requires k < |run.events| && run.events[k].Error?
    requires forall j :: 0 <= j < k ==> !run.events[j].Error?
    ensures SpawnReply(run).Some? && SpawnReply(run).value.error.Some?
    ensures SpawnReply(run).value.error.value ==
      Completed(run.events[k].err, run.close.value, Output(run.events))
  {
    FirstErrorWins(run.events, k);
  }

  /**
   Without 'error' events, a non-zero close yields a "Command failed" error
   naming the signal, or the code when there is no signal, with the exit code
   and the captured output attached.
   */
  lemma CommandFailure(run: Run)
    requires run.launch.Started? && run.close.Some? && run.close.value.code != Some(0)
    requires forall i :: 0 <= i < |run.events| ==> !run.events[i].Error?
    ensures SpawnReply(run).Some? && SpawnReply(run).value.error.Some?
    ensures var e := SpawnReply(run).value.error.value;
      && e.origin == CommandFailed(if run.close.value.signal.Some? then BySignal(run.close.value.signal.value)
                                   else ByCode(run.close.value.code))
      && e.code == CodeValue(run.close.value.code)
      && e.stdout == Some(Output(run.events))
  {
  }

  /**
   The handler code of `spawn` over the trace `run`: the 'data' handler
   appends to `stdout`, the 'error' handler keeps the first error, and the
   'close' handler synthesises and completes the error in place.
   */
  method Spawn(run: Run) returns (r: Option<Reply>)
    ensures r == SpawnReply(run)
  {
    var stdout := "";
    if run.launch.Threw? {
      return Some(Reply(Some(run.launch.err), stdout));
    }
    var error: Option<ProcError> := None;
    var i := 0;
    while i < |run.events|
      invariant 0 <= i <= |run.events|
      invariant stdout == Output(run.events[..i])
      invariant error == FirstError(run.events[..i])
    {
      var ev := run.events[i];
      match ev {
        case Data(chunk) =>
          stdout := stdout + chunk;
        case Error(e) =>
          if error.None? {
            error := Some(e);
          }
      }
      assert run.events[..i + 1] == run.events[..i] + [ev];
      OutputAppend(run.events[..i], [ev]);
      FirstErrorAppend(run.events[..i], [ev]);
      i := i + 1;
    }
    assert run.events[..i] == run.events;
    if run.close.None? {
      return None;
    }
    var exit := run.close.value;
    if exit.code != Some(0) && error.None? {
      error := Some(Synthesised(exit));
    }
    if error.Some? && error.value.code.None? {
      error := Some(error.value.(code := CodeValue(exit.code)));
    }
    if error.Some? && error.value.stdout.None? {
      error := Some(error.value.(stdout := Some(stdout)));
    }
    r := Some(Reply(error, stdout));
  }
}
