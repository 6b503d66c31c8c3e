/**
 * The terminal panel of the GUI (class TerminalWidget in
 * gui/terminal_emulator.py): a log of styled text, a Running/Idle status
 * label, a stop button, the reference to the running process and a FIFO
 * queue that the worker thread fills and a 50 ms timer drains.
 *
 * The worker thread is modelled by `WorkerEvents`, a function from what the
 * process did (an `Outcome`) to the events it queues; the drain step is
 * specified by `Render`/`RenderAll` on a `PanelState` of the panel's state, and the
 * class `TerminalWidget` implements both as ordinary methods.
 */
module Terminal {
  import opened Wrappers
  import Strings

  /** Process identifiers stand for the `Popen` object held in `current_process`. */
  type Pid = nat

  /** An entry of `output_queue`: `('output', line)`, `('finished', code)` or `('error', msg)`. */
  datatype Event = Output(line: string) | Finished(returnCode: int) | Error(message: string)

  /**
   * What the child process did, seen from the worker thread: `Popen` itself
   * raised; the process was started, produced `lines`, and exited; or it was
   * started, produced `lines`, and reading or waiting then raised. The
   * `lines` are the results of `readline()` before the end of the stream,
   * where the `iter(..., '')` loop stops, so none of them is empty; an empty
   * entry is skipped as the `if line:` test would skip it.
   */
  datatype Outcome =
    | SpawnFailed(message: string)
    | Exited(pid: Pid, lines: seq<string>, returnCode: int)
    | Crashed(pid: Pid, lines: seq<string>, message: string)

  /** The `('output', line)` events the read loop queues: one per non-empty line, in read order. */
  function OutputEvents(lines: seq<string>): (es: seq<Event>)
    ensures |es| == |Strings.DropEmpty(lines)|
    ensures forall k :: 0 <= k < |es| ==> es[k] == Output(Strings.DropEmpty(lines)[k])
    decreases |lines|
  {
    if |lines| == 0 then []
    else if lines[0] == "" then OutputEvents(lines[1..])
    else [Output(lines[0])] + OutputEvents(lines[1..])
  }

  lemma {:induction false} OutputEventsAppend(a: seq<string>, b: seq<string>)
    ensures OutputEvents(a + b) == OutputEvents(a) + OutputEvents(b)
    decreases |a|
  {
    if |a| == 0 {
      assert a + b == b;
    } else {
      assert (a + b)[1..] == a[1..] + b;
      OutputEventsAppend(a[1..], b);
    }
  }

  /** One more line read adds its `Output` event, unless it is empty. */
  lemma OutputEventsSnoc(lines: seq<string>, line: string)
    ensures OutputEvents(lines + [line]) == OutputEvents(lines) + (if line != "" then [Output(line)] else [])
  {
    OutputEventsAppend(lines, [line]);
    assert [line][1..] == [];
  }

  /**
   * Everything the worker thread queues for one outcome: the output events of
   * the lines read, then exactly one terminal event, which is `Finished` with
   * the exit code when the process exited and `Error` otherwise.
   */
  function WorkerEvents(o: Outcome): (es: seq<Event>)
    ensures |es| >= 1
    ensures forall k :: 0 <= k < |es| - 1 ==> es[k].Output?
    ensures o.Exited? ==> es[|es| - 1] == Finished(o.returnCode)
    ensures !o.Exited? ==> es[|es| - 1] == Error(o.message)
    ensures o.SpawnFailed? ==> |es| == 1
    ensures !o.SpawnFailed? ==>
      |es| == |Strings.DropEmpty(o.lines)| + 1 &&
      forall k :: 0 <= k < |es| - 1 ==> es[k] == Output(Strings.DropEmpty(o.lines)[k])
  {
    match o
    case SpawnFailed(m) => [Error(m)]
    case Exited(_, lines, code) => OutputEvents(lines) + [Finished(code)]
    case Crashed(_, lines, m) => OutputEvents(lines) + [Error(m)]
  }

  /**
   * Events never precede their lines and no outcome yields two terminal
   * events: every event that is not `Output` is the last one, and an outcome
   * has a `Finished` event iff the process exited.
   */
  lemma WorkerTerminalEvent(o: Outcome)
    ensures forall k :: 0 <= k < |WorkerEvents(o)| && !WorkerEvents(o)[k].Output? ==> k == |WorkerEvents(o)| - 1
    ensures (exists k :: 0 <= k < |WorkerEvents(o)| && WorkerEvents(o)[k].Finished?) <==> o.Exited?
  {
    var es := WorkerEvents(o);
    if o.Exited? {
      assert es[|es| - 1].Finished?;
    }
  }

  datatype Status = Idle | Running

  datatype Colour = AccentColour | DangerColour | SuccessColour | PrimaryColour

  /** The character format `append_output` picks: a foreground colour and whether it is bold. */
  datatype Format = Format(colour: Colour, bold: bool)

  const PlainFormat := Format(PrimaryColour, false)

  /** The style selection of `append_output`. */
  function StyleFormat(style: string): Format
  {
    if style == "command" then Format(AccentColour, true)
    else if style == "error" then Format(DangerColour, false)
    else if style == "success" then Format(SuccessColour, false)
    else PlainFormat
  }

  /**
   * Only `command`, `error` and `success` have a format of their own, and
   * they are pairwise different; every other style, `warning` included,
   * gets the plain format.
   */
  lemma StyleFormatCases(style: string)
    ensures StyleFormat(style) != PlainFormat <==> style in {"command", "error", "success"}
    ensures StyleFormat("warning") == PlainFormat
    ensures StyleFormat("command") != StyleFormat("error")
    ensures StyleFormat("error") != StyleFormat("success")
    ensures StyleFormat("success") != StyleFormat("command")
  {
  }

  /** A run of text inserted with one format. */
  datatype Span = Span(text: string, format: Format)

  /** The text of the log: its spans' texts, in order (`toPlainText()`, up to Qt's replacement of special spaces). */
  function PlainText(log: seq<Span>): string
    decreases |log|
  {
    if |log| == 0 then "" else log[0].text + PlainText(log[1..])
  }

  lemma {:induction false} PlainTextAppend(a: seq<Span>, b: seq<Span>)
    ensures PlainText(a + b) == PlainText(a) + PlainText(b)
    decreases |a|
  {
    if |a| == 0 {
      assert a + b == b;
    } else {
      assert (a + b)[1..] == a[1..] + b;
      PlainTextAppend(a[1..], b);
    }
  }

  /** The payload of `command_finished`: the exit code and the whole log text. */
  datatype Notification = Notification(returnCode: int, output: string)

  /**
   * The observable state of the panel other than the queue and the quick
   * command field: the log, the status label, the stop button, the process
   * reference, the `command_finished` notifications sent so far and the
   * processes `terminate()` was called on.
   */
  datatype PanelState = PanelState(
    log: seq<Span>,
    status: Status,
    stopEnabled: bool,
    process: Option<Pid>,
    notifications: seq<Notification>,
    terminated: seq<Pid>)

  function CommandLine(command: string): string { "\n$ " + command + "\n" }

  function ErrorLine(message: string): string { "\nError: " + message + "\n" }

  const SuccessLine := "\n\U{2713} Command completed successfully\n"

  function FailureLine(returnCode: int): string
  {
    "\n\U{2717} Command failed (exit code " + Strings.IntToString(returnCode) + ")\n"
  }

  const TerminatedLine := "\n\U{26A0} Command terminated by user\n"

  /** `append_output(text, style)`: one span at the end of the log, nothing else. */
  function Append(v: PanelState, text: string, style: string): (r: PanelState)
    ensures PlainText(r.log) == PlainText(v.log) + text
    ensures v.log <= r.log && |r.log| == |v.log| + 1 && r.log[|v.log|] == Span(text, StyleFormat(style))
    ensures r.(log := v.log) == v
  {
    PlainTextAppend(v.log, [Span(text, StyleFormat(style))]);
    assert PlainText([Span(text, StyleFormat(style))]) == text;
    v.(log := v.log + [Span(text, StyleFormat(style))])
  }

  /** The synchronous part of `execute_command`: echo the command, show Running, enable Stop. */
  function Echo(v: PanelState, command: string): (r: PanelState)
    ensures PlainText(r.log) == PlainText(v.log) + CommandLine(command)
    ensures v.log <= r.log && |r.log| == |v.log| + 1 && r.log[|v.log|] == Span(CommandLine(command), Format(AccentColour, true))
    ensures r.status == Running && r.stopEnabled
    ensures r.process == v.process && r.notifications == v.notifications && r.terminated == v.terminated
  {
    Append(v, CommandLine(command), "command").(status := Running, stopEnabled := true)
  }

  /** The worker's assignment to `current_process` once `Popen` has returned. */
  function Spawned(v: PanelState, o: Outcome): PanelState
  {
    if o.SpawnFailed? then v else v.(process := Some(o.pid))
  }

  /** `on_command_finished(code)`. */
  function Finish(v: PanelState, returnCode: int): (r: PanelState)
    ensures r.status == Idle && !r.stopEnabled && r.process == None
    ensures PlainText(r.log) == PlainText(v.log) + (if returnCode == 0 then SuccessLine else FailureLine(returnCode))
    ensures v.log <= r.log && |r.log| == |v.log| + 1
    ensures r.log[|v.log|] == if returnCode == 0 then Span(SuccessLine, StyleFormat("success"))
                              else Span(FailureLine(returnCode), StyleFormat("error"))
    ensures r.notifications == v.notifications + [Notification(returnCode, PlainText(r.log))]
    ensures r.terminated == v.terminated
  {
    var w := v.(status := Idle, stopEnabled := false);
    var w' := if returnCode == 0 then Append(w, SuccessLine, "success")
              else Append(w, FailureLine(returnCode), "error");
    w'.(process := None, notifications := v.notifications + [Notification(returnCode, PlainText(w'.log))])
  }

  /** `stop_command`: with a process, request its termination and log a warning; status stays as it is. */
  function Stop(v: PanelState): (r: PanelState)
    ensures v.process.None? ==> r == v
    ensures v.process.Some? ==>
      r.terminated == v.terminated + [v.process.value] &&
      PlainText(r.log) == PlainText(v.log) + TerminatedLine &&
      v.log <= r.log && |r.log| == |v.log| + 1 && r.log[|v.log|] == Span(TerminatedLine, StyleFormat("warning")) &&
      r.status == v.status && r.stopEnabled == v.stopEnabled && r.process == v.process &&
      r.notifications == v.notifications
  {
    if v.process.None? then v
    else Append(v, TerminatedLine, "warning").(terminated := v.terminated + [v.process.value])
  }

  /** What the drain loop of `update_output` does with one event. */
  function Render(v: PanelState, e: Event): (r: PanelState)
    ensures v.log <= r.log
    ensures e.Output? ==> PlainText(r.log) == PlainText(v.log) + e.line && r.(log := v.log) == v
    ensures e.Error? ==> PlainText(r.log) == PlainText(v.log) + ErrorLine(e.message) && r.(log := v.log) == v
    ensures e.Finished? ==> r == Finish(v, e.returnCode)
  {
    match e
    case Output(line) => Append(v, line, "output")
    case Finished(code) => Finish(v, code)
    case Error(message) => Append(v, ErrorLine(message), "error")
  }

  /** Rendering a sequence of events, first to last. */
  function RenderAll(v: PanelState, es: seq<Event>): PanelState
    decreases |es|
  {
    if |es| == 0 then v else RenderAll(Render(v, es[0]), es[1..])
  }

  lemma {:induction false} RenderAllAppend(v: PanelState, a: seq<Event>, b: seq<Event>)
    ensures RenderAll(v, a + b) == RenderAll(RenderAll(v, a), b)
    decreases |a|
  {
    if |a| == 0 {
      assert a + b == b;
    } else {
      assert (a + b)[1..] == a[1..] + b;
      RenderAllAppend(Render(v, a[0]), a[1..], b);
    }
  }

  /**
   * Rendering the output events of some lines appends exactly those lines'
   * text and changes nothing but the log.
   */
  lemma {:induction false} RenderOutputEvents(v: PanelState, lines: seq<string>)
    ensures PlainText(RenderAll(v, OutputEvents(lines)).log) == PlainText(v.log) + Strings.Concat(lines)
    ensures RenderAll(v, OutputEvents(lines)).(log := v.log) == v
    decreases |lines|
  {
    if |lines| > 0 {
      var rest := OutputEvents(lines[1..]);
      if lines[0] == "" {
        RenderOutputEvents(v, lines[1..]);
      } else {
        var v' := Render(v, Output(lines[0]));
        assert ([Output(lines[0])] + rest)[1..] == rest;
        RenderOutputEvents(v', lines[1..]);
      }
    }
  }

  /**
   * Draining everything a worker queued: all lines appear in read order; an
   * exited process then leaves the success or failure line, Idle status, a
   * disabled Stop button, no process and one notification carrying the whole
   * log; any other outcome leaves the error line and nothing else changed.
   */
  lemma DrainWorkerEvents(v: PanelState, o: Outcome)
    ensures var r := RenderAll(v, WorkerEvents(o));
      var lines := if o.SpawnFailed? then [] else o.lines;
      && r.terminated == v.terminated
      && (o.Exited? ==>
           && PlainText(r.log) == PlainText(v.log) + Strings.Concat(lines) +
                (if o.returnCode == 0 then SuccessLine else FailureLine(o.returnCode))
           && r.status == Idle && !r.stopEnabled && r.process == None
           && r.notifications == v.notifications + [Notification(o.returnCode, PlainText(r.log))])
      && (!o.Exited? ==>
           && PlainText(r.log) == PlainText(v.log) + Strings.Concat(lines) + ErrorLine(o.message)
           && r.(log := v.log) == v)
  {
    var lines := if o.SpawnFailed? then [] else o.lines;
    var last := if o.Exited? then Finished(o.returnCode) else Error(o.message);
    assert WorkerEvents(o) == OutputEvents(lines) + [last];
    RenderAllAppend(v, OutputEvents(lines), [last]);
    RenderOutputEvents(v, lines);
    var m := RenderAll(v, OutputEvents(lines));
    assert RenderAll(m, [last]) == Render(m, last);
  }

  /**
   * A whole run as the user sees it: `execute_command(c)`, then the worker,
   * then the drain, for a process that exits with `code` after printing
   * `lines`. The log gains the echoed command, the lines and the verdict line,
   * and the panel is Idle again.
   */
  lemma RunToCompletion(v: PanelState, command: string, pid: Pid, lines: seq<string>, code: int)
    ensures var o := Exited(pid, lines, code);
      var r := RenderAll(Spawned(Echo(v, command), o), WorkerEvents(o));
      && PlainText(r.log) == PlainText(v.log) + CommandLine(command) + Strings.Concat(lines) +
           (if code == 0 then SuccessLine else FailureLine(code))
      && r.status == Idle && !r.stopEnabled && r.process == None
      && r.notifications == v.notifications + [Notification(code, PlainText(r.log))]
  {
    DrainWorkerEvents(Spawned(Echo(v, command), Exited(pid, lines, code)), Exited(pid, lines, code));
  }

  /**
   * Stopping only requests termination: the status still reads Running
   * until the process's `Finished` event is drained, and after that drain it
   * reads Idle whatever `stop_command` did; the warning line comes before the
   * verdict line.
   */
  lemma StopThenFinish(v: PanelState, code: int)
    requires v.status == Running && v.process.Some?
    ensures Stop(v).status == Running
    ensures var r := Render(Stop(v), Finished(code));
      r.status == Idle && r.process == None &&
      PlainText(r.log) == PlainText(v.log) + TerminatedLine +
        (if code == 0 then SuccessLine else FailureLine(code))
  {
  }

  /** The panel. */
  class TerminalWidget {
    var log: seq<Span>
    var status: Status
    var stopEnabled: bool
    var process: Option<Pid>
    var notifications: seq<Notification>
    var terminated: seq<Pid>
    /** `output_queue`, oldest event first. */
    var queue: seq<Event>
    /** The text of the quick command bar. */
    var quickInput: string

    function State(): PanelState
      reads this
    {
      PanelState(log, status, stopEnabled, process, notifications, terminated)
    }

    constructor ()
      ensures log == [] && status == Idle && !stopEnabled && process == None
      ensures notifications == [] && terminated == [] && queue == [] && quickInput == ""
    {
      log, status, stopEnabled, process := [], Idle, false, None;
      notifications, terminated, queue, quickInput := [], [], [], "";
    }

    /** `append_output(text, style)`. */
    method AppendOutput(text: string, style: string)
      modifies this`log
      ensures State() == Append(old(State()), text, style)
    {
      log := log + [Span(text, StyleFormat(style))];
    }

    /**
     * `execute_command(command)` up to starting the worker thread: the echo
     * is in the log and the panel shows Running before the worker has queued
     * anything.
     */
    method ExecuteCommand(command: string)
      modifies this
      ensures State() == Echo(old(State()), command)
      ensures queue == old(queue) && quickInput == old(quickInput)
    {
      AppendOutput("\n$ " + command + "\n", "command");
      status := Running;
      stopEnabled := true;
    }

    /**
     * The body of `run_in_thread`, run to its end: assign `current_process`
     * if `Popen` returned, then queue one event per non-empty line read and
     * the terminal event.
     */
    method RunWorker(o: Outcome)
      modifies this
      ensures queue == old(queue) + WorkerEvents(o)
      ensures State() == Spawned(old(State()), o)
      ensures quickInput == old(quickInput)
    {
      if o.SpawnFailed? {
        queue := queue + [Error(o.message)];
        return;
      }
      process := Some(o.pid);
      QueueLines(o.lines);
      match o
      case Exited(_, _, code) =>
        queue := queue + [Finished(code)];
      case Crashed(_, _, message) =>
        queue := queue + [Error(message)];
    }

    /** The reading loop of `run_in_thread`: one `Output` event per non-empty line, in order. */
    method QueueLines(lines: seq<string>)
      modifies this`queue
      ensures queue == old(queue) + OutputEvents(lines)
    {
      var i := 0;
      while i < |lines|
        invariant 0 <= i <= |lines|
        invariant queue == old(queue) + OutputEvents(lines[..i])
      {
        var line := lines[i];
        assert lines[..i + 1] == lines[..i] + [line];
        OutputEventsSnoc(lines[..i], line);
        if line != "" {
          queue := queue + [Output(line)];
        }
        i := i + 1;
      }
      assert lines[..i] == lines;
    }

    /** `on_command_finished(return_code)`. */
    method OnCommandFinished(returnCode: int)
      modifies this
      ensures State() == Finish(old(State()), returnCode)
      ensures queue == old(queue) && quickInput == old(quickInput)
    {
      status := Idle;
      stopEnabled := false;
      if returnCode == 0 {
        AppendOutput("\n\U{2713} Command completed successfully\n", "success");
      } else {
        AppendOutput("\n\U{2717} Command failed (exit code " + Strings.IntToString(returnCode) + ")\n", "error");
      }
      process := None;
      notifications := notifications + [Notification(returnCode, PlainText(log))];
    }

    /**
     * `update_output`: pop and render events until the queue is empty. With
     * an empty queue nothing changes.
     */
    method UpdateOutput()
      modifies this
      ensures queue == []
      ensures State() == RenderAll(old(State()), old(queue))
      ensures old(queue) == [] ==> State() == old(State())
      ensures quickInput == old(quickInput)
    {
      while queue != []
        invariant RenderAll(State(), queue) == RenderAll(old(State()), old(queue))
        invariant quickInput == old(quickInput)
        decreases |queue|
      {
        var event := queue[0];
        queue := queue[1..];
        match event
        case Output(line) =>
          AppendOutput(line, "output");
        case Finished(code) =>
          OnCommandFinished(code);
        case Error(message) =>
          AppendOutput("\nError: " + message + "\n", "error");
      }
    }

    /** `stop_command`. */
    method StopCommand()
      modifies this
      ensures State() == Stop(old(State()))
      ensures queue == old(queue) && quickInput == old(quickInput)
    {
      if process.Some? {
        terminated := terminated + [process.value];
        AppendOutput("\n\U{26A0} Command terminated by user\n", "warning");
      }
    }

    /**
     * `run_quick_command`: a blank entry does nothing; otherwise the stripped
     * text is executed and the entry is cleared.
     */
    method RunQuickCommand()
      modifies this
      ensures Strings.Strip(old(quickInput)) == "" ==>
        State() == old(State()) && quickInput == old(quickInput)
      ensures Strings.Strip(old(quickInput)) != "" ==>
        State() == Echo(old(State()), Strings.Strip(old(quickInput))) && quickInput == ""
      ensures queue == old(queue)
    {
      var command := Strings.Strip(quickInput);
      if command != "" {
        ExecuteCommand(command);
        quickInput := "";
      }
    }

    /** `clear_output`: empties the log and leaves the run, if any, alone. */
    method ClearOutput()
      modifies this`log
      ensures State() == old(State()).(log := [])
    {
      log := [];
    }
  }
}
