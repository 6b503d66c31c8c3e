# CyberGuard UI core, modelled in Dafny

CyberGuard UI is a PyQt6 desktop front end for Kali Linux security tools: a
sidebar of tool categories, a form per tool, and a terminal panel that runs
the shell command a form builds and shows its output. This project models
the sequential logic under that skin and proves what it promises:

- `terminal.dfy` (module `Terminal`) models the terminal panel. The worker
  thread becomes `WorkerEvents`, a function from what the child process did
  to the events it queues. The panel state and its transitions are pure
  functions (`Echo`, `Render`, `Finish`, `Stop`, `RenderAll`). The class
  `TerminalWidget` implements each slot as a method over a FIFO queue held
  in a field, and each method is proved equal to its function.
- `main_window.dfy` (module `MainWindow`) models three things:
  - sidebar navigation, with its page cache and the checked flags of the
    buttons (`CyberGuardMainWindow`);
  - the "Update Kali Tools" action;
  - the Nmap page's command builder (`ScanningPage.BuildNmapCommand`, an
    append-style method proved equal to the `NmapCommand` function). Like
    the code, it writes the timing flag lower-cased (`-t<n>`). Its twin
    `NmapCommandIntended` writes nmap's `-T<n>` and is proved to differ from
    it only in that token (see "## Findings").
- `tool_cards.dfy` (module `ToolCards`) models the tool forms:
  - typed fields and the widgets made for them;
  - reading values back, resetting to defaults, and the generic command
    preview;
  - the Run gate: the required-field check, then the confirmation that
    dangerous tools need;
  - the category card's label.
- `base_tool.dfy` (module `BaseTool`) models the tool back end:
  - first-failure parameter validation;
  - the pure parts of `execute` (short-circuit, `sudo` rule, collected
    output, result shape);
  - the Markdown documentation;
  - `to_dict`, with a decoder that inverts it up to the fields it leaves out.
- `strings.dfy` and `wrappers.dfy` are helpers. They hold the Python string
  operations the code relies on, written over `seq<char>`, and `Option`.

Inputs from outside the program are parameters:

- the process outcome;
- the effective user id;
- the confirmation dialog's answer;
- the file dialog's choice;
- the abstract `build_command`, `parse_output` and `re.match`.

Two behaviours of the code that are easy to miss:

- An `error` event only logs the error line. Status, Stop button and
  process reference stay as they were, so a failed spawn leaves the panel
  showing Running (`Terminal.Render`).
- Nothing stops `execute_command` from being called while a command runs.
  `ExecuteCommand` has no such precondition and simply echoes again.

## Model

| member | source | states |
|---|---|---|
| `Terminal.OutputEvents` | gui/terminal_emulator.py:141-143 | one `output` event per non-empty line read, in read order, and nothing else |
| `Terminal.OutputEventsAppend` | gui/terminal_emulator.py:141-143 | the events of lines read in two stretches are those of the first stretch followed by those of the second |
| `Terminal.OutputEventsSnoc` | gui/terminal_emulator.py:141-143 | one more line read adds its `output` event iff it is non-empty |
| `Terminal.WorkerEvents` | gui/terminal_emulator.py:130-151 | the worker queues the line events, then exactly one last event: `finished(code)` when the process exited, `error(msg)` when `Popen` or reading raised (only that event when `Popen` raised) |
| `Terminal.WorkerTerminalEvent` | gui/terminal_emulator.py:141-151 | every non-`output` event is the last one, and a `finished` event is queued iff the process exited |
| `Terminal.StyleFormatCases` | gui/terminal_emulator.py:179-187 | `StyleFormat` (the style selection of `append_output`): only `command`, `error` and `success` get their own pairwise different formats; every other style, `warning` included, is plain |
| `Terminal.PlainTextAppend` | gui/terminal_emulator.py:190 | the text of a log grown by spans is the old text followed by theirs |
| `Terminal.Append` | gui/terminal_emulator.py:172-190 | text is inserted at the end of the log as exactly one span, `text` in the format `StyleFormat` picks for the style (old log a prefix, plain text extended by exactly `text`); nothing else changes |
| `Terminal.Echo` | gui/terminal_emulator.py:124-128 | the log gains exactly `\n$ <command>\n` in command format, status is Running and Stop enabled; process, notifications and terminations untouched |
| `Terminal.Finish` | gui/terminal_emulator.py:196-208 | status Idle, Stop disabled, no process; the log gains exactly one span, the success line in success format iff the code is 0 and the failure line with the code in error format otherwise; one notification with the code and the whole log text including that line |
| `Terminal.Stop` | gui/terminal_emulator.py:210-214 | no process: nothing changes; a process: it is terminated, the log gains exactly one span, the terminated line in warning format (which is plain), and status, Stop button and process stay as they were |
| `Terminal.Render` | gui/terminal_emulator.py:162-167 | an `output` event appends its text verbatim, an `error` event appends `\nError: <msg>\n` and changes nothing else, a `finished` event is `on_command_finished` |
| `Terminal.RenderAllAppend` | gui/terminal_emulator.py:158-167 | draining two batches of events in turn is draining them together, in FIFO order |
| `Terminal.RenderOutputEvents` | gui/terminal_emulator.py:162-163 | draining the line events of some lines adds exactly those lines' text to the log and changes nothing else |
| `Terminal.DrainWorkerEvents` | gui/terminal_emulator.py:141-167 | draining all a worker queued shows every line in read order and then the final line; an exited process leaves the panel Idle with one notification, any other outcome leaves the rest of the panel unchanged |
| `Terminal.RunToCompletion` | gui/terminal_emulator.py:122-208 | execute, run the worker, drain: the log gains the echoed command, the lines and the verdict line, and the panel is Idle with no process |
| `Terminal.StopThenFinish` | gui/terminal_emulator.py:196-214 | stopping leaves status Running until the `finished` event is drained, which makes it Idle; the warning precedes the verdict line |
| `Terminal.TerminalWidget.constructor` | gui/terminal_emulator.py:25-29 | empty log and queue, Idle, Stop disabled, no process |
| `Terminal.TerminalWidget.AppendOutput` | gui/terminal_emulator.py:172-190 | the new state is `Append` of the old one; only the log changes |
| `Terminal.TerminalWidget.ExecuteCommand` | gui/terminal_emulator.py:122-128 | the new state is `Echo` of the old one and the queue is still as it was: Running is shown before any worker event exists |
| `Terminal.TerminalWidget.RunWorker` | gui/terminal_emulator.py:130-151 | the queue grows by exactly `WorkerEvents(o)` and the process reference is set iff `Popen` returned |
| `Terminal.TerminalWidget.QueueLines` | gui/terminal_emulator.py:141-143 | the reading loop queues exactly the line events of the lines read, in order, and changes nothing but the queue |
| `Terminal.TerminalWidget.OnCommandFinished` | gui/terminal_emulator.py:196-208 | the new state is `Finish` of the old one |
| `Terminal.TerminalWidget.UpdateOutput` | gui/terminal_emulator.py:156-170 | the queue ends empty and the new state is the old one with every queued event rendered in FIFO order; an empty queue changes nothing |
| `Terminal.TerminalWidget.StopCommand` | gui/terminal_emulator.py:210-214 | the new state is `Stop` of the old one |
| `Terminal.TerminalWidget.RunQuickCommand` | gui/terminal_emulator.py:216-221 | a blank (all-whitespace) entry changes nothing; otherwise the stripped entry is echoed as a command and the entry is cleared |
| `Terminal.TerminalWidget.ClearOutput` | gui/terminal_emulator.py:223-225 | the log is emptied and status, Stop button, process and notifications stay |
| `Strings.StripSpec` | gui/terminal_emulator.py:218 | `Strip`, the model of `strip()`, gives a slice of the input with only whitespace cut from each end, no whitespace at either end, and empty exactly for all-whitespace input |
| `Strings.FirstWordSpec` | gui/main_window.py:541 | `FirstWord`, the model of `split()[0]`, is the first non-empty run of non-whitespace after leading whitespace, and does not exist exactly for all-whitespace input |
| `Strings.DropEmpty` | gui/main_window.py:549 | `filter(None, ...)` keeps no empty token and never adds any |
| `Strings.DropEmptyAppend` | gui/main_window.py:549 | filtering a concatenation filters each part in turn |
| `Strings.DropEmptyNonEmpty` | gui/main_window.py:549 | a list without empty tokens passes the filter unchanged |
| `Strings.Lower` | gui/tool_cards.py:236 | `lower()` keeps the length, leaves no upper-case ASCII letter, keeps every other character and turns each upper-case letter into the lower-case one |
| `Strings.LowerIdempotent` | gui/tool_cards.py:236 | lower-casing an already lower-cased text changes nothing |
| `Strings.ReplaceCharRemoves` | gui/main_window.py:547 | after `replace('/', '_')` no `/` is left |
| `Strings.ReplaceCharAbsent` | gui/main_window.py:547 | `replace` of a character that does not occur returns the text unchanged |
| `Strings.IntToString` | gui/terminal_emulator.py:205 | `str(code)` is `-` exactly for a negative code, followed by the decimal digits of its magnitude: digits only, no leading zero, and denoting the code's value |
| `Strings.NatToString` | gui/terminal_emulator.py:205 | the digits of a natural number are its canonical decimal form: digits only, starting with `0` only for 0, with the number as their decimal value |
| `MainWindow.CreateToolPageCases` | gui/main_window.py:361-372 | `CreateToolPage`: each of the five registered categories has its own page class, and every other category gets the fallback |
| `MainWindow.NavSelectionExclusive` | gui/main_window.py:346-347 | after the button loop exactly one button is checked for a sidebar key and none for any other category |
| `MainWindow.CyberGuardMainWindow.constructor` | gui/main_window.py:58-66 | only the overview page in the stack and showing, no cached tool page, no button checked |
| `MainWindow.CyberGuardMainWindow.NavigateTo` | gui/main_window.py:343-359 | every button is checked iff its key is the category; `overview` shows the overview and touches no cache; any other category shows its cached page, created and added only when not cached yet, so each page is created at most once and the stack holds each cached page exactly once |
| `MainWindow.CachePage` | gui/main_window.py:354-357 | creating, caching and adding the page of a category not cached yet keeps the cache and the stack consistent: every cached page is the one made for its category and sits in the stack exactly once, after the overview |
| `MainWindow.CyberGuardMainWindow.UpdateKaliTools` | gui/main_window.py:392-394 | the terminal echoes exactly `sudo apt update && sudo apt upgrade -y` and shows Running |
| `MainWindow.ScanTypeFlagEmpty` | gui/main_window.py:525-535 | the scan flag is the empty token exactly for `Regular Scan` and for choices outside the table |
| `MainWindow.OutputFileSpec` | gui/main_window.py:546-547 | the output file name has no `/`, is `nmap_` + the target with each `/` made `_` + `.xml`, character by character |
| `MainWindow.OutputFileNoSlash` | gui/main_window.py:547 | a target without `/` appears in the output file name unchanged |
| `MainWindow.TimingFlagExample` | gui/main_window.py:540-542 | the timing choice `T4 (Aggressive)` gives `-t4` as the code writes it and `-T4` as intended |
| `MainWindow.TimingChoiceWord` | gui/main_window.py:494-496 | the first word of every timing choice `T<n> (<name>)` is `T<n>` |
| `MainWindow.TimingFlagAsWrittenNotTemplate` | gui/main_window.py:540-542 | as written, every timing choice `T0`..`T5` becomes `-t<n>`, which is not one of nmap's `-T0`..`-T5` options |
| `MainWindow.TimingFlagTemplate` | gui/main_window.py:540-542 | without the lower-casing, every timing choice `T<n> (<name>)` gives nmap's timing option `-T<n>` |
| `MainWindow.NmapFailsOnlyOnBlankTiming` | gui/main_window.py:540-541 | building the command fails (`split()[0]` raises) exactly for a non-empty, all-whitespace timing, and so does the intended command |
| `MainWindow.TokensLayout` | gui/main_window.py:534-549 | for any timing part without empty tokens, the filtered list is `nmap`, the scan flag unless empty, `-p <ports>` iff ports were given, the timing part, the target unless empty, and `-oX <file>` iff the output is saved |
| `MainWindow.NmapTokensLayout` | gui/main_window.py:534-549 | `NmapArgs` (the list `cmd`) filtered and joined is `NmapCommand`, and its tokens are `nmap`, the scan flag unless empty, `-p <ports>` iff ports were given, the timing flag as the code writes it (`-t<n>`) iff a timing was chosen, the target unless empty, and `-oX <file>` iff the output is saved |
| `MainWindow.NmapIntendedTokensLayout` | gui/main_window.py:534-549 | the same layout for the intended command, whose timing token is `-T<n>` |
| `MainWindow.NmapIntendedDiffers` | gui/main_window.py:534-549 | the command as written and the intended one fail for the same inputs; otherwise their token lists have the same length and agree everywhere except at the timing token, where the written one is `-` + the lower-cased intended flag |
| `MainWindow.NmapIntendedWithoutTiming` | gui/main_window.py:540-542 | without a timing choice the command as written is the intended one |
| `MainWindow.NmapTokensOrder` | gui/main_window.py:534-547 | the tokens start with `nmap`, contain no empty token, and end with the target followed only by the `-oX` part |
| `MainWindow.NmapCommandExample` | gui/main_window.py:521-549 | a quick, aggressively timed, saved scan of one host gives `nmap -F -t4 <host> -oX nmap_<host>.xml`, as the code writes it |
| `MainWindow.NmapCommandIntendedExample` | gui/main_window.py:521-549 | the same scan gives `nmap -F -T4 <host> -oX nmap_<host>.xml` with the intended timing flag |
| `MainWindow.NmapSubnetExample` | gui/main_window.py:521-549 | a regular scan of `10.0.0.0/24` on port 22, saved, adds no scan token and writes `nmap_10.0.0.0_24.xml` |
| `MainWindow.ScanningPage.constructor` | gui/main_window.py:461-464 | the page keeps the shared terminal |
| `MainWindow.ScanningPage.BuildNmapCommand` | gui/main_window.py:523-549 | the append-built `cmd`, filtered and space-joined, is `NmapCommand(p)`, whose layout and order are proved above; like the code it appends `-` + the lower-cased first word of the timing choice |
| `MainWindow.ScanningPage.RunNmap` | gui/main_window.py:521-549 | the terminal echoes exactly the built command, `NmapCommand` with its `-t<n>` timing flag; where building raises, the terminal is untouched |
| `ToolCards.ToolsLabelSpec` | gui/tool_cards.py:61 | `ToolsLabel`: the label is `Tools: ` + the `, `-join of at most the first three tools + `...`, and no tool after the third changes it |
| `ToolCards.LabelText` | gui/tool_cards.py:101-103 | a field's label is its configured label, followed by ` *` iff the field is required |
| `ToolCards.Clamp` | gui/tool_cards.py:164-165 | a spin box value stays inside its range: an in-range value is kept, one below the minimum becomes the minimum and one above the maximum the maximum |
| `ToolCards.CreateWidgetFits` | gui/tool_cards.py:152-188 | `CreateWidget` (`create_input_widget`) makes for each field type a widget of that type's shape |
| `ToolCards.Browse` | gui/tool_cards.py:283-286 | a chosen file replaces the shown path and a cancelled dialog keeps it |
| `ToolCards.ResetReadsDefault` | gui/tool_cards.py:190-221 | `ResetWidget` then `ReadWidget`: after a reset, text and file read their default or `''`, number its default or 0 (in range), select its first option, checkbox its default or False |
| `ToolCards.ResetRestoresCreated` | gui/tool_cards.py:152-221 | a reset restores the widget first created for the field, except a multiselect or untyped field with a non-empty default, which reset fills with that default |
| `ToolCards.LookupDistinct` | gui/tool_cards.py:244 | with distinct field names, looking up a field's name finds that field's value |
| `ToolCards.PreviewArgsAppend` | gui/tool_cards.py:236 | the preview parts of values follow their order, and one value contributes `--k v` iff it is truthy |
| `ToolCards.PreviewArgsEmpty` | gui/tool_cards.py:236 | the preview has no `--k v` part exactly when no value is truthy |
| `ToolCards.BuildCommandPreview` | gui/tool_cards.py:233-236 | the preview starts with the lower-cased name and a space, and with no truthy value it is exactly that |
| `ToolCards.ToolWidget.constructor` | gui/tool_cards.py:98-117 | one row per field, in order, labelled by `LabelText` and holding the widget made for its type |
| `ToolCards.ToolWidget.GetFieldValues` | gui/tool_cards.py:190-204 | one entry per field, in field order, keyed by the field's name, each holding the value its widget's type yields |
| `ToolCards.ToolWidget.ResetFields` | gui/tool_cards.py:206-223 | every widget is reset by its type to its field's default, the fields keep their shapes, and the preview is cleared |
| `ToolCards.ToolWidget.PreviewCommand` | gui/tool_cards.py:225-231 | the preview area shows the generic preview of the current field values |
| `ToolCards.ToolWidget.ExecuteTool` | gui/tool_cards.py:238-262 | a warning happens iff some required field is falsy, and it names the first such field in field order; a dangerous tool without confirmation is declined; otherwise the callback gets the collected values, exactly once |
| `BaseTool.ParamFailureCases` | tools/base_tool.py:66-74 | a parameter is reported missing iff it is required and its value is missing or falsy; its format is reported invalid iff its value is truthy, a regex is set and the value's text does not match it |
| `BaseTool.ValidateFirstFailure` | tools/base_tool.py:64-76 | `Validate` (`validate_params`) passes with `""` iff no parameter fails, and otherwise reports the failure of the first failing parameter in list order |
| `BaseTool.ValidateAppend` | tools/base_tool.py:66-76 | parameters after the first failing one do not affect the result |
| `BaseTool.SudoRule` | tools/base_tool.py:103-104 | `SpawnedCommand`: `sudo` is prepended iff the tool requires root and the effective uid is not 0; otherwise the command is unchanged |
| `BaseTool.CollectedOutput` | tools/base_tool.py:123-144 | the joined stdout and stderr are everything read from each pipe in read order; the callback sees one line per collected line; no collected line is empty |
| `BaseTool.CollectRound` | tools/base_tool.py:127-136 | one round keeps each non-empty line read and forwards stdout lines as they are and stderr lines with `[stderr] `, only when there is a callback |
| `BaseTool.CollectOutput` | tools/base_tool.py:119-138 | the loop collects each pipe's non-empty lines in order and forwards stdout lines as they are and stderr lines with `[stderr] `, only when there is a callback |
| `BaseTool.Execute` | tools/base_tool.py:78-159 | invalid parameters: nothing spawned, no callback, result `(False, -1, "", error)`; otherwise the command with the `sudo` rule is spawned; an exception gives `(False, -1, "", str(e))`; a finished run succeeds iff the exit code is 0 and carries the code, both joined outputs and their parse |
| `BaseTool.GetDocumentation` | tools/base_tool.py:161-180 | the text built by `docs +=` is the header followed by one bullet per parameter in order |
| `BaseTool.DocumentationAppend` | tools/base_tool.py:174-180 | the documentation of more parameters is that of the first ones followed by the bullets of the others |
| `BaseTool.ParamDocRequired` | tools/base_tool.py:175-177 | a bullet contains ` (required)` after the name and type iff the parameter is required, and is otherwise the same |
| `BaseTool.ParamDocDefault` | tools/base_tool.py:176-177 | a bullet contains ` [default: v]` after the required note iff the default is not None, and is otherwise the same |
| `BaseTool.ParamsJson` | tools/base_tool.py:190-201 | one serialised entry per parameter, in order |
| `BaseTool.StrsJson` | tools/base_tool.py:198 | the choices are serialised one string per choice, in order |
| `BaseTool.ParamRoundTrip` | tools/base_tool.py:191-199 | a parameter entry (keys `name`, `label`, `type`, `required`, `default`, `description`, `choices`) reads back as the parameter without `validation_regex` and `sensitive` |
| `BaseTool.ToDictRoundTrip` | tools/base_tool.py:182-202 | reading `ToDict` (`to_dict`) back gives the tool without `version` and without its parameters' `validation_regex` and `sensitive` |
| `BaseTool.ToDictOmits` | tools/base_tool.py:182-202 | two tools serialise alike exactly when they agree on everything except `version`, `validation_regex` and `sensitive` |

## Left out

- The worker thread, the `Queue`'s locking and the 50 ms `QTimer` are left
  out. Worker and drain are methods the caller invokes in sequence, so the
  interleaving of a live worker with the drain is not modelled.
- `subprocess.Popen`, `wait` and `terminate` are left out. The child process
  is an `Outcome` or `ProcessOutcome` given as input, and `terminate()` is
  recorded in the panel's `terminated` list.
- The `cwd=working_dir` argument of `execute_command` is left out; no caller
  passes it.
- `setup_ansi_colors` is left out: the per-ANSI-code colour table is never
  applied to output.
- `save_output`, the context menu and every dialog are file I/O and Qt
  presentation. The confirmation dialog is a boolean; the file dialog is the
  path it returns.
- Qt colours, stylesheets, fonts and layout are left out. Formats are
  symbolic colours plus a bold flag.
- Widget placeholder texts are not modelled; they are never read back.
- `Strings.Lower`: lower-cases ASCII letters only. Python's `str.lower()`
  also maps non-ASCII letters; no tool name or timing choice has any.
- `ToolCards.ToolWidget.constructor`: requires distinct field names. Every
  form in the program has them. With a duplicate, the source's
  `field_widgets` dictionary would keep only the last widget.
- Field defaults are typed per field type. A text field's
  non-string default shown via `str()` is not modelled.
- `BaseTool.Execute`: `build_command`, `parse_output` and `re.match` are
  function parameters; the concrete tools and their regexes are not part of
  this model.
- `BaseTool.Execute`: an exception raised by `build_command` escapes
  `execute`, because it runs before the `try`. This is not modelled:
  `build_command` is total here.
- `BaseTool.Execute`: `os.geteuid()` is the `euid` input.
- The streaming loop's interleaved `readline`/`poll` is left out, and so is
  its end condition: the outcome lists the rounds the loop runs.
- `time.time()`, `execution_time`, `progress_callback` and `output_files` are
  left out. `progress_callback` is never called and `output_files` is never
  assigned.
- Parameter values are strings, integers or booleans.
  Lists and other Python values are left out.
- `gui/styles.py` and `main.py` are left out: theme constants and
  application start-up.
- The pages' own forms are not modelled, nor are their callbacks whose code
  is not present (`run_harvester`, `run_masscan`, `run_sqlmap`,
  `run_autopsy`, ...). Pages are category tags.
- `MainWindow.CyberGuardMainWindow.NavigateTo`: as written, every tool page's
  `setup_ui` passes a bound method that its class does not define:
  `self.run_harvester` (gui/main_window.py:435), `self.run_masscan` (:515),
  `self.run_aircrack` (:601), `self.run_sqlmap` (:677) and `self.run_autopsy`
  (:727). So each page constructor raises `AttributeError`, and
  `navigate_to` to any tool category raises at :355, after the button loop
  and before the page is cached or added. The model assumes these callbacks
  exist: every page is created, cached and shown. `MainWindow.ScanningPage.constructor`
  makes the same assumption for `run_masscan`.
- `Terminal.PlainText` is the concatenation of the spans' texts. Qt's
  `toPlainText()`, whose result the `command_finished` notification carries,
  also turns U+00A0 into a space and U+2028/U+2029 into line breaks; that
  replacement is not modelled.
- `MainWindow.CreateToolPage`: the `QWidget` fallback for an unknown
  category is called as `QWidget(self.terminal, self)`, which passes the
  window as Qt's window-flags argument and so raises a `TypeError`. The model
  returns `Placeholder` there instead; no caller passes an unknown category.
- `Terminal.Outcome`: `lines` are what `readline()` returned before the end
  of the stream, so the source never sees an empty one inside the loop; the
  model skips empty entries instead of stopping at them.
- The stray Markdown fence lines at the ends of gui/main_window.py are not
  modelled.

## Findings

| source | as written | input that shows it | evidently intended | confidence | as-written member | corrected member |
|---|---|---|---|---|---|---|
| gui/main_window.py:540-542 | the timing flag is `-` + the lower-cased first word of the choice | timing `T4 (Aggressive)` gives `-t4` | nmap's timing option `-T4`, as the same file writes it in the `Quick Scan Plus` scan type (gui/main_window.py:529) | high; not executed | `MainWindow.TimingFlagAsWrittenNotTemplate` | `MainWindow.TimingFlagTemplate` |
