# Line profiler: a verified model of the trace engine

This project models the core of a context-manager line profiler for Python.
While the profiler is active, the interpreter calls it on every execution
event (`call`, `line`, `return` and others). The profiler keeps a map from a
function's identity (file, name, first line) to that function's statistics:
a sparse table from line number to hit count and accumulated time, and the
function's total time. Only calls into files under a project folder are
profiled.

The cursor records which function and line are active and when the last event
happened. Each elapsed interval is charged to the *previous* line. There is one
cursor and no stack: after a nested function returns, no function is current,
and the caller's later lines are not recorded. A `return` closes the last
interval but does not restamp the clock.

Modules:

- `Wrappers` (wrappers.dfy): `Option`.
- `Stats` (stats.dfy): `Key`, `LineStats`, `FunctionStats`, the average time
  per hit, the sum of a function's line times, and `Charge`, which closes one
  interval on one line. Lemmas show that `Charge` keeps a function's total
  equal to the sum of its line totals.
- `Scope` (scope.dfy): the project-folder test on resolved, component-split
  paths. This is the `relative_to` semantics: comparison is per component.
- `Engine` (engine.dfy): the statistics and cursor as one value (`Tracking`).
  `Handle` is the pure step for one event and `Run` folds it over a stream.
  Lemmas cover each event kind, the invariant (the current key is present and
  every entry is well formed), non-negative times under a monotone clock, and
  the lifecycle.
- `Scenarios` (scenarios.dfy): concrete event streams. One shows three timed
  statements. One shows a nested call losing its caller. One shows two calls
  accumulating into one entry.
- `Profiler` (profiler.dfy): the class `LineProfiler`. Its fields are updated
  in place, and each method is proved against the `Engine` functions. The
  class `TraceSlot` stands for the interpreter's process-wide tracer slot.

External inputs become parameters:

- The clock (`time.perf_counter`) is the `now: real` argument.
- Path resolution (`Path.resolve`) is the `resolved: Option<Path>` carried by a
  call event. `None` means resolution failed.
- The file read of `_load_source_lines` is the `sourceText` map carried by a
  call event. It is used only when the entry is created.
- `sys.gettrace`/`sys.settrace` read and write `TraceSlot.tracer`.

`__enter__` (lineprofiler/profiler.py:132-135) does not reset the cursor:
`Enter` keeps `lastLine` and `currentKey` and only sets the enabled flag,
saves and installs the tracer, and stamps `lastTime`.

## Model

| member | source | states |
|---|---|---|
| `Stats.AverageTime` | lineprofiler/profiler.py:37-49 | 0 when there are no hits; otherwise average × hits equals the line's total time; non-negative when the total is |
| `Stats.NewFunctionStats` | lineprofiler/profiler.py:199-206 | a newly created entry carries the key's identity, has no lines and total 0, keeps the loaded source text, and is well formed |
| `Stats.Charge` | lineprofiler/profiler.py:219-227 | after charging, the line has an entry with at least one hit, and the function's total grew by exactly what the line's total grew by; the full effect is `Stats.ChargeTouchesOneLine` |
| `Stats.ChargeTouchesOneLine` | lineprofiler/profiler.py:219-227 | closing an interval adds at most the one line key, adds one hit and `delta` time to that line (created empty when absent) and `delta` to the function; every other line, the identity and the source text are unchanged |
| `Stats.SumTimesUpdate` | lineprofiler/profiler.py:224-227 | replacing one line entry changes the sum of line times by exactly that entry's change |
| `Stats.ChargePreservesWellFormed` | lineprofiler/profiler.py:225-227 | since the line and the function get the same delta, the function's total stays equal to the sum of its line totals |
| `Stats.ChargePreservesNonNegative` | lineprofiler/profiler.py:225-227 | a non-negative delta keeps all times of the entry non-negative |
| `Scope.IsUnderIsPrefix` | lineprofiler/profiler.py:298-303 | the component-wise walk holds iff the folder is a prefix of the path |
| `Scope.IsUnder` | lineprofiler/profiler.py:298-303 | a path under the folder has at least as many components; `Scope.IsUnderIsPrefix` gives the exact prefix characterisation |
| `Scope.IsUnderIffExtends` | lineprofiler/profiler.py:298-303 | a path is under the folder iff it is the folder followed by further components |
| `Scope.InScope` | lineprofiler/profiler.py:291-305 | a failed resolution is out of scope; a resolved path is in scope iff it extends the project folder |
| `Scope.NestedInScope` | lineprofiler/profiler.py:298-303 | the folder itself and every path below it are in scope |
| `Scope.SiblingNotInScope` | lineprofiler/profiler.py:298-301 | a sibling directory is out of scope even when its name extends the folder's name as a string |
| `Scope.ProjectTwoIsNotProject` | lineprofiler/profiler.py:295-303 | `/a/proj2/x.py` is outside `/a/proj`, and `/a/proj/x.py` is inside |
| `Engine.Handle` | lineprofiler/profiler.py:184-252 | every step keeps the current key present in the map, which the lookups at 217 and 237 need |
| `Engine.CloseInterval` | lineprofiler/profiler.py:214-247 | closing an interval neither adds nor removes a function entry and keeps the current key present; one-line effect in `Engine.CloseTouchesOneLine` |
| `Engine.Run` | lineprofiler/profiler.py:184-252 | over any event stream the current key stays present; a disabled engine ignores the whole stream |
| `Engine.Cleared` | lineprofiler/profiler.py:507-510 | the cleared state satisfies the invariant and has no open interval; idempotence in `Engine.ClearIdempotent` |
| `Engine.Enabled` | lineprofiler/profiler.py:132-135 | entering neither establishes nor breaks the invariant or non-negative times; composition with exit in `Engine.EnableThenDisable` |
| `Engine.Disabled` | lineprofiler/profiler.py:157 | leaving neither establishes nor breaks the invariant or non-negative times |
| `Engine.IgnoredEvents` | lineprofiler/profiler.py:184-193 | any event while disabled and an out-of-scope call change nothing and reply Stop; other event kinds change nothing and reply Continue |
| `Engine.CallInScope` | lineprofiler/profiler.py:197-210 | an in-scope call creates the entry only if absent, keeps existing entries, makes the key current, clears the line, stamps the clock |
| `Engine.LineStep` | lineprofiler/profiler.py:212-230 | a line event closes the open interval, then sets the last line to its own line and stamps the clock; the current key is kept |
| `Engine.ReturnStep` | lineprofiler/profiler.py:232-250 | a return charges the stats exactly as a line event would, clears the key and the line, and leaves the clock stamp unchanged |
| `Engine.CloseTouchesOneLine` | lineprofiler/profiler.py:214-247 | with an open interval, a line or return event changes one line entry of one function: one hit more, the same delta on the line and on the function |
| `Engine.NoOpenNoCharge` | lineprofiler/profiler.py:212-250 | with no current function or no active line, a line or return event leaves the statistics unchanged |
| `Engine.CloseIntervalPreservesValid` | lineprofiler/profiler.py:214-227 | closing an interval keeps the invariant |
| `Engine.HandlePreservesValid` | lineprofiler/profiler.py:184-252 | every event keeps the invariant: the current key is present, entries match their keys and line numbers, and each total equals the sum of its lines |
| `Engine.HandleKeepsTimesNonNegative` | lineprofiler/profiler.py:209-230 | with `now` no earlier than the stamp, all times stay non-negative and the new stamp is the old one or `now` |
| `Engine.RunPreservesValid` | lineprofiler/profiler.py:184-252 | the invariant holds after any stream of events |
| `Engine.RunKeepsTimesNonNegative` | lineprofiler/profiler.py:209-247 | with a non-decreasing clock, no stream makes a recorded time negative |
| `Engine.RunKeepsEntries` | lineprofiler/profiler.py:199-204 | entries are never removed by events |
| `Engine.RunWithoutCallRecordsNothing` | lineprofiler/profiler.py:212-250 | once no function is current (as after any return, 249-250), a stream with no call leaves the statistics unchanged and no function current |
| `Engine.RunSplit` | lineprofiler/profiler.py:184-252 | handling a concatenated stream equals handling the second stream from where the first left the state |
| `Engine.ClearIdempotent` | lineprofiler/profiler.py:507-510 | the cleared state is valid, and clearing twice equals clearing once |
| `Engine.EnableThenDisable` | lineprofiler/profiler.py:132-158 | enter then exit leaves stats and cursor as before, apart from the clock stamp |
| `Engine.ReenterKeepsStats` | lineprofiler/profiler.py:132-135 | entering again after exit keeps all statistics gathered so far |
| `Scenarios.ThreeStatements` | lineprofiler/profiler.py:197-250 | three statements of 1, 2 and 4 ticks each get one hit and exactly their own duration; the entry-to-first-line interval is discarded |
| `Scenarios.NestedCallLosesCaller` | lineprofiler/profiler.py:208-250 | after a nested in-scope call returns, no function is current and the caller's later lines are not recorded |
| `Scenarios.TwoCallsAccumulate` | lineprofiler/profiler.py:199-227 | two calls of one function accumulate two hits and the sum of durations in a single entry |
| `Profiler.LineProfiler.constructor` | lineprofiler/profiler.py:101-106 | a disabled profiler with empty stats and cursor that remembers the slot's tracer |
| `Profiler.LineProfiler.Enter` | lineprofiler/profiler.py:132-135 | saves the slot's tracer, installs the profiler's callback, enables, stamps the clock, does not clear |
| `Profiler.LineProfiler.Exit` | lineprofiler/profiler.py:157-158 | disables and puts exactly the saved tracer back into the slot |
| `Profiler.LineProfiler.CloseOpenInterval` | lineprofiler/profiler.py:214-227 | the in-place update equals `Engine.CloseInterval` |
| `Profiler.LineProfiler.TraceCallback` | lineprofiler/profiler.py:184-252 | the in-place update and reply equal `Engine.Handle`; keeps the invariant; keeps times non-negative under a monotone clock |
| `Profiler.LineProfiler.GetStats` | lineprofiler/profiler.py:487-498 | returns the statistics map |
| `Profiler.LineProfiler.Clear` | lineprofiler/profiler.py:500-510 | empties the map, sets the clock stamp to 0 and the last line and current key to none; the enabled flag, the saved tracer and the project folder are kept |
| `Profiler.LineProfiler.Reset` | lineprofiler/profiler.py:512-523 | the same effect as Clear |
| `Profiler.ProfiledBlock` | lineprofiler/profiler.py:119-158 | enter, an event, exit: the slot holds the tracer it held before, and the stats carry the event's effect |
| `Profiler.DoubleEnterLosesSavedTracer` | lineprofiler/profiler.py:132-134 | entering twice overwrites the saved tracer, so a single exit leaves the profiler's own callback installed |
| `Profiler.ClearTwice` | lineprofiler/profiler.py:507-510 | two consecutive clears give the same state as one |

## Left out

- `print_stats` and `print_global_top_stats` (lineprofiler/profiler.py:308-485) are console reports. They only read the statistics.
- `_load_source_lines` (lineprofiler/profiler.py:254-278) is file I/O whose errors are swallowed. Its result is an input of the call event.
- `_find_repo_root` and caller-frame detection in `__init__` (lineprofiler/profiler.py:109-117, 280-289) walk the file system and inspect frames. The constructor takes the folder as a resolved path.
- The branch for a missing project folder (lineprofiler/profiler.py:292-293) is unreachable, as the source's own comment says. The folder is a `Path`, never `None`.
- Path components compare exactly, as on POSIX systems. The case-insensitive comparison pathlib performs on Windows is not modelled.
- Symlink resolution by `Path.resolve` is external. Paths arrive resolved, or as `None` when resolution failed.
- Times are exact reals. Floating-point rounding of `total_time` and of the average is not modelled.
- `LineStats` and `FunctionStats` are values in a map field, not shared mutable objects. `GetStats` returns a copy of the value, not the live dictionary. Aliasing through that reference is not captured.
- The `frame` and `arg` parameters of the callback are reduced to the event's fields. The exception arguments of `__exit__` are dropped because the method ignores them.
- Concurrency and the interpreter's per-thread tracing are not modelled. The source has no locking.
- `TraceCallback` returns a `Reply` instead of the bound method. Which frames the interpreter then traces is outside the model.
