/**
 * The profiler object: the statistics store and the cursor as fields that its
 * methods update in place, and the runtime's process-wide tracer slot, which
 * scope entry takes over and scope exit gives back. Each method is proved
 * against the pure step functions of module Engine.
 */
module Profiler {
  import opened Wrappers
  import opened Stats
  import opened Scope
  import opened Engine

  /** What the runtime's tracer slot can hold: nothing, some other tracer, or a profiler's callback. */
  datatype Tracer = NoTracer | Foreign(id: nat) | Callback(owner: LineProfiler)

  /** The runtime's single, process-wide tracer slot (read by gettrace, written by settrace). */
  class TraceSlot {
    var tracer: Tracer

    constructor (initial: Tracer)
      ensures tracer == initial
    {
      tracer := initial;
    }
  }

  class LineProfiler {
    var functionStats: map<Key, FunctionStats>
    var enabled: bool
    var lastTime: real
    var lastLine: Option<int>
    var currentKey: Option<Key>
    /** The tracer that was installed when this profiler last looked at the slot. */
    var oldTrace: Tracer
    /** The resolved project folder; only calls into files under it are profiled. */
    const projectFolder: Path

    /** The statistics and the cursor as one value. */
    function State(): Tracking
      reads this
    {
      Tracking(functionStats, enabled, lastTime, lastLine, currentKey)
    }

    ghost predicate Valid()
      reads this
    {
      Engine.Valid(State())
    }

    /**
     * A disabled profiler with no statistics, for the given (already resolved
     * or detected) project folder; it remembers the tracer found in the slot.
     */
    constructor (folder: Path, slot: TraceSlot)
      ensures Valid()
      ensures functionStats == map[] && !enabled && lastTime == 0.0
      ensures lastLine == None && currentKey == None
      ensures oldTrace == slot.tracer && projectFolder == folder
    {
      functionStats := map[];
      enabled := false;
      lastTime := 0.0;
      lastLine := None;
      currentKey := None;
      oldTrace := slot.tracer;
      projectFolder := folder;
    }

    /**
     * Scope entry: enables the profiler, saves the slot's tracer, installs this
     * profiler's callback and stamps the clock. Statistics are not cleared and
     * the rest of the cursor is not reset.
     */
    method Enter(slot: TraceSlot, now: real)
      requires Valid()
      modifies this, slot
      ensures Valid()
      ensures State() == Enabled(old(State()), now)
      ensures oldTrace == old(slot.tracer)
      ensures slot.tracer == Callback(this)
    {
      enabled := true;
      oldTrace := slot.tracer;
      slot.tracer := Callback(this);
      lastTime := now;
    }

    /**
     * Scope exit, also on an exception (which it does not suppress): disables
     * the profiler and puts the saved tracer back into the slot.
     */
    method Exit(slot: TraceSlot)
      requires Valid()
      modifies this, slot
      ensures Valid()
      ensures State() == Disabled(old(State()))
      ensures oldTrace == old(oldTrace)
      ensures slot.tracer == old(oldTrace)
    {
      enabled := false;
      slot.tracer := oldTrace;
    }

    /** Charges the time since the last event to the last line, when an interval is open. */
    method CloseOpenInterval(now: real)
      requires KeyPresent(State())
      modifies this
      ensures State() == CloseInterval(old(State()), now)
      ensures oldTrace == old(oldTrace)
    {
      if currentKey.Some? && lastLine.Some? {
        var key, line := currentKey.value, lastLine.value;
        var delta := now - lastTime;
        var fs := functionStats[key];
        var lines := fs.lineStats;
        if line !in lines {
          lines := lines[line := LineStats(line, 0, 0.0)];
        }
        var ls := lines[line];
        assert ls == LineOrEmpty(fs, line);
        ls := ls.(hits := ls.hits + 1, totalTime := ls.totalTime + delta);
        assert lines[line := ls] == fs.lineStats[line := ls];
        fs := fs.(lineStats := lines[line := ls], totalTime := fs.totalTime + delta);
        functionStats := functionStats[key := fs];
      }
    }

    /**
     * The callback the runtime invokes on every event while it is installed.
     * It performs one step of the engine in place and keeps the invariant; with
     * a clock that does not go backwards it keeps every time non-negative.
     */
    method TraceCallback(ev: Event, now: real) returns (reply: Reply)
      requires Valid()
      modifies this
      ensures Valid()
      ensures State() == Handle(old(State()), projectFolder, ev, now).next
      ensures reply == Handle(old(State()), projectFolder, ev, now).reply
      ensures oldTrace == old(oldTrace)
      ensures old(TimesNonNegative(State())) && old(lastTime) <= now ==> TimesNonNegative(State())
    {
      HandlePreservesValid(State(), projectFolder, ev, now);
      if TimesNonNegative(State()) && lastTime <= now {
        HandleKeepsTimesNonNegative(State(), projectFolder, ev, now);
      }
      if !enabled {
        return Stop;
      }
      match ev {
        case Call(filename, resolved, name, firstLine, text) =>
          if !InScope(projectFolder, resolved) {
            return Stop;
          }
          var key := Key(filename, name, firstLine);
          if key !in functionStats {
            functionStats := functionStats[key := NewFunctionStats(key, text)];
          }
          currentKey := Some(key);
          lastTime := now;
          lastLine := None;
        case Line(lineno) =>
          CloseOpenInterval(now);
          lastLine := Some(lineno);
          lastTime := now;
        case Return =>
          CloseOpenInterval(now);
          currentKey := None;
          lastLine := None;
        case Other =>
      }
      reply := Continue;
    }

    /** The statistics gathered so far. */
    method GetStats() returns (stats: map<Key, FunctionStats>)
      ensures stats == functionStats
    {
      stats := functionStats;
    }

    /**
     * Drops all statistics and resets the cursor. The enabled flag, the saved
     * tracer and the project folder are kept; calling it again changes nothing.
     */
    method Clear()
      modifies this
      ensures Valid()
      ensures State() == Cleared(old(State()))
      ensures oldTrace == old(oldTrace)
    {
      functionStats := map[];
      lastTime := 0.0;
      lastLine := None;
      currentKey := None;
    }

    /** The same as Clear. */
    method Reset()
      modifies this
      ensures Valid()
      ensures State() == Cleared(old(State()))
      ensures oldTrace == old(oldTrace)
    {
      Clear();
    }
  }

  /**
   * A profiled block: entering, handling one event, and leaving gives the
   * slot back exactly the tracer it held before, and leaves the profiler
   * disabled with the event's effect on the statistics.
   */
  method ProfiledBlock(p: LineProfiler, slot: TraceSlot, enter: real, ev: Event, now: real)
    requires p.Valid()
    modifies p, slot
    ensures p.Valid() && !p.enabled
    ensures slot.tracer == old(slot.tracer)
    ensures p.functionStats ==
      Handle(Enabled(old(p.State()), enter), p.projectFolder, ev, now).next.stats
  {
    p.Enter(slot, enter);
    var _ := p.TraceCallback(ev, now);
    p.Exit(slot);
  }

  /**
   * Entering twice without leaving in between overwrites the saved tracer with
   * the profiler's own callback, so a single exit no longer restores the
   * tracer that was there before.
   */
  method DoubleEnterLosesSavedTracer(p: LineProfiler, slot: TraceSlot, now: real)
    requires p.Valid()
    modifies p, slot
    ensures slot.tracer == Callback(p)
    ensures p.functionStats == old(p.functionStats)
  {
    p.Enter(slot, now);
    p.Enter(slot, now);
    p.Exit(slot);
  }

  /** Clearing twice leaves the same state as clearing once. */
  method ClearTwice(p: LineProfiler) returns (once: Tracking, twice: Tracking)
    modifies p
    ensures once == twice == Cleared(old(p.State()))
  {
    p.Clear();
    once := p.State();
    p.Clear();
    twice := p.State();
  }
}
