/**
 * The trace engine as a pure state machine: the statistics store together
 * with the cursor (enabled flag, last timestamp, last line, current function),
 * and one step per execution event. The profiler class in module Profiler
 * performs these steps in place.
 */
module Engine {
  import opened Wrappers
  import opened Stats
  import opened Scope

  /**
   * An execution event delivered by the runtime. A call carries what the
   * runtime and the file system provide: the code object's file, the outcome
   * of resolving that file's path, the function's name and first line, and the
   * source text a best-effort read of the file yields (empty when unreadable).
   */
  datatype Event =
    | Call(filename: string, resolved: Option<Path>, functionName: string, firstLine: int,
           sourceText: map<int, string>)
    | Line(lineno: int)
    | Return
    | Other

  /** What the handler tells the runtime: stop tracing this frame, or continue with the handler. */
  datatype Reply = Stop | Continue

  /** The statistics store and the cursor. */
  datatype Tracking = Tracking(
    stats: map<Key, FunctionStats>,
    enabled: bool,
    lastTime: real,
    lastLine: Option<int>,
    currentKey: Option<Key>)

  /** The state after an event and the reply to the runtime. */
  datatype Step = Step(next: Tracking, reply: Reply)

  /** One event with the clock reading taken when it was handled. */
  datatype Timed = Timed(event: Event, now: real)

  /** The function the cursor points at has an entry, so the lookups on line and return cannot fail. */
  predicate KeyPresent(t: Tracking)
  {
    t.currentKey.Some? ==> t.currentKey.value in t.stats
  }

  /** The engine's invariant: the current key is present and every entry is well formed. */
  ghost predicate Valid(t: Tracking)
  {
    && KeyPresent(t)
    && forall k :: k in t.stats ==> WellFormed(k, t.stats[k])
  }

  /** Every recorded time is non-negative. */
  ghost predicate TimesNonNegative(t: Tracking)
  {
    forall k :: k in t.stats ==> NonNegative(t.stats[k])
  }

  /** An interval is open: a function is current and one of its lines is active. */
  predicate Open(t: Tracking)
  {
    t.currentKey.Some? && t.lastLine.Some?
  }

  /**
   * Closing the open interval, if any: the time since the last event is
   * charged to the last line of the current function. The cursor is untouched.
   */
  function CloseInterval(t: Tracking, now: real): (r: Tracking)
    requires KeyPresent(t)
    ensures KeyPresent(r) && r.stats.Keys == t.stats.Keys
  {
    if Open(t) then
      var k := t.currentKey.value;
      t.(stats := t.stats[k := Charge(t.stats[k], t.lastLine.value, now - t.lastTime)])
    else
      t
  }

  /** The handler of one event at clock reading `now`, for the given project folder. */
  function Handle(t: Tracking, folder: Path, ev: Event, now: real): (s: Step)
    requires KeyPresent(t)
    ensures KeyPresent(s.next)
  {
    if !t.enabled then Step(t, Stop)
    else
      match ev
      case Call(filename, resolved, name, firstLine, text) =>
        if !InScope(folder, resolved) then Step(t, Stop)
        else
          var key := Key(filename, name, firstLine);
          var stats := if key in t.stats then t.stats else t.stats[key := NewFunctionStats(key, text)];
          Step(t.(stats := stats, currentKey := Some(key), lastTime := now, lastLine := None), Continue)
      case Line(lineno) =>
        Step(CloseInterval(t, now).(lastLine := Some(lineno), lastTime := now), Continue)
      case Return =>
        Step(CloseInterval(t, now).(currentKey := None, lastLine := None), Continue)
      case Other =>
        Step(t, Continue)
  }

  /** A run of events, handled one after the other. */
  function Run(t: Tracking, folder: Path, evs: seq<Timed>): (r: Tracking)
    requires KeyPresent(t)
    ensures KeyPresent(r)
    ensures !t.enabled ==> r == t
    decreases |evs|
  {
    if evs == [] then t
    else Run(Handle(t, folder, evs[0].event, evs[0].now).next, folder, evs[1..])
  }

  /** Clock readings that never go backwards, starting no earlier than `start`. */
  predicate Monotone(start: real, evs: seq<Timed>)
    decreases |evs|
  {
    evs == [] || (start <= evs[0].now && Monotone(evs[0].now, evs[1..]))
  }

  /** The state `clear()` leaves: no statistics and a reset cursor; the enabled flag is kept. */
  function Cleared(t: Tracking): (r: Tracking)
    ensures Valid(r) && !Open(r)
  {
    t.(stats := map[], lastTime := 0.0, lastLine := None, currentKey := None)
  }

  /** Scope entry: enabled, with the clock stamped; the statistics and the rest of the cursor are kept. */
  function Enabled(t: Tracking, now: real): (r: Tracking)
    ensures Valid(r) <==> Valid(t)
    ensures TimesNonNegative(r) <==> TimesNonNegative(t)
  {
    t.(enabled := true, lastTime := now)
  }

  /** Scope exit: disabled; everything else is kept. */
  function Disabled(t: Tracking): (r: Tracking)
    ensures Valid(r) <==> Valid(t)
    ensures TimesNonNegative(r) <==> TimesNonNegative(t)
  {
    t.(enabled := false)
  }

  // ---------------------------------------------------------------------------
  // Properties of one step

  /**
   * Events that change nothing: any event while disabled (reply Stop), a call
   * into a file outside the project (reply Stop), and any event kind other than
   * call, line and return (reply Continue).
   */
  lemma IgnoredEvents(t: Tracking, folder: Path, ev: Event, now: real)
    requires KeyPresent(t)
    ensures !t.enabled ==> Handle(t, folder, ev, now) == Step(t, Stop)
    ensures t.enabled && ev.Call? && !InScope(folder, ev.resolved) ==> Handle(t, folder, ev, now) == Step(t, Stop)
    ensures t.enabled && ev.Other? ==> Handle(t, folder, ev, now) == Step(t, Continue)
  {
  }

  /**
   * A call into the project makes the function current, with no active line
   * and the clock stamped. Its entry is created only when absent, so an
   * existing entry keeps its lines, its source text and its total.
   */
  lemma CallInScope(t: Tracking, folder: Path, ev: Event, now: real)
    requires KeyPresent(t) && t.enabled && ev.Call? && InScope(folder, ev.resolved)
    ensures var s := Handle(t, folder, ev, now);
      var key := Key(ev.filename, ev.functionName, ev.firstLine);
      && s.reply == Continue
      && s.next.currentKey == Some(key) && key in s.next.stats
      && s.next.lastLine == None && s.next.lastTime == now && s.next.enabled
      && s.next.stats.Keys == t.stats.Keys + {key}
      && (forall k :: k in t.stats ==> s.next.stats[k] == t.stats[k])
      && (key !in t.stats ==> s.next.stats[key] == NewFunctionStats(key, ev.sourceText))
  {
  }

  /**
   * A line event closes the open interval, if any, on the previous line, and
   * then makes its own line the active one, stamping the clock.
   */
  lemma LineStep(t: Tracking, folder: Path, lineno: int, now: real)
    requires KeyPresent(t) && t.enabled
    ensures var s := Handle(t, folder, Line(lineno), now);
      && s.reply == Continue
      && s.next.stats == CloseInterval(t, now).stats
      && s.next.lastLine == Some(lineno) && s.next.lastTime == now
      && s.next.currentKey == t.currentKey && s.next.enabled
  {
  }

  /**
   * A return closes the open interval exactly as a line event does, then
   * forgets the current function and line. The clock stamp is not updated.
   */
  lemma ReturnStep(t: Tracking, folder: Path, lineno: int, now: real)
    requires KeyPresent(t) && t.enabled
    ensures var s := Handle(t, folder, Return, now);
      && s.reply == Continue
      && s.next.stats == Handle(t, folder, Line(lineno), now).next.stats
      && s.next.currentKey == None && s.next.lastLine == None
      && s.next.lastTime == t.lastTime && s.next.enabled
  {
  }

  /**
   * When an interval is open, a line or return event touches exactly one line
   * entry: it gets one hit more and `now - lastTime` more time, and its
   * function's total grows by the same amount; every other line of that
   * function and every other function stay as they were.
   */
  lemma CloseTouchesOneLine(t: Tracking, folder: Path, ev: Event, now: real)
    requires KeyPresent(t) && t.enabled && Open(t) && (ev.Line? || ev.Return?)
    ensures var after := Handle(t, folder, ev, now).next.stats;
      var k, l, delta := t.currentKey.value, t.lastLine.value, now - t.lastTime;
      && after.Keys == t.stats.Keys
      && (forall k' :: k' in t.stats && k' != k ==> after[k'] == t.stats[k'])
      && after[k].lineStats.Keys == t.stats[k].lineStats.Keys + {l}
      && after[k].lineStats[l].hits == LineOrEmpty(t.stats[k], l).hits + 1
      && after[k].lineStats[l].totalTime == LineOrEmpty(t.stats[k], l).totalTime + delta
      && after[k].totalTime == t.stats[k].totalTime + delta
      && (forall l' :: l' in t.stats[k].lineStats && l' != l ==>
            after[k].lineStats[l'] == t.stats[k].lineStats[l'])
  {
  }

  /**
   * With no open interval (no current function, or no active line yet), a
   * line or return event records nothing. After a nested function returned
   * this is the caller's situation, so its later lines go unrecorded.
   */
  lemma NoOpenNoCharge(t: Tracking, folder: Path, ev: Event, now: real)
    requires KeyPresent(t) && !Open(t) && (ev.Line? || ev.Return?)
    ensures Handle(t, folder, ev, now).next.stats == t.stats
  {
  }

  /** Closing an interval keeps every entry well formed. */
  lemma CloseIntervalPreservesValid(t: Tracking, now: real)
    requires Valid(t)
    ensures Valid(CloseInterval(t, now))
  {
    if Open(t) {
      var k := t.currentKey.value;
      ChargePreservesWellFormed(k, t.stats[k], t.lastLine.value, now - t.lastTime);
    }
  }

  /** Every step keeps the invariant: in particular, each function's total is the sum of its lines. */
  lemma HandlePreservesValid(t: Tracking, folder: Path, ev: Event, now: real)
    requires Valid(t)
    ensures Valid(Handle(t, folder, ev, now).next)
  {
    if t.enabled && (ev.Line? || ev.Return?) {
      CloseIntervalPreservesValid(t, now);
    }
  }

  /**
   * With a clock that does not go backwards, every step keeps all times
   * non-negative, and the new clock stamp is either the old one or `now`.
   */
  lemma HandleKeepsTimesNonNegative(t: Tracking, folder: Path, ev: Event, now: real)
    requires KeyPresent(t) && TimesNonNegative(t) && t.lastTime <= now
    ensures var n := Handle(t, folder, ev, now).next;
      TimesNonNegative(n) && (n.lastTime == t.lastTime || n.lastTime == now)
  {
  }

  // ---------------------------------------------------------------------------
  // Properties of runs

  /** The invariant holds after any run of events. */
  lemma {:induction false} RunPreservesValid(t: Tracking, folder: Path, evs: seq<Timed>)
    requires Valid(t)
    ensures Valid(Run(t, folder, evs))
    decreases |evs|
  {
    if evs != [] {
      HandlePreservesValid(t, folder, evs[0].event, evs[0].now);
      RunPreservesValid(Handle(t, folder, evs[0].event, evs[0].now).next, folder, evs[1..]);
    }
  }

  /** With a non-decreasing clock, no run of events makes a recorded time negative. */
  lemma {:induction false} RunKeepsTimesNonNegative(t: Tracking, folder: Path, evs: seq<Timed>, start: real)
    requires KeyPresent(t) && TimesNonNegative(t) && t.lastTime <= start && Monotone(start, evs)
    ensures TimesNonNegative(Run(t, folder, evs))
    decreases |evs|
  {
    if evs != [] {
      HandleKeepsTimesNonNegative(t, folder, evs[0].event, evs[0].now);
      RunKeepsTimesNonNegative(Handle(t, folder, evs[0].event, evs[0].now).next, folder, evs[1..], evs[0].now);
    }
  }

  /** Statistics only grow: a run never removes a function entry. */
  lemma {:induction false} RunKeepsEntries(t: Tracking, folder: Path, evs: seq<Timed>)
    requires KeyPresent(t)
    ensures t.stats.Keys <= Run(t, folder, evs).stats.Keys
    decreases |evs|
  {
    if evs != [] {
      var n := Handle(t, folder, evs[0].event, evs[0].now).next;
      assert t.stats.Keys <= n.stats.Keys;
      RunKeepsEntries(n, folder, evs[1..]);
    }
  }

  /**
   * One cursor, no stack: once no function is current, a stream without a
   * call records nothing at all, and still no function is current after it.
   */
  lemma {:induction false} RunWithoutCallRecordsNothing(t: Tracking, folder: Path, evs: seq<Timed>)
    requires KeyPresent(t) && t.currentKey == None
    requires forall i :: 0 <= i < |evs| ==> !evs[i].event.Call?
    ensures Run(t, folder, evs).stats == t.stats
    ensures Run(t, folder, evs).currentKey == None
    decreases |evs|
  {
    if evs != [] {
      var n := Handle(t, folder, evs[0].event, evs[0].now).next;
      assert n.stats == t.stats && n.currentKey == None;
      assert forall i :: 0 <= i < |evs[1..]| ==> evs[1..][i] == evs[i + 1];
      RunWithoutCallRecordsNothing(n, folder, evs[1..]);
    }
  }

  /** A run of concatenated streams is the second run started where the first ends. */
  lemma {:induction false} RunSplit(t: Tracking, folder: Path, xs: seq<Timed>, ys: seq<Timed>)
    requires KeyPresent(t)
    ensures Run(t, folder, xs + ys) == Run(Run(t, folder, xs), folder, ys)
    decreases |xs|
  {
    if xs == [] {
      assert xs + ys == ys;
    } else {
      assert (xs + ys)[0] == xs[0];
      assert (xs + ys)[1..] == xs[1..] + ys;
      RunSplit(Handle(t, folder, xs[0].event, xs[0].now).next, folder, xs[1..], ys);
    }
  }

  // ---------------------------------------------------------------------------
  // Lifecycle

  /** Clearing yields a valid, empty state, and clearing again changes nothing. */
  lemma ClearIdempotent(t: Tracking)
    ensures Valid(Cleared(t)) && TimesNonNegative(Cleared(t))
    ensures Cleared(Cleared(t)) == Cleared(t)
  {
  }

  /** Entering and then leaving the scope keeps the statistics and the cursor, except the clock stamp. */
  lemma EnableThenDisable(t: Tracking, now: real)
    ensures Disabled(Enabled(t, now)) == t.(lastTime := now, enabled := false)
  {
  }

  /** Re-entering the scope without clearing keeps every statistic gathered so far. */
  lemma ReenterKeepsStats(t: Tracking, now: real, later: real)
    ensures Enabled(Disabled(Enabled(t, now)), later).stats == t.stats
  {
  }
}
