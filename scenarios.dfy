/**
 * Concrete event streams that pin down the observed timing semantics:
 * time is charged to the previous line, the interval between entry and the
 * first line is discarded, and there is a single cursor rather than a stack.
 */
module Scenarios {
  import opened Wrappers
  import opened Stats
  import opened Scope
  import opened Engine

  const Project: Path := ["/", "proj"]
  const FileA: Path := ["/", "proj", "a.py"]

  /** A call into a.py, function `name` defined at line `first`, with no source text. */
  function CallA(name: string, first: int): Event
  {
    Call("/proj/a.py", Some(FileA), name, first, map[])
  }

  /** An enabled engine with no statistics and no current function. */
  function Fresh(start: real): Tracking
  {
    Tracking(map[], true, start, None, None)
  }

  /**
   * Three statements at lines 2, 3 and 4 lasting 1, 2 and 4 ticks: each line
   * gets one hit and exactly its own duration, the function's total is their
   * sum, and the tick between entry and the first line is not charged.
   */
  lemma ThreeStatements()
    ensures var key := Key("/proj/a.py", "f", 1);
      var r := Run(Fresh(0.0), Project,
        [Timed(CallA("f", 1), 0.0), Timed(Line(2), 1.0), Timed(Line(3), 2.0),
         Timed(Line(4), 4.0), Timed(Return, 8.0)]);
      && key in r.stats
      && r.stats[key].lineStats.Keys == {2, 3, 4}
      && r.stats[key].lineStats[2] == LineStats(2, 1, 1.0)
      && r.stats[key].lineStats[3] == LineStats(3, 1, 2.0)
      && r.stats[key].lineStats[4] == LineStats(4, 1, 4.0)
      && r.stats[key].totalTime == 7.0
      && r.currentKey == None && r.lastLine == None
  {
    FileAInProject();
    var key := Key("/proj/a.py", "f", 1);
    var e1, e2, e3, e4, e5 := Timed(CallA("f", 1), 0.0), Timed(Line(2), 1.0), Timed(Line(3), 2.0),
      Timed(Line(4), 4.0), Timed(Return, 8.0);
    var fs := NewFunctionStats(key, map[]);
    var s0 := Fresh(0.0);
    var s1 := Handle(s0, Project, e1.event, e1.now).next;
    assert s1 == Tracking(map[key := fs], true, 0.0, None, Some(key));
    var s2 := Handle(s1, Project, e2.event, e2.now).next;
    assert s2 == Tracking(map[key := fs], true, 1.0, Some(2), Some(key));
    var fs3 := fs.(lineStats := map[2 := LineStats(2, 1, 1.0)], totalTime := 1.0);
    var s3 := Handle(s2, Project, e3.event, e3.now).next;
    assert s3 == Tracking(map[key := fs3], true, 2.0, Some(3), Some(key));
    var fs4 := fs3.(lineStats := fs3.lineStats[3 := LineStats(3, 1, 2.0)], totalTime := 3.0);
    var s4 := Handle(s3, Project, e4.event, e4.now).next;
    assert s4 == Tracking(map[key := fs4], true, 4.0, Some(4), Some(key));
    var fs5 := fs4.(lineStats := fs4.lineStats[4 := LineStats(4, 1, 4.0)], totalTime := 7.0);
    var s5 := Handle(s4, Project, e5.event, e5.now).next;
    assert s5 == Tracking(map[key := fs5], true, 4.0, None, None);
    RunCons(s0, Project, e1, [e2, e3, e4, e5]);
    RunCons(s1, Project, e2, [e3, e4, e5]);
    RunCons(s2, Project, e3, [e4, e5]);
    RunCons(s3, Project, e4, [e5]);
    RunCons(s4, Project, e5, []);
  }

  lemma FileAInProject()
    ensures InScope(Project, Some(FileA))
  {
    NestedInScope(Project, ["a.py"]);
    assert Project + ["a.py"] == FileA;
  }

  /** Running a stream is handling its first event, then running the rest. */
  lemma RunCons(t: Tracking, folder: Path, e: Timed, rest: seq<Timed>)
    requires KeyPresent(t)
    ensures Run(t, folder, [e] + rest) == Run(Handle(t, folder, e.event, e.now).next, folder, rest)
  {
    assert ([e] + rest)[1..] == rest;
  }

  /**
   * One cursor, no stack: `f` calls `g` while line 2 of `f` is active. The
   * call discards that interval, `g`'s return forgets the current function,
   * and the later lines of `f` are not recorded at all; only `g`'s line is.
   */
  lemma NestedCallLosesCaller()
    ensures var f, g := Key("/proj/a.py", "f", 1), Key("/proj/a.py", "g", 10);
      var r := Run(Fresh(0.0), Project,
        [Timed(CallA("f", 1), 0.0), Timed(Line(2), 1.0), Timed(CallA("g", 10), 2.0),
         Timed(Line(11), 3.0), Timed(Return, 5.0), Timed(Line(3), 6.0), Timed(Return, 9.0)]);
      && r.stats.Keys == {f, g}
      && r.stats[f].lineStats == map[] && r.stats[f].totalTime == 0.0
      && r.stats[g].lineStats == map[11 := LineStats(11, 1, 2.0)]
      && r.currentKey == None
  {
  }

  /**
   * Calling the same function twice accumulates into the same entry: its
   * line gets two hits and the sum of both durations.
   */
  lemma TwoCallsAccumulate()
    ensures var key := Key("/proj/a.py", "f", 1);
      var r := Run(Fresh(0.0), Project,
        [Timed(CallA("f", 1), 0.0), Timed(Line(2), 1.0), Timed(Return, 4.0),
         Timed(CallA("f", 1), 5.0), Timed(Line(2), 6.0), Timed(Return, 9.0)]);
      && r.stats.Keys == {key}
      && r.stats[key].lineStats == map[2 := LineStats(2, 2, 6.0)]
      && r.stats[key].totalTime == 6.0
  {
  }
}
