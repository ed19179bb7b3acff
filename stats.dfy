/**
 * The statistics store of the line profiler: per-line hit counts and times,
 * per-function aggregates, and the three-part identity of a function.
 * Times are exact reals (the source uses floats; rounding is not modelled).
 */
module Stats {

  /** Identity of a profiled function: the file, the function's name and its first line. */
  datatype Key = Key(filename: string, functionName: string, firstLine: int)

  /** Statistics of one source line: how many intervals were closed on it and their total length. */
  datatype LineStats = LineStats(lineNumber: int, hits: nat, totalTime: real)

  /** Statistics of one function: a sparse table of its lines, its source text and its total time. */
  datatype FunctionStats = FunctionStats(
    filename: string,
    functionName: string,
    firstLine: int,
    lineStats: map<int, LineStats>,
    sourceLines: map<int, string>,
    totalTime: real)

  /**
   * Average time per hit; 0 for a line that was never hit, so that division
   * by zero cannot happen. Averaged back over the hits it gives the total.
   */
  function AverageTime(ls: LineStats): (r: real)
    ensures ls.hits == 0 ==> r == 0.0
    ensures ls.hits > 0 ==> r * (ls.hits as real) == ls.totalTime
    ensures ls.totalTime >= 0.0 ==> r >= 0.0
  {
    if ls.hits > 0 then ls.totalTime / (ls.hits as real) else 0.0
  }

  /** A fresh entry for a function just entered: no lines, no time, the source text as loaded. */
  function NewFunctionStats(key: Key, sourceLines: map<int, string>): (fs: FunctionStats)
    ensures WellFormed(key, fs)
    ensures fs.lineStats == map[] && fs.totalTime == 0.0 && fs.sourceLines == sourceLines
  {
    FunctionStats(key.filename, key.functionName, key.firstLine, map[], sourceLines, 0.0)
  }

  /** Sum of the total times of all lines in a line table. */
  ghost function SumTimes(m: map<int, LineStats>): real
    decreases m.Keys
  {
    if m.Keys == {} then 0.0
    else
      HasElement(m.Keys);
      var l :| l in m.Keys;
      m[l].totalTime + SumTimes(m - {l})
  }

  /** A non-empty set of line numbers has an element. */
  lemma HasElement(s: set<int>)
    requires s != {}
    ensures exists l :: l in s
  {
    if forall l :: l !in s {
      assert false;
    }
  }

  /**
   * An entry stored under `key` describes that function, each line entry sits
   * under its own line number, and the function's total is the sum of its lines.
   */
  ghost predicate WellFormed(key: Key, fs: FunctionStats)
  {
    && fs.filename == key.filename
    && fs.functionName == key.functionName
    && fs.firstLine == key.firstLine
    && (forall l :: l in fs.lineStats ==> fs.lineStats[l].lineNumber == l)
    && fs.totalTime == SumTimes(fs.lineStats)
  }

  /** No time in the entry, on the function or on any of its lines, is negative. */
  ghost predicate NonNegative(fs: FunctionStats)
  {
    && fs.totalTime >= 0.0
    && forall l :: l in fs.lineStats ==> fs.lineStats[l].totalTime >= 0.0
  }

  /** The recorded statistics of `line`, or an empty one when the line has none yet. */
  function LineOrEmpty(fs: FunctionStats, line: int): LineStats
  {
    if line in fs.lineStats then fs.lineStats[line] else LineStats(line, 0, 0.0)
  }

  /**
   * Closing an interval of length `delta` on `line`: the line's entry is
   * fetched or created, gets one more hit and `delta` more time, and the
   * function's total gets the same `delta`. Nothing else changes.
   */
  function Charge(fs: FunctionStats, line: int, delta: real): (r: FunctionStats)
    ensures line in r.lineStats && r.lineStats[line].hits >= 1
    ensures r.totalTime - fs.totalTime == r.lineStats[line].totalTime - LineOrEmpty(fs, line).totalTime
  {
    var ls := LineOrEmpty(fs, line);
    fs.(lineStats := fs.lineStats[line := ls.(hits := ls.hits + 1, totalTime := ls.totalTime + delta)],
        totalTime := fs.totalTime + delta)
  }

  /**
   * Charging touches exactly one line entry: that line gets one hit more and
   * `delta` more time, the function's total gets the same `delta`, and every
   * other line, the identity and the source text stay as they were.
   */
  lemma ChargeTouchesOneLine(fs: FunctionStats, line: int, delta: real)
    ensures var r, before := Charge(fs, line, delta), LineOrEmpty(fs, line);
      && r.lineStats.Keys == fs.lineStats.Keys + {line}
      && r.lineStats[line].lineNumber == before.lineNumber
      && r.lineStats[line].hits == before.hits + 1
      && r.lineStats[line].totalTime == before.totalTime + delta
      && r.totalTime == fs.totalTime + delta
      && (forall l :: l in fs.lineStats && l != line ==> r.lineStats[l] == fs.lineStats[l])
      && r.filename == fs.filename && r.functionName == fs.functionName
      && r.firstLine == fs.firstLine && r.sourceLines == fs.sourceLines
  {
  }

  /** The sum over a line table splits into any one of its lines plus the rest. */
  lemma SumTimesRemove(m: map<int, LineStats>, k: int)
    requires k in m
    ensures SumTimes(m) == m[k].totalTime + SumTimes(m - {k})
    decreases m.Keys
  {
    var l :| l in m.Keys && SumTimes(m) == m[l].totalTime + SumTimes(m - {l});
    if l != k {
      SumTimesRemove(m - {l}, k);
      SumTimesRemove(m - {k}, l);
      assert m - {l} - {k} == m - {k} - {l};
    }
  }

  /** Overwriting (or adding) one line entry changes the sum by exactly the change of that entry. */
  lemma SumTimesUpdate(m: map<int, LineStats>, k: int, v: LineStats)
    ensures SumTimes(m[k := v]) == SumTimes(m) - (if k in m then m[k].totalTime else 0.0) + v.totalTime
  {
    SumTimesRemove(m[k := v], k);
    assert m[k := v] - {k} == m - {k};
    if k in m {
      SumTimesRemove(m, k);
    } else {
      assert m - {k} == m;
    }
  }

  /** Charging an interval keeps the function's total equal to the sum of its line totals. */
  lemma ChargePreservesWellFormed(key: Key, fs: FunctionStats, line: int, delta: real)
    requires WellFormed(key, fs)
    ensures WellFormed(key, Charge(fs, line, delta))
  {
    var ls := LineOrEmpty(fs, line);
    SumTimesUpdate(fs.lineStats, line, ls.(hits := ls.hits + 1, totalTime := ls.totalTime + delta));
  }

  /** A non-negative interval keeps every time in the entry non-negative. */
  lemma ChargePreservesNonNegative(fs: FunctionStats, line: int, delta: real)
    requires NonNegative(fs) && delta >= 0.0
    ensures NonNegative(Charge(fs, line, delta))
  {
  }
}
