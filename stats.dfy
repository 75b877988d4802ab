/**
 * The resource-usage reporter of tools/benchmark-utils/stats.c, which is
 * linked into benchmarks: a constructor records the start time, and a
 * destructor reports the peak resident set size, the summed page faults,
 * I/O operations and context switches, and the elapsed time.
 */
module Stats {

  import opened Wrappers

  /** A `struct timeval`: seconds and microseconds. */
  datatype Timeval = Timeval(sec: int, usec: int)

  /** A `struct timeval` as `gettimeofday` fills it: the microseconds are below one second. */
  predicate Normal(t: Timeval)
  {
    0 <= t.usec < 1000000
  }

  /** `timediff_usec(t0, t1)`: the microseconds from `t0` to `t1`. */
  function TimediffUsec(t0: Timeval, t1: Timeval): int
  {
    (t1.sec - t0.sec) * 1000000 + (t1.usec - t0.usec)
  }

  /** The number of microseconds since the epoch that a time value stands for. */
  function Micros(t: Timeval): int
  {
    t.sec * 1000000 + t.usec
  }

  /** The difference is the distance between the two instants. */
  lemma TimediffIsDistance(t0: Timeval, t1: Timeval)
    ensures TimediffUsec(t0, t1) == Micros(t1) - Micros(t0)
  {
  }

  /** No time passes between an instant and itself, and swapping the arguments negates the difference. */
  lemma TimediffSelfAndSwap(a: Timeval, b: Timeval)
    ensures TimediffUsec(a, a) == 0
    ensures TimediffUsec(a, b) == -TimediffUsec(b, a)
  {
  }

  /** Differences add up along a chain of instants. */
  lemma TimediffAdditive(a: Timeval, b: Timeval, c: Timeval)
    ensures TimediffUsec(a, b) + TimediffUsec(b, c) == TimediffUsec(a, c)
  {
  }

  /** `a` comes before `b`: an earlier second, or the same second and fewer microseconds. */
  predicate Before(a: Timeval, b: Timeval)
  {
    a.sec < b.sec || (a.sec == b.sec && a.usec < b.usec)
  }

  /**
   * For values as `gettimeofday` produces them, the difference is positive
   * exactly when the start comes before the end, and zero exactly when they
   * are the same value.
   */
  lemma {:induction false} TimediffSign(a: Timeval, b: Timeval)
    requires Normal(a) && Normal(b)
    ensures TimediffUsec(a, b) > 0 <==> Before(a, b)
    ensures TimediffUsec(a, b) == 0 <==> a == b
  {
    var d := b.sec - a.sec;
    if d >= 1 {
      assert d * 1000000 >= 1000000;
    } else if d <= -1 {
      assert d * 1000000 <= -1000000;
    }
  }

  /** The fields of `struct rusage` that are reported. */
  datatype Rusage = Rusage(maxrss: int, minflt: int, majflt: int, inblock: int, oublock: int, nvcsw: int, nivcsw: int)

  /** One value handed to the report: `reporti` (an integer) or `reportfp` (the elapsed time, here in microseconds). */
  datatype Entry = Int(key: string, value: int) | ElapsedUsec(key: string, usec: int)

  /**
   * The entries `report_stats` reports, given what `getrusage` returned
   * (`None` when it failed) and the start and end times.
   */
  function ReportOf(usage: Option<Rusage>, start: Timeval, end: Timeval): seq<Entry>
  {
    match usage
    case None => []
    case Some(u) =>
      [Int("_max_rss_kb", u.maxrss),
       Int("_sum_page_faults", u.minflt + u.majflt),
       Int("_sum_io_operations", u.inblock + u.oublock),
       Int("_sum_context_switches", u.nvcsw + u.nivcsw),
       ElapsedUsec("_sum_estimated_runtime_sec", TimediffUsec(start, end))]
  }

  /**
   * Nothing is reported when `getrusage` fails; otherwise five distinct keys,
   * the sums of the paired counters and the time elapsed since the start.
   */
  lemma ReportContents(usage: Option<Rusage>, start: Timeval, end: Timeval)
    ensures usage.None? <==> ReportOf(usage, start, end) == []
    ensures usage.Some? ==> var r := ReportOf(usage, start, end); var u := usage.value;
      && |r| == 5
      && (forall i, j :: 0 <= i < j < 5 ==> r[i].key != r[j].key)
      && r[0].value == u.maxrss
      && r[1].value == u.minflt + u.majflt
      && r[2].value == u.inblock + u.oublock
      && r[3].value == u.nvcsw + u.nivcsw
      && r[4].usec == Micros(end) - Micros(start)
  {
    TimediffIsDistance(start, end);
  }

  /** The global `starttime` and the two functions run around the benchmark. */
  class Timer {
    var starttime: Timeval

    constructor()
      ensures starttime == Timeval(0, 0)
    {
      starttime := Timeval(0, 0);
    }

    /** `start_timer`: `now` is what `gettimeofday` returns. */
    method StartTimer(now: Timeval)
      modifies this
      ensures starttime == now
    {
      starttime := now;
    }

    /** `report_stats`: `now` is the end time and `usage` what `getrusage` returned. */
    method ReportStats(now: Timeval, usage: Option<Rusage>) returns (report: seq<Entry>)
      ensures report == ReportOf(usage, starttime, now)
    {
      report := [];
      if usage.None? {
        return;
      }
      var u := usage.value;
      report := report + [Int("_max_rss_kb", u.maxrss)];
      report := report + [Int("_sum_page_faults", u.minflt + u.majflt)];
      report := report + [Int("_sum_io_operations", u.inblock + u.oublock)];
      report := report + [Int("_sum_context_switches", u.nvcsw + u.nivcsw)];
      report := report + [ElapsedUsec("_sum_estimated_runtime_sec", TimediffUsec(starttime, now))];
    }
  }
}
