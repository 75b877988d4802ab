/**
 * The earlier job pools of prun.py, which infra/parallel.py replaced.  They
 * differ from the current pools in five ways the model keeps apart: job ids
 * and output files of a `ProcessPool` always carry the job's index, `run`
 * registers each job as soon as it is created (so the admission of the next
 * job sees it), a `ProcessPool` does not read its jobs' output, the log
 * rule for finished jobs is the opposite of the one its comment states, and
 * a `ProcessPool` hands its jobs an output file instead of a pipe, so `run`
 * raises before it registers any of them.
 */
module PrunLegacy {

  import opened Wrappers
  import Strs
  import P = Pools

  // ---------------------------------------------------------------------
  // Job names

  /** `'%s-%d' % (jobid_base, i)`: the id of job `i` of a `ProcessPool` call. */
  function JobName(base: string, i: int): string
  {
    base + "-" + Strs.IntToString(i)
  }

  /** `'%s.%d' % (outfile_base, i)`: the output file of job `i`. */
  function OutfileName(base: string, i: int): string
  {
    base + "." + Strs.IntToString(i)
  }

  /** Every job carries its index, a single one too, and distinct indices give distinct names. */
  lemma Names(base: string, i: int, j: int)
    ensures JobName(base, i) != base && OutfileName(base, i) != base
    ensures JobName(base, i) == JobName(base, j) <==> i == j
    ensures OutfileName(base, i) == OutfileName(base, j) <==> i == j
  {
    SuffixInjective(base + "-", i, j);
    SuffixInjective(base + ".", i, j);
    assert |JobName(base, i)| > |base| && |OutfileName(base, i)| > |base|;
  }

  /** A fixed prefix followed by a number determines the number. */
  lemma SuffixInjective(pre: string, i: int, j: int)
    ensures pre + Strs.IntToString(i) == pre + Strs.IntToString(j) <==> i == j
  {
    if pre + Strs.IntToString(i) == pre + Strs.IntToString(j) {
      assert (pre + Strs.IntToString(i))[|pre|..] == Strs.IntToString(i);
      assert (pre + Strs.IntToString(j))[|pre|..] == Strs.IntToString(j);
      Strs.ParseIntRoundTrip(i);
      Strs.ParseIntRoundTrip(j);
    }
  }

  /** Job `i` of a call, registered under `fd`. Its output starts empty. */
  function NewJob(kind: P.Kind, args: seq<string>, jobid: string, outfile: string, nnodes: int,
                  onsuccess: Option<P.Reply>, onerror: Option<P.Reply>, fd: int, now: int, i: int): P.Job
  {
    match kind
    case Proc =>
      P.Job(JobName(jobid, i), 1, args, OutfileName(outfile, i), fd, "", onsuccess, onerror, Some(now))
    case Prun(opts) =>
      P.Job(jobid, nnodes, P.PrunCommand(nnodes, outfile, opts, args), outfile, fd, "", onsuccess, onerror, None)
  }

  /** The line `make_jobs` logs for job `i`. */
  function NewJobLine(kind: P.Kind, jobid: string, i: int): P.Line
  {
    if kind.Proc? then P.Info("running " + JobName(jobid, i)) else P.Info("scheduling " + jobid)
  }

  /** The jobs of one call, in the order `make_jobs` yields them. */
  function Candidates(kind: P.Kind, args: seq<string>, jobid: string, outfile: string, nnodes: int,
                      onsuccess: Option<P.Reply>, onerror: Option<P.Reply>, fds: seq<int>, now: int): (r: seq<P.Job>)
    requires |fds| >= P.JobCount(kind, nnodes)
    ensures |r| == P.JobCount(kind, nnodes)
  {
    seq(P.JobCount(kind, nnodes), i requires 0 <= i < P.JobCount(kind, nnodes) =>
      NewJob(kind, args, jobid, outfile, nnodes, onsuccess, onerror, fds[i], now, i))
  }

  // ---------------------------------------------------------------------
  // Admission, one job at a time

  /**
   * How many of `cands` the `for job in self.make_jobs(...)` loop registers
   * before a wait for `needed` nodes does not end: each wait sees the jobs
   * registered before it.
   */
  function Admitted(parallelmax: Option<int>, jobs: seq<P.Job>, cands: seq<P.Job>, needed: int): (k: nat)
    ensures k <= |cands|
    decreases |cands|
  {
    if |cands| == 0 || !P.HasSpace(parallelmax, P.Load(jobs), needed) then 0
    else 1 + Admitted(parallelmax, jobs + [cands[0]], cands[1..], needed)
  }

  /**
   * Registering one job at a time keeps the queue within `--parallelmax`
   * when no job asks for more nodes than its wait checked for.
   */
  lemma {:induction false} LazyKeepsBound(parallelmax: Option<int>, jobs: seq<P.Job>, cands: seq<P.Job>, needed: int)
    requires parallelmax.Some? && P.Load(jobs) <= parallelmax.value
    requires forall k :: 0 <= k < |cands| ==> cands[k].nnodes <= needed
    ensures P.Load(jobs + cands[..Admitted(parallelmax, jobs, cands, needed)]) <= parallelmax.value
    decreases |cands|
  {
    var n := Admitted(parallelmax, jobs, cands, needed);
    if n == 0 {
      assert jobs + cands[..0] == jobs;
    } else {
      var next := jobs + [cands[0]];
      P.LoadAppend(jobs, [cands[0]]);
      assert P.Load([cands[0]]) == cands[0].nnodes by {
        assert [cands[0]][..0] == [];
      }
      forall k | 0 <= k < |cands[1..]| ensures cands[1..][k].nnodes <= needed {
        assert cands[1..][k] == cands[k + 1];
      }
      LazyKeepsBound(parallelmax, next, cands[1..], needed);
      ShiftSlice(jobs, cands, n);
    }
  }

  /** Moving the first candidate onto the job list leaves the same admitted prefix. */
  lemma ShiftSlice<T>(jobs: seq<T>, cands: seq<T>, n: nat)
    requires 0 < n <= |cands|
    ensures (jobs + [cands[0]]) + cands[1..][..n - 1] == jobs + cands[..n]
  {
    assert cands[..n] == [cands[0]] + cands[1..][..n - 1];
  }

  /** A wait that does not end stops the loop: the next candidate would not fit. */
  lemma {:induction false} AdmittedStops(parallelmax: Option<int>, jobs: seq<P.Job>, cands: seq<P.Job>, needed: int)
    ensures var n := Admitted(parallelmax, jobs, cands, needed);
      n < |cands| ==> !P.HasSpace(parallelmax, P.Load(jobs + cands[..n]), needed)
    decreases |cands|
  {
    var n := Admitted(parallelmax, jobs, cands, needed);
    if n == 0 {
      assert jobs + cands[..0] == jobs;
    } else {
      AdmittedStops(parallelmax, jobs + [cands[0]], cands[1..], needed);
      assert jobs + [cands[0]] + cands[1..][..n - 1] == jobs + cands[..n];
    }
  }

  /** With no limit every job of the call is registered. */
  lemma {:induction false} UnlimitedAdmitsAll(jobs: seq<P.Job>, cands: seq<P.Job>, needed: int)
    ensures Admitted(None, jobs, cands, needed) == |cands|
    decreases |cands|
  {
    if |cands| > 0 {
      UnlimitedAdmitsAll(jobs + [cands[0]], cands[1..], needed);
    }
  }

  /**
   * The call where the current pools exceed their limit (a limit of 1, an
   * empty queue, two jobs on this machine) registers only the first job here
   * and waits for it before starting the second.  An illustration on one
   * input, not a general property.
   */
  lemma LazyWaits(cands: seq<P.Job>)
    requires |cands| == 2 && cands[0].nnodes == 1 && cands[1].nnodes == 1
    ensures Admitted(Some(1), [], cands, 1) == 1
  {
    var first := [] + [cands[0]];
    assert first[..0] == [];
    assert P.Load(first) == 1;
    assert Admitted(Some(1), first, cands[1..], 1) == 0;
  }

  // ---------------------------------------------------------------------
  // onsuccess and onerror, as written

  /** The rule as written: log when there is no callback or when it returned exactly `False`. */
  predicate ShouldLog(callback: Option<P.Reply>)
  {
    callback.None? || callback.value == P.ReturnedFalse
  }

  /**
   * The rule as written is the commented rule of `Pools.ShouldLog` with the
   * two kinds of reply swapped: a callback that returns `None` silences the
   * log, one that returns `False` does not.
   */
  lemma InvertedLogRule(callback: Option<P.Reply>)
    ensures callback.None? ==> ShouldLog(callback) && P.ShouldLog(callback)
    ensures callback.Some? ==> (ShouldLog(callback) <==> !P.ShouldLog(callback))
    ensures ShouldLog(Some(P.ReturnedFalse)) && !ShouldLog(Some(P.ReturnedOther))
  {
  }

  function OnSuccess(job: P.Job, now: int): (r: seq<P.Line>)
    ensures r == [] || r == P.SuccessLines(job, now)
    ensures r != [] <==> job.onsuccess != Some(P.ReturnedOther)
  {
    if ShouldLog(job.onsuccess) then P.SuccessLines(job, now) else []
  }

  function OnError(job: P.Job, status: int, now: int): (r: seq<P.Line>)
    ensures r == [] || r == P.ErrorLines(job, status, now)
    ensures r != [] <==> job.onerror != Some(P.ReturnedOther)
  {
    if ShouldLog(job.onerror) then P.ErrorLines(job, status, now) else []
  }

  function Finished(job: P.Job, status: int, now: int): seq<P.Line>
  {
    if status == 0 then OnSuccess(job, now) else OnError(job, status, now)
  }

  // ---------------------------------------------------------------------
  // The poller

  /**
   * `process_job_output(job)` with `buf` the text the read decoded to: a
   * `ProcessPool` reads nothing, a `PrunPool` appends and parses as the
   * current pool does.
   */
  function AfterOutput(kind: P.Kind, job: P.Job, buf: string, now: int): (P.Job, Result<seq<P.Line>>)
  {
    if kind.Proc? then (job, Ok([])) else P.AppendOutput(kind, job, buf, now)
  }

  function OutputEvent(kind: P.Kind, jobs: seq<P.Job>, fd: int, buf: string, now: int): (seq<P.Job>, Result<seq<P.Line>>)
  {
    var i := P.Find(jobs, fd);
    if i.None? then (jobs, Err(KeyError(Strs.IntToString(fd))))
    else
      var after := AfterOutput(kind, jobs[i.value], buf, now);
      (jobs[i.value := after.0], after.1)
  }

  function PopStep(st: (seq<P.Job>, Result<seq<P.Line>>), fd: int, flagged: bool, hangUp: bool, status: int, now: int)
    : (seq<P.Job>, Result<seq<P.Line>>)
  {
    if !flagged || st.1.Err? then st
    else
      var p := P.PopJob(st.0, fd);
      if p.None? then (st.0, Err(P.UnregisterError(fd)))
      else (p.value.0, Ok(st.1.value + (if hangUp then Finished(p.value.1, status, now) else OnError(p.value.1, status, now))))
  }

  /** One event of the poller thread, as in the current pools but with the rules above. */
  function Event(kind: P.Kind, jobs: seq<P.Job>, fd: int, readable: bool, failed: bool, hungUp: bool,
                 buf: string, status: int, now: int): (seq<P.Job>, Result<seq<P.Line>>)
  {
    var st := if readable then OutputEvent(kind, jobs, fd, buf, now) else (jobs, Ok([]));
    PopStep(PopStep(st, fd, failed, false, status, now), fd, hungUp, true, status, now)
  }

  /**
   * A hang-up of a job with status 0 whose callback returned `None`: the job
   * leaves the queue and nothing is logged, where the current pools log that
   * it finished.
   */
  lemma SilencedByNone(kind: P.Kind, jobs: seq<P.Job>, fd: int, status: int, now: int)
    requires P.DistinctFds(jobs) && P.Find(jobs, fd).Some?
    requires jobs[P.Find(jobs, fd).value].onsuccess == Some(P.ReturnedOther)
    ensures Event(kind, jobs, fd, false, false, true, "", 0, now) == (P.Remove(jobs, P.Find(jobs, fd).value), Ok([]))
    ensures P.Event(kind, jobs, fd, false, false, true, None, 0, now).1
      == Ok(P.SuccessLines(jobs[P.Find(jobs, fd).value], now))
  {
    var job := jobs[P.Find(jobs, fd).value];
    assert OnSuccess(job, now) == [];
    assert P.OnSuccess(job, now) == P.SuccessLines(job, now);
    var empty: seq<P.Line> := [];
    assert empty + [] == [];
    assert empty + P.SuccessLines(job, now) == P.SuccessLines(job, now);
  }

  /** A job that fits is registered, and the count goes on from the queue with it. */
  lemma AdmitStep(parallelmax: Option<int>, start: seq<P.Job>, cands: seq<P.Job>, i: nat, needed: int)
    requires i < |cands| && P.HasSpace(parallelmax, P.Load(start + cands[..i]), needed)
    ensures Admitted(parallelmax, start + cands[..i], cands[i..], needed)
      == 1 + Admitted(parallelmax, start + cands[..i + 1], cands[i + 1..], needed)
  {
    assert cands[i..][0] == cands[i] && cands[i..][1..] == cands[i + 1..];
    assert start + cands[..i] + [cands[i]] == start + cands[..i + 1];
  }

  /** A job that does not fit ends the count at the jobs registered so far. */
  lemma AdmitStop(parallelmax: Option<int>, start: seq<P.Job>, cands: seq<P.Job>, i: nat, needed: int)
    requires i <= |cands| && !P.HasSpace(parallelmax, P.Load(start + cands[..i]), needed)
    ensures Admitted(parallelmax, start + cands[..i], cands[i..], needed) == 0
  {
  }

  /**
   * The loop of `run` over the jobs `make_jobs` yields, on the queue as a
   * value: each job is registered once its wait for queue space has ended,
   * and the loop stops at a wait that does not end.
   */
  method RegisterEach(parallelmax: Option<int>, jobs: seq<P.Job>, cands: seq<P.Job>, needed: int)
    returns (q: seq<P.Job>, n: nat)
    ensures n == Admitted(parallelmax, jobs, cands, needed) && q == jobs + cands[..n]
  {
    q, n := jobs, 0;
    while n < |cands|
      invariant n <= |cands| && q == jobs + cands[..n]
      invariant Admitted(parallelmax, jobs, cands, needed) == n + Admitted(parallelmax, q, cands[n..], needed)
    {
      if !P.HasSpace(parallelmax, P.Load(q), needed) {
        AdmitStop(parallelmax, jobs, cands, n, needed);
        return;
      }
      AdmitStep(parallelmax, jobs, cands, n, needed);
      q := q + [cands[n]];
      n := n + 1;
      assert q == jobs + cands[..n];
    }
    assert cands[n..] == [];
  }

  /** Jobs under the fresh descriptors `fds` have distinct descriptors, none in use. */
  lemma CandidatesFresh(kind: P.Kind, jobs: seq<P.Job>, args: seq<string>, jobid: string, outfile: string, nnodes: int,
                        onsuccess: Option<P.Reply>, onerror: Option<P.Reply>, fds: seq<int>, now: int, n: nat)
    requires P.DistinctFds(jobs)
    requires |fds| >= P.JobCount(kind, nnodes) && n <= P.JobCount(kind, nnodes)
    requires forall i, j :: 0 <= i < j < |fds| ==> fds[i] != fds[j]
    requires forall i :: 0 <= i < |fds| ==> fds[i] !in P.Fds(jobs)
    ensures P.DistinctFds(jobs + Candidates(kind, args, jobid, outfile, nnodes, onsuccess, onerror, fds, now)[..n])
  {
    var c := Candidates(kind, args, jobid, outfile, nnodes, onsuccess, onerror, fds, now)[..n];
    assert forall k :: 0 <= k < |c| ==> c[k].fd == fds[k];
    P.AppendFresh(jobs, c);
  }

  /**
   * What `run` came to.  It returns nothing; `Blocked` is a wait for queue
   * space that does not end, `Raised` an exception raised after `log` was
   * written.
   */
  datatype Outcome = Done(log: seq<P.Line>) | Blocked(log: seq<P.Line>) | Raised(log: seq<P.Line>, error: Error)

  /** What Python raises for `job.stdout.fileno()` when the process has no pipe. */
  const NoFileno: Error := AttributeError("'NoneType' object has no attribute 'fileno'")

  /**
   * `run` of a `ProcessPool` as written.  `make_jobs` passes the opened
   * output file as the job's `stdout`, which the `run` of infra/util.py
   * keeps, so the process has no `stdout` pipe and `job.stdout.fileno()`
   * raises for the first job, after its wait and its log line and before
   * anything is registered.
   */
  function ProcessRun(parallelmax: Option<int>, jobs: seq<P.Job>, jobid: string, nnodes: int): Outcome
  {
    if nnodes <= 0 then Done([])
    else if !P.HasSpace(parallelmax, P.Load(jobs), 1) then Blocked([])
    else Raised([NewJobLine(P.Proc, jobid, 0)], NoFileno)
  }

  /**
   * Against the run with pipes: the process pool as written raises exactly
   * when the piped run would register a job, after that job's log line, and
   * registers none; it waits or finishes exactly when the piped run admits
   * nothing.
   */
  lemma ProcessRunStopsFirst(parallelmax: Option<int>, jobs: seq<P.Job>, args: seq<string>, jobid: string,
                             outfile: string, nnodes: int, onsuccess: Option<P.Reply>, onerror: Option<P.Reply>,
                             fds: seq<int>, now: int)
    requires |fds| >= P.JobCount(P.Proc, nnodes)
    ensures var cands := Candidates(P.Proc, args, jobid, outfile, nnodes, onsuccess, onerror, fds, now);
      var n := Admitted(parallelmax, jobs, cands, 1);
      var o := ProcessRun(parallelmax, jobs, jobid, nnodes);
      && (o.Raised? <==> n >= 1)
      && (o.Done? <==> |cands| == 0)
      && (o.Raised? ==> o.log == [NewJobLine(P.Proc, jobid, 0)] && o.error == NoFileno)
      && (!o.Raised? ==> o.log == [])
  {
  }

  /** The smallest call that shows it: one job, no limit, an empty queue. */
  lemma OneProcessJobRaises(args: seq<string>, jobid: string, outfile: string, fd: int, now: int)
    ensures ProcessRun(None, [], jobid, 1) == Raised([P.Info("running " + jobid + "-0")], NoFileno)
    ensures Admitted(None, [], Candidates(P.Proc, args, jobid, outfile, 1, None, None, [fd], now), 1) == 1
  {
    assert Strs.IntToString(0) == "0";
    assert JobName(jobid, 0) == jobid + "-0";
    assert "running " + (jobid + "-0") == "running " + jobid + "-0";
    UnlimitedAdmitsAll([], Candidates(P.Proc, args, jobid, outfile, 1, None, None, [fd], now), 1);
  }

  class LegacyPool {
    const kind: P.Kind
    const parallelmax: Option<int>
    var jobs: seq<P.Job>

    predicate Valid()
      reads this
    {
      P.DistinctFds(jobs)
    }

    /** `parallelmax` defaults to `None`: no limit. */
    constructor (kind: P.Kind, parallelmax: Option<int> := None)
      ensures this.kind == kind && this.parallelmax == parallelmax && jobs == [] && Valid()
    {
      this.kind := kind;
      this.parallelmax := parallelmax;
      jobs := [];
    }

    /**
     * `run` as written: a `PrunPool` registers its job as `RunPiped` does,
     * a `ProcessPool` comes to `ProcessRun`.
     */
    method Run(cmd: P.Command, jobid: string, outfile: string, nnodes: int,
               onsuccess: Option<P.Reply>, onerror: Option<P.Reply>, fds: seq<int>, now: int)
      returns (r: Result<Outcome>)
      modifies this
      requires Valid()
      requires |fds| >= P.JobCount(kind, nnodes)
      requires forall i, j :: 0 <= i < j < |fds| ==> fds[i] != fds[j]
      requires forall i :: 0 <= i < |fds| ==> fds[i] !in P.Fds(jobs)
      ensures Valid()
      ensures P.Args(cmd).Err? ==> r == Err(P.Args(cmd).error) && jobs == old(jobs)
      ensures P.Args(cmd).Ok? && kind.Proc? ==> r == Ok(ProcessRun(parallelmax, old(jobs), jobid, nnodes)) && jobs == old(jobs)
      ensures P.Args(cmd).Ok? && kind.Prun? ==>
        var cands := Candidates(kind, P.Args(cmd).value, jobid, outfile, nnodes, onsuccess, onerror, fds, now);
        var n := Admitted(parallelmax, old(jobs), cands, P.Needed(kind, nnodes));
        && jobs == old(jobs) + cands[..n]
        && r.Ok? && (r.value.Done? <==> n == |cands|)
        && |r.value.log| == n && forall k :: 0 <= k < n ==> r.value.log[k] == NewJobLine(kind, jobid, k)
      ensures parallelmax.Some? && P.Load(old(jobs)) <= parallelmax.value ==> P.Load(jobs) <= parallelmax.value
    {
      var args := P.Args(cmd);
      if args.Err? {
        return Err(args.error);
      }
      if kind.Proc? {
        return Ok(ProcessRun(parallelmax, jobs, jobid, nnodes));
      }
      r := RunPiped(cmd, jobid, outfile, nnodes, onsuccess, onerror, fds, now);
    }

    /**
     * `run` when every job's output comes through a pipe, as for jobs of a
     * `PrunPool` and for the process jobs of infra/parallel.py: split a
     * string command, then create and register the jobs one at a time.  Each
     * new descriptor comes from `fds`: distinct and not in use.
     */
    method RunPiped(cmd: P.Command, jobid: string, outfile: string, nnodes: int,
               onsuccess: Option<P.Reply>, onerror: Option<P.Reply>, fds: seq<int>, now: int)
      returns (r: Result<Outcome>)
      modifies this
      requires Valid()
      requires |fds| >= P.JobCount(kind, nnodes)
      requires forall i, j :: 0 <= i < j < |fds| ==> fds[i] != fds[j]
      requires forall i :: 0 <= i < |fds| ==> fds[i] !in P.Fds(jobs)
      ensures Valid()
      ensures P.Args(cmd).Err? ==> r == Err(P.Args(cmd).error) && jobs == old(jobs)
      ensures P.Args(cmd).Ok? ==>
        var cands := Candidates(kind, P.Args(cmd).value, jobid, outfile, nnodes, onsuccess, onerror, fds, now);
        var n := Admitted(parallelmax, old(jobs), cands, P.Needed(kind, nnodes));
        && jobs == old(jobs) + cands[..n]
        && r.Ok? && (r.value.Done? <==> n == |cands|)
        && |r.value.log| == n && forall k :: 0 <= k < n ==> r.value.log[k] == NewJobLine(kind, jobid, k)
      ensures parallelmax.Some? && P.Load(old(jobs)) <= parallelmax.value ==> P.Load(jobs) <= parallelmax.value
    {
      var args := P.Args(cmd);
      if args.Err? {
        return Err(args.error);
      }
      var needed := P.Needed(kind, nnodes);
      var cands := Candidates(kind, args.value, jobid, outfile, nnodes, onsuccess, onerror, fds, now);
      var q, n := RegisterEach(parallelmax, jobs, cands, needed);
      if parallelmax.Some? && P.Load(jobs) <= parallelmax.value {
        LazyKeepsBound(parallelmax, jobs, cands, needed);
      }
      CandidatesFresh(kind, jobs, args.value, jobid, outfile, nnodes, onsuccess, onerror, fds, now, n);
      jobs := q;
      var log := seq(n, k requires 0 <= k < n => NewJobLine(kind, jobid, k));
      return Ok(if n < |cands| then Blocked(log) else Done(log));
    }

    /** `process_job_output(self.jobs[fd])`. */
    method ProcessJobOutput(fd: int, buf: string, now: int) returns (r: Result<seq<P.Line>>)
      modifies this
      requires Valid()
      ensures Valid()
      ensures (jobs, r) == OutputEvent(kind, old(jobs), fd, buf, now)
    {
      var found := P.Find(jobs, fd);
      if found.None? {
        return Err(KeyError(Strs.IntToString(fd)));
      }
      var i := found.value;
      if kind.Proc? {
        assert jobs[i := jobs[i]] == jobs;
        return Ok([]);
      }
      var job := jobs[i].(output := jobs[i].output + buf);
      r := Ok([]);
      var scan := P.ScanStatus(job.output);
      var report := P.StatusReport(job.jobid, scan);
      if report.Err? {
        r := Err(report.error);
      } else if report.value.Some? {
        job := job.(startTime := Some(now));
        r := Ok([P.Info(report.value.value)]);
      }
      jobs := jobs[i := job];
      assert forall k :: 0 <= k < |jobs| ==> jobs[k].fd == old(jobs)[k].fd;
    }

    /** `self.jobs.pop(fd)`. */
    method Pop(fd: int) returns (r: Option<P.Job>)
      modifies this
      requires Valid()
      ensures Valid()
      ensures P.PopJob(old(jobs), fd).None? ==> r.None? && jobs == old(jobs)
      ensures P.PopJob(old(jobs), fd).Some? ==> r == Some(P.PopJob(old(jobs), fd).value.1) && jobs == P.PopJob(old(jobs), fd).value.0
    {
      var found := P.Find(jobs, fd);
      if found.None? {
        return None;
      }
      r := Some(jobs[found.value]);
      P.RemoveFds(jobs, found.value);
      jobs := P.Remove(jobs, found.value);
    }

    /** One event of the poller thread for descriptor `fd`. */
    method HandleEvent(fd: int, readable: bool, failed: bool, hungUp: bool, buf: string,
                       status: int, now: int) returns (r: Result<seq<P.Line>>)
      modifies this
      requires Valid()
      ensures Valid()
      ensures (jobs, r) == Event(kind, old(jobs), fd, readable, failed, hungUp, buf, status, now)
    {
      ghost var st: (seq<P.Job>, Result<seq<P.Line>>) := (jobs, Ok([]));
      var log: seq<P.Line> := [];
      if readable {
        var out := ProcessJobOutput(fd, buf, now);
        st := OutputEvent(kind, old(jobs), fd, buf, now);
        if out.Err? {
          return Err(out.error);
        }
        log := out.value;
      }
      assert st.1 == Ok(log) && st.0 == jobs;
      if failed {
        ghost var before := st;
        var job := Pop(fd);
        st := PopStep(before, fd, true, false, status, now);
        if job.None? {
          return Err(P.UnregisterError(fd));
        }
        log := log + OnError(job.value, status, now);
      }
      assert st == PopStep(if readable then OutputEvent(kind, old(jobs), fd, buf, now) else (old(jobs), Ok([])),
                           fd, failed, false, status, now);
      assert st.1 == Ok(log) && st.0 == jobs;
      if hungUp {
        ghost var before := st;
        var job := Pop(fd);
        st := PopStep(before, fd, true, true, status, now);
        if job.None? {
          return Err(P.UnregisterError(fd));
        }
        log := log + Finished(job.value, status, now);
      }
      return Ok(log);
    }
  }
}
