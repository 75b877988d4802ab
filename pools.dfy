/**
 * The job pools of infra/parallel.py, which run commands in parallel for
 * `--parallel=proc` (processes on this machine) and `--parallel=prun`
 * (jobs on a cluster through the `prun` scheduler).
 *
 * Modelled are the sequential parts: how jobs are named and what they run,
 * the admission rule that keeps the queue within `--parallelmax`, the
 * registration of new jobs, the handling of one event of the poller, the
 * parse of prun's status output and the rule for when a finished job is
 * logged.  Processes, pipes and the clock are parameters: the descriptor
 * each new job's output is read from, the bytes a read returns, a job's
 * exit status and the current time in whole seconds.
 */
module Pools {

  import opened Wrappers
  import Strs
  import Shell

  // ---------------------------------------------------------------------
  // Jobs

  /** What a user callback returned: exactly `False`, or anything else (`None` included). */
  datatype Reply = ReturnedFalse | ReturnedOther

  /** A job of the queue: the attributes the pool sets on the process handle. */
  datatype Job = Job(jobid: string, nnodes: int, cmd: seq<string>, outfile: string, fd: int, output: string,
                     onsuccess: Option<Reply>, onerror: Option<Reply>, startTime: Option<int>)

  /** A command as `run` accepts it: a shell string or a list of words. */
  datatype Command = Text(line: string) | Argv(args: seq<string>)

  /** `shlex.split(cmd)` for a string; a list is used as it is. */
  function Args(cmd: Command): (r: Result<seq<string>>)
    ensures cmd.Argv? ==> r == Ok(cmd.args)
  {
    match cmd
    case Text(line) => Shell.Split(line)
    case Argv(args) => Ok(args)
  }

  /** The number of nodes the queued jobs occupy. */
  function Load(jobs: seq<Job>): int
  {
    if |jobs| == 0 then 0 else Load(jobs[..|jobs| - 1]) + jobs[|jobs| - 1].nnodes
  }

  lemma {:induction false} LoadAppend(a: seq<Job>, b: seq<Job>)
    ensures Load(a + b) == Load(a) + Load(b)
    decreases |b|
  {
    if |b| > 0 {
      assert (a + b)[..|a + b| - 1] == a + b[..|b| - 1];
      LoadAppend(a, b[..|b| - 1]);
    } else {
      assert a + b == a;
    }
  }

  /** The descriptors the queue's jobs are registered under. */
  function Fds(jobs: seq<Job>): set<int>
  {
    set k | 0 <= k < |jobs| :: jobs[k].fd
  }

  /** The condition `_wait_for_queue_space(needed)` waits for: no limit, or room for `needed` more nodes. */
  predicate HasSpace(parallelmax: Option<int>, load: int, needed: int)
  {
    parallelmax.None? || load + needed <= parallelmax.value
  }

  // ---------------------------------------------------------------------
  // ProcessPool.make_jobs and PrunPool.make_jobs

  /** `ProcessPool` job `i` of `nnodes`: `-<i>` is appended only when there are several. */
  function ProcessJobName(base: string, nnodes: int, i: int): string
  {
    if nnodes > 1 then base + "-" + Strs.IntToString(i) else base
  }

  /** Distinct jobs of one call get distinct ids and output files; a single job keeps the base name. */
  lemma ProcessJobNames(base: string, nnodes: int, i: int, j: int)
    requires 0 <= i < nnodes && 0 <= j < nnodes
    ensures nnodes == 1 ==> ProcessJobName(base, nnodes, i) == base
    ensures ProcessJobName(base, nnodes, i) == ProcessJobName(base, nnodes, j) <==> i == j
  {
    if nnodes > 1 && ProcessJobName(base, nnodes, i) == ProcessJobName(base, nnodes, j) {
      var pre := base + "-";
      assert (pre + Strs.IntToString(i))[|pre|..] == Strs.IntToString(i);
      assert (pre + Strs.IntToString(j))[|pre|..] == Strs.IntToString(j);
      Strs.ParseIntRoundTrip(i);
      Strs.ParseIntRoundTrip(j);
    }
  }

  /** The `prun` command line of a `PrunPool` job: the scheduler's options, then the command. */
  function PrunCommand(nnodes: int, outfile: string, prunOpts: seq<string>, cmd: seq<string>): seq<string>
  {
    ["prun", "-v", "-np", Strs.IntToString(nnodes), "-1", "-o", outfile] + prunOpts + cmd
  }

  lemma PrunCommandShape(nnodes: int, outfile: string, prunOpts: seq<string>, cmd: seq<string>)
    ensures var r := PrunCommand(nnodes, outfile, prunOpts, cmd);
      && |r| == 7 + |prunOpts| + |cmd| && r[0] == "prun" && r[3] == Strs.IntToString(nnodes) && r[6] == outfile
      && r[7..7 + |prunOpts|] == prunOpts && r[7 + |prunOpts|..] == cmd
  {
  }

  // ---------------------------------------------------------------------
  // onsuccess and onerror

  /** The log line is printed unless the user callback returned exactly `False`. */
  predicate ShouldLog(callback: Option<Reply>)
  {
    callback.None? || callback.value != ReturnedFalse
  }

  /** The comment's rule: a callback silences the log line exactly by returning `False`. */
  lemma ShouldLogRule(callback: Option<Reply>)
    ensures !ShouldLog(callback) <==> callback == Some(ReturnedFalse)
  {
  }

  /** A line the pool writes: through the logger at one of three levels, or to standard output. */
  datatype Line = Info(text: string) | Debug(text: string) | Error(text: string) | Stdout(text: string)

  /** `_get_elapsed(job)`: nothing until the job has a start time. */
  function Elapsed(job: Job, now: int): string
  {
    if job.startTime.None? then "" else " after " + Strs.IntToString(now - job.startTime.value) + " seconds"
  }

  /** The two lines logged for a job that finished with status 0. */
  function SuccessLines(job: Job, now: int): seq<Line>
  {
    [Info("job " + job.jobid + " finished" + Elapsed(job, now)), Debug("command: " + Shell.QJoin(job.cmd))]
  }

  /** The lines written for a job that failed: two log lines, then the job's output. */
  function ErrorLines(job: Job, status: int, now: int): seq<Line>
  {
    [Error("job " + job.jobid + " returned status " + Strs.IntToString(status) + Elapsed(job, now)),
     Error("command: " + Shell.QJoin(job.cmd)),
     Stdout(job.output)]
  }

  /** `onsuccess(job)`: the success lines unless the callback silenced them. */
  function OnSuccess(job: Job, now: int): (r: seq<Line>)
    ensures r == [] || r == SuccessLines(job, now)
    ensures r != [] <==> job.onsuccess != Some(ReturnedFalse)
  {
    if ShouldLog(job.onsuccess) then SuccessLines(job, now) else []
  }

  /** `onerror(job)`: the error lines, the job's output included, unless the callback silenced them. */
  function OnError(job: Job, status: int, now: int): (r: seq<Line>)
    ensures r == [] || (r == ErrorLines(job, status, now) && r[2] == Stdout(job.output))
    ensures r != [] <==> job.onerror != Some(ReturnedFalse)
  {
    if ShouldLog(job.onerror) then ErrorLines(job, status, now) else []
  }

  // ---------------------------------------------------------------------
  // PrunPool.process_job_output: prun's status output

  /**
   * A line boundary of `str.splitlines()`: '\n', '\r', '\v', '\f', the
   * separators 0x1c to 0x1e, NEL (0x85) and the Unicode line and paragraph
   * separators (0x2028, 0x2029).
   */
  predicate IsLineBreak(ch: char)
  {
    var n := ch as int;
    (10 <= n <= 13) || (28 <= n <= 30) || n == 0x85 || n == 0x2028 || n == 0x2029
  }

  predicate NoLineBreak(s: string)
  {
    forall j :: 0 <= j < |s| ==> !IsLineBreak(s[j])
  }

  /** Where the first line of `s` ends: at its first line boundary, or at its end. */
  function LineEnd(s: string): (i: nat)
    ensures i <= |s| && NoLineBreak(s[..i]) && (i < |s| ==> IsLineBreak(s[i]))
    decreases |s|
  {
    if |s| == 0 || IsLineBreak(s[0]) then 0
    else
      var i := 1 + LineEnd(s[1..]);
      assert s[..i] == [s[0]] + s[1..][..i - 1];
      i
  }

  /**
   * `s.splitlines()`: the lines of `s` without their boundaries, where
   * "\r\n" is one boundary and a last line without one still counts.
   */
  function Lines(s: string): (r: seq<string>)
    ensures forall k :: 0 <= k < |r| ==> NoLineBreak(r[k])
    decreases |s|
  {
    if |s| == 0 then []
    else
      var i := LineEnd(s);
      if i == |s| then [s]
      else
        var next := if s[i] == '\r' && i + 1 < |s| && s[i + 1] == '\n' then i + 2 else i + 1;
        [s[..i]] + Lines(s[next..])
  }

  /** `re.fullmatch('node(\d+)/(\d+)', tok)`: the machine and the core it names. */
  function NodeId(tok: string): Option<(int, int)>
  {
    if |tok| > 4 && tok[..4] == "node" then
      var rest := tok[4..];
      var slash := Strs.FindFrom(rest, "/", 0);
      if slash.Some? && Strs.AllDigits(rest[..slash.value]) && Strs.AllDigits(rest[slash.value + 1..]) then
        Some((Strs.DigitsValue(rest[..slash.value]) as int, Strs.DigitsValue(rest[slash.value + 1..]) as int))
      else None
    else None
  }

  /** How prun names a core: `node<machine>/<core>`. */
  function NodeText(machine: nat, core: nat): string
  {
    "node" + Strs.NatToString(machine) + "/" + Strs.NatToString(core)
  }

  /** `NodeId` reads back the machine and core of every core prun names. */
  lemma NodeIdText(machine: nat, core: nat)
    ensures NodeId(NodeText(machine, core)) == Some((machine, core))
  {
    var m, c := Strs.NatToString(machine), Strs.NatToString(core);
    var rest := m + "/" + c;
    assert NodeText(machine, core) == "node" + rest;
    FirstSlash(m, c);
    assert rest[..|m|] == m && rest[|m| + 1..] == c;
    Strs.NatToStringRoundTrip(machine);
    Strs.NatToStringRoundTrip(core);
  }

  /** The first '/' after a run of digits is the one that ends it. */
  lemma FirstSlash(m: string, c: string)
    requires Strs.AllDigits(m)
    ensures Strs.FindFrom(m + "/" + c, "/", 0) == Some(|m|)
  {
    var rest := m + "/" + c;
    forall k | 0 <= k < |m| ensures !Strs.OccursAt(rest, "/", k) {
      assert rest[k] == m[k];
    }
    assert Strs.OccursAt(rest, "/", |m|);
  }

  /** The end of the run of ASCII digits that starts at `i`. */
  function DigitRun(s: string, i: nat): (j: nat)
    requires i <= |s|
    ensures i <= j <= |s| && (j == |s| || !Strs.IsDigit(s[j]))
    ensures forall k :: i <= k < j ==> Strs.IsDigit(s[k])
    decreases |s| - i
  {
    if i < |s| && Strs.IsDigit(s[i]) then DigitRun(s, i + 1) else i
  }

  /** `re.search('for (\d+) seconds', s)` from `p` on: the number of the leftmost match. */
  function SecondsFrom(s: string, p: nat): (r: Option<int>)
    requires p <= |s|
    ensures r.Some? ==> r.value >= 0
    decreases |s| - p
  {
    var d := if p + 4 <= |s| then DigitRun(s, p + 4) else p;
    if Strs.OccursAt(s, "for ", p) && d > p + 4 && Strs.OccursAt(s, " seconds", d) then
      Some(Strs.DigitsValue(s[p + 4..d]) as int)
    else if p == |s| then None
    else SecondsFrom(s, p + 1)
  }

  /** The outcome of the status loop: it returned early, or it gathered the cores and the reservation. */
  datatype Scan = Aborted | Scanned(nodes: seq<(int, int)>, seconds: int)

  /** The inner loop over the tokens of a ':' line, appending each core to `nodes`. */
  function NodeTokens(tokens: seq<string>, nodes: seq<(int, int)>): Option<seq<(int, int)>>
    decreases |tokens|
  {
    if |tokens| == 0 then Some(nodes)
    else
      var id := NodeId(tokens[0]);
      if id.None? then None else NodeTokens(tokens[1..], nodes + [id.value])
  }

  /** The loop over the lines: the cores of ':' lines, and the first reservation length of the others. */
  function ScanLines(lines: seq<string>, nodes: seq<(int, int)>, seconds: int): Scan
    decreases |lines|
  {
    if |lines| == 0 then Scanned(nodes, seconds)
    else
      var line := lines[0];
      if Strs.StartsWith(line, ":") then
        var more := NodeTokens(Strs.Words(line[1..]), nodes);
        if more.None? then Aborted else ScanLines(lines[1..], more.value, seconds)
      else if seconds == -1 then
        var m := SecondsFrom(line, 0);
        ScanLines(lines[1..], nodes, if m.Some? then m.value else -1)
      else ScanLines(lines[1..], nodes, seconds)
  }

  /** The status loop of `process_job_output` over the output read so far. */
  method ScanStatus(output: string) returns (r: Scan)
    ensures r == ScanLines(Lines(output), [], -1)
  {
    var numseconds := -1;
    var nodes: seq<(int, int)> := [];
    var lines := Lines(output);
    for i := 0 to |lines|
      invariant ScanLines(lines, [], -1) == ScanLines(lines[i..], nodes, numseconds)
    {
      var line := lines[i];
      assert lines[i..][1..] == lines[i + 1..];
      if Strs.StartsWith(line, ":") {
        var tokens := Strs.Words(line[1..]);
        ghost var before := nodes;
        for k := 0 to |tokens|
          invariant NodeTokens(tokens, before) == NodeTokens(tokens[k..], nodes)
        {
          assert tokens[k..][1..] == tokens[k + 1..];
          var m := NodeId(tokens[k]);
          if m.None? {
            return Aborted;
          }
          nodes := nodes + [m.value];
        }
      } else if numseconds == -1 {
        var m := SecondsFrom(line, 0);
        if m.Some? {
          numseconds := m.value;
        }
      }
    }
    return Scanned(nodes, numseconds);
  }

  /** A line of the status output that makes the loop return early: a ':' line with a token that names no core. */
  predicate Malformed(line: string)
  {
    Strs.StartsWith(line, ":") && exists k :: 0 <= k < |Strs.Words(line[1..])| && NodeId(Strs.Words(line[1..])[k]).None?
  }

  /** The token loop fails exactly when some token names no core. */
  lemma {:induction false} NodeTokensFail(tokens: seq<string>, nodes: seq<(int, int)>)
    ensures NodeTokens(tokens, nodes).None? <==> exists k :: 0 <= k < |tokens| && NodeId(tokens[k]).None?
    decreases |tokens|
  {
    if |tokens| > 0 {
      NodeTokensFail(tokens[1..], nodes + if NodeId(tokens[0]).Some? then [NodeId(tokens[0]).value] else []);
      if exists k :: 1 <= k < |tokens| && NodeId(tokens[k]).None? {
        var k :| 1 <= k < |tokens| && NodeId(tokens[k]).None?;
        assert NodeId(tokens[1..][k - 1]).None?;
      }
      if exists k :: 0 <= k < |tokens[1..]| && NodeId(tokens[1..][k]).None? {
        var k :| 0 <= k < |tokens[1..]| && NodeId(tokens[1..][k]).None?;
        assert NodeId(tokens[k + 1]).None?;
      }
    }
  }

  /** The status loop returns early exactly when some line of the output is malformed. */
  lemma {:induction false} ScanAborts(lines: seq<string>, nodes: seq<(int, int)>, seconds: int)
    ensures ScanLines(lines, nodes, seconds).Aborted? <==> exists i :: 0 <= i < |lines| && Malformed(lines[i])
    decreases |lines|
  {
    if |lines| > 0 {
      var line := lines[0];
      var more := if Strs.StartsWith(line, ":") then NodeTokens(Strs.Words(line[1..]), nodes) else None;
      if Strs.StartsWith(line, ":") {
        NodeTokensFail(Strs.Words(line[1..]), nodes);
      }
      if !Malformed(line) {
        var ns := if more.Some? then more.value else nodes;
        var secs := if Strs.StartsWith(line, ":") || seconds != -1 then seconds
                    else if SecondsFrom(line, 0).Some? then SecondsFrom(line, 0).value else -1;
        ScanAborts(lines[1..], ns, secs);
        if exists i :: 1 <= i < |lines| && Malformed(lines[i]) {
          var i :| 1 <= i < |lines| && Malformed(lines[i]);
          assert Malformed(lines[1..][i - 1]);
        }
        if exists i :: 0 <= i < |lines[1..]| && Malformed(lines[1..][i]) {
          var i :| 0 <= i < |lines[1..]| && Malformed(lines[1..][i]);
          assert Malformed(lines[i + 1]);
        }
      }
    }
  }

  /** The cores as prun names them. */
  function NodeTexts(nodes: seq<(nat, nat)>): seq<string>
  {
    seq(|nodes|, k requires 0 <= k < |nodes| => NodeText(nodes[k].0, nodes[k].1))
  }

  /** The cores as the status loop records them. */
  function NodePairs(nodes: seq<(nat, nat)>): seq<(int, int)>
  {
    seq(|nodes|, k requires 0 <= k < |nodes| => (nodes[k].0 as int, nodes[k].1 as int))
  }

  /** The token loop reads back every core prun names, in order. */
  lemma {:induction false} NodeTokensOfTexts(nodes: seq<(nat, nat)>, acc: seq<(int, int)>)
    ensures NodeTokens(NodeTexts(nodes), acc) == Some(acc + NodePairs(nodes))
    decreases |nodes|
  {
    if |nodes| > 0 {
      var ts := NodeTexts(nodes);
      var pair := (nodes[0].0 as int, nodes[0].1 as int);
      NodeIdText(nodes[0].0, nodes[0].1);
      assert NodeId(ts[0]) == Some(pair);
      assert ts[1..] == NodeTexts(nodes[1..]);
      assert NodeTokens(ts, acc) == NodeTokens(NodeTexts(nodes[1..]), acc + [pair]);
      NodeTokensOfTexts(nodes[1..], acc + [pair]);
      assert NodePairs(nodes) == [pair] + NodePairs(nodes[1..]);
      assert acc + [pair] + NodePairs(nodes[1..]) == acc + NodePairs(nodes);
    } else {
      assert acc + NodePairs(nodes) == acc;
    }
  }

  /** A core's name holds no whitespace. */
  lemma NodeTextWord(machine: nat, core: nat)
    ensures |NodeText(machine, core)| > 0
    ensures forall j :: 0 <= j < |NodeText(machine, core)| ==> !Strs.IsSpace(NodeText(machine, core)[j])
  {
    var m, c := Strs.NatToString(machine), Strs.NatToString(core);
    forall j | 0 <= j < |NodeText(machine, core)| ensures !Strs.IsSpace(NodeText(machine, core)[j]) {
      var t := NodeText(machine, core);
      assert t == "node" + m + "/" + c;
      if 4 <= j < 4 + |m| {
        assert t[j] == m[j - 4];
      } else if 5 + |m| <= j {
        assert t[j] == c[j - 5 - |m|];
      }
    }
  }

  /** No match can start where the text has no 'f': the search moves on. */
  lemma {:induction false} SecondsSkip(s: string, p: nat, q: nat)
    requires p <= q <= |s|
    requires forall k :: p <= k < q ==> s[k] != 'f'
    ensures SecondsFrom(s, p) == SecondsFrom(s, q)
    decreases q - p
  {
    if p < q {
      assert p + 4 > |s| || s[p..p + 4][0] == s[p];
      SecondsSkip(s, p + 1, q);
    }
  }

  /** The end of a digit run that a non-digit ends. */
  lemma {:induction false} DigitRunAt(s: string, i: nat, j: nat)
    requires i <= j <= |s|
    requires forall k :: i <= k < j ==> Strs.IsDigit(s[k])
    requires j == |s| || !Strs.IsDigit(s[j])
    ensures DigitRun(s, i) == j
    decreases j - i
  {
    if i < j {
      DigitRunAt(s, i + 1, j);
    }
  }

  /** A match at `q`: `for `, a run of digits `d`, ` seconds`. */
  lemma SecondsAt(s: string, q: nat, d: string)
    requires q + 4 + |d| <= |s| && Strs.AllDigits(d)
    requires Strs.OccursAt(s, "for ", q) && s[q + 4..q + 4 + |d|] == d && Strs.OccursAt(s, " seconds", q + 4 + |d|)
    ensures SecondsFrom(s, q) == Some(Strs.DigitsValue(d) as int)
  {
    forall k | q + 4 <= k < q + 4 + |d| ensures Strs.IsDigit(s[k]) {
      assert s[k] == d[k - q - 4];
    }
    assert s[q + 4 + |d|] == s[q + 4 + |d|..q + 4 + |d| + 8][0];
    DigitRunAt(s, q + 4, q + 4 + |d|);
  }

  /** The leftmost match is the one at `q` when no 'f' comes before it. */
  lemma SecondsFirstAt(s: string, q: nat, d: string)
    requires q + 4 + |d| <= |s| && Strs.AllDigits(d)
    requires forall k :: 0 <= k < q ==> s[k] != 'f'
    requires Strs.OccursAt(s, "for ", q) && s[q + 4..q + 4 + |d|] == d && Strs.OccursAt(s, " seconds", q + 4 + |d|)
    ensures SecondsFrom(s, 0) == Some(Strs.DigitsValue(d) as int)
  {
    SecondsSkip(s, 0, q);
    SecondsAt(s, q, d);
  }

  /** The search finds the reservation length in prun's `... for <n> seconds ...` line. */
  lemma SecondsOf(pre: string, n: nat, post: string)
    requires 'f' !in pre
    ensures SecondsFrom(pre + ("for " + (Strs.NatToString(n) + (" seconds" + post))), 0) == Some(n)
  {
    var d := Strs.NatToString(n);
    var t := "for " + (d + (" seconds" + post));
    var s := pre + t;
    var q := |pre|;
    assert s[q..] == t;
    assert t[..4] == "for " && t[4..4 + |d|] == d && t[4 + |d|..4 + |d| + 8] == " seconds";
    assert s[q..q + 4] == t[..4];
    assert s[q + 4..q + 4 + |d|] == t[4..4 + |d|];
    assert s[q + 4 + |d|..q + 4 + |d| + 8] == t[4 + |d|..4 + |d| + 8];
    SecondsFirstAt(s, q, d);
    Strs.NatToStringRoundTrip(n);
  }

  /** The first line of a text that starts with a line and a boundary is that line. */
  lemma LineEndAt(line: string, rest: string)
    requires NoLineBreak(line) && |rest| > 0 && IsLineBreak(rest[0])
    ensures LineEnd(line + rest) == |line|
    decreases |line|
  {
    if |line| > 0 {
      LineEndAt(line[1..], rest);
      assert (line + rest)[1..] == line[1..] + rest;
    }
  }

  /** `splitlines` of lines joined and each ended by '\n' gives the lines back. */
  lemma {:induction false} LinesOfText(lines: seq<string>)
    requires |lines| > 0 && forall k :: 0 <= k < |lines| ==> NoLineBreak(lines[k])
    ensures Lines(Strs.Join("\n", lines) + "\n") == lines
    decreases |lines|
  {
    var s := Strs.Join("\n", lines) + "\n";
    var rest := if |lines| == 1 then "" else Strs.Join("\n", lines[1..]) + "\n";
    assert s == lines[0] + ("\n" + rest);
    LineEndAt(lines[0], "\n" + rest);
    assert s[..|lines[0]|] == lines[0];
    assert s[|lines[0]| + 1..] == rest;
    if |lines| > 1 {
      LinesOfText(lines[1..]);
    }
  }

  /**
   * The status output prun prints for a placed job reads back: after lines
   * that neither list cores nor state a reservation, the line
   * `<pre>for <n> seconds<post>` and the line `: <cores>` give exactly the
   * reservation and the cores.
   */
  lemma StatusRoundTrip(head: seq<string>, pre: string, n: nat, post: string, nodes: seq<(nat, nat)>)
    requires forall k :: 0 <= k < |head| ==> NoLineBreak(head[k]) && !Strs.StartsWith(head[k], ":") && SecondsFrom(head[k], 0).None?
    requires 'f' !in pre && NoLineBreak(pre) && NoLineBreak(post) && (|pre| == 0 || pre[0] != ':')
    requires |nodes| > 0
    ensures var secLine := pre + ("for " + (Strs.NatToString(n) + (" seconds" + post)));
      var nodeLine := ": " + Strs.Join(" ", NodeTexts(nodes));
      ScanLines(Lines(Strs.Join("\n", head + [secLine, nodeLine]) + "\n"), [], -1) == Scanned(NodePairs(nodes), n)
  {
    var secLine := pre + ("for " + (Strs.NatToString(n) + (" seconds" + post)));
    var nodeLine := ": " + Strs.Join(" ", NodeTexts(nodes));
    var lines := head + [secLine, nodeLine];
    PlacedLines(pre, n, post, nodes);
    forall k | 0 <= k < |lines| ensures NoLineBreak(lines[k]) {
      if k >= |head| {
        assert lines[k] == secLine || lines[k] == nodeLine;
      }
    }
    LinesOfText(lines);
    ScanHead(head, [secLine, nodeLine]);
    ScanPlaced(secLine, n, nodeLine, nodes);
  }

  /** What the status loop needs to know about the reservation line and the cores line. */
  lemma PlacedLines(pre: string, n: nat, post: string, nodes: seq<(nat, nat)>)
    requires 'f' !in pre && NoLineBreak(pre) && NoLineBreak(post) && (|pre| == 0 || pre[0] != ':')
    ensures var secLine := pre + ("for " + (Strs.NatToString(n) + (" seconds" + post)));
      NoLineBreak(secLine) && |secLine| > 0 && secLine[0] != ':' && SecondsFrom(secLine, 0) == Some(n)
    ensures var nodeLine := ": " + Strs.Join(" ", NodeTexts(nodes));
      NoLineBreak(nodeLine) && |nodeLine| > 0 && nodeLine[0] == ':' && Strs.Words(nodeLine[1..]) == NodeTexts(nodes)
  {
    var secLine := pre + ("for " + (Strs.NatToString(n) + (" seconds" + post)));
    var nodeLine := ": " + Strs.Join(" ", NodeTexts(nodes));
    NodeLineChars(nodes);
    SecondsLineChars(pre, n, post);
    SecondsOf(pre, n, post);
    assert secLine[0] != ':' by {
      if |pre| == 0 {
        assert secLine[0] == 'f';
      } else {
        assert secLine[0] == pre[0];
      }
    }
    assert nodeLine[1..] == " " + Strs.Join(" ", NodeTexts(nodes));
  }

  /** The reservation line and then a cores line give the reservation and the cores. */
  lemma ScanPlaced(secLine: string, n: nat, nodeLine: string, nodes: seq<(nat, nat)>)
    requires |secLine| > 0 && secLine[0] != ':' && SecondsFrom(secLine, 0) == Some(n)
    requires |nodeLine| > 0 && nodeLine[0] == ':' && Strs.Words(nodeLine[1..]) == NodeTexts(nodes)
    ensures ScanLines([secLine, nodeLine], [], -1) == Scanned(NodePairs(nodes), n)
  {
    assert !Strs.StartsWith(secLine, ":");
    assert Strs.StartsWith(nodeLine, ":");
    assert [secLine, nodeLine][1..] == [nodeLine];
    assert ScanLines([secLine, nodeLine], [], -1) == ScanLines([nodeLine], [], n);
    NodeTokensOfTexts(nodes, []);
    assert [] + NodePairs(nodes) == NodePairs(nodes);
    var more := NodeTokens(Strs.Words(nodeLine[1..]), []);
    assert more == Some(NodePairs(nodes));
    assert [nodeLine][1..] == [];
    assert ScanLines([nodeLine], [], n) == ScanLines([], more.value, n);
  }

  /** The status loop passes over lines that neither list cores nor state a reservation. */
  lemma {:induction false} ScanHead(head: seq<string>, rest: seq<string>)
    requires forall k :: 0 <= k < |head| ==> !Strs.StartsWith(head[k], ":") && SecondsFrom(head[k], 0).None?
    ensures ScanLines(head + rest, [], -1) == ScanLines(rest, [], -1)
    decreases |head|
  {
    if |head| > 0 {
      assert (head + rest)[0] == head[0];
      assert (head + rest)[1..] == head[1..] + rest;
      ScanHead(head[1..], rest);
    } else {
      assert head + rest == rest;
    }
  }

  /** The `: <cores>` line: no line break, and its words are the cores' names. */
  lemma NodeLineChars(nodes: seq<(nat, nat)>)
    ensures NoLineBreak(": " + Strs.Join(" ", NodeTexts(nodes)))
    ensures Strs.Words(Strs.Join(" ", NodeTexts(nodes))) == NodeTexts(nodes)
  {
    var ts := NodeTexts(nodes);
    forall k | 0 <= k < |ts| ensures |ts[k]| > 0 && forall j :: 0 <= j < |ts[k]| ==> !Strs.IsSpace(ts[k][j]) {
      NodeTextWord(nodes[k].0, nodes[k].1);
    }
    Strs.WordsJoin(ts);
    JoinNoBreak(ts);
    var line := ": " + Strs.Join(" ", ts);
    assert forall j :: 2 <= j < |line| ==> line[j] == Strs.Join(" ", ts)[j - 2];
  }

  /** Words without whitespace joined by spaces hold no line break. */
  lemma {:induction false} JoinNoBreak(ws: seq<string>)
    requires forall i, j :: 0 <= i < |ws| && 0 <= j < |ws[i]| ==> !Strs.IsSpace(ws[i][j])
    ensures NoLineBreak(Strs.Join(" ", ws))
    decreases |ws|
  {
    if |ws| > 1 {
      JoinNoBreak(ws[1..]);
      var t := Strs.Join(" ", ws[1..]);
      var all := Strs.Join(" ", ws);
      assert all == ws[0] + " " + t;
      forall j | 0 <= j < |all| ensures !IsLineBreak(all[j]) {
        if j < |ws[0]| {
          assert !Strs.IsSpace(ws[0][j]);
        } else if j > |ws[0]| {
          assert all[j] == t[j - |ws[0]| - 1];
        }
      }
    } else if |ws| == 1 {
      assert forall j :: 0 <= j < |ws[0]| ==> !Strs.IsSpace(ws[0][j]);
    }
  }

  lemma SecondsLineChars(pre: string, n: nat, post: string)
    requires NoLineBreak(pre) && NoLineBreak(post)
    ensures NoLineBreak(pre + ("for " + (Strs.NatToString(n) + (" seconds" + post))))
  {
    var d := Strs.NatToString(n);
    assert forall j :: 0 <= j < |d| ==> !IsLineBreak(d[j]);
  }

  /** prun's default reservation: a job that reserves exactly this long is logged without it. */
  const DefaultJobTime := 900

  /** The cores as `'%d/%d'` pairs joined by ", ". */
  function NodeList(nodes: seq<(int, int)>): string
  {
    Strs.Join(", ", seq(|nodes|, k requires 0 <= k < |nodes| =>
      Strs.IntToString(nodes[k].0) + "/" + Strs.IntToString(nodes[k].1)))
  }

  /** The line logged once prun has placed a job: `running <job> on node[s] <cores>`, then the reservation. */
  function RunningMessage(jobid: string, nodes: seq<(int, int)>, seconds: int): (r: string)
  {
    RunningHead(jobid, nodes)
    + (if seconds == DefaultJobTime then "" else " for " + Strs.IntToString(seconds) + " seconds")
  }

  function RunningHead(jobid: string, nodes: seq<(int, int)>): string
  {
    "running " + jobid + " on " + (if |nodes| == 1 then "node" else "nodes") + " " + NodeList(nodes)
  }

  /** What the status loop leads to: nothing to report, a failed `assert numseconds > 0`, or the message. */
  function StatusReport(jobid: string, scan: Scan): (r: Result<Option<string>>)
    ensures r.Err? <==> scan.Scanned? && |scan.nodes| > 0 && scan.seconds <= 0
    ensures r.Err? ==> r.error == AssertionError
    ensures r.Ok? && r.value.Some? ==> scan.Scanned? && |scan.nodes| > 0 && scan.seconds > 0
  {
    if scan.Aborted? || |scan.nodes| == 0 then Ok(None)
    else if scan.seconds <= 0 then Err(AssertionError)
    else Ok(Some(RunningMessage(jobid, scan.nodes, scan.seconds)))
  }

  /** The duration is left out exactly for the default reservation. */
  lemma RunningMessageSuffix(jobid: string, nodes: seq<(int, int)>, seconds: int)
    ensures seconds == DefaultJobTime <==> RunningMessage(jobid, nodes, seconds) == RunningHead(jobid, nodes)
    ensures seconds != DefaultJobTime ==>
      RunningMessage(jobid, nodes, seconds) == RunningHead(jobid, nodes) + " for " + Strs.IntToString(seconds) + " seconds"
  {
    var tail := " for " + Strs.IntToString(seconds) + " seconds";
    assert |RunningHead(jobid, nodes) + tail| > |RunningHead(jobid, nodes)|;
  }

  // ---------------------------------------------------------------------
  // The queue

  /** The jobs of the queue are registered under distinct descriptors, as the keys of a dict are. */
  predicate DistinctFds(jobs: seq<Job>)
  {
    forall i, j :: 0 <= i < j < |jobs| ==> jobs[i].fd != jobs[j].fd
  }

  /** Where the job registered under `fd` sits: `self.jobs[fd]` or a `KeyError`. */
  function Find(jobs: seq<Job>, fd: int): (r: Option<nat>)
    ensures r.Some? ==> r.value < |jobs| && jobs[r.value].fd == fd
    ensures r.None? <==> fd !in Fds(jobs)
  {
    if |jobs| == 0 then None
    else if jobs[|jobs| - 1].fd == fd then Some(|jobs| - 1)
    else
      var r := Find(jobs[..|jobs| - 1], fd);
      assert fd !in Fds(jobs[..|jobs| - 1]) ==> fd !in Fds(jobs) by {
        if fd in Fds(jobs) {
          var k :| 0 <= k < |jobs| && jobs[k].fd == fd;
          assert k < |jobs| - 1 && jobs[..|jobs| - 1][k].fd == fd;
        }
      }
      r
  }

  /** The queue without its `i`-th job: `self.jobs.pop(fd)`. */
  function Remove(jobs: seq<Job>, i: nat): seq<Job>
    requires i < |jobs|
  {
    jobs[..i] + jobs[i + 1..]
  }

  /** Removing a job keeps the others in order. */
  lemma RemoveOrder(jobs: seq<Job>, i: nat)
    requires i < |jobs|
    ensures |Remove(jobs, i)| == |jobs| - 1
    ensures forall k :: 0 <= k < |jobs| - 1 ==> Remove(jobs, i)[k] == jobs[if k < i then k else k + 1]
  {
  }

  /** Removing a job gives back its nodes. */
  lemma {:induction false} RemoveLoad(jobs: seq<Job>, i: nat)
    requires i < |jobs|
    ensures Load(Remove(jobs, i)) == Load(jobs) - jobs[i].nnodes
  {
    var a, x, b := jobs[..i], jobs[i], jobs[i + 1..];
    assert jobs == (a + [x]) + b;
    LoadAppend(a + [x], b);
    assert (a + [x])[..|a + [x]| - 1] == a;
    LoadAppend(a, b);
  }

  /** Removing a job gives back its descriptor and no other, and keeps the others distinct. */
  lemma RemoveFds(jobs: seq<Job>, i: nat)
    requires i < |jobs| && DistinctFds(jobs)
    ensures Fds(Remove(jobs, i)) == Fds(jobs) - {jobs[i].fd}
    ensures DistinctFds(Remove(jobs, i))
  {
    var r := Remove(jobs, i);
    RemoveOrder(jobs, i);
    forall x | x in Fds(jobs) - {jobs[i].fd} ensures x in Fds(r) {
      var k :| 0 <= k < |jobs| && jobs[k].fd == x;
      if k < i {
        assert r[k] == jobs[k];
      } else {
        assert r[k - 1] == jobs[k];
      }
    }
    forall x | x in Fds(r) ensures x in Fds(jobs) - {jobs[i].fd} {
      var k :| 0 <= k < |r| && r[k].fd == x;
      assert r[k] == jobs[if k < i then k else k + 1];
    }
    forall a, b | 0 <= a < b < |r| ensures r[a].fd != r[b].fd {
      assert r[a] == jobs[if a < i then a else a + 1];
      assert r[b] == jobs[if b < i then b else b + 1];
    }
  }

  /** Appending a job adds its descriptor. */
  lemma FdsSnoc(jobs: seq<Job>, job: Job)
    ensures Fds(jobs + [job]) == Fds(jobs) + {job.fd}
  {
    var r := jobs + [job];
    forall x | x in Fds(r) ensures x in Fds(jobs) + {job.fd} {
      var k :| 0 <= k < |r| && r[k].fd == x;
      if k < |jobs| {
        assert r[k] == jobs[k];
      }
    }
    forall x | x in Fds(jobs) + {job.fd} ensures x in Fds(r) {
      if x == job.fd {
        assert r[|jobs|].fd == x;
      } else {
        var k :| 0 <= k < |jobs| && jobs[k].fd == x;
        assert r[k].fd == x;
      }
    }
  }

  /** Appending jobs under fresh descriptors keeps the descriptors distinct. */
  lemma AppendFresh(jobs: seq<Job>, more: seq<Job>)
    requires DistinctFds(jobs) && DistinctFds(more)
    requires forall k :: 0 <= k < |more| ==> more[k].fd !in Fds(jobs)
    ensures DistinctFds(jobs + more)
  {
    forall i, j | 0 <= i < j < |jobs + more| ensures (jobs + more)[i].fd != (jobs + more)[j].fd {
      if j >= |jobs| && i < |jobs| {
        assert (jobs + more)[j] == more[j - |jobs|];
        assert (jobs + more)[i].fd in Fds(jobs);
      }
    }
  }

  // ---------------------------------------------------------------------
  // Pool.run

  /** One of the two pools: processes on this machine, or jobs submitted to prun with its options. */
  datatype Kind = Proc | Prun(prunOpts: seq<string>)

  /** The nodes `make_jobs` waits for before it starts its first job. */
  function Needed(kind: Kind, nnodes: int): int
  {
    if kind.Proc? then 1 else nnodes
  }

  /** The number of jobs `make_jobs` creates. */
  function JobCount(kind: Kind, nnodes: int): nat
  {
    if kind.Prun? then 1 else if nnodes > 0 then nnodes else 0
  }

  /** `_wait_for_queue_space` never returns: no running job of the queue ever finishing is assumed. */
  predicate Stuck(kind: Kind, parallelmax: Option<int>, load: int, nnodes: int)
  {
    JobCount(kind, nnodes) > 0 && !HasSpace(parallelmax, load, Needed(kind, nnodes))
  }

  /** Job `i` of a call, registered under `fd`, as `make_jobs` creates it and `run` completes it. */
  function NewJob(kind: Kind, args: seq<string>, jobid: string, outfile: string, nnodes: int,
                  onsuccess: Option<Reply>, onerror: Option<Reply>, fd: int, now: int, i: int): Job
  {
    match kind
    case Proc =>
      Job(ProcessJobName(jobid, nnodes, i), 1, args, ProcessJobName(outfile, nnodes, i), fd, "",
          onsuccess, onerror, Some(now))
    case Prun(opts) =>
      Job(jobid, nnodes, PrunCommand(nnodes, outfile, opts, args), outfile, fd, "", onsuccess, onerror, None)
  }

  /** The line `make_jobs` logs for job `i`. */
  function NewJobLine(kind: Kind, jobid: string, nnodes: int, i: int): Line
  {
    if kind.Proc? then Info("running " + ProcessJobName(jobid, nnodes, i)) else Info("scheduling " + jobid)
  }

  /**
   * The job loop of `make_jobs`: before each job it waits for queue space,
   * which, as nothing else runs meanwhile, blocks at the first job or never.
   */
  method MakeJobs(kind: Kind, parallelmax: Option<int>, load: int, args: seq<string>, jobid: string, outfile: string,
                  nnodes: int, onsuccess: Option<Reply>, onerror: Option<Reply>, fds: seq<int>, now: int)
    returns (made: seq<Job>, log: seq<Line>, blocked: bool)
    requires |fds| >= JobCount(kind, nnodes)
    ensures blocked <==> Stuck(kind, parallelmax, load, nnodes)
    ensures !blocked ==>
      && |made| == |log| == JobCount(kind, nnodes)
      && (forall i :: 0 <= i < |made| ==>
          && made[i] == NewJob(kind, args, jobid, outfile, nnodes, onsuccess, onerror, fds[i], now, i)
          && made[i].fd == fds[i]
          && log[i] == NewJobLine(kind, jobid, nnodes, i))
  {
    var count := JobCount(kind, nnodes);
    made, log, blocked := [], [], false;
    for i := 0 to count
      invariant |made| == |log| == i
      invariant forall k :: 0 <= k < i ==>
        made[k] == NewJob(kind, args, jobid, outfile, nnodes, onsuccess, onerror, fds[k], now, k)
        && made[k].fd == fds[k]
        && log[k] == NewJobLine(kind, jobid, nnodes, k)
      invariant Stuck(kind, parallelmax, load, nnodes) ==> i == 0
    {
      // The jobs made so far are not in `self.jobs` yet: the wait sees the old load.
      if !HasSpace(parallelmax, load, Needed(kind, nnodes)) {
        return [], [], true;
      }
      made := made + [NewJob(kind, args, jobid, outfile, nnodes, onsuccess, onerror, fds[i], now, i)];
      log := log + [NewJobLine(kind, jobid, nnodes, i)];
    }
  }

  /** What a call of `run` came to. `Blocked`: its wait for queue space does not end while the queue stays as it is. */
  datatype Outcome = Started(jobs: seq<Job>, log: seq<Line>) | Blocked

  /**
   * `buf.decode('ascii')` succeeds: each character of `buf` stands for one
   * byte read from the pipe, and ASCII has the bytes below 128.
   */
  predicate Ascii(buf: string)
  {
    forall k :: 0 <= k < |buf| ==> buf[k] as int < 128
  }

  /** What `decode('ascii')` raises for a byte of 128 or more. */
  const AsciiDecodeError := UnicodeDecodeError("'ascii' codec can't decode byte")

  /**
   * `process_job_output(job)` once the read has been decoded to `text`: a
   * process job appends it; a prun job appends it and scans its whole
   * output for the placement.
   */
  function AppendOutput(kind: Kind, job: Job, text: string, now: int): (Job, Result<seq<Line>>)
  {
    var j := job.(output := job.output + text);
    if kind.Proc? then (j, Ok([]))
    else
      var report := StatusReport(j.jobid, ScanLines(Lines(j.output), [], -1));
      if report.Err? then (j, Err(report.error))
      else if report.value.None? then (j, Ok([]))
      else (j.(startTime := Some(now)), Ok([Info(report.value.value)]))
  }

  /**
   * `process_job_output(job)` with `buf` what the read returned: nothing
   * for an empty non-blocking read, `UnicodeDecodeError` with the job as it
   * was for a byte that is not ASCII, and otherwise the decoded text appended.
   */
  function AfterOutput(kind: Kind, job: Job, buf: Option<string>, now: int): (Job, Result<seq<Line>>)
  {
    if buf.None? then (job, Ok([]))
    else if !Ascii(buf.value) then (job, Err(AsciiDecodeError))
    else AppendOutput(kind, job, buf.value, now)
  }

  /** What the poller logs for a finished job: `onsuccess` for status 0, `onerror` otherwise. */
  function Finished(job: Job, status: int, now: int): seq<Line>
  {
    if status == 0 then OnSuccess(job, now) else OnError(job, status, now)
  }

  /**
   * What `self.poller.unregister(fd)` raises for a descriptor the poller no
   * longer watches (ENOENT from epoll).  The poller watches exactly the
   * queued descriptors: `run` registers each job it queues and the poller
   * unregisters a descriptor just before popping its job.
   */
  function UnregisterError(fd: int): Error
  {
    FileNotFoundError("[Errno 2] No such file or directory: " + Strs.IntToString(fd))
  }

  /** The queue after `self.jobs.pop(fd)` and the job popped, or nothing when `fd` is unknown. */
  function PopJob(jobs: seq<Job>, fd: int): Option<(seq<Job>, Job)>
  {
    var i := Find(jobs, fd);
    if i.None? then None else Some((Remove(jobs, i.value), jobs[i.value]))
  }

  /** The queue after `process_job_output(self.jobs[fd])`, and what it logs or raises. */
  function OutputEvent(kind: Kind, jobs: seq<Job>, fd: int, buf: Option<string>, now: int): (seq<Job>, Result<seq<Line>>)
  {
    var i := Find(jobs, fd);
    if i.None? then (jobs, Err(KeyError(Strs.IntToString(fd))))
    else
      var after := AfterOutput(kind, jobs[i.value], buf, now);
      (jobs[i.value := after.0], after.1)
  }

  /**
   * The `EPOLLERR` (`hangUp` false) or `EPOLLHUP` (`hangUp` true) branch of
   * the poller, when its flag is set (`flagged`): pop the job and log that it failed,
   * or for a hang-up log by its status.  Nothing happens after an exception.
   */
  function PopStep(st: (seq<Job>, Result<seq<Line>>), fd: int, flagged: bool, hangUp: bool, status: int, now: int)
    : (seq<Job>, Result<seq<Line>>)
  {
    if !flagged || st.1.Err? then st
    else
      var p := PopJob(st.0, fd);
      if p.None? then (st.0, Err(UnregisterError(fd)))
      else (p.value.0, Ok(st.1.value + (if hangUp then Finished(p.value.1, status, now) else OnError(p.value.1, status, now))))
  }

  /** One event of the poller thread: the queue afterwards, and what it logs or the exception that ends the thread. */
  function Event(kind: Kind, jobs: seq<Job>, fd: int, readable: bool, failed: bool, hungUp: bool,
                 buf: Option<string>, status: int, now: int): (seq<Job>, Result<seq<Line>>)
  {
    var st := if readable then OutputEvent(kind, jobs, fd, buf, now) else (jobs, Ok([]));
    PopStep(PopStep(st, fd, failed, false, status, now), fd, hungUp, true, status, now)
  }

  /**
   * An event for a descriptor the queue does not know leaves the queue as it
   * was and raises: `KeyError` from `self.jobs[fd]` when there is output to
   * read, and otherwise `FileNotFoundError` from `unregister`.
   */
  lemma EventUnknown(kind: Kind, jobs: seq<Job>, fd: int, readable: bool, failed: bool, hungUp: bool,
                     buf: Option<string>, status: int, now: int)
    requires fd !in Fds(jobs) && (readable || failed || hungUp)
    ensures Event(kind, jobs, fd, readable, failed, hungUp, buf, status, now)
            == (jobs, Err(if readable then KeyError(Strs.IntToString(fd)) else UnregisterError(fd)))
  {
  }

  /** Reading output never changes which jobs are queued, their descriptors or their nodes. */
  lemma OutputKeepsQueue(kind: Kind, jobs: seq<Job>, fd: int, buf: Option<string>, now: int)
    requires DistinctFds(jobs)
    ensures var q := OutputEvent(kind, jobs, fd, buf, now).0;
      && |q| == |jobs| && DistinctFds(q) && Fds(q) == Fds(jobs) && Load(q) == Load(jobs)
      && forall k :: 0 <= k < |q| ==> q[k].fd == jobs[k].fd && q[k].nnodes == jobs[k].nnodes
  {
    var i := Find(jobs, fd);
    if i.Some? {
      var q := OutputEvent(kind, jobs, fd, buf, now).0;
      assert forall k :: 0 <= k < |q| ==> q[k].fd == jobs[k].fd && q[k].nnodes == jobs[k].nnodes;
      SameNodes(q, jobs);
      assert Fds(q) == Fds(jobs) by {
        forall x | x in Fds(jobs) ensures x in Fds(q) {
          var k :| 0 <= k < |jobs| && jobs[k].fd == x;
          assert q[k].fd == x;
        }
      }
    }
  }

  /** Queues whose jobs occupy the same nodes, position by position, have the same load. */
  lemma {:induction false} SameNodes(a: seq<Job>, b: seq<Job>)
    requires |a| == |b| && forall k :: 0 <= k < |a| ==> a[k].nnodes == b[k].nnodes
    ensures Load(a) == Load(b)
    decreases |a|
  {
    if |a| > 0 {
      SameNodes(a[..|a| - 1], b[..|b| - 1]);
    }
  }

  /**
   * The appended output is all a read changes of the job, for processes on
   * this machine; a byte that is not ASCII raises and changes nothing.
   */
  lemma ProcessOutputAppends(jobs: seq<Job>, fd: int, buf: string, now: int)
    requires Find(jobs, fd).Some?
    ensures var i := Find(jobs, fd).value;
      Ascii(buf) ==> OutputEvent(Proc, jobs, fd, Some(buf), now) == (jobs[i := jobs[i].(output := jobs[i].output + buf)], Ok([]))
    ensures !Ascii(buf) ==> OutputEvent(Proc, jobs, fd, Some(buf), now) == (jobs, Err(AsciiDecodeError))
  {
    var i := Find(jobs, fd).value;
    assert jobs[i := jobs[i]] == jobs;
  }

  /**
   * A hang-up of a queued job, without an error condition: the job leaves
   * the queue, its nodes are free again, and unless reading its last output
   * raised, what is logged ends with `onsuccess` for status 0 and `onerror`
   * otherwise.
   */
  lemma EventHangUp(kind: Kind, jobs: seq<Job>, fd: int, readable: bool, buf: Option<string>, status: int, now: int)
    requires DistinctFds(jobs) && Find(jobs, fd).Some?
    ensures var i := Find(jobs, fd).value;
      var (q, r) := Event(kind, jobs, fd, readable, false, true, buf, status, now);
      var job := if readable then AfterOutput(kind, jobs[i], buf, now).0 else jobs[i];
      && (r.Ok? ==> q == Remove(jobs, i) && Load(q) == Load(jobs) - jobs[i].nnodes && fd !in Fds(q))
      && (r.Ok? ==> |r.value| >= |Finished(job, status, now)| && r.value[|r.value| - |Finished(job, status, now)|..] == Finished(job, status, now))
      && (!readable ==> r == Ok(Finished(jobs[i], status, now)))
  {
    var i := Find(jobs, fd).value;
    var st := if readable then OutputEvent(kind, jobs, fd, buf, now) else (jobs, Ok([]));
    OutputKeepsQueue(kind, jobs, fd, buf, now);
    if st.1.Ok? {
      assert Find(st.0, fd) == Some(i) by {
        FindUnique(st.0, fd, i);
      }
      assert Remove(st.0, i) == Remove(jobs, i);
      RemoveLoad(jobs, i);
      RemoveFds(jobs, i);
      var log := st.1.value + Finished(st.0[i], status, now);
      assert log[|st.1.value|..] == Finished(st.0[i], status, now);
    }
  }

  /** In a queue with distinct descriptors the job registered under `fd` is the only one with it. */
  lemma FindUnique(jobs: seq<Job>, fd: int, i: nat)
    requires DistinctFds(jobs) && i < |jobs| && jobs[i].fd == fd
    ensures Find(jobs, fd) == Some(i)
  {
    assert jobs[i].fd in Fds(jobs);
  }

  /**
   * An error condition together with a hang-up pops the job twice: the
   * event always raises, and once reading and the first pop have gone
   * through, it is the second `unregister` that raises `FileNotFoundError`.
   */
  lemma EventErrorAndHangUp(kind: Kind, jobs: seq<Job>, fd: int, readable: bool, buf: Option<string>, status: int, now: int)
    requires DistinctFds(jobs)
    ensures Event(kind, jobs, fd, readable, true, true, buf, status, now).1.Err?
    ensures var st := if readable then OutputEvent(kind, jobs, fd, buf, now) else (jobs, Ok([]));
      PopStep(st, fd, true, false, status, now).1.Ok? ==>
        Event(kind, jobs, fd, readable, true, true, buf, status, now).1 == Err(UnregisterError(fd))
  {
    var st := if readable then OutputEvent(kind, jobs, fd, buf, now) else (jobs, Ok([]));
    OutputKeepsQueue(kind, jobs, fd, buf, now);
    var p := PopStep(st, fd, true, false, status, now);
    if p.1.Ok? {
      var i := Find(st.0, fd).value;
      RemoveFds(st.0, i);
      assert fd !in Fds(p.0);
    }
  }

  /** Every job `run` creates on this machine occupies one node. */
  lemma {:induction false} ProcessJobsLoad(js: seq<Job>, args: seq<string>, jobid: string, outfile: string, nnodes: int,
                                           onsuccess: Option<Reply>, onerror: Option<Reply>, fds: seq<int>, now: int)
    requires |js| <= |fds|
    requires forall i :: 0 <= i < |js| ==> js[i] == NewJob(Proc, args, jobid, outfile, nnodes, onsuccess, onerror, fds[i], now, i)
    ensures Load(js) == |js|
    decreases |js|
  {
    if |js| > 0 {
      ProcessJobsLoad(js[..|js| - 1], args, jobid, outfile, nnodes, onsuccess, onerror, fds, now);
    }
  }

  /**
   * `run` admits all jobs of a call against the load from before the call, so
   * on this machine it can exceed `--parallelmax`: with a limit of 1, an
   * empty queue and two jobs, both start.
   */
  lemma EagerOverfills(js: seq<Job>, args: seq<string>, fds: seq<int>, now: int)
    requires |js| == 2 && |fds| >= 2
    requires forall i :: 0 <= i < 2 ==> js[i] == NewJob(Proc, args, "job", "out", 2, None, None, fds[i], now, i)
    ensures !Stuck(Proc, Some(1), Load([]), 2)
    ensures Load([] + js) == 2 > 1
  {
    ProcessJobsLoad(js, args, "job", "out", 2, None, None, fds, now);
    assert [] + js == js;
  }

  class Pool {
    const kind: Kind
    const parallelmax: Option<int>
    /** `self.jobs`, in the order the jobs were registered. */
    var jobs: seq<Job>

    predicate Valid()
      reads this
    {
      DistinctFds(jobs)
    }

    constructor (kind: Kind, parallelmax: Option<int>)
      ensures this.kind == kind && this.parallelmax == parallelmax && jobs == [] && Valid()
    {
      this.kind := kind;
      this.parallelmax := parallelmax;
      jobs := [];
    }

    /**
     * `run`: split a string command, create every job of the call and then
     * register them all.  Each new descriptor comes from `fds`, which stands
     * for the pipes the operating system opens: distinct and not in use.
     */
    method Run(cmd: Command, jobid: string, outfile: string, nnodes: int,
               onsuccess: Option<Reply>, onerror: Option<Reply>, fds: seq<int>, now: int)
      returns (r: Result<Outcome>)
      modifies this
      requires Valid()
      requires |fds| >= JobCount(kind, nnodes)
      requires forall i, j :: 0 <= i < j < |fds| ==> fds[i] != fds[j]
      requires forall i :: 0 <= i < |fds| ==> fds[i] !in Fds(jobs)
      ensures Valid()
      ensures Args(cmd).Err? ==> r == Err(Args(cmd).error) && jobs == old(jobs)
      ensures Args(cmd).Ok? && Stuck(kind, parallelmax, Load(old(jobs)), nnodes) ==> r == Ok(Blocked) && jobs == old(jobs)
      ensures Args(cmd).Ok? && !Stuck(kind, parallelmax, Load(old(jobs)), nnodes) ==>
        && r.Ok? && r.value.Started?
        && |r.value.jobs| == |r.value.log| == JobCount(kind, nnodes)
        && (forall i :: 0 <= i < |r.value.jobs| ==>
            && r.value.jobs[i] == NewJob(kind, Args(cmd).value, jobid, outfile, nnodes, onsuccess, onerror, fds[i], now, i)
            && r.value.log[i] == NewJobLine(kind, jobid, nnodes, i))
        && jobs == old(jobs) + r.value.jobs
    {
      var args := Args(cmd);
      if args.Err? {
        return Err(args.error);
      }
      var made, log, blocked := MakeJobs(kind, parallelmax, Load(jobs), args.value, jobid, outfile, nnodes, onsuccess, onerror, fds, now);
      if blocked {
        return Ok(Blocked);
      }
      AppendFresh(jobs, made);
      jobs := jobs + made;
      return Ok(Started(made, log));
    }
      /** `process_job_output(self.jobs[fd])`. */
    method ProcessJobOutput(fd: int, buf: Option<string>, now: int) returns (r: Result<seq<Line>>)
      modifies this
      requires Valid()
      ensures Valid()
      ensures Find(old(jobs), fd).None? ==> r == Err(KeyError(Strs.IntToString(fd))) && jobs == old(jobs)
      ensures Find(old(jobs), fd).Some? ==>
        var i := Find(old(jobs), fd).value;
        var after := AfterOutput(kind, old(jobs)[i], buf, now);
        jobs == old(jobs)[i := after.0] && r == after.1
    {
      var found := Find(jobs, fd);
      if found.None? {
        return Err(KeyError(Strs.IntToString(fd)));
      }
      var i := found.value;
      var job := jobs[i];
      if buf.None? {
        return Ok([]);
      }
      if !Ascii(buf.value) {
        return Err(AsciiDecodeError);
      }
      job := job.(output := job.output + buf.value);
      r := Ok([]);
      if kind.Prun? {
        var scan := ScanStatus(job.output);
        var report := StatusReport(job.jobid, scan);
        if report.Err? {
          r := Err(report.error);
        } else if report.value.Some? {
          job := job.(startTime := Some(now));
          r := Ok([Info(report.value.value)]);
        }
      }
      jobs := jobs[i := job];
      assert forall k :: 0 <= k < |jobs| ==> jobs[k].fd == old(jobs)[k].fd;
    }

    /** `self.jobs.pop(fd)`: the job, or nothing when no job is registered under `fd`. */
    method Pop(fd: int) returns (r: Option<Job>)
      modifies this
      requires Valid()
      ensures Valid()
      ensures Find(old(jobs), fd).None? ==> r.None? && jobs == old(jobs)
      ensures Find(old(jobs), fd).Some? ==>
        var i := Find(old(jobs), fd).value;
        r == Some(old(jobs)[i]) && jobs == Remove(old(jobs), i)
    {
      var found := Find(jobs, fd);
      if found.None? {
        return None;
      }
      r := Some(jobs[found.value]);
      RemoveFds(jobs, found.value);
      jobs := Remove(jobs, found.value);
    }

    /**
     * One event of the poller thread for descriptor `fd`: new output
     * (`readable`), an error condition (`failed`) and the other end having
     * closed (`hungUp`), handled in that order; `status` is what `job.poll()`
     * returns.  An error is the exception that ends the poller thread.
     */
    method HandleEvent(fd: int, readable: bool, failed: bool, hungUp: bool, buf: Option<string>,
                       status: int, now: int) returns (r: Result<seq<Line>>)
      modifies this
      requires Valid()
      ensures Valid()
      ensures r == Event(kind, old(jobs), fd, readable, failed, hungUp, buf, status, now).1
      ensures jobs == Event(kind, old(jobs), fd, readable, failed, hungUp, buf, status, now).0
    {
      ghost var st: (seq<Job>, Result<seq<Line>>) := (jobs, Ok([]));
      var log: seq<Line> := [];
      if readable {
        var out := ProcessJobOutput(fd, buf, now);
        st := OutputEvent(kind, old(jobs), fd, buf, now);
        if out.Err? {
          return Err(out.error);
        }
        log := out.value;
      }
      assert st.1 == Ok(log) && st.0 == jobs;
      if failed {
        ghost var before := st;
        var job := Pop(fd);
        st := PopStep(before, fd, true, false, status, now);
        if job.None? {
          return Err(UnregisterError(fd));
        }
        log := log + OnError(job.value, status, now);
      }
      assert st == PopStep(if readable then OutputEvent(kind, old(jobs), fd, buf, now) else (old(jobs), Ok([])),
                           fd, failed, false, status, now);
      assert st.1 == Ok(log) && st.0 == jobs;
      if hungUp {
        ghost var before := st;
        var job := Pop(fd);
        st := PopStep(before, fd, true, true, status, now);
        if job.None? {
          return Err(UnregisterError(fd));
        }
        log := log + Finished(job.value, status, now);
      }
      return Ok(log);
    }
  }
}
