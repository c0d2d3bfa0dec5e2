/**
 * The router probe: `ping_count` sequential ping attempts against the router,
 * aggregated into one router record. The probe mechanics (a `ping` subprocess
 * or the ping3 library) are inputs: one outcome per attempt.
 */
module RouterCheck {

  import opened Optional
  import opened PyText
  import opened Records

  /** The marker the system `ping` prints in front of a round-trip time. */
  const TimeMarker: string := "time="
  /** The error message when no attempt got a reply ("all ping requests failed"). */
  const AllPingsFailed: string := "모든 ping 요청이 실패했습니다"
  /** The prefix of the outer handler's message ("router check error: "). */
  const RouterErrorPrefix: string := "공유기 체크 오류: "
  /** `str(e)` of the ZeroDivisionError that `x / 0` raises on Python ints. */
  const ZeroDivisionText: string := "division by zero"

  /** What one ping attempt amounts to: a reply in ms, no reply, or a caught exception. */
  datatype Attempt = Reply(ms: real) | NoReply | Failed

  /** One `subprocess.run(["ping", "-c", "1", ...])`: it exited, or it raised (e.g. its timeout expired). */
  datatype PingRun = Exited(returnCode: int, stdout: string) | RunRaised

  /**
   * One `ping3.ping(...)` call: a delay in seconds, `None` on timeout, `False`
   * (ping3's error value), or an exception.
   */
  datatype Ping3Reply = Delay(seconds: real) | NoneReturned | FalseReturned | PingRaised

  /**
   * The transport in use, chosen by the platform test, with the outcome of
   * every attempt. `parseFloat` is Python's `float(str)`, `None` where it raises.
   */
  datatype Transport =
    | SystemPing(runs: seq<PingRun>, parseFloat: string -> Option<real>)
    | Ping3(replies: seq<Ping3Reply>)
  {
    /** The number of attempt outcomes the transport supplies. */
    function Supplied(): nat {
      match this
      case SystemPing(runs, _) => |runs|
      case Ping3(replies) => |replies|
    }
  }

  /** `len(range(ping_count))`: the number of attempts the loops make. */
  function AttemptCount(pingCount: int): (n: nat)
    ensures n == 0 <==> pingCount <= 0
    ensures n > 0 ==> n == pingCount
  {
    if pingCount > 0 then pingCount else 0
  }

  // ---------------------------------------------------------------------------
  // Parsing the system ping's stdout

  /** The index of the first line containing the time marker, if any. */
  function FirstMarkedLine(lines: seq<string>): (k: Option<nat>)
    ensures k.None? <==> forall i :: 0 <= i < |lines| ==> !Contains(lines[i], TimeMarker)
    ensures k.Some? ==> k.value < |lines| && Contains(lines[k.value], TimeMarker)
    ensures k.Some? ==> forall i :: 0 <= i < k.value ==> !Contains(lines[i], TimeMarker)
  {
    if |lines| == 0 then None
    else if Contains(lines[0], TimeMarker) then Some(0)
    else match FirstMarkedLine(lines[1..])
      case None => None
      case Some(k) => Some(k + 1)
  }

  /**
   * One line holding the marker: its first token after `time=` parsed as ms;
   * a missing token (IndexError) or an unparsable one (ValueError) is `Failed`.
   */
  function MarkedLineAttempt(line: string, parseFloat: string -> Option<real>): (a: Attempt)
    requires Contains(line, TimeMarker)
    ensures a.Reply? <==>
      (var tok := FirstToken(SecondField(line, TimeMarker).value);
       tok.Some? && parseFloat(tok.value).Some?)
    ensures a.Reply? ==> Some(a.ms) == parseFloat(FirstToken(SecondField(line, TimeMarker).value).value)
    ensures !a.NoReply?
  {
    match FirstToken(SecondField(line, TimeMarker).value)
    case None => Failed
    case Some(tok) =>
      match parseFloat(tok)
      case None => Failed
      case Some(ms) => Reply(ms)
  }

  /**
   * The attempt a list of output lines reports: no reply exactly when no line
   * holds the marker; otherwise the first line holding it decides.
   */
  function LinesAttempt(lines: seq<string>, parseFloat: string -> Option<real>): (a: Attempt)
    ensures a.NoReply? <==> forall i :: 0 <= i < |lines| ==> !Contains(lines[i], TimeMarker)
    ensures !a.NoReply? ==>
      FirstMarkedLine(lines).Some? && a == MarkedLineAttempt(lines[FirstMarkedLine(lines).value], parseFloat)
  {
    match FirstMarkedLine(lines)
    case None => NoReply
    case Some(k) => MarkedLineAttempt(lines[k], parseFloat)
  }

  /** Only the first `time=` line is read: whatever follows it makes no difference. */
  lemma FirstMarkedLineDecides(lines: seq<string>, later: seq<string>, parseFloat: string -> Option<real>)
    requires FirstMarkedLine(lines).Some?
    ensures FirstMarkedLine(lines + later) == FirstMarkedLine(lines)
    ensures LinesAttempt(lines + later, parseFloat) == LinesAttempt(lines, parseFloat)
  {
    FirstMarkedLineExtended(lines, later);
    var k := FirstMarkedLine(lines).value;
    assert (lines + later)[k] == lines[k];
  }

  /** Appending lines after a marked one leaves the first marked line where it is. */
  lemma {:induction false} FirstMarkedLineExtended(lines: seq<string>, later: seq<string>)
    requires FirstMarkedLine(lines).Some?
    ensures FirstMarkedLine(lines + later) == FirstMarkedLine(lines)
  {
    var all := lines + later;
    assert all[0] == lines[0];
    if !Contains(lines[0], TimeMarker) {
      assert all[1..] == lines[1..] + later;
      FirstMarkedLineExtended(lines[1..], later);
    }
  }

  /** Lines without the marker are passed over: the verdict is that of the lines after them. */
  lemma {:induction false} UnmarkedLinesSkipped(skipped: seq<string>, lines: seq<string>, parseFloat: string -> Option<real>)
    requires forall i :: 0 <= i < |skipped| ==> !Contains(skipped[i], TimeMarker)
    ensures FirstMarkedLine(skipped + lines) ==
      (if FirstMarkedLine(lines).None? then None else Some(|skipped| + FirstMarkedLine(lines).value))
    ensures LinesAttempt(skipped + lines, parseFloat) == LinesAttempt(lines, parseFloat)
  {
    var all := skipped + lines;
    if |skipped| == 0 {
      assert all == lines;
    } else {
      assert all[0] == skipped[0];
      assert all[1..] == skipped[1..] + lines;
      UnmarkedLinesSkipped(skipped[1..], lines, parseFloat);
      if FirstMarkedLine(lines).Some? {
        assert all[|skipped| + FirstMarkedLine(lines).value] == lines[FirstMarkedLine(lines).value];
      }
    }
  }

  /**
   * The attempt reported by the stdout of a `ping` that exited with status 0:
   * a lost attempt that raised nothing exactly when `time=` occurs nowhere in it.
   */
  function OutputAttempt(stdout: string, parseFloat: string -> Option<real>): (a: Attempt)
    ensures a.NoReply? <==> !Contains(stdout, TimeMarker)
  {
    var lines := Split(stdout, '\n');
    assert '\n' !in TimeMarker;
    ContainsJoin(lines, '\n', TimeMarker);
    LinesAttempt(lines, parseFloat)
  }

  /**
   * The attempt one system-ping run amounts to: a run that raised is a
   * caught failure, a non-zero exit status a lost attempt, and exit status 0
   * leaves the verdict to the output.
   */
  function SystemPingAttempt(run: PingRun, parseFloat: string -> Option<real>): (a: Attempt)
    ensures run.RunRaised? ==> a == Failed
    ensures run.Exited? && run.returnCode != 0 ==> a == NoReply
    ensures run.Exited? && run.returnCode == 0 ==> a == OutputAttempt(run.stdout, parseFloat)
  {
    match run
    case RunRaised => Failed
    case Exited(code, stdout) => if code == 0 then OutputAttempt(stdout, parseFloat) else NoReply
  }

  /**
   * The attempt one ping3 call amounts to: every value other than `None`
   * passes the `is not None` test and counts as a reply, seconds scaled to ms.
   */
  function Ping3Attempt(reply: Ping3Reply): (a: Attempt)
    ensures a.Reply? <==> !(reply.NoneReturned? || reply.PingRaised?)
    ensures reply.Delay? ==> a == Reply(reply.seconds * 1000.0)
    ensures reply.FalseReturned? ==> a == Reply(0.0)
  {
    match reply
    case Delay(t) => Reply(t * 1000.0)
    case FalseReturned => Reply(0.0)
    case NoneReturned => NoReply
    case PingRaised => Failed
  }

  /** The attempts a sequence of system-ping runs amounts to, in order. */
  function SystemPingAttempts(runs: seq<PingRun>, parseFloat: string -> Option<real>): (attempts: seq<Attempt>)
    ensures |attempts| == |runs|
  {
    if |runs| == 0 then []
    else SystemPingAttempts(runs[..|runs| - 1], parseFloat) + [SystemPingAttempt(runs[|runs| - 1], parseFloat)]
  }

  /** The attempts a sequence of ping3 calls amounts to, in order. */
  function Ping3Attempts(replies: seq<Ping3Reply>): (attempts: seq<Attempt>)
    ensures |attempts| == |replies|
  {
    if |replies| == 0 then []
    else Ping3Attempts(replies[..|replies| - 1]) + [Ping3Attempt(replies[|replies| - 1])]
  }

  /**
   * Every run is an attempt of its own: the i-th attempt is decided by the
   * i-th run alone, so a lost or failed attempt never stops or alters the others.
   */
  lemma {:induction false} SystemPingAttemptsAt(runs: seq<PingRun>, parseFloat: string -> Option<real>, i: nat)
    requires i < |runs|
    ensures SystemPingAttempts(runs, parseFloat)[i] == SystemPingAttempt(runs[i], parseFloat)
  {
    if i < |runs| - 1 {
      SystemPingAttemptsAt(runs[..|runs| - 1], parseFloat, i);
    }
  }

  /** The i-th ping3 attempt is decided by the i-th call alone. */
  lemma {:induction false} Ping3AttemptsAt(replies: seq<Ping3Reply>, i: nat)
    requires i < |replies|
    ensures Ping3Attempts(replies)[i] == Ping3Attempt(replies[i])
  {
    if i < |replies| - 1 {
      Ping3AttemptsAt(replies[..|replies| - 1], i);
    }
  }

  /** The attempts of one more system-ping run extend those of the runs before it. */
  lemma SystemPingAttemptsPrefix(runs: seq<PingRun>, parseFloat: string -> Option<real>, i: nat)
    requires i < |runs|
    ensures SystemPingAttempts(runs[..i + 1], parseFloat) ==
      SystemPingAttempts(runs[..i], parseFloat) + [SystemPingAttempt(runs[i], parseFloat)]
  {
    assert runs[..i + 1][..i] == runs[..i];
  }

  /** The attempts of one more ping3 call extend those of the calls before it. */
  lemma Ping3AttemptsPrefix(replies: seq<Ping3Reply>, i: nat)
    requires i < |replies|
    ensures Ping3Attempts(replies[..i + 1]) == Ping3Attempts(replies[..i]) + [Ping3Attempt(replies[i])]
  {
    assert replies[..i + 1][..i] == replies[..i];
  }

  /** The attempts a transport's outcomes amount to, in order. */
  function Attempts(t: Transport): (attempts: seq<Attempt>)
    ensures |attempts| == t.Supplied()
  {
    match t
    case SystemPing(runs, parseFloat) => SystemPingAttempts(runs, parseFloat)
    case Ping3(replies) => Ping3Attempts(replies)
  }

  // ---------------------------------------------------------------------------
  // Aggregation

  /** The round-trip times of the attempts that got a reply, in attempt order. */
  function ReplyTimes(attempts: seq<Attempt>): (times: seq<real>)
    ensures |times| <= |attempts|
  {
    if |attempts| == 0 then []
    else (if attempts[0].Reply? then [attempts[0].ms] else []) + ReplyTimes(attempts[1..])
  }

  /** There are no reply times exactly when no attempt got a reply. */
  lemma {:induction false} NoReplyTimes(attempts: seq<Attempt>)
    ensures |ReplyTimes(attempts)| == 0 <==> forall i :: 0 <= i < |attempts| ==> !attempts[i].Reply?
  {
    if |attempts| > 0 {
      NoReplyTimes(attempts[1..]);
      assert forall i :: 1 <= i < |attempts| ==> attempts[i] == attempts[1..][i - 1];
    }
  }

  /** Every recorded time is the time of some attempt's reply. */
  lemma {:induction false} ReplyTimesFromReplies(attempts: seq<Attempt>, k: nat)
    requires k < |ReplyTimes(attempts)|
    ensures exists i :: 0 <= i < |attempts| && attempts[i] == Reply(ReplyTimes(attempts)[k])
  {
    var head := if attempts[0].Reply? then [attempts[0].ms] else [];
    if k < |head| {
      assert attempts[0] == Reply(ReplyTimes(attempts)[k]);
    } else {
      ReplyTimesFromReplies(attempts[1..], k - |head|);
      var i :| 0 <= i < |attempts[1..]| && attempts[1..][i] == Reply(ReplyTimes(attempts[1..])[k - |head|]);
      assert attempts[i + 1] == Reply(ReplyTimes(attempts)[k]);
    }
  }

  /** The number of attempts that got no reply, for whatever reason. */
  function Lost(attempts: seq<Attempt>): nat {
    if |attempts| == 0 then 0
    else (if attempts[0].Reply? then 0 else 1) + Lost(attempts[1..])
  }

  function Sum(xs: seq<real>): real {
    if |xs| == 0 then 0.0 else xs[0] + Sum(xs[1..])
  }

  function Mean(xs: seq<real>): real
    requires |xs| > 0
  {
    Sum(xs) / (|xs| as real)
  }

  /** Every attempt is either a success or a loss. */
  lemma {:induction false} LostComplementsReplies(attempts: seq<Attempt>)
    ensures Lost(attempts) + |ReplyTimes(attempts)| == |attempts|
  {
    if |attempts| > 0 {
      LostComplementsReplies(attempts[1..]);
    }
  }

  lemma {:induction false} SumAppend(xs: seq<real>, y: real)
    ensures Sum(xs + [y]) == Sum(xs) + y
  {
    if |xs| == 0 {
      assert xs + [y] == [y];
    } else {
      assert (xs + [y])[1..] == xs[1..] + [y];
      SumAppend(xs[1..], y);
    }
  }

  lemma {:induction false} ReplyTimesAppend(attempts: seq<Attempt>, x: Attempt)
    ensures ReplyTimes(attempts + [x]) == ReplyTimes(attempts) + (if x.Reply? then [x.ms] else [])
  {
    var tail := if x.Reply? then [x.ms] else [];
    if |attempts| == 0 {
      assert attempts + [x] == [x];
      assert ReplyTimes([x]) == tail + ReplyTimes([]);
    } else {
      var ys := attempts + [x];
      var head := if attempts[0].Reply? then [attempts[0].ms] else [];
      assert ys[0] == attempts[0] && ys[1..] == attempts[1..] + [x];
      ReplyTimesAppend(attempts[1..], x);
      calc {
        ReplyTimes(ys);
        head + ReplyTimes(attempts[1..] + [x]);
        head + (ReplyTimes(attempts[1..]) + tail);
        (head + ReplyTimes(attempts[1..])) + tail;
        ReplyTimes(attempts) + tail;
      }
    }
  }

  /**
   * One more attempt either adds one success and its time to the running
   * total, or leaves both counters as they were.
   */
  lemma CountersStep(attempts: seq<Attempt>, x: Attempt)
    ensures x.Reply? ==>
      && |ReplyTimes(attempts + [x])| == |ReplyTimes(attempts)| + 1
      && Sum(ReplyTimes(attempts + [x])) == Sum(ReplyTimes(attempts)) + x.ms
    ensures !x.Reply? ==>
      && |ReplyTimes(attempts + [x])| == |ReplyTimes(attempts)|
      && Sum(ReplyTimes(attempts + [x])) == Sum(ReplyTimes(attempts))
  {
    ReplyTimesAppend(attempts, x);
    if !x.Reply? {
      assert ReplyTimes(attempts) + [] == ReplyTimes(attempts);
    } else {
      SumAppend(ReplyTimes(attempts), x.ms);
    }
  }

  lemma {:induction false} SumBounds(xs: seq<real>, lo: real, hi: real)
    requires forall i :: 0 <= i < |xs| ==> lo <= xs[i] <= hi
    ensures (|xs| as real) * lo <= Sum(xs) <= (|xs| as real) * hi
  {
    if |xs| > 0 {
      SumBounds(xs[1..], lo, hi);
    }
  }

  /** The mean lies between the smallest and the largest reply time. */
  lemma MeanBounds(xs: seq<real>, lo: real, hi: real)
    requires |xs| > 0
    requires forall i :: 0 <= i < |xs| ==> lo <= xs[i] <= hi
    ensures lo <= Mean(xs) <= hi
  {
    SumBounds(xs, lo, hi);
    var n := |xs| as real;
    assert Mean(xs) * n == Sum(xs);
  }

  // ---------------------------------------------------------------------------
  // The records

  /** The outer handler's record: whatever `check_router` raised, reported as unreachable. */
  function RouterErrorRecord(routerIp: string, timestamp: Instant, reason: string): (r: CheckResult)
    ensures WellFormed(r) && !r.reachable
    ensures r.checkType == Router && r.target == routerIp && r.timestamp == timestamp
    ensures r.packetLoss == Some(1.0) && r.errorMessage == Some(RouterErrorPrefix + reason)
  {
    CheckResult(timestamp, Router, routerIp, false, None, Some(1.0), None, None,
                Some(RouterErrorPrefix + reason))
  }

  /**
   * The record `check_router` returns for the given attempts. With
   * `ping_count == 0` the loss division raises and the outer handler answers.
   */
  function RouterRecord(routerIp: string, pingCount: int, attempts: seq<Attempt>, timestamp: Instant): (r: CheckResult)
    requires |attempts| == AttemptCount(pingCount)
    ensures WellFormed(r)
    ensures r.checkType == Router && r.target == routerIp && r.timestamp == timestamp
    ensures r.reachable <==> pingCount != 0 && exists i :: 0 <= i < |attempts| && attempts[i].Reply?
    ensures r.packetLoss == Some(1.0) <==> forall i :: 0 <= i < |attempts| ==> !attempts[i].Reply?
    ensures pingCount > 0 ==> r.packetLoss == Some((Lost(attempts) as real) / (pingCount as real))
    ensures r.reachable ==>
      |ReplyTimes(attempts)| > 0 && r.latencyMs == Some(Mean(ReplyTimes(attempts))) && r.errorMessage.None?
    ensures !r.reachable ==>
      r.errorMessage == Some(if pingCount == 0 then RouterErrorPrefix + ZeroDivisionText else AllPingsFailed)
  {
    if pingCount == 0 then
      RouterErrorRecord(routerIp, timestamp, ZeroDivisionText)
    else
      LostComplementsReplies(attempts);
      NoReplyTimes(attempts);
      LossFraction(pingCount, |ReplyTimes(attempts)|);
      CountersRecord(routerIp, pingCount, |ReplyTimes(attempts)|, Sum(ReplyTimes(attempts)), timestamp)
  }

  /**
   * The record built from the two counters once every attempt has run
   * (`ping_count` non-zero): reachable exactly when something succeeded, the
   * lost fraction as loss, the mean as latency, and well formed whenever the
   * successes do not outnumber the attempts.
   */
  function CountersRecord(routerIp: string, pingCount: int, successes: nat, total: real, timestamp: Instant): (r: CheckResult)
    requires pingCount != 0
    ensures r.timestamp == timestamp && r.checkType == Router && r.target == routerIp
    ensures r.reachable <==> successes > 0
    ensures r.packetLoss == Some(((pingCount - successes) as real) / (pingCount as real))
    ensures r.reachable ==> r.latencyMs == Some(total / (successes as real)) && r.errorMessage.None?
    ensures !r.reachable ==> r.latencyMs.None? && r.errorMessage == Some(AllPingsFailed)
    ensures successes <= AttemptCount(pingCount) ==> WellFormed(r)
  {
    var packetLoss := ((pingCount - successes) as real) / (pingCount as real);
    var reachable := successes > 0;
    var latency := if reachable then Some(total / (successes as real)) else None;
    var error := if reachable then None else Some(AllPingsFailed);
    var r := CheckResult(timestamp, Router, routerIp, reachable, latency, Some(packetLoss), None, None, error);
    if successes <= AttemptCount(pingCount) then
      LossFraction(pingCount, successes);
      r
    else
      r
  }

  /** With every reply time in [lo, hi], the reported mean latency is in [lo, hi] too. */
  lemma RouterLatencyBounds(routerIp: string, pingCount: int, attempts: seq<Attempt>, timestamp: Instant, lo: real, hi: real)
    requires |attempts| == AttemptCount(pingCount)
    requires forall i :: 0 <= i < |attempts| && attempts[i].Reply? ==> lo <= attempts[i].ms <= hi
    ensures var r := RouterRecord(routerIp, pingCount, attempts, timestamp);
      r.reachable ==> r.latencyMs.Some? && lo <= r.latencyMs.value <= hi
  {
    var r := RouterRecord(routerIp, pingCount, attempts, timestamp);
    if r.reachable {
      var times := ReplyTimes(attempts);
      forall k | 0 <= k < |times| ensures lo <= times[k] <= hi {
        ReplyTimesFromReplies(attempts, k);
      }
      MeanBounds(times, lo, hi);
    }
  }

  /** When every one of N >= 1 attempts is lost: unreachable, no latency, loss 1.0 and the failure message. */
  lemma AllAttemptsLost(routerIp: string, pingCount: int, attempts: seq<Attempt>, timestamp: Instant)
    requires pingCount >= 1 && |attempts| == pingCount
    requires forall i :: 0 <= i < |attempts| ==> !attempts[i].Reply?
    ensures var r := RouterRecord(routerIp, pingCount, attempts, timestamp);
      && !r.reachable && r.latencyMs.None? && r.packetLoss == Some(1.0)
      && r.errorMessage == Some(AllPingsFailed)
  {
  }

  /**
   * The lost fraction of `n` attempts with `k` successes lies in [0, 1] and
   * is 1 exactly when nothing succeeded (for negative `n` nothing ran).
   */
  lemma LossFraction(n: int, k: nat)
    requires n != 0 && k <= AttemptCount(n)
    ensures 0.0 <= ((n - k) as real) / (n as real) <= 1.0
    ensures ((n - k) as real) / (n as real) == 1.0 <==> k == 0
  {
    var f := ((n - k) as real) / (n as real);
    assert f * (n as real) == (n - k) as real;
    if n < 0 {
      assert k == 0;
    }
  }

  // ---------------------------------------------------------------------------
  // The probe

  /**
   * The inner loop over the stdout lines of a `ping` that exited with
   * status 0: the first line holding `time=` is parsed, and the loop stops there.
   */
  method ReadPingOutput(stdout: string, parseFloat: string -> Option<real>) returns (a: Attempt)
    ensures a == OutputAttempt(stdout, parseFloat)
  {
    var lines := Split(stdout, '\n');
    a := ScanLines(lines, parseFloat);
  }

  /** The loop body of `ReadPingOutput` over the split lines, stopping at the first marked one. */
  method ScanLines(lines: seq<string>, parseFloat: string -> Option<real>) returns (a: Attempt)
    ensures a == LinesAttempt(lines, parseFloat)
  {
    ghost var first := FirstMarkedLine(lines);
    a := NoReply;
    var j := 0;
    while j < |lines|
      invariant 0 <= j <= |lines|
      invariant first.Some? ==> j <= first.value
      invariant a == NoReply
    {
      if Contains(lines[j], TimeMarker) {
        var timePart := FirstToken(SecondField(lines[j], TimeMarker).value);
        if timePart.None? {
          a := Failed;  // IndexError, caught by the per-attempt handler
        } else {
          var responseTime := parseFloat(timePart.value);
          a := if responseTime.None? then Failed else Reply(responseTime.value);
        }
        assert first == Some(j);
        assert a == MarkedLineAttempt(lines[j], parseFloat) == LinesAttempt(lines, parseFloat);
        break;
      }
      j := j + 1;
    }
    assert a == LinesAttempt(lines, parseFloat);
  }

  /**
   * One attempt's `try` block on the system-ping path: a raised run is
   * caught, a non-zero exit status is lost, and exit status 0 reads the output.
   */
  method PingOnce(run: PingRun, parseFloat: string -> Option<real>) returns (outcome: Attempt)
    ensures outcome == SystemPingAttempt(run, parseFloat)
  {
    outcome := Failed;  // an exception from subprocess.run, caught
    match run {
      case RunRaised =>
      case Exited(code, stdout) =>
        if code == 0 {
          outcome := ReadPingOutput(stdout, parseFloat);
        } else {
          outcome := NoReply;
        }
    }
  }

  /**
   * The attempt loop on the system-ping path: every run is tried, a reply
   * adds one to the count and its time to the total, anything else (a
   * non-zero exit, no `time=` line, a caught exception) changes neither.
   */
  method RunSystemPings(runs: seq<PingRun>, parseFloat: string -> Option<real>)
    returns (successfulPings: nat, totalLatency: real)
    ensures successfulPings == |ReplyTimes(SystemPingAttempts(runs, parseFloat))|
    ensures totalLatency == Sum(ReplyTimes(SystemPingAttempts(runs, parseFloat)))
  {
    successfulPings, totalLatency := 0, 0.0;
    ghost var done: seq<Attempt> := [];
    for i := 0 to |runs|
      invariant done == SystemPingAttempts(runs[..i], parseFloat)
      invariant successfulPings == |ReplyTimes(done)|
      invariant totalLatency == Sum(ReplyTimes(done))
    {
      var outcome := PingOnce(runs[i], parseFloat);
      CountersStep(done, outcome);
      if outcome.Reply? {
        successfulPings := successfulPings + 1;
        totalLatency := totalLatency + outcome.ms;
      }
      SystemPingAttemptsPrefix(runs, parseFloat, i);
      done := done + [outcome];
    }
    assert runs[..|runs|] == runs;
  }

  /**
   * The attempt loop on the ping3 path: a delay of t seconds adds one to the
   * count and t * 1000 ms to the total; `None` or a caught exception changes neither.
   */
  method RunPing3(replies: seq<Ping3Reply>) returns (successfulPings: nat, totalLatency: real)
    ensures successfulPings == |ReplyTimes(Ping3Attempts(replies))|
    ensures totalLatency == Sum(ReplyTimes(Ping3Attempts(replies)))
  {
    successfulPings, totalLatency := 0, 0.0;
    ghost var done: seq<Attempt> := [];
    for i := 0 to |replies|
      invariant done == Ping3Attempts(replies[..i])
      invariant successfulPings == |ReplyTimes(done)|
      invariant totalLatency == Sum(ReplyTimes(done))
    {
      CountersStep(done, Ping3Attempt(replies[i]));
      match replies[i] {
        case Delay(responseTime) =>
          successfulPings := successfulPings + 1;
          totalLatency := totalLatency + responseTime * 1000.0;
        case FalseReturned =>
          successfulPings := successfulPings + 1;  // False * 1000 == 0
        case NoneReturned =>
        case PingRaised =>
      }
      Ping3AttemptsPrefix(replies, i);
      done := done + [Ping3Attempt(replies[i])];
    }
    assert replies[..|replies|] == replies;
  }

  /**
   * `check_router`: run the attempts on the chosen transport, then derive the
   * loss, reachability, mean latency and error message and build the record.
   */
  method CheckRouter(routerIp: string, pingCount: int, transport: Transport, timestamp: Instant)
    returns (r: CheckResult)
    requires transport.Supplied() == AttemptCount(pingCount)
    ensures r == RouterRecord(routerIp, pingCount, Attempts(transport), timestamp)
  {
    var successfulPings: nat, totalLatency: real;
    match transport {
      case SystemPing(runs, parseFloat) =>
        successfulPings, totalLatency := RunSystemPings(runs, parseFloat);
      case Ping3(replies) =>
        successfulPings, totalLatency := RunPing3(replies);
    }
    ghost var times := ReplyTimes(Attempts(transport));
    assert successfulPings == |times| && totalLatency == Sum(times);
    if pingCount == 0 {
      r := RouterErrorRecord(routerIp, timestamp, ZeroDivisionText);
      return;
    }
    r := CountersRecord(routerIp, pingCount, successfulPings, totalLatency, timestamp);
  }
}
