# Wi-Fi monitor result normalisation, in Dafny

The Wi-Fi monitor probes the local router with ping and measures internet
throughput with speedtest, once per scheduled cycle. It stores every
observation as one fixed-shape record. This project models the two probes'
result-normalisation logic: how raw probe outcomes become that record.

- **Router probe** (`check_router`). It makes `ping_count` sequential ping
  attempts. It uses one of two transports: the system `ping` utility, whose
  stdout is parsed for `time=<ms>`, or the ping3 library, which returns
  seconds. It counts the successes and sums their round-trip times. From
  these it derives the packet loss, reachability, mean latency and error
  message. A per-attempt failure never stops the remaining attempts. An
  exception escaping the whole computation is turned into an error record.
  Model: `router_check.dfy`. It is imperative: `CheckRouter`, its two
  attempt loops (`RunSystemPings`, `RunPing3`), one system-ping attempt
  (`PingOnce`) and the inner stdout-line loop (`ReadPingOutput`, `ScanLines`)
  are methods, each proved against a specification function (`RouterRecord`,
  `ReplyTimes`, `Sum`, `SystemPingAttempt`, `OutputAttempt`, `LinesAttempt`).
- **Speed probe** (`check_speed`). One speedtest run either measures (best
  server, download and upload bits per second) or raises. A measurement
  becomes a reachable record with Mbps rounded to two decimals. A
  configuration-retrieval, server-list or any other exception becomes a
  null-filled record whose message prefix names the failing stage. Model:
  `speed_check.dfy`. It is a pure function over an outcome datatype.
- **The record** (`records.dfy`). `CheckResult` mirrors the returned
  dictionary. `WellFormed` states the invariants every record keeps:
  - a latency exactly when reachable;
  - an error message exactly when unreachable;
  - fields irrelevant to the check type left null;
  - router loss within [0, 1].

  Both probes are proved to return only well-formed records.
- **Python text operations** (`py_text.dfy`). `str.split("\n")`, `in`,
  `str.split("time=")[1]` and `str.split()[0]` with Python's semantics. This
  includes the full `str.isspace` character set and the error cases where
  Python raises `IndexError`.

Probe mechanics are inputs. A system-ping run is `Exited(returnCode, stdout)` or
`RunRaised`. A ping3 call is `Delay(seconds)`, `NoneReturned`, `FalseReturned`
or `PingRaised`. Python's `float(str)` is an abstract partial function
`parseFloat`. A speedtest run is `Measured(...)` or
`Raised(isConfigRetrieval, isServersRetrieval, text)`. The platform test that
picks the transport becomes the `Transport` parameter. `datetime.now()`
becomes the `timestamp` parameter. Latencies and loss are exact `real`s.
Throughput is integer bps, and Mbps are counted in hundredths (`CentiMbps`,
9450 = 94.50 Mbps).

Behaviour of the code that is easy to miss, and that the model keeps:

- **Error message.** Both probes set the message exactly when the record is
  unreachable. A partial success, with some pings lost, carries no message.
- **Zero or negative ping count.** With `ping_count == 0` the loss division
  raises `ZeroDivisionError`, and the outer handler returns loss 1.0 with the
  message `공유기 체크 오류: division by zero`. With a negative `ping_count`,
  `range` is empty and the loss is `(n - 0) / n = 1.0`, with the
  "all pings failed" message.
- **The two transports differ.** ping3's `False` error value passes the
  `is not None` test and counts as a reply of `False * 1000 == 0` ms
  (`Ping3Attempt`). The system-ping path has no such case.
- **Zero latency.** The speed probe reports latency 0 when the best server
  has no `latency` key, so a reported latency is not always positive.

## Model

| member | source | states |
|---|---|---|
| `PyText.Split` | network-check/wifi_monitor/checks/router_check.py:53 | `stdout.split('\n')` is never empty, no piece holds a newline, and joining the pieces with newlines gives the stdout back |
| `PyText.IsSpaceListed` | network-check/wifi_monitor/checks/router_check.py:56 | the whitespace `split()` separates on is exactly the 29 characters of Python's `str.isspace`: ASCII tab to carriage return and space, U+001C..U+001F, U+0085, U+00A0, U+1680, U+2000..U+200A, U+2028, U+2029, U+202F, U+205F and U+3000 |
| `PyText.ContainsFinds` | network-check/wifi_monitor/checks/router_check.py:55 | `'time=' in line` holds exactly when a search for `time=` from the start of the line finds an occurrence |
| `PyText.ContainsAround` | network-check/wifi_monitor/checks/router_check.py:53-55 | a pattern without the separator occurs in `a + sep + b` exactly when it occurs in `a` or in `b`: no occurrence straddles a separator |
| `PyText.ContainsJoin` | network-check/wifi_monitor/checks/router_check.py:53-55 | a pattern without the separator occurs in the joined text exactly when it occurs in one of the pieces, so `time=` is in the stdout exactly when it is in one of its lines |
| `PyText.FindFrom` | network-check/wifi_monitor/checks/router_check.py:55-56 | the returned index is an occurrence of the pattern with none before it; `None` means no occurrence at all |
| `PyText.SecondField` | network-check/wifi_monitor/checks/router_check.py:56 | `line.split('time=')[1]` exists exactly when the line contains `time=`; it is the text right after the first occurrence up to the next occurrence or the end of the line |
| `PyText.LeadingSpaces` | network-check/wifi_monitor/checks/router_check.py:56 | counts exactly the leading whitespace (by `str.isspace`) that `split()` skips |
| `PyText.WordLength` | network-check/wifi_monitor/checks/router_check.py:56 | counts exactly the leading non-whitespace run that becomes `split()`'s first token |
| `PyText.FirstToken` | network-check/wifi_monitor/checks/router_check.py:56 | `split()[0]` is absent (IndexError) exactly when the text is all whitespace; otherwise it is the non-empty, whitespace-free run after the leading whitespace, ending at whitespace or the end of the text |
| `Optional.Option.GetOr` | network-check/wifi_monitor/checks/speed_check.py:39-40 | `dict.get(key, default)` gives the stored value when present and the default otherwise |
| `RouterCheck.AttemptCount` | network-check/wifi_monitor/checks/router_check.py:41 | `len(range(ping_count))`, the number of iterations of both attempt loops (lines 41 and 70): zero exactly when `ping_count <= 0`, otherwise `ping_count` |
| `RouterCheck.FirstMarkedLine` | network-check/wifi_monitor/checks/router_check.py:54-55 | the index of the first stdout line containing `time=`, with no earlier line containing it; `None` exactly when no line contains it |
| `RouterCheck.MarkedLineAttempt` | network-check/wifi_monitor/checks/router_check.py:56-59 | a `time=` line is a reply exactly when its first token after `time=` exists and `float` parses it, and the reply's ms is the parsed value; it is never a silent no-reply, since a missing or unparsable token raises |
| `RouterCheck.LinesAttempt` | network-check/wifi_monitor/checks/router_check.py:54-61 | the lines report no reply exactly when no line contains `time=`; otherwise the first line containing it decides, through `MarkedLineAttempt` |
| `RouterCheck.FirstMarkedLineExtended` | network-check/wifi_monitor/checks/router_check.py:54-61 | lines appended after a marked line leave the first marked line where it was |
| `RouterCheck.FirstMarkedLineDecides` | network-check/wifi_monitor/checks/router_check.py:54-61 | once a `time=` line has been seen, later lines change neither which line is used nor the attempt's outcome (the `break`) |
| `RouterCheck.UnmarkedLinesSkipped` | network-check/wifi_monitor/checks/router_check.py:54-55 | lines without `time=` are passed over: the first marked line is found in what follows, shifted by their number, and the outcome is that of the following lines |
| `RouterCheck.OutputAttempt` | network-check/wifi_monitor/checks/router_check.py:53-61 | the stdout of a `ping` that exited with status 0 gives a no-reply, neither a reply nor a caught failure, exactly when `time=` occurs nowhere in it |
| `RouterCheck.SystemPingAttempt` | network-check/wifi_monitor/checks/router_check.py:44-67 | one system-ping run is a caught failure when `subprocess.run` raised, a lost no-reply when the exit status is non-zero, and the verdict of its stdout (`OutputAttempt`) when the exit status is 0 |
| `RouterCheck.Ping3Attempt` | network-check/wifi_monitor/checks/router_check.py:73-80 | every ping3 result other than `None` (and an exception) counts as a reply; a delay of t seconds contributes t * 1000 ms, and ping3's `False` contributes 0 ms |
| `RouterCheck.SystemPingAttemptsAt` | network-check/wifi_monitor/checks/router_check.py:41-67 | the i-th system-ping attempt is decided by the i-th run alone, so a lost, timed-out or raising run does not stop or change the other attempts |
| `RouterCheck.SystemPingAttemptsPrefix` | network-check/wifi_monitor/checks/router_check.py:41-67 | one more loop iteration appends the attempt of the next run and leaves the earlier attempts as they were |
| `RouterCheck.Ping3AttemptsPrefix` | network-check/wifi_monitor/checks/router_check.py:70-84 | one more loop iteration appends the attempt of the next ping3 call and leaves the earlier attempts as they were |
| `RouterCheck.Ping3AttemptsAt` | network-check/wifi_monitor/checks/router_check.py:70-84 | the i-th ping3 attempt is decided by the i-th call alone |
| `RouterCheck.ReplyTimes` | network-check/wifi_monitor/checks/router_check.py:57-59 | there are no more recorded reply times than attempts made, so `successful_pings` never exceeds the number of loop iterations |
| `RouterCheck.NoReplyTimes` | network-check/wifi_monitor/checks/router_check.py:88 | there are no reply times exactly when no attempt got a reply |
| `RouterCheck.ReplyTimesFromReplies` | network-check/wifi_monitor/checks/router_check.py:57-77 | on either transport (lines 57-59 and 75-77), every time added to the total is the time of some attempt's reply |
| `RouterCheck.LostComplementsReplies` | network-check/wifi_monitor/checks/router_check.py:87 | lost attempts plus successful attempts make up all attempts |
| `RouterCheck.CountersStep` | network-check/wifi_monitor/checks/router_check.py:57-59 | one more attempt either raises the success count by one and the total by its time, or changes neither counter |
| `RouterCheck.MeanBounds` | network-check/wifi_monitor/checks/router_check.py:91 | the mean of the reply times lies between any lower and upper bound of those times |
| `RouterCheck.RouterErrorRecord` | network-check/wifi_monitor/checks/router_check.py:110-124 | the outer handler's record is well formed and unreachable, with loss 1.0, the router's address, and the message prefixed by the router-check-error text |
| `RouterCheck.CountersRecord` | network-check/wifi_monitor/checks/router_check.py:87-108 | from the two counters: reachable exactly when some ping succeeded; loss `(ping_count - successes) / ping_count`; when reachable, the mean `total / successes` as latency and no message; otherwise no latency and "all pings failed"; type router, the router's address and the entry timestamp; well formed whenever the successes do not outnumber the attempts |
| `RouterCheck.RouterRecord` | network-check/wifi_monitor/checks/router_check.py:86-124 | the record is well formed, of type router, for the router's address and the entry timestamp; reachable exactly when `ping_count != 0` and some attempt replied; loss 1.0 exactly when no attempt replied; for N >= 1 attempts, loss is lost/N; when reachable, latency is the mean reply time and there is no error; when unreachable, the message is "all pings failed", or the division-by-zero error for `ping_count == 0` |
| `RouterCheck.LossFraction` | network-check/wifi_monitor/checks/router_check.py:87 | `(ping_count - successes) / ping_count` lies in [0, 1] and equals 1 exactly when nothing succeeded, including for a negative `ping_count` |
| `RouterCheck.RouterLatencyBounds` | network-check/wifi_monitor/checks/router_check.py:90-91 | when every reply time lies in [lo, hi], a reachable record's latency lies in [lo, hi] (so positive replies give a positive latency) |
| `RouterCheck.AllAttemptsLost` | network-check/wifi_monitor/checks/router_check.py:87-96 | when every one of N >= 1 attempts is lost: unreachable, no latency, loss 1.0 and the "all pings failed" message |
| `RouterCheck.ReadPingOutput` | network-check/wifi_monitor/checks/router_check.py:53-61 | splitting the stdout of a successful `ping` and running the line loop yields exactly the outcome `OutputAttempt` specifies |
| `RouterCheck.ScanLines` | network-check/wifi_monitor/checks/router_check.py:54-61 | the line loop with its `break` yields exactly `LinesAttempt`: the first `time=` line decides, and no such line means no reply |
| `RouterCheck.PingOnce` | network-check/wifi_monitor/checks/router_check.py:42-67 | one attempt's `try` block yields exactly `SystemPingAttempt` of its run |
| `RouterCheck.RunSystemPings` | network-check/wifi_monitor/checks/router_check.py:41-67 | after the system-ping loop, `successful_pings` is the number of replies and `total_latency` the sum of their times over all runs |
| `RouterCheck.RunPing3` | network-check/wifi_monitor/checks/router_check.py:70-84 | after the ping3 loop, `successful_pings` is the number of replies and `total_latency` the sum of their times in ms over all calls |
| `RouterCheck.CheckRouter` | network-check/wifi_monitor/checks/router_check.py:10-124 | `check_router` on either transport returns `RouterRecord` of the attempts its outcomes amount to |
| `SpeedCheck.HandlingStage` | network-check/wifi_monitor/checks/speed_check.py:68-101 | the handlers are tried in source order: a configuration-retrieval error is handled as such even if it is also a server-list error; a server-list error comes next; anything else falls to the generic handler |
| `SpeedCheck.StageRecoverable` | network-check/wifi_monitor/checks/speed_check.py:69-101 | the failing stage can be read back from the message: classifying a stage's prefix followed by any text gives that stage |
| `SpeedCheck.ToCentiMbps` | network-check/wifi_monitor/checks/speed_check.py:46-64 | the reported hundredths of a Mbps are within half a hundredth (5,000 bps) of the measured rate, and an exact tie goes to the even neighbour |
| `SpeedCheck.ToCentiMbpsNearest` | network-check/wifi_monitor/checks/speed_check.py:63-64 | no other number of hundredths lies closer to the measured rate |
| `SpeedCheck.FailureRecord` | network-check/wifi_monitor/checks/speed_check.py:72-114 | each of the three handlers' dicts (lines 72-82, 88-98, 104-114) is a well-formed, unreachable speed-test record for target "unknown", with the entry timestamp, every measurement null and the given message |
| `SpeedCheck.CheckSpeed` | network-check/wifi_monitor/checks/speed_check.py:28-114 | every outcome gives a well-formed speed-test record with the entry timestamp and no packet loss, so nothing raises. It is reachable exactly when measured. A measurement gives the server's host (default "unknown") and latency (default 0), both rates rounded to hundredths, and no error. A failure gives target "unknown", no latency or rates, and a message of the first matching handler's prefix followed by the exception text, from which that stage can be read back |
| `SpeedCheck.RoundingExample` | network-check/wifi_monitor/checks/speed_check.py:46-47 | 94,500,000 bps is reported as 94.50 Mbps |
| `SpeedCheck.FailuresShareShape` | network-check/wifi_monitor/checks/speed_check.py:68-114 | any two failures give the same record apart from the error message |

## Left out

- Ping, speedtest and subprocess mechanics: ICMP, HTTP transfers, the
  `-W` and `timeout` arguments, and the wall-clock bound they impose. These
  are foreign calls, so their results are inputs, one per attempt.
- Platform detection (`platform.system()` and `platform.machine()`). It is
  replaced by the `Transport` parameter.
- The scheduler loop, the thread pool and the check-and-save wrappers in
  `main.py`. They are concurrency and timing.
- The PostgreSQL sink in `database/db.py`, and the table-creation and
  connection-debugging scripts. They are database I/O.
- Configuration reading and logging setup.
- All logging calls and their formatting.
- `datetime.now()`. The timestamp is a parameter.
- IEEE floating point. Latencies and loss are exact reals. `float(str)` is
  abstract: its `nan` and `inf` results and float rounding are not
  represented.
- ToCentiMbps: breaks exact ties half-to-even on the exact quotient
  bps / 10,000. Python's `round(x, 2)` rounds the binary float nearest to
  bps / 1,000,000, which at such ties can land on either neighbour.
- The two `get_best_server()` calls (speed_check.py lines 35 and 38). They
  are one measured outcome: a failure from either shows up as a `Raised`
  outcome.
- The text of `str(e)` for probe exceptions. It is an input, except for the
  ZeroDivisionError text, which is fixed.
- Exceptions outside `Exception`, such as `KeyboardInterrupt`, which pass
  every handler. They are not modelled.
- `ping_count` other than an `int`.
- The exact place of the counter updates. The model computes each
  attempt's outcome before updating the counters, where the source
  increments them inside the inner line loop. The counter values are the
  same.
