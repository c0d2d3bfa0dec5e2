/**
 * The speed probe: the outcome of one speedtest run (best-server selection,
 * download, upload) normalised into a speed-test record. The measurement
 * itself is an input.
 */
module SpeedCheck {

  import opened Optional
  import opened Records

  /** The target reported when the best server has no host, and after any failure. */
  const UnknownHost: string := "unknown"
  /** Message prefix of the configuration-retrieval handler ("speed test configuration error: "). */
  const ConfigErrorPrefix: string := "속도 테스트 설정 오류: "
  /** Message prefix of the server-list handler ("speed test server search error: "). */
  const ServersErrorPrefix: string := "속도 테스트 서버 검색 오류: "
  /** Message prefix of the catch-all handler ("speed test error: "). */
  const GenericErrorPrefix: string := "속도 테스트 오류: "

  /** The dictionary `get_best_server()` returns, reduced to the two keys read from it. */
  datatype BestServer = BestServer(host: Option<string>, latency: Option<real>)

  /**
   * How a speedtest run ended: measured, or raised an exception that is (or
   * is not) a `ConfigRetrievalError` and a `ServersRetrievalError`, with its `str(e)`.
   */
  datatype Outcome =
    | Measured(server: BestServer, downloadBps: nat, uploadBps: nat)
    | Raised(isConfigRetrieval: bool, isServersRetrieval: bool, text: string)

  /** The failure stage an operator reads off the message. */
  datatype Stage = Configuration | ServerList | Other

  /** The first `except` clause that matches, tried in source order. */
  function HandlingStage(o: Outcome): (st: Stage)
    requires o.Raised?
    ensures st == Configuration <==> o.isConfigRetrieval
    ensures st == ServerList <==> !o.isConfigRetrieval && o.isServersRetrieval
  {
    if o.isConfigRetrieval then Configuration
    else if o.isServersRetrieval then ServerList
    else Other
  }

  function StagePrefix(st: Stage): string {
    match st
    case Configuration => ConfigErrorPrefix
    case ServerList => ServersErrorPrefix
    case Other => GenericErrorPrefix
  }

  /** How an operator triages a message: by which of the three prefixes it starts with. */
  function StageOfMessage(msg: string): Option<Stage> {
    if ConfigErrorPrefix <= msg then Some(Configuration)
    else if ServersErrorPrefix <= msg then Some(ServerList)
    else if GenericErrorPrefix <= msg then Some(Other)
    else None
  }

  /** The three prefixes part at their eighth character, so no message carries two of them. */
  lemma StageRecoverable(st: Stage, text: string)
    ensures StageOfMessage(StagePrefix(st) + text) == Some(st)
  {
    var msg := StagePrefix(st) + text;
    assert msg[7] == StagePrefix(st)[7];
    assert ConfigErrorPrefix[7] == '설' && ServersErrorPrefix[7] == '서' && GenericErrorPrefix[7] == '오';
  }

  /**
   * `round(bps / 1_000_000, 2)` in hundredths of a Mbps: the nearest multiple
   * of 10,000 bps, an exact tie going to the even neighbour.
   */
  function ToCentiMbps(bps: nat): (h: CentiMbps)
    ensures bps <= 10000 * h + 5000 && 10000 * h <= bps + 5000
    ensures bps % 10000 == 5000 ==> h % 2 == 0
  {
    var q := bps / 10000;
    var rem := bps % 10000;
    if rem > 5000 || (rem == 5000 && q % 2 == 1) then q + 1 else q
  }

  /** No other number of hundredths lies closer to the measured rate. */
  lemma ToCentiMbpsNearest(bps: nat, k: int)
    ensures Distance(bps, 10000 * ToCentiMbps(bps)) <= Distance(bps, 10000 * k)
  {
    var h: int := ToCentiMbps(bps);
    if k < h {
      assert 10000 * k <= 10000 * h - 10000;
    } else if k > h {
      assert 10000 * k >= 10000 * h + 10000;
    }
  }

  function Distance(x: int, y: int): nat {
    if x <= y then y - x else x - y
  }

  /**
   * The record every handler returns, whatever the stage: a well-formed,
   * unreachable speed-test record for target "unknown", every measurement
   * null and the message as the only payload.
   */
  function FailureRecord(timestamp: Instant, message: string): (r: CheckResult)
    ensures WellFormed(r) && !r.reachable
    ensures r.timestamp == timestamp && r.checkType == SpeedTest && r.target == UnknownHost
    ensures r.latencyMs.None? && r.packetLoss.None? && r.downloadMbps.None? && r.uploadMbps.None?
    ensures r.errorMessage == Some(message)
  {
    CheckResult(timestamp, SpeedTest, UnknownHost, false, None, None, None, None, Some(message))
  }

  /**
   * `check_speed`: a measured run becomes a reachable record with the best
   * server's host and latency and both rates in Mbps; any exception becomes
   * the null-filled record whose message names the failing stage.
   */
  function CheckSpeed(outcome: Outcome, timestamp: Instant): (r: CheckResult)
    ensures WellFormed(r)
    ensures r.timestamp == timestamp && r.checkType == SpeedTest && r.packetLoss.None?
    ensures r.reachable <==> outcome.Measured?
    ensures outcome.Measured? ==>
      && r.target == outcome.server.host.GetOr(UnknownHost)
      && r.latencyMs == Some(outcome.server.latency.GetOr(0.0))
      && r.downloadMbps == Some(ToCentiMbps(outcome.downloadBps))
      && r.uploadMbps == Some(ToCentiMbps(outcome.uploadBps))
      && r.errorMessage.None?
    ensures outcome.Raised? ==>
      && r.target == UnknownHost
      && r.latencyMs.None? && r.downloadMbps.None? && r.uploadMbps.None?
      && r.errorMessage == Some(StagePrefix(HandlingStage(outcome)) + outcome.text)
      && StageOfMessage(r.errorMessage.value) == Some(HandlingStage(outcome))
  {
    match outcome
    case Measured(server, downloadBps, uploadBps) =>
      CheckResult(timestamp, SpeedTest, server.host.GetOr(UnknownHost), true,
                  Some(server.latency.GetOr(0.0)), None,
                  Some(ToCentiMbps(downloadBps)), Some(ToCentiMbps(uploadBps)), None)
    case Raised(_, _, text) =>
      var stage := HandlingStage(outcome);
      StageRecoverable(stage, text);
      FailureRecord(timestamp, StagePrefix(stage) + text)
  }

  /** 94,500,000 bps is reported as 94.50 Mbps. */
  lemma RoundingExample()
    ensures ToCentiMbps(94_500_000) == 9450
  {
  }

  /** Any two failures, whatever their stage and text, give the same record once the message is set aside. */
  lemma FailuresShareShape(o1: Outcome, o2: Outcome, timestamp: Instant)
    requires o1.Raised? && o2.Raised?
    ensures CheckSpeed(o1, timestamp).(errorMessage := None) == CheckSpeed(o2, timestamp).(errorMessage := None)
  {
  }
}
