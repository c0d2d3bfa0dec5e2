/** The one record both probes produce and the monitor persists. */
module Records {

  import opened Optional

  /** The instant a check starts (`datetime.now()` on entry); kept abstract. */
  type Instant = int

  /** Throughput in hundredths of a megabit per second: 9450 stands for 94.50 Mbps. */
  type CentiMbps = nat

  datatype CheckType = Router | SpeedTest {

    /** The `check_type` column value. */
    function Label(): string {
      match this
      case Router => "router"
      case SpeedTest => "speed_test"
    }
  }

  /** The fixed-shape dictionary both checks return; `None` fields are Python's `None`. */
  datatype CheckResult = CheckResult(
    timestamp: Instant,
    checkType: CheckType,
    target: string,
    reachable: bool,
    latencyMs: Option<real>,
    packetLoss: Option<real>,
    downloadMbps: Option<CentiMbps>,
    uploadMbps: Option<CentiMbps>,
    errorMessage: Option<string>)

  /**
   * The invariants every record both checks return keeps: a latency exactly when reachable,
   * an error message exactly when unreachable, and the fields that do not belong
   * to the check type left null (router: a loss fraction in [0, 1] and no
   * throughput; speed test: no loss, throughput exactly when reachable).
   */
  predicate WellFormed(r: CheckResult) {
    && (r.latencyMs.Some? <==> r.reachable)
    && (r.errorMessage.Some? <==> !r.reachable)
    && match r.checkType
       case Router =>
         && r.downloadMbps.None? && r.uploadMbps.None?
         && r.packetLoss.Some? && 0.0 <= r.packetLoss.value <= 1.0
       case SpeedTest =>
         && r.packetLoss.None?
         && (r.downloadMbps.Some? <==> r.reachable)
         && (r.uploadMbps.Some? <==> r.reachable)
  }
}
