/**
 * internal/agent/client.go: `Pull`, which turns what the transport did on
 * one GET of `<agent.URL>/inspect` into an inspection record or an error.
 * JSON decoding is abstract: each `json.Unmarshal` into one of the source's
 * structs is a decoder in `Codec` that yields the decoded struct or None.
 */
module Client {
  import opened Wrappers
  import opened Model

  /** What one GET did: it failed, its body could not be read, or a body arrived. */
  datatype Transport =
    | GetFailed(cause: string)
    | ReadFailed(status: int, cause: string)
    | Received(status: int, body: string)

  /** The response envelope; a missing raw_data or analysis member decodes to "". */
  datatype Envelope = Envelope(hostname: string, rawData: string, analysis: string)

  /** The `alert` and `level` members of the analysis document (zero when absent). */
  datatype Verdict = Verdict(alert: bool, level: string)

  /** The metric members of raw_data, as strings. */
  datatype SysInfo = SysInfo(cpuUsed: string, memUsed: string, diskAlert: string, loadAvg: string, pingLoss: string)

  datatype Codec = Codec(
    envelope: string -> Option<Envelope>,
    verdict: string -> Option<Verdict>,
    sysInfo: string -> Option<SysInfo>,
    scanFloat: string -> Option<real>)

  const UnreachableAnalysis := "{\"summary\":\"Agent unreachable\"}"
  const BadFormatAnalysis := "{\"summary\":\"bad response format\"}"

  /** The synthetic CRITICAL record used when the node cannot be reached or answers garbage. */
  function Synthetic(agent: Agent, analysis: string): Inspection {
    Inspection(0, agent.id, agent.name, agent.ip, "", analysis, true, Critical, ZeroMetrics)
  }

  /** `fmt.Sscanf(s, "%f", &x)` on a zero x: the scanned value, or x left at zero. */
  function Scan(codec: Codec, s: string): real {
    match codec.scanFloat(s)
    case Some(v) => v
    case None => 0.0
  }

  /** The metric columns filled from raw_data; only four of them are ever set. */
  function MetricsOf(codec: Codec, rawData: string): (m: Metrics)
    ensures codec.sysInfo(rawData).None? ==> m == ZeroMetrics
    ensures m.diskUsed == 0.0 && m.journalErr1h == 0 && m.processCount == 0 && m.tcpConnections == 0
  {
    match codec.sysInfo(rawData)
    case None => ZeroMetrics
    case Some(info) =>
      ZeroMetrics.(
        cpuUsed := Scan(codec, info.cpuUsed),
        memoryUsed := Scan(codec, info.memUsed),
        loadAvg := Scan(codec, info.loadAvg),
        pingLoss := Scan(codec, info.pingLoss))
  }

  /** The alert flag and level of an analysis document; both zero if it does not decode. */
  function VerdictOf(codec: Codec, analysis: string): Verdict {
    match codec.verdict(analysis)
    case Some(v) => v
    case None => Verdict(false, "")
  }

  /**
   * Pull. A failed GET is not an error: it yields the synthetic "Agent
   * unreachable" record. A failed body read is the only error. An envelope
   * that does not decode yields the synthetic "bad response format" record.
   * Otherwise the record carries the node's own hostname and the documents
   * verbatim. The HTTP status is only logged.
   */
  function Pull(agent: Agent, t: Transport, codec: Codec): (r: Result<Inspection, string>)
    ensures r.Failure? <==> t.ReadFailed?
    ensures t.ReadFailed? ==> r.error == t.cause
    ensures r.Success? ==> r.value.agentId == agent.id && r.value.ip == agent.ip && r.value.id == 0
    ensures r.Success? ==> r.value.level.Valid()
    ensures t.GetFailed? ==>
      && r.value.level == Critical && r.value.alert && r.value.hostname == agent.name
      && r.value.analysis == UnreachableAnalysis && r.value.metrics == ZeroMetrics
    ensures t.Received? && codec.envelope(t.body).None? ==>
      && r.value.level == Critical && r.value.alert && r.value.hostname == agent.name
      && r.value.analysis == BadFormatAnalysis && r.value.metrics == ZeroMetrics
    ensures t.Received? && codec.envelope(t.body).Some? ==>
      var e := codec.envelope(t.body).value;
      && r.value.hostname == e.hostname
      && r.value.rawData == e.rawData
      && r.value.analysis == e.analysis
      && (codec.verdict(e.analysis).None? ==> !r.value.alert && r.value.level == Unset)
      && (codec.verdict(e.analysis).Some? ==>
            r.value.alert == codec.verdict(e.analysis).value.alert
            && r.value.level.Text() == codec.verdict(e.analysis).value.level
            && r.value.level == LevelOf(codec.verdict(e.analysis).value.level))
      && (codec.sysInfo(e.rawData).None? ==> r.value.metrics == ZeroMetrics)
  {
    match t
    case GetFailed(_) => Success(Synthetic(agent, UnreachableAnalysis))
    case ReadFailed(_, cause) => Failure(cause)
    case Received(_, body) =>
      match codec.envelope(body)
      case None => Success(Synthetic(agent, BadFormatAnalysis))
      case Some(e) =>
        var v := VerdictOf(codec, e.analysis);
        Success(Inspection(0, agent.id, e.hostname, agent.ip, e.rawData, e.analysis,
                           v.alert, LevelOf(v.level), MetricsOf(codec, e.rawData)))
  }

  /** The HTTP status code never changes the outcome. */
  lemma PullIgnoresStatus(agent: Agent, codec: Codec, s1: int, s2: int, body: string, cause: string)
    ensures Pull(agent, Received(s1, body), codec) == Pull(agent, Received(s2, body), codec)
    ensures Pull(agent, ReadFailed(s1, cause), codec) == Pull(agent, ReadFailed(s2, cause), codec)
  {
  }
}
