/** `CloudWatchHealthIndicator`: one probe of CloudWatch Logs, turned into a status map
    and one health-check log line. The AWS call is replaced by its outcome, given as a
    parameter: the number of log groups it returned, or the exception it raised (while
    building the client or while describing the groups). */
module Health {
  import opened Base
  import opened JavaStrings
  import opened Logging

  datatype Probe = Reachable(logGroups: nat) | Unreachable(error: Exception)

  const Component: string := "cloudwatch-logs"
  const ServiceName: string := "CloudWatch Logs"

  /** The map the indicator returns for a probe outcome. */
  function StatusMap(probe: Probe): (m: map<string, Json>)
    ensures m.Keys == {"service", "status", "connected",
                       if probe.Reachable? then "logGroups" else "error"}
    ensures m["service"] == JString(ServiceName)
    ensures m["status"] == JString(if probe.Reachable? then "UP" else "DOWN")
    ensures m["connected"] == JBool(probe.Reachable?)
    ensures probe.Reachable? ==> m["logGroups"] == JNumber(probe.logGroups)
    ensures probe.Unreachable? ==> m["error"] == TextOrNull(probe.error.message)
  {
    match probe
    case Reachable(n) =>
      map["service" := JString(ServiceName), "status" := JString("UP"),
          "connected" := JBool(true), "logGroups" := JNumber(n)]
    case Unreachable(e) =>
      map["service" := JString(ServiceName), "status" := JString("DOWN"),
          "connected" := JBool(false), "error" := TextOrNull(e.message)]
  }

  /** `"UP".equals(map.get("status"))`. */
  predicate ReportsUp(m: map<string, Json>)
  {
    "status" in m && m["status"] == JString("UP")
  }

  /** The details text of the health-check line. */
  function ProbeDetails(probe: Probe): string
  {
    match probe
    case Reachable(_) => "Successfully connected to CloudWatch Logs"
    case Unreachable(e) => "Failed to connect to CloudWatch Logs: " + StringOf(e.message)
  }

  /** The map says UP exactly for a reachable service, so the logged health flag and the
      map's status always agree. */
  lemma StatusMapReportsUp(probe: Probe)
    ensures ReportsUp(StatusMap(probe)) <==> probe.Reachable?
  {
  }

  class CloudWatchHealthIndicator {
    const log: LoggingService

    constructor(log: LoggingService)
      ensures this.log == log
    {
      this.log := log;
    }

    /** `checkCloudWatchHealth`: logs one health check whose flag is the probe's success,
        then fills a fresh map; no outcome of the probe makes it throw. */
    method CheckCloudWatchHealth(probe: Probe) returns (status: map<string, Json>)
      modifies log
      ensures status == StatusMap(probe)
      ensures log.events == old(log.events) +
        [HealthCheckEvent(old(log.mdc), Component, ReportsUp(status), ProbeDetails(probe))]
      ensures log.mdc == map[]
    {
      StatusMapReportsUp(probe);
      status := map[];
      match probe {
        case Reachable(n) =>
          var _ := log.LogHealthCheck(Component, true, "Successfully connected to CloudWatch Logs");
          status := status["service" := JString(ServiceName)];
          status := status["status" := JString("UP")];
          status := status["connected" := JBool(true)];
          status := status["logGroups" := JNumber(n)];
        case Unreachable(e) =>
          var _ := log.LogHealthCheck(
            Component, false, "Failed to connect to CloudWatch Logs: " + StringOf(e.message));
          status := status["service" := JString(ServiceName)];
          status := status["status" := JString("DOWN")];
          status := status["connected" := JBool(false)];
          status := status["error" := TextOrNull(e.message)];
      }
    }
  }
}
