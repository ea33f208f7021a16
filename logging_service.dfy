/** The structured logger (`LoggingService`). SLF4J's MDC, the correlation map every
    log line carries, is the field `mdc`; the lines written so far are `events`. Every
    public method fills the MDC key by key, emits exactly one event carrying a snapshot
    of it, and clears it in its `finally` block. Random UUIDs are parameters. */
module Logging {
  import opened Base
  import opened JavaStrings

  datatype Level = Info | Warn | Error

  /** The SLF4J loggers the service writes to: `API_ACCESS`, `BUSINESS_EVENT`,
      `ERROR_EVENT`, and the class logger of `LoggingService` itself. */
  datatype Channel = ApiAccess | BusinessEvents | ErrorEvents | ServiceLogger

  /** A value of a `Map<String, Object>` handed to `logError` or `logPerformanceMetric`. */
  datatype Scalar = NullValue | Text(text: string) | Number(number: int) | Flag(flag: bool)
  {
    /** `value.toString()` of a non-null value. */
    function Render(): string
      requires !NullValue?
    {
      match this
      case Text(t) => t
      case Number(n) => LongToString(n)
      case Flag(b) => BoolToString(b)
    }
  }

  /** One emitted log line: logger, level, message template with its rendered
      arguments, the attached throwable, and the MDC snapshot at emission time. */
  datatype LogEvent = LogEvent(
    channel: Channel,
    level: Level,
    template: string,
    args: seq<string>,
    thrown: Option<Exception>,
    context: map<string, string>)

  // ------------------------------------------------------------ correlation ids

  predicate IsLowerHex(c: char) { '0' <= c <= '9' || 'a' <= c <= 'f' }

  /** The text form of a random `java.util.UUID`: 36 characters, lower-case hex digits
      with dashes at positions 8, 13, 18 and 23. */
  predicate IsUuidString(u: string)
  {
    |u| == 36 &&
    forall i :: 0 <= i < 36 ==>
      if i == 8 || i == 13 || i == 18 || i == 23 then u[i] == '-' else IsLowerHex(u[i])
  }

  /** `generateRequestId`. */
  function RequestId(uuid: string): (id: string)
    requires IsUuidString(uuid)
    ensures |id| == 12 && id[..4] == "REQ-"
    ensures forall k :: 4 <= k < 12 ==> IsLowerHex(id[k])
    ensures id[4..] == uuid[..8]
  {
    "REQ-" + uuid[..8]
  }

  /** `generateEventId`. */
  function EventId(uuid: string): (id: string)
    requires IsUuidString(uuid)
    ensures |id| == 12 && id[..4] == "EVT-"
    ensures forall k :: 4 <= k < 12 ==> IsLowerHex(id[k])
    ensures id[4..] == uuid[..8]
  {
    "EVT-" + uuid[..8]
  }

  /** `generateErrorId`. */
  function ErrorId(uuid: string): (id: string)
    requires IsUuidString(uuid)
    ensures |id| == 12 && id[..4] == "ERR-"
    ensures forall k :: 4 <= k < 12 ==> IsLowerHex(id[k])
    ensures id[4..] == uuid[..8]
  {
    "ERR-" + uuid[..8]
  }

  // ------------------------------------------------------ copying caller context

  /** The entries a `forEach` over a caller's map puts into the MDC: every non-null
      value as its string; a null map contributes nothing. */
  function ContextStrings(ctx: Option<map<string, Scalar>>): (m: map<string, string>)
    ensures ctx.None? ==> m == map[]
    ensures ctx.Some? ==> m.Keys == set k | k in ctx.value && !ctx.value[k].NullValue?
    ensures ctx.Some? ==> forall k :: k in m ==> m[k] == ctx.value[k].Render()
  {
    match ctx
    case None => map[]
    case Some(c) => map k | k in c && !c[k].NullValue? :: c[k].Render()
  }

  /** Copying one more entry of the caller's map into the MDC. */
  lemma ContextStringsAdd(done: map<string, Scalar>, key: string, value: Scalar)
    requires key !in done
    ensures value.NullValue? ==> ContextStrings(Some(done[key := value])) == ContextStrings(Some(done))
    ensures !value.NullValue? ==>
              ContextStrings(Some(done[key := value])) == ContextStrings(Some(done))[key := value.Render()]
  {
  }

  /** Updating after a union is a union with the updated right side. */
  lemma UpdateUnion(a: map<string, string>, b: map<string, string>, k: string, v: string)
    ensures (a + b)[k := v] == a + b[k := v]
  {
  }

  // ---------------------------------------------- the event each method emits

  const ApiRequestKeys: set<string> :=
    {"requestId", "method", "endpoint", "clientIp", "responseTime", "statusCode"}

  /** What `logApiRequest` emits when the MDC held `before` on entry. */
  function ApiRequestEvent(before: map<string, string>, requestId: string, httpMethod: string,
                           endpoint: string, clientIp: string, customerId: Option<int>,
                           responseTime: int, statusCode: int): (e: LogEvent)
  {
    var fixed := before["requestId" := requestId]["method" := httpMethod]
                       ["endpoint" := endpoint]["clientIp" := clientIp]
                       ["responseTime" := LongToString(responseTime)]
                       ["statusCode" := LongToString(statusCode)];
    LogEvent(ApiAccess, Info, "API Request: {} {} - Status: {} - Response Time: {}ms",
             [httpMethod, endpoint, LongToString(statusCode), LongToString(responseTime)],
             None,
             if customerId.Some? then fixed["customerId" := LongToString(customerId.value)]
             else fixed)
  }

  /** The access line: level INFO, the four message arguments, and an MDC snapshot
      holding the six request keys, `customerId` exactly when an id was given, and the
      caller's other entries untouched. */
  lemma ApiRequestEventShape(before: map<string, string>, requestId: string, httpMethod: string,
                             endpoint: string, clientIp: string, customerId: Option<int>,
                             responseTime: int, statusCode: int)
    ensures var e := ApiRequestEvent(before, requestId, httpMethod, endpoint, clientIp, customerId,
                                     responseTime, statusCode);
      && (e.channel == ApiAccess && e.level == Info && e.thrown == None)
      && (e.args == [httpMethod, endpoint, LongToString(statusCode), LongToString(responseTime)])
      && (e.context.Keys == before.Keys + ApiRequestKeys
                            + (if customerId.Some? then {"customerId"} else {}))
      && (e.context["requestId"] == requestId && e.context["method"] == httpMethod)
      && (e.context["endpoint"] == endpoint && e.context["clientIp"] == clientIp)
      && (e.context["responseTime"] == LongToString(responseTime))
      && (e.context["statusCode"] == LongToString(statusCode))
      && (customerId.Some? ==> e.context["customerId"] == LongToString(customerId.value))
      && (forall k :: k in before && k !in ApiRequestKeys && k != "customerId" ==>
                        e.context[k] == before[k])
  {
  }

  /** How a nullable entity id appears in a business-event message. */
  function IdText(id: Option<int>): (t: string)
    ensures id.None? ==> t == "N/A"
    ensures id.Some? ==> t == LongToString(id.value)
  {
    match id
    case None => "N/A"
    case Some(v) => LongToString(v)
  }

  const BusinessKeys: set<string> := {"eventId", "operation", "entityType", "success"}

  /** What `logBusinessEvent` emits when the MDC held `before` on entry. */
  function BusinessEvent(before: map<string, string>, eventId: string, operation: string,
                         entityType: string, entityId: Option<int>, details: string,
                         success: bool): (e: LogEvent)
  {
    var fixed := before["eventId" := eventId]["operation" := operation]
                       ["entityType" := entityType]["success" := BoolToString(success)];
    LogEvent(BusinessEvents, if success then Info else Warn,
             if success then "Business Event: {} {} {} - {}"
             else "Business Event Failed: {} {} {} - {}",
             [operation, entityType, IdText(entityId), details], None,
             if entityId.Some? then fixed["entityId" := LongToString(entityId.value)] else fixed)
  }

  /** The business line: INFO exactly on success, WARN otherwise; "N/A" in the message
      for a null id; `entityId` in the snapshot exactly when the id is not null. */
  lemma BusinessEventShape(before: map<string, string>, eventId: string, operation: string,
                           entityType: string, entityId: Option<int>, details: string,
                           success: bool)
    ensures var e := BusinessEvent(before, eventId, operation, entityType, entityId, details,
                                   success);
      && (e.channel == BusinessEvents && e.thrown == None)
      && ((e.level == Info) <==> success)
      && (!success ==> e.level == Warn)
      && (e.args == [operation, entityType, IdText(entityId), details])
      && (e.context.Keys == before.Keys + BusinessKeys
                            + (if entityId.Some? then {"entityId"} else {}))
      && (e.context["eventId"] == eventId && e.context["operation"] == operation)
      && (e.context["entityType"] == entityType)
      && (e.context["success"] == BoolToString(success))
      && (entityId.Some? ==> e.context["entityId"] == LongToString(entityId.value))
  {
  }

  /** The `errorType` MDC entry: the exception's simple class name, or "Unknown". */
  function ErrorType(exception: Option<Exception>): (t: string)
    ensures exception.None? ==> t == "Unknown"
    ensures exception.Some? ==> t == exception.value.simpleName
  {
    match exception
    case None => "Unknown"
    case Some(x) => x.simpleName
  }

  /** What `logError` emits when the MDC held `before` on entry. The caller's
      context is copied after the three fixed keys, so it overwrites them. */
  function ErrorEvent(before: map<string, string>, errorId: string, operation: string,
                      errorMessage: string, exception: Option<Exception>,
                      context: Option<map<string, Scalar>>): (e: LogEvent)
  {
    var fixed := before["errorId" := errorId]["operation" := operation]
                       ["errorType" := ErrorType(exception)];
    match exception
    case Some(x) =>
      LogEvent(ErrorEvents, Error, "Application Error in {}: {} - {}",
               [operation, errorMessage, StringOf(x.message)], exception,
               fixed + ContextStrings(context))
    case None =>
      LogEvent(ErrorEvents, Error, "Application Error in {}: {}",
               [operation, errorMessage], None, fixed + ContextStrings(context))
  }

  /** The error line: always ERROR, the exception attached and its message shown only
      when there is one, and every non-null entry of the caller's context in the
      snapshot, over the fixed keys. */
  lemma ErrorEventShape(before: map<string, string>, errorId: string, operation: string,
                        errorMessage: string, exception: Option<Exception>,
                        context: Option<map<string, Scalar>>)
    ensures var e := ErrorEvent(before, errorId, operation, errorMessage, exception, context);
      && (e.channel == ErrorEvents && e.level == Error && e.thrown == exception)
      && (exception.Some? ==>
            e.args == [operation, errorMessage, StringOf(exception.value.message)])
      && (exception.None? ==> e.args == [operation, errorMessage])
      && (e.context.Keys == before.Keys + {"errorId", "operation", "errorType"}
                            + ContextStrings(context).Keys)
      && (forall k :: k in ContextStrings(context) ==> e.context[k] == ContextStrings(context)[k])
      && ("errorId" !in ContextStrings(context) ==> e.context["errorId"] == errorId)
      && ("operation" !in ContextStrings(context) ==> e.context["operation"] == operation)
      && ("errorType" !in ContextStrings(context) ==>
            e.context["errorType"] == ErrorType(exception))
  {
  }

  /** What `logPerformanceMetric` emits when the MDC held `before` on entry. */
  function PerformanceEvent(before: map<string, string>, operation: string,
                            executionTime: int, metrics: Option<map<string, Scalar>>)
    : (e: LogEvent)
  {
    LogEvent(ServiceLogger, Info, "Performance Metric: {} completed in {}ms",
             [operation, LongToString(executionTime)], None,
             before["operation" := operation]["executionTime" := LongToString(executionTime)]
               + ContextStrings(metrics))
  }

  /** The metric line: INFO, and every non-null metric in the snapshot, over the two
      fixed keys. */
  lemma PerformanceEventShape(before: map<string, string>, operation: string,
                              executionTime: int, metrics: Option<map<string, Scalar>>)
    ensures var e := PerformanceEvent(before, operation, executionTime, metrics);
      && (e.channel == ServiceLogger && e.level == Info && e.thrown == None)
      && (e.args == [operation, LongToString(executionTime)])
      && (e.context.Keys == before.Keys + {"operation", "executionTime"}
                            + ContextStrings(metrics).Keys)
      && (forall k :: k in ContextStrings(metrics) ==> e.context[k] == ContextStrings(metrics)[k])
      && ("operation" !in ContextStrings(metrics) ==> e.context["operation"] == operation)
      && ("executionTime" !in ContextStrings(metrics) ==>
            e.context["executionTime"] == LongToString(executionTime))
  {
  }

  /** What `logHealthCheck` emits when the MDC held `before` on entry. */
  function HealthCheckEvent(before: map<string, string>, component: string, healthy: bool,
                            details: string): (e: LogEvent)
  {
    LogEvent(ServiceLogger, if healthy then Info else Warn,
             if healthy then "Health Check: {} is healthy - {}"
             else "Health Check: {} is unhealthy - {}",
             [component, details], None,
             before["component" := component]["healthy" := BoolToString(healthy)])
  }

  /** The health line: INFO exactly when healthy, WARN otherwise, with `component` and
      `healthy` in the snapshot. */
  lemma HealthCheckEventShape(before: map<string, string>, component: string, healthy: bool,
                              details: string)
    ensures var e := HealthCheckEvent(before, component, healthy, details);
      && (e.channel == ServiceLogger && e.thrown == None)
      && ((e.level == Info) <==> healthy)
      && (!healthy ==> e.level == Warn)
      && (e.args == [component, details])
      && (e.context.Keys == before.Keys + {"component", "healthy"})
      && (e.context["component"] == component)
      && (e.context["healthy"] == BoolToString(healthy))
  {
  }

  // -------------------------------------------------------------- the service

  class LoggingService {
    /** SLF4J's MDC for the (single) thread of the model. */
    var mdc: map<string, string>
    /** Every line emitted so far, oldest first. */
    var events: seq<LogEvent>

    constructor()
      ensures mdc == map[] && events == []
    {
      mdc := map[];
      events := [];
    }

    /** One call of an SLF4J logger: the line carries the MDC as it is now. */
    method Emit(channel: Channel, level: Level, template: string, args: seq<string>,
                thrown: Option<Exception>) returns (e: LogEvent)
      modifies this`events
      ensures e == LogEvent(channel, level, template, args, thrown, mdc)
      ensures events == old(events) + [e]
    {
      e := LogEvent(channel, level, template, args, thrown, mdc);
      events := events + [e];
    }

    /** `context.forEach((key, value) -> { if (value != null) MDC.put(key, value.toString()); })` */
    method PutNonNull(context: map<string, Scalar>)
      modifies this`mdc
      ensures mdc == old(mdc) + ContextStrings(Some(context))
    {
      var pending := context.Keys;
      ghost var done: map<string, Scalar> := map[];
      while pending != {}
        invariant pending !! done.Keys && pending + done.Keys == context.Keys
        invariant forall k :: k in done ==> done[k] == context[k]
        invariant mdc == old(mdc) + ContextStrings(Some(done))
        decreases pending
      {
        var key :| key in pending;
        var value := context[key];
        ContextStringsAdd(done, key, value);
        if !value.NullValue? {
          UpdateUnion(old(mdc), ContextStrings(Some(done)), key, value.Render());
          mdc := mdc[key := value.Render()];
        }
        done := done[key := value];
        pending := pending - {key};
      }
      assert done == context;
    }

    method LogApiRequest(httpMethod: string, endpoint: string, clientIp: string,
                         customerId: Option<int>, responseTime: int, statusCode: int,
                         uuid: string) returns (e: LogEvent)
      requires IsUuidString(uuid)
      modifies this
      ensures e == ApiRequestEvent(old(mdc), RequestId(uuid), httpMethod, endpoint, clientIp,
                                   customerId, responseTime, statusCode)
      ensures events == old(events) + [e]
      ensures mdc == map[]
    {
      var requestId := RequestId(uuid);
      mdc := mdc["requestId" := requestId];
      mdc := mdc["method" := httpMethod];
      mdc := mdc["endpoint" := endpoint];
      mdc := mdc["clientIp" := clientIp];
      mdc := mdc["responseTime" := LongToString(responseTime)];
      mdc := mdc["statusCode" := LongToString(statusCode)];
      if customerId.Some? {
        mdc := mdc["customerId" := LongToString(customerId.value)];
      }
      e := Emit(ApiAccess, Info, "API Request: {} {} - Status: {} - Response Time: {}ms",
                [httpMethod, endpoint, LongToString(statusCode), LongToString(responseTime)], None);
      mdc := map[];
    }

    method LogBusinessEvent(operation: string, entityType: string, entityId: Option<int>,
                            details: string, success: bool, uuid: string) returns (e: LogEvent)
      requires IsUuidString(uuid)
      modifies this
      ensures e == BusinessEvent(old(mdc), EventId(uuid), operation, entityType, entityId,
                                 details, success)
      ensures events == old(events) + [e]
      ensures mdc == map[]
    {
      var eventId := EventId(uuid);
      mdc := mdc["eventId" := eventId];
      mdc := mdc["operation" := operation];
      mdc := mdc["entityType" := entityType];
      mdc := mdc["success" := BoolToString(success)];
      if entityId.Some? {
        mdc := mdc["entityId" := LongToString(entityId.value)];
      }
      var shownId := if entityId.Some? then LongToString(entityId.value) else "N/A";
      if success {
        e := Emit(BusinessEvents, Info, "Business Event: {} {} {} - {}",
                  [operation, entityType, shownId, details], None);
      } else {
        e := Emit(BusinessEvents, Warn, "Business Event Failed: {} {} {} - {}",
                  [operation, entityType, shownId, details], None);
      }
      mdc := map[];
    }

    method LogError(operation: string, errorMessage: string, exception: Option<Exception>,
                    context: Option<map<string, Scalar>>, uuid: string) returns (e: LogEvent)
      requires IsUuidString(uuid)
      modifies this
      ensures e == ErrorEvent(old(mdc), ErrorId(uuid), operation, errorMessage, exception,
                              context)
      ensures events == old(events) + [e]
      ensures mdc == map[]
    {
      var errorId := ErrorId(uuid);
      mdc := mdc["errorId" := errorId];
      mdc := mdc["operation" := operation];
      mdc := mdc["errorType" := if exception.Some? then exception.value.simpleName else "Unknown"];
      if context.Some? {
        PutNonNull(context.value);
      }
      if exception.Some? {
        e := Emit(ErrorEvents, Error, "Application Error in {}: {} - {}",
                  [operation, errorMessage, StringOf(exception.value.message)], exception);
      } else {
        e := Emit(ErrorEvents, Error, "Application Error in {}: {}",
                  [operation, errorMessage], None);
      }
      mdc := map[];
    }

    method LogPerformanceMetric(operation: string, executionTime: int,
                                metrics: Option<map<string, Scalar>>) returns (e: LogEvent)
      modifies this
      ensures e == PerformanceEvent(old(mdc), operation, executionTime, metrics)
      ensures events == old(events) + [e]
      ensures mdc == map[]
    {
      mdc := mdc["operation" := operation];
      mdc := mdc["executionTime" := LongToString(executionTime)];
      if metrics.Some? {
        PutNonNull(metrics.value);
      }
      e := Emit(ServiceLogger, Info, "Performance Metric: {} completed in {}ms",
                [operation, LongToString(executionTime)], None);
      mdc := map[];
    }

    method LogHealthCheck(component: string, healthy: bool, details: string)
      returns (e: LogEvent)
      modifies this
      ensures e == HealthCheckEvent(old(mdc), component, healthy, details)
      ensures events == old(events) + [e]
      ensures mdc == map[]
    {
      mdc := mdc["component" := component];
      mdc := mdc["healthy" := BoolToString(healthy)];
      if healthy {
        e := Emit(ServiceLogger, Info, "Health Check: {} is healthy - {}",
                  [component, details], None);
      } else {
        e := Emit(ServiceLogger, Warn, "Health Check: {} is unhealthy - {}",
                  [component, details], None);
      }
      mdc := map[];
    }
  }

  // ------------------------------------------------ properties across calls

  /** Caller context overwrites: a key of the caller's map that is also a fixed key ends
      up with the caller's value, and a null value never reaches the line. */
  lemma ErrorContextOverwrites(before: map<string, string>, errorId: string, operation: string,
                               message: string, exception: Option<Exception>,
                               context: map<string, Scalar>, key: string)
    requires key in context
    ensures !context[key].NullValue? ==>
              ErrorEvent(before, errorId, operation, message, exception, Some(context))
                .context[key] == context[key].Render()
    ensures context[key].NullValue? && key !in before &&
            key !in {"errorId", "operation", "errorType"} ==>
              key !in ErrorEvent(before, errorId, operation, message, exception, Some(context))
                        .context
  {
  }
}
