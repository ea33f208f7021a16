/** `CustomerController` of the `com.ps.cs` service: the five CRUD handlers and the
    health endpoint. Each handler receives what its service call produced (a value, or
    the exception it raised) and the clock reading taken after it; the random UUIDs
    behind the event and error ids are parameters too. */
module Controller {
  import opened Base
  import opened JavaStrings
  import opened CustomerModel
  import opened Logging
  import opened Health
  import opened Responses

  // --------------------------------------------------------------- create

  /** The exception that ends the `try` block of `createCustomer`: the service's own,
      or the `NullPointerException` of `Map.of` when the created customer lacks an id or
      a name; None when the block completes. */
  function CreateFailure(service: Outcome<Customer>): (f: Option<Exception>)
    ensures f.None? <==> service.Returned? && service.value.id.Some? && service.value.name.Some?
    ensures service.Raised? ==> f == Some(service.error)
  {
    match service
    case Raised(e) => Some(e)
    case Returned(c) => if c.id.Some? && c.name.Some? then None else Some(NullPointer)
  }

  /** What `createCustomer` answers. The `catch` block builds its own context with
      `Map.of`, so a request body without a name makes that block throw in turn. */
  function CreateResult(service: Outcome<Customer>, customer: Customer): Outcome<Response<Customer>>
  {
    match CreateFailure(service)
    case None => Returned(CreatedWith(service.value))
    case Some(_) => if customer.name.None? then Raised(NullPointer) else Returned(BadRequestResponse())
  }

  /** The lines `createCustomer` emits, the MDC holding `before` on entry. */
  function CreateEvents(before: map<string, string>, customer: Customer, service: Outcome<Customer>,
                        t: int, createdUuid: string, errorUuid: string, failedUuid: string)
    : seq<LogEvent>
    requires IsUuidString(createdUuid) && IsUuidString(errorUuid) && IsUuidString(failedUuid)
  {
    var created :=
      if service.Returned? then
        [BusinessEvent(before, EventId(createdUuid), "CREATE", "Customer", service.value.id,
                       "Customer created successfully: " + StringOf(service.value.name), true)]
      else [];
    match CreateFailure(service)
    case None =>
      created + [PerformanceEvent(map[], "createCustomer", t,
                   Some(map["customerId" := Number(service.value.id.value),
                            "customerName" := Text(service.value.name.value)]))]
    case Some(e) =>
      created + if customer.name.None? then [] else
        [ErrorEvent(if service.Returned? then map[] else before, ErrorId(errorUuid),
                    "createCustomer", "Failed to create customer", Some(e),
                    Some(map["customerName" := Text(customer.name.value), "executionTime" := Number(t)])),
         BusinessEvent(map[], EventId(failedUuid), "CREATE", "Customer", None,
                       "Failed to create customer: " + StringOf(e.message), false)]
  }

  /** `createCustomer` answers 201 with the created customer exactly when the `try` block
      completes, 400 on any failure when the request body has a name, and otherwise lets
      the catch block's own `NullPointerException` escape. A failure answered with 400
      is logged by exactly one error line carrying it, followed by a failed business
      event. */
  lemma CreateOutcomes(before: map<string, string>, customer: Customer, service: Outcome<Customer>,
                       t: int, createdUuid: string, errorUuid: string, failedUuid: string)
    requires IsUuidString(createdUuid) && IsUuidString(errorUuid) && IsUuidString(failedUuid)
    ensures var r := CreateResult(service, customer);
      var events := CreateEvents(before, customer, service, t, createdUuid, errorUuid, failedUuid);
      && (r.Returned? && r.value.status == Created <==> CreateFailure(service).None?)
      && (r.Returned? && r.value.status == Created ==> r.value.body == Some(service.value))
      && (r.Returned? && r.value.status == BadRequest <==>
            CreateFailure(service).Some? && customer.name.Some?)
      && (r.Raised? <==> CreateFailure(service).Some? && customer.name.None?)
      && (r.Raised? ==> r.error == NullPointer)
      && (CreateFailure(service).Some? && customer.name.Some? ==>
            && |events| >= 2
            && events[|events| - 2].level == Error
            && events[|events| - 2].thrown == CreateFailure(service)
            && events[|events| - 1].channel == BusinessEvents
            && events[|events| - 1].level == Warn)
  {
  }

  // ------------------------------------------------------------------ health

  function UpDown(up: bool): (s: string)
    ensures s == "UP" || s == "DOWN"
    ensures s == "UP" <==> up
  {
    if up then "UP" else "DOWN"
  }

  /** The body of a health check that completed, without the timestamp. */
  function HealthBody(serviceHealthy: bool, cloudWatch: map<string, Json>): map<string, Json>
  {
    map["status" := JString(UpDown(serviceHealthy && ReportsUp(cloudWatch))),
        "service" := JString("customer-service"),
        "version" := JString("1.0.0"),
        "components" := JObject(map["customerService" := JString(UpDown(serviceHealthy)),
                                    "cloudWatch" := JObject(cloudWatch)])]
  }

  /** The body of a health check whose service call threw, without the timestamp. */
  function HealthFailureBody(e: Exception): map<string, Json>
  {
    map["status" := JString("DOWN"), "service" := JString("customer-service"),
        "error" := TextOrNull(e.message)]
  }

  function HealthDetails(serviceHealthy: bool, cloudWatchHealthy: bool): string
  {
    "Health check completed - Service: " + UpDown(serviceHealthy) +
    ", CloudWatch: " + UpDown(cloudWatchHealthy)
  }

  /** Overall health is UP exactly when the service listed its customers and the probe
      reached CloudWatch; the components repeat the service verdict and the indicator's
      map unchanged. */
  lemma HealthVerdict(serviceHealthy: bool, probe: Probe)
    ensures var body := HealthBody(serviceHealthy, StatusMap(probe));
      && (body["status"] == JString("UP") <==> serviceHealthy && probe.Reachable?)
      && body["components"].fields["customerService"] == JString(UpDown(serviceHealthy))
      && body["components"].fields["cloudWatch"] == JObject(StatusMap(probe))
  {
    StatusMapReportsUp(probe);
  }

  const Entity: string := "Customer"

  /** The caller context of the error lines of the handlers that take an id. */
  function IdContext(id: int, t: int): map<string, Scalar>
  {
    map["customerId" := Number(id), "executionTime" := Number(t)]
  }

  class CustomerController {
    const log: LoggingService
    const indicator: CloudWatchHealthIndicator

    /** Spring injects the one `LoggingService` bean into both the controller and the
        indicator. */
    constructor(log: LoggingService, indicator: CloudWatchHealthIndicator)
      requires indicator.log == log
      ensures this.log == log && this.indicator == indicator
    {
      this.log := log;
      this.indicator := indicator;
    }

    /** `getAllCustomers`: on success a business event and a metric, then 200 with the
        list; on failure one error line, and the same exception leaves the handler. */
    method GetAllCustomers(service: Outcome<seq<Customer>>, start: int, now: int,
                           eventUuid: string, errorUuid: string)
      returns (r: Outcome<Response<seq<Customer>>>)
      requires IsUuidString(eventUuid) && IsUuidString(errorUuid)
      modifies log
      ensures service.Returned? ==>
        && r == Returned(Success(service.value))
        && log.events == old(log.events) +
             [BusinessEvent(old(log.mdc), EventId(eventUuid), "GET_ALL", Entity, None,
                            "Retrieved " + LongToString(|service.value|) + " customers", true),
              PerformanceEvent(map[], "getAllCustomers", now - start,
                               Some(map["customerCount" := Number(|service.value|)]))]
      ensures service.Raised? ==>
        && r == Raised(service.error)
        && log.events == old(log.events) +
             [ErrorEvent(old(log.mdc), ErrorId(errorUuid), "getAllCustomers",
                         "Failed to fetch customers", Some(service.error),
                         Some(map["executionTime" := Number(now - start)]))]
      ensures log.mdc == map[]
    {
      if service.Returned? {
        var _ := log.LogBusinessEvent("GET_ALL", Entity, None,
                                      "Retrieved " + LongToString(|service.value|) + " customers",
                                      true, eventUuid);
        var _ := log.LogPerformanceMetric("getAllCustomers", now - start,
                                          Some(map["customerCount" := Number(|service.value|)]));
        r := Returned(Success(service.value));
      } else {
        var _ := log.LogError("getAllCustomers", "Failed to fetch customers", Some(service.error),
                              Some(map["executionTime" := Number(now - start)]), errorUuid);
        r := Raised(service.error);
      }
    }

    /** `getCustomerById`: 200 with the customer when the service found one, 404 with no
        body otherwise; a failure is logged and re-raised. */
    method GetCustomerById(id: int, service: Outcome<Option<Customer>>, start: int, now: int,
                           eventUuid: string, errorUuid: string)
      returns (r: Outcome<Response<Customer>>)
      requires IsUuidString(eventUuid) && IsUuidString(errorUuid)
      modifies log
      ensures service.Returned? ==>
        var found := service.value.Some?;
        && r == Returned(OkOrNotFound(service.value))
        && log.events == old(log.events) +
             [BusinessEvent(old(log.mdc), EventId(eventUuid), "GET_BY_ID", Entity, Some(id),
                            if found then "Customer found" else "Customer not found", found),
              PerformanceEvent(map[], "getCustomerById", now - start,
                               Some(map["customerId" := Number(id), "found" := Flag(found)]))]
      ensures service.Raised? ==>
        && r == Raised(service.error)
        && log.events == old(log.events) +
             [ErrorEvent(old(log.mdc), ErrorId(errorUuid), "getCustomerById",
                         "Failed to fetch customer by ID", Some(service.error),
                         Some(IdContext(id, now - start)))]
      ensures log.mdc == map[]
    {
      if service.Returned? {
        var found := service.value.Some?;
        var _ := log.LogBusinessEvent("GET_BY_ID", Entity, Some(id),
                                      if found then "Customer found" else "Customer not found",
                                      found, eventUuid);
        var _ := log.LogPerformanceMetric("getCustomerById", now - start,
                                          Some(map["customerId" := Number(id), "found" := Flag(found)]));
        r := Returned(OkOrNotFound(service.value));
      } else {
        var _ := log.LogError("getCustomerById", "Failed to fetch customer by ID", Some(service.error),
                              Some(IdContext(id, now - start)), errorUuid);
        r := Raised(service.error);
      }
    }

    /** `createCustomer`, whose lines and answer are `CreateEvents` and `CreateResult`. */
    method CreateCustomer(customer: Customer, service: Outcome<Customer>, start: int, now: int,
                          createdUuid: string, errorUuid: string, failedUuid: string)
      returns (r: Outcome<Response<Customer>>)
      requires IsUuidString(createdUuid) && IsUuidString(errorUuid) && IsUuidString(failedUuid)
      modifies log
      ensures r == CreateResult(service, customer)
      ensures log.events == old(log.events) +
        CreateEvents(old(log.mdc), customer, service, now - start, createdUuid, errorUuid, failedUuid)
      ensures log.mdc ==
        if service.Raised? && customer.name.None? then old(log.mdc) else map[]
    {
      var failure: Option<Exception> := None;
      if service.Returned? {
        var _ := log.LogBusinessEvent("CREATE", Entity, service.value.id,
                                      "Customer created successfully: " + StringOf(service.value.name),
                                      true, createdUuid);
        if service.value.id.Some? && service.value.name.Some? {
          var _ := log.LogPerformanceMetric("createCustomer", now - start,
            Some(map["customerId" := Number(service.value.id.value),
                     "customerName" := Text(service.value.name.value)]));
          r := Returned(CreatedWith(service.value));
        } else {
          failure := Some(NullPointer);
        }
      } else {
        failure := Some(service.error);
      }
      if failure.Some? {
        if customer.name.None? {
          r := Raised(NullPointer);
        } else {
          var _ := log.LogError("createCustomer", "Failed to create customer", failure,
            Some(map["customerName" := Text(customer.name.value), "executionTime" := Number(now - start)]),
            errorUuid);
          var _ := log.LogBusinessEvent("CREATE", Entity, None,
                                        "Failed to create customer: " + StringOf(failure.value.message),
                                        false, failedUuid);
          r := Returned(BadRequestResponse());
        }
      }
    }

    /** `updateCustomer`: 200 with the updated customer when the service found the id,
        404 otherwise; a failure is logged and re-raised. */
    method UpdateCustomer(id: int, service: Outcome<Option<Customer>>, start: int, now: int,
                          eventUuid: string, errorUuid: string)
      returns (r: Outcome<Response<Customer>>)
      requires IsUuidString(eventUuid) && IsUuidString(errorUuid)
      modifies log
      ensures service.Returned? ==>
        var updated := service.value.Some?;
        && r == Returned(OkOrNotFound(service.value))
        && log.events == old(log.events) +
             [BusinessEvent(old(log.mdc), EventId(eventUuid), "UPDATE", Entity, Some(id),
                            if updated then "Customer updated successfully"
                            else "Customer not found for update", updated),
              PerformanceEvent(map[], "updateCustomer", now - start,
                               Some(map["customerId" := Number(id), "updated" := Flag(updated)]))]
      ensures service.Raised? ==>
        && r == Raised(service.error)
        && log.events == old(log.events) +
             [ErrorEvent(old(log.mdc), ErrorId(errorUuid), "updateCustomer",
                         "Failed to update customer", Some(service.error),
                         Some(IdContext(id, now - start)))]
      ensures log.mdc == map[]
    {
      if service.Returned? {
        var updated := service.value.Some?;
        var _ := log.LogBusinessEvent("UPDATE", Entity, Some(id),
                                      if updated then "Customer updated successfully"
                                      else "Customer not found for update", updated, eventUuid);
        var _ := log.LogPerformanceMetric("updateCustomer", now - start,
                                          Some(map["customerId" := Number(id), "updated" := Flag(updated)]));
        r := Returned(OkOrNotFound(service.value));
      } else {
        var _ := log.LogError("updateCustomer", "Failed to update customer", Some(service.error),
                              Some(IdContext(id, now - start)), errorUuid);
        r := Raised(service.error);
      }
    }

    /** `deleteCustomer`: 204 when the service deleted something, 404 otherwise, neither
        with a body; a failure is logged and re-raised. */
    method DeleteCustomer(id: int, service: Outcome<bool>, start: int, now: int,
                          eventUuid: string, errorUuid: string)
      returns (r: Outcome<Response<()>>)
      requires IsUuidString(eventUuid) && IsUuidString(errorUuid)
      modifies log
      ensures service.Returned? ==>
        var deleted := service.value;
        && r.Returned? && r.value.body.None?
        && (r.value.status == (if deleted then NoContent else NotFound))
        && log.events == old(log.events) +
             [BusinessEvent(old(log.mdc), EventId(eventUuid), "DELETE", Entity, Some(id),
                            if deleted then "Customer deleted successfully"
                            else "Customer not found for deletion", deleted),
              PerformanceEvent(map[], "deleteCustomer", now - start,
                               Some(map["customerId" := Number(id), "deleted" := Flag(deleted)]))]
      ensures service.Raised? ==>
        && r == Raised(service.error)
        && log.events == old(log.events) +
             [ErrorEvent(old(log.mdc), ErrorId(errorUuid), "deleteCustomer",
                         "Failed to delete customer", Some(service.error),
                         Some(IdContext(id, now - start)))]
      ensures log.mdc == map[]
    {
      if service.Returned? {
        var deleted := service.value;
        var _ := log.LogBusinessEvent("DELETE", Entity, Some(id),
                                      if deleted then "Customer deleted successfully"
                                      else "Customer not found for deletion", deleted, eventUuid);
        var _ := log.LogPerformanceMetric("deleteCustomer", now - start,
                                          Some(map["customerId" := Number(id), "deleted" := Flag(deleted)]));
        r := Returned(if deleted then NoContentResponse() else NotFoundResponse());
      } else {
        var _ := log.LogError("deleteCustomer", "Failed to delete customer", Some(service.error),
                              Some(IdContext(id, now - start)), errorUuid);
        r := Raised(service.error);
      }
    }

    /** `health`: when the service call completes, the indicator is asked, a composite
        health line is logged and the answer is 200 whatever the verdict; when it throws,
        one error line and 503. The handler itself never throws. `listed` is the
        service's list, None for a null one. */
    method HealthCheck(listed: Outcome<Option<seq<Customer>>>, probe: Probe, errorUuid: string)
      returns (r: Response<map<string, Json>>)
      requires indicator.log == log
      requires IsUuidString(errorUuid)
      modifies log
      ensures listed.Returned? ==>
        var serviceHealthy := listed.value.Some?;
        var healthy := serviceHealthy && probe.Reachable?;
        && r == Success(HealthBody(serviceHealthy, StatusMap(probe)))
        && log.events == old(log.events) +
             [HealthCheckEvent(old(log.mdc), Component, probe.Reachable?, ProbeDetails(probe)),
              HealthCheckEvent(map[], "customer-service", healthy,
                               HealthDetails(serviceHealthy, probe.Reachable?))]
      ensures listed.Raised? ==>
        && r == Response(ServiceUnavailable, Some(HealthFailureBody(listed.error)))
        && log.events == old(log.events) +
             [ErrorEvent(old(log.mdc), ErrorId(errorUuid), "healthCheck", "Health check failed",
                         Some(listed.error), Some(map["component" := Text("customer-service")]))]
      ensures log.mdc == map[]
    {
      if listed.Returned? {
        var serviceHealthy := listed.value.Some?;
        var cloudWatch := indicator.CheckCloudWatchHealth(probe);
        var cloudWatchHealthy := ReportsUp(cloudWatch);
        StatusMapReportsUp(probe);
        var _ := log.LogHealthCheck("customer-service", serviceHealthy && cloudWatchHealthy,
                                    HealthDetails(serviceHealthy, cloudWatchHealthy));
        r := Success(HealthBody(serviceHealthy, cloudWatch));
      } else {
        var _ := log.LogError("healthCheck", "Health check failed", Some(listed.error),
                              Some(map["component" := Text("customer-service")]), errorUuid);
        r := Response(ServiceUnavailable, Some(HealthFailureBody(listed.error)));
      }
    }
  }
}
