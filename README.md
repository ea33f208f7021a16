# Customer service: instrumentation and CRUD core, modelled in Dafny

The repository is a Spring Boot customer-management REST service (`com.ps.cs`).
It sits beside a smaller demonstration service (`com.example.customer`). This project
models the parts that carry the logic:

- the structured logger `LoggingService`. It fills SLF4J's MDC (the per-thread
  correlation map), emits one line, and clears the map again;
- the request interceptor `LoggingInterceptor`. It records the start time, finds the
  client address in the forwarding headers, extracts the customer id from the path and
  writes the access and error lines;
- `MetricsService` over a meter registry of counters, timers and gauges;
- `CloudWatchHealthIndicator`, whose AWS call is replaced by its outcome;
- `ValidationUtils` and `ResponseUtils`;
- the in-memory repository, the service implementation over it, and the controller;
- the `com.example.customer` service and controller.

Each source file has its Dafny module: `Logging`, `Interceptor`, `Metrics`, `Health`,
`Validation`, `Responses`, `Repository`, `Service`, `Controller` and `ExampleCustomers`.
`Base` holds the shared option, outcome and JSON value types and the stream `filter` and
`findFirst`. `JavaStrings` holds the parts of `java.lang.String` and `Long` the code
relies on: `trim`, `toLowerCase`, `split`, `indexOf`, `parseLong` and `toString`.
`CustomerModel` holds the customer record.

Objects whose fields the source changes are classes:

- the logger: its MDC is a map field and its emitted lines are a sequence field;
- the repository: the list of customers and the id counter;
- the meter registry, the servlet request's attribute map, and the services and
  controller that hold them.

Each logging method is proved against a function. That function gives the line the
method emits from the MDC on entry, and a lemma states that line's shape. The rest is
functions and lemmas about them.

These become parameters:

- clock readings;
- the random UUIDs behind request, event and error ids;
- the outcome of the CloudWatch call;
- what the controller's service call returned.

## Model

| member | source | states |
|---|---|---|
| Logging.RequestId | src/main/java/com/ps/cs/service/LoggingService.java:151-153 | A request id is "REQ-" followed by the UUID's first eight characters, which are lower-case hex digits. |
| Logging.EventId | src/main/java/com/ps/cs/service/LoggingService.java:155-157 | An event id is "EVT-" followed by the UUID's first eight characters, which are lower-case hex digits. |
| Logging.ErrorId | src/main/java/com/ps/cs/service/LoggingService.java:159-161 | An error id is "ERR-" followed by the UUID's first eight characters, which are lower-case hex digits. |
| Logging.ContextStrings | src/main/java/com/ps/cs/service/LoggingService.java:91-97 | Copying a caller's map puts exactly its non-null entries into the MDC, each as `toString()`. A null map adds nothing. |
| Logging.ContextStringsAdd | src/main/java/com/ps/cs/service/LoggingService.java:92-96 | One more entry grows the copied map by that entry when its value is non-null, and changes nothing when it is null. |
| Logging.IdText | src/main/java/com/ps/cs/service/LoggingService.java:66-71 | A null entity id reads "N/A" in the message, any other id its decimal form. |
| Logging.ErrorType | src/main/java/com/ps/cs/service/LoggingService.java:88 | The `errorType` entry is the exception's simple class name, or "Unknown" without one. |
| Logging.ApiRequestEventShape | src/main/java/com/ps/cs/service/LoggingService.java:26-47 | The access line is INFO on `API_ACCESS` with the four message arguments. Its MDC snapshot holds the six request keys, plus `customerId` exactly when an id was given. Every other entry of the caller's MDC is kept. |
| Logging.BusinessEventShape | src/main/java/com/ps/cs/service/LoggingService.java:52-76 | The business line is INFO exactly on success and WARN otherwise. Its snapshot holds the four fixed keys, plus `entityId` exactly when the id is not null. |
| Logging.ErrorEventShape | src/main/java/com/ps/cs/service/LoggingService.java:81-108 | The error line is always ERROR and carries the exception. The exception's message is an argument only when there is an exception. Every non-null caller entry is in the snapshot and wins over the fixed keys. |
| Logging.PerformanceEventShape | src/main/java/com/ps/cs/service/LoggingService.java:113-131 | The metric line is INFO with operation and time. Every non-null metric is in the snapshot and wins over the two fixed keys. |
| Logging.HealthCheckEventShape | src/main/java/com/ps/cs/service/LoggingService.java:136-149 | The health line is INFO exactly when healthy and WARN otherwise, with `component` and `healthy` in the snapshot. |
| Logging.ErrorContextOverwrites | src/main/java/com/ps/cs/service/LoggingService.java:88-97 | A caller entry that shares a fixed key overwrites it. A null caller value never reaches the line. |
| Logging.LoggingService.constructor | src/main/java/com/ps/cs/service/LoggingService.java:16-21 | The MDC starts empty and no line has been written. |
| Logging.LoggingService.Emit | src/main/java/com/ps/cs/service/LoggingService.java:42-43 | A logger call appends one line carrying the current MDC. |
| Logging.LoggingService.PutNonNull | src/main/java/com/ps/cs/service/LoggingService.java:91-97 | The `forEach` loop leaves the old MDC updated with exactly the caller's non-null entries. |
| Logging.LoggingService.LogApiRequest | src/main/java/com/ps/cs/service/LoggingService.java:26-47 | It appends exactly one line, the access line built from the MDC on entry, and leaves the MDC empty (the `finally` block). |
| Logging.LoggingService.LogBusinessEvent | src/main/java/com/ps/cs/service/LoggingService.java:52-76 | It appends exactly the business line and leaves the MDC empty. |
| Logging.LoggingService.LogError | src/main/java/com/ps/cs/service/LoggingService.java:81-108 | It appends exactly the error line and leaves the MDC empty. |
| Logging.LoggingService.LogPerformanceMetric | src/main/java/com/ps/cs/service/LoggingService.java:113-131 | It appends exactly the metric line and leaves the MDC empty. |
| Logging.LoggingService.LogHealthCheck | src/main/java/com/ps/cs/service/LoggingService.java:136-149 | It appends exactly the health line and leaves the MDC empty. |
| Interceptor.HttpRequest.constructor | src/main/java/com/ps/cs/interceptor/LoggingInterceptor.java:40-43 | A request carries its method, URI, headers and remote address, and no attributes yet. |
| Interceptor.ClientIpAddress | src/main/java/com/ps/cs/interceptor/LoggingInterceptor.java:66-78 | The address is the trimmed first field of a non-empty `X-Forwarded-For`; else a non-empty `X-Real-IP`; else the remote address. |
| Interceptor.ClientIpIsFirstHop | src/main/java/com/ps/cs/interceptor/LoggingInterceptor.java:68-70 | An address taken from a forwarding chain has no comma and no blank at either end. |
| Interceptor.IdPart | src/main/java/com/ps/cs/interceptor/LoggingInterceptor.java:90-94 | The id text is a prefix of the segment with no `?` in it. It stops at the first `?`, and is the whole segment when there is none. |
| Interceptor.FirstCustomers | src/main/java/com/ps/cs/interceptor/LoggingInterceptor.java:88-89 | The index found is that of the first segment equal to "customers", and there is none exactly when no segment is. |
| Interceptor.IdFromSegments | src/main/java/com/ps/cs/interceptor/LoggingInterceptor.java:88-97 | An id found is in the `long` range and parses from the segment after the first "customers" segment that is not last. |
| Interceptor.FirstCustomersDecides | src/main/java/com/ps/cs/interceptor/LoggingInterceptor.java:88-96 | The first "customers" segment before the last one decides alone. The loop returns there, number or not. |
| Interceptor.NoCustomersNoId | src/main/java/com/ps/cs/interceptor/LoggingInterceptor.java:88-102 | Without a "customers" segment before the last one there is no id. |
| Interceptor.CustomerIdOf | src/main/java/com/ps/cs/interceptor/LoggingInterceptor.java:83-103 | An id is found only when the path matches `.*/customers/\d+.*`, and it is then the one the segment scan yields. |
| Interceptor.ScanSegments | src/main/java/com/ps/cs/interceptor/LoggingInterceptor.java:88-97 | The index loop with its early return computes the segment-scan id. |
| Interceptor.ExtractCustomerIdFromPath | src/main/java/com/ps/cs/interceptor/LoggingInterceptor.java:83-103 | The method returns the id of the path. A number that does not parse gives null, as the ignored `NumberFormatException` does. |
| Interceptor.FieldsUnderWord | src/main/java/com/ps/cs/interceptor/LoggingInterceptor.java:87 | Splitting `/w/x/seg...` on `/` gives "", `w`, `x` and `seg` as its first four fields. |
| Interceptor.IdUnderWord | src/main/java/com/ps/cs/interceptor/LoggingInterceptor.java:86-95 | A matching path `/w/customers/seg...` yields the parse of `seg` cut at `?`. |
| Interceptor.PatternUnderWord | src/main/java/com/ps/cs/interceptor/LoggingInterceptor.java:86 | A path `/w/customers/` followed by a digit, with no line terminator anywhere, matches the pattern. |
| Interceptor.IdOfPath | src/main/java/com/ps/cs/interceptor/LoggingInterceptor.java:83-103 | For such a path the extracted id is exactly `Long.parseLong` of the segment cut at `?`. |
| Interceptor.CanonicalPathYieldsId | src/main/java/com/ps/cs/interceptor/LoggingInterceptor.java:85-95 | `/api/customers/{n}`, for every non-negative `long` n, yields n. |
| Interceptor.QueryIsStripped | src/main/java/com/ps/cs/interceptor/LoggingInterceptor.java:91-95 | `/api/customers/{n}?{query}` yields n whatever the slash-free query. |
| Interceptor.NotANumber | src/main/java/com/ps/cs/interceptor/LoggingInterceptor.java:95 | A segment with a non-digit after its first character does not parse. |
| Interceptor.UnparsableIdGivesNone | src/main/java/com/ps/cs/interceptor/LoggingInterceptor.java:95-101 | A path whose id segment begins with a digit but is not a number (`12abc`) yields null. |
| Interceptor.CollectionPathHasNoId | src/main/java/com/ps/cs/interceptor/LoggingInterceptor.java:86 | `/api/customers` does not match, so it has no id. |
| Interceptor.ResponseTime | src/main/java/com/ps/cs/interceptor/LoggingInterceptor.java:36-37 | The response time is the time elapsed since the recorded start, or 0 when none was recorded. |
| Interceptor.ErrorContext | src/main/java/com/ps/cs/interceptor/LoggingInterceptor.java:54-59 | The error context has exactly the four request keys, none of them null. |
| Interceptor.StampThenMeasure | src/main/java/com/ps/cs/interceptor/LoggingInterceptor.java:28-37 | A request stamped at `start` and completed at `now` reports `now - start`. |
| Interceptor.LoggingInterceptor.constructor | src/main/java/com/ps/cs/interceptor/LoggingInterceptor.java:21-23 | The interceptor holds the injected logger. |
| Interceptor.LoggingInterceptor.PreHandle | src/main/java/com/ps/cs/interceptor/LoggingInterceptor.java:26-30 | The request proceeds. Its `startTime` attribute is now the clock reading, and no other attribute changes. |
| Interceptor.LoggingInterceptor.AfterCompletion | src/main/java/com/ps/cs/interceptor/LoggingInterceptor.java:33-61 | It appends one access line with the request's data, status, client address and extracted id. Only when the handler threw, an error line follows, with the four-key context. The MDC is empty afterwards. |
| Metrics.Bump | src/main/java/com/ps/cs/service/MetricsService.java:144-150 | Incrementing a meter (get-or-create) raises its count by one, registers it, and leaves every other count alone. |
| Metrics.WithCounter | src/main/java/com/ps/cs/service/MetricsService.java:37-67 | Registering a counter adds its id, starts a new one at 0 and keeps every existing count. |
| Metrics.WithTimer | src/main/java/com/ps/cs/service/MetricsService.java:68-73 | Registering a timer adds its id, starts a new one with no samples and keeps existing timers. |
| Metrics.TagPairs | src/main/java/com/ps/cs/service/MetricsService.java:132-137 | The alternating strings become `length / 2` tags, tag j from the strings at `2j` and `2j + 1`. |
| Metrics.TagMapKeys | src/main/java/com/ps/cs/service/MetricsService.java:144-161 | Every tag key is in the meter's tag map, every key comes from a tag, and for a repeated key the last tag wins. |
| Metrics.TagArray | src/main/java/com/ps/cs/service/MetricsService.java:132-137 | The stride-2 loop fills every slot of the half-length array, slot j with the pair at `2j`, and skips an odd trailing key. |
| Metrics.MeterRegistry.constructor | src/main/java/com/ps/cs/service/MetricsService.java:18 | A new registry holds no meters. |
| Metrics.MeterRegistry.RegisterCounter | src/main/java/com/ps/cs/service/MetricsService.java:37-67 | `register` of a counter adds it at 0 or keeps the existing one. |
| Metrics.MeterRegistry.RegisterTimer | src/main/java/com/ps/cs/service/MetricsService.java:68-73 | `register` of a timer adds it empty or keeps the existing one. |
| Metrics.MeterRegistry.Increment | src/main/java/com/ps/cs/service/MetricsService.java:144-150 | `increment` is the get-or-create bump of one counter. |
| Metrics.Observe | src/main/java/com/ps/cs/service/MetricsService.java:155-161 | A recorded amount registers the timer and adds one sample when it is not negative. A negative amount adds none, as Micrometer ignores it. Every other timer keeps its samples. |
| Metrics.MeterRegistry.Record | src/main/java/com/ps/cs/service/MetricsService.java:155-161 | `record` changes the timers exactly as `Observe` describes, for one timer. |
| Metrics.MeterRegistry.RegisterGauge | src/main/java/com/ps/cs/service/MetricsService.java:138 | Registering a gauge adds its id to the gauges. |
| Metrics.OperationCounterInjective | src/main/java/com/ps/cs/service/MetricsService.java:37-61 | Counters with the same id carry the same operation tag. |
| Metrics.CoreCountersDistinct | src/main/java/com/ps/cs/service/MetricsService.java:37-67 | The constructor's six counters are six different meters, and each of the five operations has its counter among them. |
| Metrics.CoreMetersRegistered | src/main/java/com/ps/cs/service/MetricsService.java:33-74 | The constructor adds exactly the six core counters and the two timers, and keeps every meter already registered. |
| Metrics.OperationMeter | src/main/java/com/ps/cs/service/MetricsService.java:79-97 | A counter is chosen exactly when the lower-cased name is one of the five operations, and it is that operation's counter. |
| Metrics.RepeatedOperations | src/main/java/com/ps/cs/service/MetricsService.java:79-97 | k calls with a known name raise its counter by exactly k and leave every other counter alone. k calls with an unknown name change nothing. |
| Metrics.MetricsService.constructor | src/main/java/com/ps/cs/service/MetricsService.java:33-74 | The registry gains the core counters and timers. Its gauges are unchanged. |
| Metrics.MetricsService.IncrementCustomerOperation | src/main/java/com/ps/cs/service/MetricsService.java:79-97 | The counters become those after one call of the `switch`, as `OperationMeter` selects. |
| Metrics.MetricsService.RecordApiResponseTime | src/main/java/com/ps/cs/service/MetricsService.java:102-104 | The response time is observed on `api.response.duration`: one sample unless it is negative. |
| Metrics.MetricsService.RecordCustomerOperationTime | src/main/java/com/ps/cs/service/MetricsService.java:109-114 | The registry clock's start-to-stop difference is observed on the operation-tagged timer. The `durationMs` argument plays no part. |
| Metrics.MetricsService.IncrementApiError | src/main/java/com/ps/cs/service/MetricsService.java:119-125 | The `api.errors` counter tagged with endpoint and error type is bumped, and no other counter changes. |
| Metrics.MetricsService.RecordGauge | src/main/java/com/ps/cs/service/MetricsService.java:130-139 | The gauge with the converted tags is registered. |
| Metrics.MetricsService.IncrementCounter | src/main/java/com/ps/cs/service/MetricsService.java:144-150 | The counter with the name and tags is bumped. |
| Metrics.MetricsService.RecordTimer | src/main/java/com/ps/cs/service/MetricsService.java:155-161 | The duration is observed on the timer with the name and tags, which is registered if new. |
| Health.StatusMap | src/main/java/com/ps/cs/health/CloudWatchHealthIndicator.java:42-64 | A reachable service gives UP, connected and the group count. An unreachable one gives DOWN, not connected and the error message (null for none). The key set differs accordingly. |
| Health.StatusMapReportsUp | src/main/java/com/ps/cs/health/CloudWatchHealthIndicator.java:42-64 | The map reports UP exactly when the probe succeeded. |
| Health.CloudWatchHealthIndicator.constructor | src/main/java/com/ps/cs/health/CloudWatchHealthIndicator.java:23-25 | The indicator holds the injected logger. |
| Health.CloudWatchHealthIndicator.CheckCloudWatchHealth | src/main/java/com/ps/cs/health/CloudWatchHealthIndicator.java:30-65 | It returns the status map. It logs exactly one health line whose flag agrees with the map, and leaves the MDC empty. No probe outcome makes it throw. |
| Validation.EmailShapeIsScanEmail | src/main/java/com/ps/cs/utils/ValidationUtils.java:13-15 | The character-by-character recogniser accepts exactly the strings of the anchored e-mail pattern's grammar. |
| Validation.IsValidEmailMatchesPattern | src/main/java/com/ps/cs/utils/ValidationUtils.java:26-28 | `isValidEmail` (the predicate `IsValidEmail`) holds exactly for a non-null string that the anchored pattern matches. |
| Validation.ValidEmailShape | src/main/java/com/ps/cs/utils/ValidationUtils.java:26-28 | An accepted address has exactly one `@`, and neither end is `.` or `@`. |
| Validation.JoinEmail | src/main/java/com/ps/cs/utils/ValidationUtils.java:13-15 | A dotted local part, `@` and a domain ending in a letter-only label are accepted. |
| Validation.ShortTopLevelRefused | src/main/java/com/ps/cs/utils/ValidationUtils.java:14 | An address whose last label is one character long is refused. |
| Validation.NotNullOrEmptyMeansNonBlank | src/main/java/com/ps/cs/utils/ValidationUtils.java:35-37 | `isNotNullOrEmpty` (the predicate `IsNotNullOrEmpty`): a value passes exactly when it is not null and has a character above a blank. |
| Validation.CustomerValidity | src/main/java/com/ps/cs/utils/ValidationUtils.java:53-60 | `isValidCustomerForCreation` (the predicate `IsValidCustomerForCreation`) holds exactly when the customer is present, its name has a character above a blank, and its e-mail address matches the pattern. |
| Validation.ValidatorsAgree | src/main/java/com/ps/cs/utils/ValidationUtils.java:53-74 | `isValidCustomerForUpdate` (the predicate `IsValidCustomerForUpdate`) and the creation check accept the same customers. Any accepted customer is present, with a name and an e-mail address. |
| Validation.SanitizeString | src/main/java/com/ps/cs/utils/ValidationUtils.java:81-83 | Null stays null. Anything else comes back with no blank at either end. |
| Validation.SanitizeIdempotent | src/main/java/com/ps/cs/utils/ValidationUtils.java:81-83 | Sanitising twice is sanitising once. |
| Validation.NormalizeEmail | src/main/java/com/ps/cs/utils/ValidationUtils.java:90-92 | Null stays null. Anything else keeps the length of its trimmed form. |
| Validation.NormalizeEmailIsNormal | src/main/java/com/ps/cs/utils/ValidationUtils.java:90-92 | A normalised address has no blank at either end and no upper-case letter, and normalising again changes nothing. |
| Responses.HttpStatus.Code | src/main/java/com/ps/cs/utils/ResponseUtils.java:75-83 | Every status has a 2xx to 5xx number. The 2xx ones are exactly OK, CREATED and NO_CONTENT, and the 4xx ones exactly BAD_REQUEST and NOT_FOUND. |
| Responses.StatusOf | src/main/java/com/ps/cs/utils/ResponseUtils.java:75-83 | A status read back from a number has that number. |
| Responses.StatusOfCode | src/main/java/com/ps/cs/utils/ResponseUtils.java:75-83 | Every status is recovered from its number. |
| Responses.CodesDistinct | src/main/java/com/ps/cs/utils/ResponseUtils.java:75-83 | Two statuses share a number exactly when they are the same. |
| Responses.Success | src/main/java/com/ps/cs/utils/ResponseUtils.java:29-31 | 200 with the data. |
| Responses.CreatedWith | src/main/java/com/ps/cs/utils/ResponseUtils.java:39-41 | 201 with the data. |
| Responses.NotFoundResponse | src/main/java/com/ps/cs/utils/ResponseUtils.java:48-50 | 404 without a body. |
| Responses.BadRequestResponse | src/main/java/com/ps/cs/utils/ResponseUtils.java:57-59 | 400 without a body. |
| Responses.NoContentResponse | src/main/java/com/ps/cs/utils/ResponseUtils.java:65-67 | 204 without a body. |
| Responses.OkOrNotFound | src/main/java/com/ps/cs/controller/CustomerController.java:85-86 | 200 exactly when a value is present; otherwise 404. The body is the optional value. |
| Responses.ErrorBody | src/main/java/com/ps/cs/utils/ResponseUtils.java:75-83 | The error body has exactly the keys `error`, `status` and `message` (the timestamp aside). |
| Responses.Error | src/main/java/com/ps/cs/utils/ResponseUtils.java:75-83 | The response has the given status and a body. |
| Responses.ErrorBodyReadsBack | src/main/java/com/ps/cs/utils/ResponseUtils.java:75-83 | The body reads back as the response's own status and the unchanged message, with `error` = true. |
| Responses.ValidationError | src/main/java/com/ps/cs/utils/ResponseUtils.java:90-92 | A 400 error response with the message. |
| Responses.InternalServerErrorResponse | src/main/java/com/ps/cs/utils/ResponseUtils.java:99-101 | A 500 error response with the message. |
| Responses.SuccessMessage | src/main/java/com/ps/cs/utils/ResponseUtils.java:108-115 | 200 with exactly `success` = true and the message. |
| Responses.StatusClasses | src/main/java/com/ps/cs/utils/ResponseUtils.java:29-115 | Success, created, no-content and message responses are 2xx. Not-found, bad-request, validation and internal errors are not. |
| Repository.StoredIdsAreValid | src/main/java/com/ps/cs/utils/ValidationUtils.java:44-46 | `isValidId` (the predicate `IsValidId`, not null and positive) holds for every id a valid store holds and for the next id its counter hands out. |
| Repository.IndexOfId | src/main/java/com/ps/cs/repository/impl/InMemoryCustomerRepository.java:36-40 | The index is that of the first entry with the id, and there is none exactly when no entry has it. |
| Repository.FindIn | src/main/java/com/ps/cs/repository/impl/InMemoryCustomerRepository.java:36-40 | A found customer is stored and has the id. Nothing is found exactly when no entry has the id. |
| Repository.FoundIsOnlyMatch | src/main/java/com/ps/cs/repository/impl/InMemoryCustomerRepository.java:36-40 | In a valid store, any stored customer with the id is the one found. |
| Repository.ReplaceFirstEffect | src/main/java/com/ps/cs/repository/impl/InMemoryCustomerRepository.java:62-71 | Saving with an id keeps the length and validity. The id's entry holds the new data, and every other entry is kept. An absent id leaves the store as it was. |
| Repository.ConsKeepsIdsValid | src/main/java/com/ps/cs/repository/impl/InMemoryCustomerRepository.java:22-28 | Putting a fresh, in-range id in front of a valid store keeps it valid. |
| Repository.FilterKeepsIdsValid | src/main/java/com/ps/cs/repository/impl/InMemoryCustomerRepository.java:75-77 | Removing entries keeps the store valid. |
| Repository.WithoutIdIsFilter | src/main/java/com/ps/cs/repository/impl/InMemoryCustomerRepository.java:75-77 | `removeIf` by the id is the stream filter by the negated test. |
| Repository.DeleteEffect | src/main/java/com/ps/cs/repository/impl/InMemoryCustomerRepository.java:75-77 | Deletion removes every entry with the id, keeps every other entry and keeps the store valid. It removes something exactly when an entry has the id. |
| Repository.NameSearch | src/main/java/com/ps/cs/repository/impl/InMemoryCustomerRepository.java:43-47 | It throws `NullPointerException` exactly when the store is non-empty and the query or some stored name is null. Otherwise every result is stored and contains the query, ignoring case. |
| Repository.NameSearchIsFilter | src/main/java/com/ps/cs/repository/impl/InMemoryCustomerRepository.java:43-47 | Without nulls, the search is the order-preserving filter by the case-insensitive substring test. |
| Repository.EmailSearch | src/main/java/com/ps/cs/repository/impl/InMemoryCustomerRepository.java:50-54 | A result is stored and equal to the argument ignoring case. A null argument throws exactly when some stored e-mail is null. |
| Repository.EmailSearchIsFirstMatch | src/main/java/com/ps/cs/repository/impl/InMemoryCustomerRepository.java:50-54 | Without stored nulls, the search does not throw and returns the first entry that matches. |
| Repository.InMemoryCustomerRepository.constructor | src/main/java/com/ps/cs/repository/impl/InMemoryCustomerRepository.java:22-28 | The store starts with customers 1, 2, 3 in order and the counter at 4, and is valid. |
| Repository.InMemoryCustomerRepository.FindAll | src/main/java/com/ps/cs/repository/impl/InMemoryCustomerRepository.java:31-33 | The result is a copy of the stored list. |
| Repository.InMemoryCustomerRepository.FindById | src/main/java/com/ps/cs/repository/impl/InMemoryCustomerRepository.java:36-40 | The first customer with the id. |
| Repository.InMemoryCustomerRepository.FindByNameContaining | src/main/java/com/ps/cs/repository/impl/InMemoryCustomerRepository.java:43-47 | The name search over the stored list. |
| Repository.InMemoryCustomerRepository.FindByEmail | src/main/java/com/ps/cs/repository/impl/InMemoryCustomerRepository.java:50-54 | The e-mail search over the stored list. |
| Repository.InMemoryCustomerRepository.ExistsById | src/main/java/com/ps/cs/repository/impl/InMemoryCustomerRepository.java:80-83 | True exactly when some entry has the id, which is exactly when `findById` finds one. |
| Repository.InMemoryCustomerRepository.Count | src/main/java/com/ps/cs/repository/impl/InMemoryCustomerRepository.java:86-88 | The number of stored customers. |
| Repository.InMemoryCustomerRepository.Save | src/main/java/com/ps/cs/repository/impl/InMemoryCustomerRepository.java:57-72 | Without an id, the customer gets the counter's value and is appended, and the counter advances. With an id, the first entry with it is overwritten (the store is unchanged when none has it). The store stays valid. |
| Repository.InMemoryCustomerRepository.DeleteById | src/main/java/com/ps/cs/repository/impl/InMemoryCustomerRepository.java:75-77 | The entries without the id remain, in order. The answer is whether one had it. The store stays valid. |
| Service.CreatedIsFound | src/main/java/com/ps/cs/service/impl/CustomerServiceImpl.java:82-100 | A customer created without an id keeps the store valid and is found by the id it was given. |
| Service.CustomerServiceImpl.constructor | src/main/java/com/ps/cs/service/impl/CustomerServiceImpl.java:29-32 | The service holds its repository and logger. |
| Service.CustomerServiceImpl.GetAllCustomers | src/main/java/com/ps/cs/service/impl/CustomerServiceImpl.java:35-53 | It returns the stored list and logs one metric with its size. |
| Service.CustomerServiceImpl.GetCustomerById | src/main/java/com/ps/cs/service/impl/CustomerServiceImpl.java:56-79 | It returns the repository's lookup and logs one metric saying whether it found one. |
| Service.CustomerServiceImpl.CreateCustomer | src/main/java/com/ps/cs/service/impl/CustomerServiceImpl.java:82-100 | It saves as `save` does. A customer without a name is stored, then `NullPointerException` escapes with nothing logged. Otherwise the saved customer is returned and one metric is logged. |
| Service.CustomerServiceImpl.UpdateCustomer | src/main/java/com/ps/cs/service/impl/CustomerServiceImpl.java:103-132 | Only an existing id is saved, with the id set on the new data, and it is then found with that data. An absent id changes nothing. One metric says which. |
| Service.CustomerServiceImpl.DeleteCustomer | src/main/java/com/ps/cs/service/impl/CustomerServiceImpl.java:135-158 | It returns the repository's `deleteById` answer, leaves the store without the id, and logs one metric. |
| Controller.CreateFailure | src/main/java/com/ps/cs/controller/CustomerController.java:99-112 | The `try` block completes exactly when the service returned a customer with an id and a name. A service exception is passed on unchanged. |
| Controller.CreateOutcomes | src/main/java/com/ps/cs/controller/CustomerController.java:99-120 | The handler answers 201 with the customer exactly when the block completes. It answers 400 on a failure when the body has a name. Otherwise the catch block's own `NullPointerException` escapes. A 400 is logged by an error line with its exception, then a failed business event. |
| Controller.UpDown | src/main/java/com/ps/cs/controller/CustomerController.java:195-198 | "UP" exactly for true, "DOWN" otherwise. |
| Controller.HealthVerdict | src/main/java/com/ps/cs/controller/CustomerController.java:184-202 | Overall health is UP exactly when the service listed its customers and CloudWatch was reached. The components repeat both verdicts unchanged. |
| Controller.CustomerController.constructor | src/main/java/com/ps/cs/controller/CustomerController.java:35-40 | The controller holds the shared logger and the indicator. |
| Controller.CustomerController.GetAllCustomers | src/main/java/com/ps/cs/controller/CustomerController.java:46-65 | On success, a business event and a metric, then 200 with the list. On failure, exactly one error line, and the same exception is re-raised. |
| Controller.CustomerController.GetCustomerById | src/main/java/com/ps/cs/controller/CustomerController.java:71-93 | 200 with the customer or 404. The business event's success flag is whether it was found. A failure is logged once and re-raised. |
| Controller.CustomerController.CreateCustomer | src/main/java/com/ps/cs/controller/CustomerController.java:99-120 | The answer and the lines are those of `CreateResult` and `CreateEvents`. The MDC is left empty unless the catch block itself throws first. |
| Controller.CustomerController.UpdateCustomer | src/main/java/com/ps/cs/controller/CustomerController.java:126-148 | 200 with the updated customer or 404, with the matching business event. A failure is logged once and re-raised. |
| Controller.CustomerController.DeleteCustomer | src/main/java/com/ps/cs/controller/CustomerController.java:154-175 | 204 when something was deleted and 404 otherwise, neither with a body. A failure is logged once and re-raised. |
| Controller.CustomerController.HealthCheck | src/main/java/com/ps/cs/controller/CustomerController.java:181-217 | When the service answers: 200 with the combined body, after the indicator's line and one overall health line. When it throws: one error line and 503. It never throws itself. |
| JavaStrings.ToLowerIdempotent | src/main/java/com/ps/cs/utils/ValidationUtils.java:91 | Lower-casing twice is lower-casing once. |
| JavaStrings.TrimIdempotent | src/main/java/com/ps/cs/utils/ValidationUtils.java:82 | Trimming twice is trimming once. |
| JavaStrings.SplitHead | src/main/java/com/ps/cs/interceptor/LoggingInterceptor.java:69 | When some character is not the separator, `split` has a first field: the text before the first separator. |
| JavaStrings.ParseLongOfLongToString | src/main/java/com/ps/cs/interceptor/LoggingInterceptor.java:95 | `Long.parseLong` reads back every `long` printed in decimal. |
| ExampleCustomers.GetAllCustomers | src/main/java/com/example/customer/CustomerService.java:27-29 | The fixed list of three customers with ids 1, 2, 3. |
| ExampleCustomers.ListCustomers | src/main/java/com/example/customer/CustomerController.java:24-27 | The listing has three listed customers, whose ids are 1, 2 and 3 in order. |
| ExampleCustomers.ListedAreFound | src/main/java/com/example/customer/CustomerController.java:24-37 | Each listed customer is exactly the one the lookup finds by its id. |
| ExampleCustomers.GetCustomerById | src/main/java/com/example/customer/CustomerService.java:36-40 | A found customer is listed and has the id. |
| ExampleCustomers.LookupFindsListedIds | src/main/java/com/example/customer/CustomerService.java:17-40 | A customer is found exactly for ids 1 to 3, and it is the first entry with the id. |
| ExampleCustomers.GetCustomerByIdResponse | src/main/java/com/example/customer/CustomerController.java:33-37 | The body is the service's lookup. |
| ExampleCustomers.ResponseForListedIds | src/main/java/com/example/customer/CustomerController.java:33-37 | 200 exactly for ids 1 to 3, with the customer of that id; otherwise 404 without a body. |
| ExampleCustomers.HealthStatus | src/main/java/com/example/customer/CustomerController.java:42-45 | Exactly the entry `status` = "UP". |

## Left out

- Unicode: `toLowerCase` maps only ASCII letters. `\d` in the pattern matches only ASCII digits. `trim` strips characters up to U+0020, as Java does.
- Concurrency: the MDC of one thread and unsynchronised list access. The model is single-threaded.
- Timestamps in the response bodies and the health map. They are clock readings, and the model omits them.
- Plain `logger.info`/`logger.debug`/`logger.error` lines outside `LoggingService`, and level filtering. The model records only the structured lines.
- The AWS SDK: the CloudWatch client and `describeLogGroups` are replaced by the probe outcome (a group count or an exception).
- Spring wiring: one shared `LoggingService` bean is a precondition (`indicator.log == log`), not an injection mechanism.
- Controller.CustomerController: each handler receives the service call's outcome as a parameter. Its link to `CustomerServiceImpl` is not composed in the model.
- Service.CustomerServiceImpl: the service's `catch` blocks cannot be reached over the in-memory store, except for create with a null name, which is modelled. The logging of the other catch blocks is not modelled.
- Interceptor.ClientIpAddress: the header map is keyed by canonical header names (`X-Forwarded-For`, `X-Real-IP`) and looked up exactly. `HttpServletRequest.getHeader` ignores case, so a request whose header arrives as `x-forwarded-for` is not covered.
- Interceptor.LoggingInterceptor.AfterCompletion: inherits the requirement of `ClientIpAddress` on `X-Forwarded-For`, and its header map is keyed by canonical names in the same way.
- Interceptor.ClientIpAddress: requires that a non-empty `X-Forwarded-For` holds some non-comma character. `split` of an all-comma value yields an empty array, and `[0]` would throw.
- Metrics.MetricsService.IncrementCounter: requires an even number of tag strings. Micrometer throws for an odd count, and the model does not represent that exception.
- Metrics.MetricsService.RecordTimer: requires an even number of tag strings, for the same reason as `IncrementCounter`.
- Metrics.MetricsService.RecordGauge: the gauge's `double` value and the weakly referenced state object are not modelled. Only the registration is.
- Meter descriptions, timer units and Micrometer's exceptions for a name registered with two meter kinds are not modelled.
- Numbers are unbounded: `responseTime` and `statusCode` have no 64-bit wrap-around. Only `Long.parseLong`'s range check is modelled.
- Repository.InMemoryCustomerRepository.Save: the id counter is unbounded. The `AtomicLong` behind it would wrap past `Long.MAX_VALUE` after 2^63 - 4 creations.
- JavaStrings.ParseLong: accepts only the ASCII digits 0-9. `Long.parseLong` accepts any Unicode decimal digit. So the interceptor reads `/api/customers/1٣` as id 13 in Java, because its pattern needs only one ASCII digit, but as no id in the model.
- Path-variable ids are integers. A null `Long` id, which Spring never binds, is not modelled.
- Aliasing: `save` stores the caller's object and later `setId` calls would show through. The model stores values.
- `com.ps.cs.model.Customer` lies outside the modelled files. Its fields are assumed to be a nullable id, name and e-mail address.
- Interfaces (`CustomerService`, `CustomerRepository`) are replaced by their one implementation.
