/** `MetricsService` over a meter registry. The registry is reduced to what the service
    relies on: a meter is identified by its name and tags, `register` is get-or-create,
    a counter holds a count, a timer holds its list of observations in milliseconds, and
    a gauge is only registered. */
module Metrics {
  import opened Base
  import opened JavaStrings

  /** A meter's identity: its name and its tags. */
  datatype MeterId = MeterId(name: string, tags: map<string, string>)

  /** A Micrometer `Tag`. */
  datatype Tag = Tag(key: string, value: string)

  /** The count a counter map gives a meter; a meter not registered yet counts 0. */
  function CountOf(counters: map<MeterId, nat>, id: MeterId): nat
  {
    if id in counters then counters[id] else 0
  }

  /** The counters after `register(..).increment()` of `id`: get-or-create, then add 1. */
  function Bump(counters: map<MeterId, nat>, id: MeterId): (r: map<MeterId, nat>)
    ensures r.Keys == counters.Keys + {id}
    ensures CountOf(r, id) == CountOf(counters, id) + 1
    ensures forall other :: other != id ==> CountOf(r, other) == CountOf(counters, other)
  {
    counters[id := CountOf(counters, id) + 1]
  }

  /** The counters after `register` of `id`: get-or-create, so an existing counter
      keeps its count and a new one starts at 0. */
  function WithCounter(counters: map<MeterId, nat>, id: MeterId): (r: map<MeterId, nat>)
    ensures r.Keys == counters.Keys + {id}
    ensures forall k :: k in counters ==> r[k] == counters[k]
    ensures id !in counters ==> r[id] == 0
  {
    counters[id := CountOf(counters, id)]
  }

  /** The observations a timer map gives a meter; none for a meter not registered. */
  function SamplesOf(timers: map<MeterId, seq<int>>, id: MeterId): seq<int>
  {
    if id in timers then timers[id] else []
  }

  /** The timers after `register` of `id`: get-or-create, so an existing timer keeps its
      observations and a new one starts with none. */
  function WithTimer(timers: map<MeterId, seq<int>>, id: MeterId): (r: map<MeterId, seq<int>>)
    ensures r.Keys == timers.Keys + {id}
    ensures forall k :: k in timers ==> r[k] == timers[k]
    ensures id !in timers ==> r[id] == []
  {
    timers[id := SamplesOf(timers, id)]
  }

  /** The timers after `record(ms, MILLISECONDS)` on the timer `register` gives for `id`:
      get-or-create, then one more observation. A negative amount is dropped, as
      Micrometer's timers ignore it. */
  function Observe(timers: map<MeterId, seq<int>>, id: MeterId, ms: int): (r: map<MeterId, seq<int>>)
    ensures r.Keys == timers.Keys + {id}
    ensures ms >= 0 ==> SamplesOf(r, id) == SamplesOf(timers, id) + [ms]
    ensures ms < 0 ==> SamplesOf(r, id) == SamplesOf(timers, id)
    ensures forall other :: other != id ==> SamplesOf(r, other) == SamplesOf(timers, other)
  {
    timers[id := SamplesOf(timers, id) + (if ms >= 0 then [ms] else [])]
  }

  /** `Tags.of(String...)`: consecutive strings paired up as key and value. */
  function TagPairs(tags: seq<string>): (r: seq<Tag>)
    ensures |r| == |tags| / 2
    ensures forall j :: 0 <= j < |r| ==> r[j] == Tag(tags[2 * j], tags[2 * j + 1])
  {
    if |tags| < 2 then []
    else [Tag(tags[0], tags[1])] + TagPairs(tags[2..])
  }

  /** The tags of a meter built from a list of `Tag`s; a later tag with the same key
      overrides an earlier one. */
  function TagMap(pairs: seq<Tag>): map<string, string>
  {
    if |pairs| == 0 then map[]
    else TagMap(pairs[..|pairs| - 1])[pairs[|pairs| - 1].key := pairs[|pairs| - 1].value]
  }

  /** The tag map has exactly the keys of the tags, and the last tag's value wins. */
  lemma {:induction false} TagMapKeys(pairs: seq<Tag>)
    ensures forall j :: 0 <= j < |pairs| ==> pairs[j].key in TagMap(pairs)
    ensures forall k :: k in TagMap(pairs) ==> exists j :: 0 <= j < |pairs| && pairs[j].key == k
    ensures |pairs| > 0 ==> TagMap(pairs)[pairs[|pairs| - 1].key] == pairs[|pairs| - 1].value
  {
    if |pairs| > 0 {
      var init := pairs[..|pairs| - 1];
      TagMapKeys(init);
      assert forall j :: 0 <= j < |init| ==> init[j] == pairs[j];
      forall k | k in TagMap(pairs) ensures exists j :: 0 <= j < |pairs| && pairs[j].key == k {
        if k != pairs[|pairs| - 1].key {
          assert k in TagMap(init);
          var j :| 0 <= j < |init| && init[j].key == k;
          assert pairs[j].key == k;
        }
      }
    }
  }

  /** The tag map of alternating key and value strings. */
  function TagsOf(tags: seq<string>): map<string, string>
  {
    TagMap(TagPairs(tags))
  }

  /** `recordGauge`'s conversion of its key/value strings into a `Tag[]`: an array of
      half the length, filled by a loop with stride 2 that skips an odd trailing key.
      Every slot ends up filled, slot `j` with the pair at `2j` and `2j + 1`. */
  method TagArray(tags: seq<string>) returns (slots: seq<Option<Tag>>)
    ensures |slots| == |tags| / 2
    ensures forall j :: 0 <= j < |slots| ==> slots[j] == Some(Tag(tags[2 * j], tags[2 * j + 1]))
  {
    var tagArray := new Option<Tag>[|tags| / 2](_ => None);
    var i := 0;
    while i < |tags|
      invariant 0 <= i <= |tags| + 1 && i % 2 == 0
      invariant forall j :: 0 <= j < i / 2 && j < tagArray.Length ==>
                  tagArray[j] == Some(Tag(tags[2 * j], tags[2 * j + 1]))
    {
      if i + 1 < |tags| {
        tagArray[i / 2] := Some(Tag(tags[i], tags[i + 1]));
      }
      i := i + 2;
    }
    slots := tagArray[..];
  }

  /** The registry `MetricsService` publishes to. */
  class MeterRegistry {
    var counters: map<MeterId, nat>
    var timers: map<MeterId, seq<int>>
    var gauges: set<MeterId>

    constructor()
      ensures counters == map[] && timers == map[] && gauges == {}
    {
      counters, timers, gauges := map[], map[], {};
    }

    /** `Counter.builder(..).register(registry)`: the existing counter, or a new one at 0. */
    method RegisterCounter(id: MeterId)
      modifies this`counters
      ensures counters == WithCounter(old(counters), id)
    {
      counters := WithCounter(counters, id);
    }

    /** `Timer.builder(..).register(registry)`: the existing timer, or a new empty one. */
    method RegisterTimer(id: MeterId)
      modifies this`timers
      ensures timers == WithTimer(old(timers), id)
    {
      timers := WithTimer(timers, id);
    }

    /** `counter.increment()` on the counter `register` gives for `id`. */
    method Increment(id: MeterId)
      modifies this`counters
      ensures counters == Bump(old(counters), id)
    {
      counters := Bump(counters, id);
    }

    /** `timer.record(ms, MILLISECONDS)` on the timer `register` gives for `id`. */
    method Record(id: MeterId, ms: int)
      modifies this`timers
      ensures timers == Observe(old(timers), id, ms)
    {
      if ms >= 0 {
        timers := timers[id := SamplesOf(timers, id) + [ms]];
      } else {
        timers := WithTimer(timers, id);
      }
    }

    /** `registry.gauge(name, tags, ..)`: registers the gauge if it is new. */
    method RegisterGauge(id: MeterId)
      modifies this`gauges
      ensures gauges == old(gauges) + {id}
    {
      gauges := gauges + {id};
    }
  }

  const OperationsName := "customer.operations"
  const ApiErrorsName := "api.errors"
  const OperationTimerName := "customer.operation.duration"
  const ResponseTimerName := "api.response.duration"

  /** The five operation tags the constructor registers a counter for. */
  const OperationTags: seq<string> := ["get_all", "get_by_id", "create", "update", "delete"]

  /** The `customer.operations` counter tagged with `operation`. */
  function OperationCounter(operation: string): MeterId
  {
    MeterId(OperationsName, map["operation" := operation])
  }

  /** The counters the constructor registers. */
  const CoreCounters: set<MeterId> := {
    OperationCounter("get_all"), OperationCounter("get_by_id"), OperationCounter("create"),
    OperationCounter("update"), OperationCounter("delete"), ApiErrorCounter }

  /** Counters with different operation tags are different meters. */
  lemma OperationCounterInjective(a: string, b: string)
    requires OperationCounter(a) == OperationCounter(b)
    ensures a == b
  {
    assert OperationCounter(a).tags["operation"] == a;
  }

  /** Counters whose operation tags differ are different meters. */
  lemma OperationCountersDiffer(a: string, b: string)
    requires a != b
    ensures OperationCounter(a) != OperationCounter(b)
  {
    assert OperationCounter(a).tags["operation"] == a;
    assert OperationCounter(b).tags["operation"] == b;
  }

  /** The constructor's six counters are six different meters. */
  lemma CoreCountersDistinct()
    ensures |CoreCounters| == 6
    ensures forall op :: op in OperationTags ==> OperationCounter(op) in CoreCounters
  {
    var a, b, c := OperationCounter("get_all"), OperationCounter("get_by_id"), OperationCounter("create");
    var d, e, f := OperationCounter("update"), OperationCounter("delete"), ApiErrorCounter;
    assert "create"[0] != "update"[0] && "create"[0] != "delete"[0] && "update"[0] != "delete"[0];
    OperationCountersDiffer("get_all", "get_by_id");
    OperationCountersDiffer("get_all", "create");
    OperationCountersDiffer("get_all", "update");
    OperationCountersDiffer("get_all", "delete");
    OperationCountersDiffer("get_by_id", "create");
    OperationCountersDiffer("get_by_id", "update");
    OperationCountersDiffer("get_by_id", "delete");
    OperationCountersDiffer("create", "update");
    OperationCountersDiffer("create", "delete");
    OperationCountersDiffer("update", "delete");
    assert |ApiErrorsName| != |OperationsName|;
    assert f !in {a, b, c, d, e};
    assert |{a, b, c, d, e}| == 5 by {
      assert b !in {a};
      assert c !in {a, b};
      assert d !in {a, b, c};
      assert e !in {a, b, c, d};
    }
    assert CoreCounters == {a, b, c, d, e} + {f};
  }

  const ApiErrorCounter := MeterId(ApiErrorsName, map[])
  const OperationTimer := MeterId(OperationTimerName, map[])
  const ResponseTimer := MeterId(ResponseTimerName, map[])

  /** The counters after the constructor's six `register` calls, in its order. */
  function WithCoreCounters(counters: map<MeterId, nat>): map<MeterId, nat>
  {
    var c1 := WithCounter(counters, OperationCounter("get_all"));
    var c2 := WithCounter(c1, OperationCounter("get_by_id"));
    var c3 := WithCounter(c2, OperationCounter("create"));
    var c4 := WithCounter(c3, OperationCounter("update"));
    var c5 := WithCounter(c4, OperationCounter("delete"));
    WithCounter(c5, ApiErrorCounter)
  }

  /** The timers after the constructor's two `register` calls. */
  function WithCoreTimers(timers: map<MeterId, seq<int>>): map<MeterId, seq<int>>
  {
    WithTimer(WithTimer(timers, OperationTimer), ResponseTimer)
  }

  /** The constructor adds exactly the six core counters and the two timers, and leaves
      every meter that was already registered as it was. */
  lemma CoreMetersRegistered(counters: map<MeterId, nat>, timers: map<MeterId, seq<int>>)
    ensures WithCoreCounters(counters).Keys == counters.Keys + CoreCounters
    ensures forall k :: k in counters ==> WithCoreCounters(counters)[k] == counters[k]
    ensures WithCoreTimers(timers).Keys == timers.Keys + {OperationTimer, ResponseTimer}
    ensures forall k :: k in timers ==> WithCoreTimers(timers)[k] == timers[k]
  {
    SixRegistrations(counters, OperationCounter("get_all"), OperationCounter("get_by_id"),
      OperationCounter("create"), OperationCounter("update"), OperationCounter("delete"),
      ApiErrorCounter);
    TwoRegistrations(timers, OperationTimer, ResponseTimer);
  }

  /** Two timer `register` calls in a row add the two ids and keep every existing timer. */
  lemma TwoRegistrations(timers: map<MeterId, seq<int>>, a: MeterId, b: MeterId)
    ensures WithTimer(WithTimer(timers, a), b).Keys == timers.Keys + {a, b}
    ensures forall k :: k in timers ==> WithTimer(WithTimer(timers, a), b)[k] == timers[k]
  {
  }

  /** Six `register` calls in a row add the six ids and keep every existing count. */
  lemma SixRegistrations(counters: map<MeterId, nat>, a: MeterId, b: MeterId, c: MeterId,
                         d: MeterId, e: MeterId, f: MeterId)
    ensures var r := WithCounter(WithCounter(WithCounter(WithCounter(WithCounter(
                       WithCounter(counters, a), b), c), d), e), f);
      && r.Keys == counters.Keys + {a, b, c, d, e, f}
      && forall k :: k in counters ==> r[k] == counters[k]
  {
  }

  /** The counter `incrementCustomerOperation` bumps: the `switch` on the lower-cased
      name picks one of the five operation counters, and any other name picks none. */
  function OperationMeter(operation: string): (r: Option<MeterId>)
    ensures r.Some? <==> ToLower(operation) in OperationTags
    ensures r.Some? ==> r.value == OperationCounter(ToLower(operation))
  {
    var op := ToLower(operation);
    if op == "get_all" then Some(OperationCounter("get_all"))
    else if op == "get_by_id" then Some(OperationCounter("get_by_id"))
    else if op == "create" then Some(OperationCounter("create"))
    else if op == "update" then Some(OperationCounter("update"))
    else if op == "delete" then Some(OperationCounter("delete"))
    else None
  }

  /** The counters after one `incrementCustomerOperation(operation)`. */
  function AfterOperation(counters: map<MeterId, nat>, operation: string): map<MeterId, nat>
  {
    match OperationMeter(operation)
    case None => counters
    case Some(id) => Bump(counters, id)
  }

  /** The counters after `k` calls of `incrementCustomerOperation(operation)`. */
  function AfterOperations(counters: map<MeterId, nat>, operation: string, k: nat)
    : map<MeterId, nat>
  {
    if k == 0 then counters else AfterOperation(AfterOperations(counters, operation, k - 1), operation)
  }

  /** `k` calls with a name that lower-cases to one of the five operations raise that
      operation's counter by exactly `k` and leave every other counter alone; `k` calls
      with any other name change nothing. */
  lemma {:induction false} RepeatedOperations(counters: map<MeterId, nat>, operation: string, k: nat)
    ensures ToLower(operation) in OperationTags ==>
      CountOf(AfterOperations(counters, operation, k), OperationCounter(ToLower(operation)))
        == CountOf(counters, OperationCounter(ToLower(operation))) + k
    ensures forall other :: other != OperationCounter(ToLower(operation)) ==>
      CountOf(AfterOperations(counters, operation, k), other) == CountOf(counters, other)
    ensures ToLower(operation) !in OperationTags ==>
      AfterOperations(counters, operation, k) == counters
  {
    if k > 0 {
      RepeatedOperations(counters, operation, k - 1);
    }
  }

  class MetricsService {
    const registry: MeterRegistry

    /** The constructor registers five `customer.operations` counters with distinct
        operation tags, one untagged `api.errors` counter and two untagged timers. */
    constructor(registry: MeterRegistry)
      modifies registry
      ensures this.registry == registry
      ensures registry.counters == WithCoreCounters(old(registry.counters))
      ensures registry.timers == WithCoreTimers(old(registry.timers))
      ensures registry.gauges == old(registry.gauges)
    {
      this.registry := registry;
      registry.RegisterCounter(OperationCounter("get_all"));
      registry.RegisterCounter(OperationCounter("get_by_id"));
      registry.RegisterCounter(OperationCounter("create"));
      registry.RegisterCounter(OperationCounter("update"));
      registry.RegisterCounter(OperationCounter("delete"));
      registry.RegisterCounter(ApiErrorCounter);
      registry.RegisterTimer(OperationTimer);
      registry.RegisterTimer(ResponseTimer);
    }

    /** `incrementCustomerOperation`. */
    method IncrementCustomerOperation(operation: string)
      modifies registry`counters
      ensures registry.counters == AfterOperation(old(registry.counters), operation)
    {
      var op := ToLower(operation);
      if op == "get_all" {
        registry.Increment(OperationCounter("get_all"));
      } else if op == "get_by_id" {
        registry.Increment(OperationCounter("get_by_id"));
      } else if op == "create" {
        registry.Increment(OperationCounter("create"));
      } else if op == "update" {
        registry.Increment(OperationCounter("update"));
      } else if op == "delete" {
        registry.Increment(OperationCounter("delete"));
      }
    }

    /** `recordApiResponseTime`: one observation on the `api.response.duration` timer. */
    method RecordApiResponseTime(responseTimeMs: int)
      modifies registry`timers
      ensures registry.timers == Observe(old(registry.timers), ResponseTimer, responseTimeMs)
    {
      registry.Record(ResponseTimer, responseTimeMs);
    }

    /** `recordCustomerOperationTime`: a timer sample started and stopped on the
        registry's clock, whose readings are `sampleStart` and `sampleStop`, recorded on
        the `customer.operation.duration` timer tagged with the operation. The
        `durationMs` argument is not used. */
    method RecordCustomerOperationTime(operation: string, durationMs: int,
                                       sampleStart: int, sampleStop: int)
      modifies registry`timers
      ensures var id := MeterId(OperationTimerName, map["operation" := operation]);
        registry.timers == Observe(old(registry.timers), id, sampleStop - sampleStart)
    {
      registry.Record(MeterId(OperationTimerName, map["operation" := operation]), sampleStop - sampleStart);
    }

    /** `incrementApiError`: get-or-create the `api.errors` counter tagged with the
        endpoint and error type, and add 1; no other counter changes. */
    method IncrementApiError(endpoint: string, errorType: string)
      modifies registry`counters
      ensures registry.counters ==
        Bump(old(registry.counters), MeterId(ApiErrorsName, map["endpoint" := endpoint, "error_type" := errorType]))
    {
      registry.Increment(MeterId(ApiErrorsName, map["endpoint" := endpoint, "error_type" := errorType]));
    }

    /** `recordGauge`: the tag strings converted to `Tag`s, and the gauge registered. */
    method RecordGauge(name: string, description: string, tags: seq<string>)
      modifies registry`gauges
      ensures registry.gauges == old(registry.gauges) + {MeterId(name, TagsOf(tags))}
    {
      var slots := TagArray(tags);
      var pairs := seq(|slots|, j requires 0 <= j < |slots| => slots[j].value);
      assert pairs == TagPairs(tags);
      registry.RegisterGauge(MeterId(name, TagMap(pairs)));
    }

    /** `incrementCounter`: get-or-create the counter with the name and tags, add 1. */
    method IncrementCounter(name: string, description: string, tags: seq<string>)
      requires |tags| % 2 == 0
      modifies registry`counters
      ensures registry.counters == Bump(old(registry.counters), MeterId(name, TagsOf(tags)))
    {
      registry.Increment(MeterId(name, TagsOf(tags)));
    }

    /** `recordTimer`: get-or-create the timer with the name and tags, record one
        observation. */
    method RecordTimer(name: string, description: string, durationMs: int, tags: seq<string>)
      requires |tags| % 2 == 0
      modifies registry`timers
      ensures var id := MeterId(name, TagsOf(tags));
        registry.timers == Observe(old(registry.timers), id, durationMs)
    {
      registry.Record(MeterId(name, TagsOf(tags)), durationMs);
    }
  }
}
