/** `CustomerServiceImpl` over the in-memory repository: each operation delegates to the
    store, then logs one performance metric named `service.<operation>` whose
    execution time is the difference of two clock readings taken by the caller. */
module Service {
  import opened Base
  import opened CustomerModel
  import opened Logging
  import opened Repository

  /** A created customer can be found by the id the counter gave it. */
  lemma CreatedIsFound(s: seq<Customer>, nextId: int, c: Customer)
    requires IdsValid(s, nextId) && c.id.None?
    ensures IdsValid(s + [c.(id := Some(nextId))], nextId + 1)
    ensures FindIn(s + [c.(id := Some(nextId))], nextId) == Some(c.(id := Some(nextId)))
  {
    var t := s + [c.(id := Some(nextId))];
    assert forall i :: 0 <= i < |s| ==> t[i] == s[i];
    FoundIsOnlyMatch(t, nextId + 1, nextId, t[|s|]);
  }

  class CustomerServiceImpl {
    const repo: InMemoryCustomerRepository
    const log: LoggingService

    constructor(repo: InMemoryCustomerRepository, log: LoggingService)
      ensures this.repo == repo && this.log == log
    {
      this.repo := repo;
      this.log := log;
    }

    /** `getAllCustomers`: the store's list, unchanged, and one metric carrying its size. */
    method GetAllCustomers(start: int, end: int) returns (customers: seq<Customer>)
      modifies log
      ensures customers == repo.customers
      ensures log.events == old(log.events) +
        [PerformanceEvent(old(log.mdc), "service.getAllCustomers", end - start,
                          Some(map["customerCount" := Number(|customers|)]))]
      ensures log.mdc == map[]
    {
      customers := repo.FindAll();
      var _ := log.LogPerformanceMetric("service.getAllCustomers", end - start,
                                        Some(map["customerCount" := Number(|customers|)]));
    }

    /** `getCustomerById`: the store's lookup, unchanged, and one metric saying whether
        it found something. */
    method GetCustomerById(id: int, start: int, end: int) returns (customer: Option<Customer>)
      modifies log
      ensures customer == FindIn(repo.customers, id)
      ensures log.events == old(log.events) +
        [PerformanceEvent(old(log.mdc), "service.getCustomerById", end - start,
                          Some(map["customerId" := Number(id), "found" := Flag(customer.Some?)]))]
      ensures log.mdc == map[]
    {
      customer := repo.FindById(id);
      var _ := log.LogPerformanceMetric("service.getCustomerById", end - start,
        Some(map["customerId" := Number(id), "found" := Flag(customer.Some?)]));
    }

    /** `createCustomer`: the store's `save` result. The metric is built with `Map.of`,
        which rejects the null name of a customer posted without one: the customer is
        then already stored, the catch block's own `Map.of` throws the same way, and the
        `NullPointerException` leaves the method with nothing logged. */
    method CreateCustomer(customer: Customer, start: int, end: int)
      returns (r: Outcome<Customer>)
      requires repo.Valid()
      modifies repo, log
      ensures repo.Valid()
      ensures customer.id.None? ==>
        && repo.customers == old(repo.customers) + [customer.(id := Some(old(repo.nextId)))]
        && repo.nextId == old(repo.nextId) + 1
        && FindIn(repo.customers, old(repo.nextId)) == Some(customer.(id := Some(old(repo.nextId))))
      ensures customer.id.Some? ==>
        && repo.customers == ReplaceFirst(old(repo.customers), customer)
        && repo.nextId == old(repo.nextId)
      ensures customer.name.None? ==> r == Raised(NullPointer)
      ensures customer.name.None? ==> log.events == old(log.events) && log.mdc == old(log.mdc)
      ensures customer.name.Some? ==>
        && r.Returned?
        && r.value == (if customer.id.None? then customer.(id := Some(old(repo.nextId))) else customer)
        && log.events == old(log.events) +
             [PerformanceEvent(old(log.mdc), "service.createCustomer", end - start,
                Some(map["customerId" := Number(r.value.id.value),
                         "customerName" := Text(customer.name.value)]))]
        && log.mdc == map[]
    {
      var before, next := repo.customers, repo.nextId;
      var saved := repo.Save(customer);
      if customer.id.None? {
        CreatedIsFound(before, next, customer);
      }
      if saved.name.None? {
        r := Raised(NullPointer);
      } else {
        var _ := log.LogPerformanceMetric("service.createCustomer", end - start,
          Some(map["customerId" := Number(saved.id.value), "customerName" := Text(saved.name.value)]));
        r := Returned(saved);
      }
    }

    /** `updateCustomer`: only an id the store already has is saved, with the id set on
        the new data; an absent id leaves the store as it was. Both paths log one metric
        saying whether the update happened. */
    method UpdateCustomer(id: int, customer: Customer, start: int, end: int)
      returns (r: Option<Customer>)
      requires repo.Valid()
      modifies repo, log
      ensures repo.Valid() && repo.nextId == old(repo.nextId)
      ensures r.Some? <==> HasId(old(repo.customers), id)
      ensures r.Some? ==>
        && r.value == customer.(id := Some(id))
        && repo.customers == ReplaceFirst(old(repo.customers), r.value)
        && FindIn(repo.customers, id) == r
      ensures r.None? ==> repo.customers == old(repo.customers)
      ensures log.events == old(log.events) +
        [PerformanceEvent(old(log.mdc), "service.updateCustomer", end - start,
                          Some(map["customerId" := Number(id), "updated" := Flag(r.Some?)]))]
      ensures log.mdc == map[]
    {
      var present := repo.ExistsById(id);
      if present {
        var updated := customer.(id := Some(id));
        ReplaceFirstEffect(repo.customers, repo.nextId, updated);
        var saved := repo.Save(updated);
        r := Some(saved);
      } else {
        r := None;
      }
      var _ := log.LogPerformanceMetric("service.updateCustomer", end - start,
        Some(map["customerId" := Number(id), "updated" := Flag(present)]));
    }

    /** `deleteCustomer`: exactly the store's `deleteById` answer, and one metric. */
    method DeleteCustomer(id: int, start: int, end: int) returns (deleted: bool)
      requires repo.Valid()
      modifies repo, log
      ensures repo.Valid() && repo.nextId == old(repo.nextId)
      ensures repo.customers == WithoutId(old(repo.customers), id)
      ensures deleted <==> HasId(old(repo.customers), id)
      ensures log.events == old(log.events) +
        [PerformanceEvent(old(log.mdc), "service.deleteCustomer", end - start,
                          Some(map["customerId" := Number(id), "deleted" := Flag(deleted)]))]
      ensures log.mdc == map[]
    {
      ghost var events, mdc := log.events, log.mdc;
      deleted := repo.DeleteById(id);
      var metrics := map["customerId" := Number(id), "deleted" := Flag(deleted)];
      var e := log.LogPerformanceMetric("service.deleteCustomer", end - start, Some(metrics));
      assert log.events == events + [e];
    }
  }
}
