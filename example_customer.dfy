/** The `com.example.customer` service and controller: three fixed customers, read but
    never changed, looked up by the first one whose id equals the requested one. */
module ExampleCustomers {
  import opened Base
  import opened Responses

  /** A customer of this package; its id is always set. */
  datatype Customer = Customer(id: int, name: string, email: string)

  /** The list the service is built with, ids 1 to 3 in that order. */
  const Customers: seq<Customer> := [
    Customer(1, "John Doe", "john.doe@example.com"),
    Customer(2, "Jane Smith", "jane.smith@example.com"),
    Customer(3, "Bob Johnson", "bob.johnson@example.com")
  ]

  /** `getAllCustomers`: the fixed list itself. */
  function GetAllCustomers(): (r: seq<Customer>)
    ensures |r| == 3 && r[0].id == 1 && r[1].id == 2 && r[2].id == 3
  {
    Customers
  }

  function HasId(id: int): Customer -> bool
  {
    (c: Customer) => c.id == id
  }

  /** `getCustomerById`: `filter(...).findFirst()` over the list. */
  function GetCustomerById(id: int): (r: Option<Customer>)
    ensures r.Some? ==> r.value in Customers && r.value.id == id
  {
    match FirstIndex(Customers, HasId(id))
    case None => None
    case Some(i) => Some(Customers[i])
  }

  /** A customer is found exactly for the ids 1, 2 and 3, and it is the first entry
      carrying the id. */
  lemma {:induction false} LookupFindsListedIds(id: int)
    ensures GetCustomerById(id).Some? <==> 1 <= id <= 3
    ensures GetCustomerById(id).Some? ==>
      exists i :: 0 <= i < |Customers| && GetCustomerById(id) == Some(Customers[i]) &&
        forall j :: 0 <= j < i ==> Customers[j].id != id
  {
    var p := HasId(id);
    var s := Customers;
    assert p(s[0]) <==> id == 1;
    assert p(s[1]) <==> id == 2;
    assert p(s[2]) <==> id == 3;
    match FirstIndex(s, p)
    case None =>
    case Some(i) =>
      assert forall j :: 0 <= j < i ==> !p(s[j]);
  }

  /** The controller's `getAllCustomers`: the service's list, returned as the body. */
  function ListCustomers(): (r: seq<Customer>)
    ensures |r| == 3 && forall i :: 0 <= i < |r| ==> r[i] in Customers && r[i].id == i + 1
  {
    GetAllCustomers()
  }

  /** Every customer the listing shows is the one its id looks up, and the ids are the
      distinct values 1, 2 and 3 in order. */
  lemma ListedAreFound()
    ensures forall i :: 0 <= i < |ListCustomers()| ==>
      ListCustomers()[i].id == i + 1 && GetCustomerById(ListCustomers()[i].id) == Some(ListCustomers()[i])
  {
    forall i | 0 <= i < |ListCustomers()|
      ensures GetCustomerById(ListCustomers()[i].id) == Some(ListCustomers()[i])
    {
      LookupFindsListedIds(ListCustomers()[i].id);
    }
  }

  /** The controller's `getCustomerById`: 200 with the customer, or 404 without a body. */
  function GetCustomerByIdResponse(id: int): (r: Response<Customer>)
    ensures r.body == GetCustomerById(id)
  {
    OkOrNotFound(GetCustomerById(id))
  }

  /** Over the fixed list the controller answers 200 exactly for the ids 1 to 3, with
      the customer carrying that id. */
  lemma ResponseForListedIds(id: int)
    ensures GetCustomerByIdResponse(id).status == Ok <==> 1 <= id <= 3
    ensures GetCustomerByIdResponse(id).status == Ok ==>
      GetCustomerByIdResponse(id).body.value.id == id
    ensures GetCustomerByIdResponse(id).status != Ok ==>
      GetCustomerByIdResponse(id).status == NotFound && GetCustomerByIdResponse(id).body.None?
  {
    LookupFindsListedIds(id);
  }

  /** `health`: `Map.of("status", "UP")`. */
  function HealthStatus(): (m: map<string, string>)
    ensures m.Keys == {"status"} && m["status"] == "UP"
  {
    map["status" := "UP"]
  }
}
