/** `InMemoryCustomerRepository`: a list of customers changed in place, and a counter
    that hands out the id of every customer saved without one. The finders are stream
    filters over the list; `save` either appends or overwrites the first entry with the
    customer's id; `deleteById` is `removeIf`. */
module Repository {
  import opened Base
  import opened JavaStrings
  import opened CustomerModel
  import Validation

  /** The three customers every new repository holds, in this order. */
  const InitialCustomers: seq<Customer> := [
    Customer(Some(1), Some("John Doe"), Some("john.doe@example.com")),
    Customer(Some(2), Some("Jane Smith"), Some("jane.smith@example.com")),
    Customer(Some(3), Some("Bob Johnson"), Some("bob.johnson@example.com"))
  ]

  /** The id the counter hands out first. */
  const InitialNextId: int := 4

  /** The store's invariant: every stored id is present, positive and below the next id
      the counter will hand out, and no two entries share an id. */
  predicate IdsValid(s: seq<Customer>, nextId: int)
  {
    && 0 < nextId
    && (forall i :: 0 <= i < |s| ==> s[i].id.Some? && 0 < s[i].id.value < nextId)
    && (forall i, j :: 0 <= i < j < |s| ==> s[i].id != s[j].id)
  }

  /** Every id a valid store holds, and the next one the counter hands out, passes
      `isValidId`: present and positive. */
  lemma StoredIdsAreValid(s: seq<Customer>, nextId: int)
    requires IdsValid(s, nextId)
    ensures forall i :: 0 <= i < |s| ==> Validation.IsValidId(s[i].id)
    ensures Validation.IsValidId(Some(nextId))
  {
  }

  /** `anyMatch(customer -> customer.getId().equals(id))`. */
  predicate HasId(s: seq<Customer>, id: int)
  {
    exists i :: 0 <= i < |s| && s[i].id == Some(id)
  }

  /** Position of the first customer whose id is `id`. */
  function IndexOfId(s: seq<Customer>, id: int): (r: Option<nat>)
    ensures r.Some? ==> r.value < |s| && s[r.value].id == Some(id)
    ensures r.Some? ==> forall j :: 0 <= j < r.value ==> s[j].id != Some(id)
    ensures r.None? <==> !HasId(s, id)
  {
    if |s| == 0 then None
    else if s[0].id == Some(id) then Some(0)
    else match IndexOfId(s[1..], id)
      case None => None
      case Some(k) => Some(k + 1)
  }

  /** `findById`: the first customer with the id, if any. */
  function FindIn(s: seq<Customer>, id: int): (r: Option<Customer>)
    ensures r.Some? ==> r.value in s && r.value.id == Some(id)
    ensures r.None? <==> !HasId(s, id)
  {
    match IndexOfId(s, id)
    case None => None
    case Some(k) => Some(s[k])
  }

  /** In a valid store an id names at most one customer, so the first match is the
      only one. */
  lemma {:induction false} FoundIsOnlyMatch(s: seq<Customer>, nextId: int, id: int, c: Customer)
    requires IdsValid(s, nextId)
    requires c in s && c.id == Some(id)
    ensures FindIn(s, id) == Some(c)
  {
    var i :| 0 <= i < |s| && s[i] == c;
    assert IndexOfId(s, id) == Some(i);
  }

  /** The store after `save` of a customer that has an id: the first entry with that id
      replaced by the customer, or the store as it was when no entry has it. */
  function ReplaceFirst(s: seq<Customer>, c: Customer): seq<Customer>
    requires c.id.Some?
  {
    match IndexOfId(s, c.id.value)
    case None => s
    case Some(k) => s[k := c]
  }

  /** What `save` of a customer with an id does to the store: its length is kept, the
      entry for the id holds the new data afterwards, and every other entry is kept. */
  lemma ReplaceFirstEffect(s: seq<Customer>, nextId: int, c: Customer)
    requires IdsValid(s, nextId) && c.id.Some?
    ensures |ReplaceFirst(s, c)| == |s|
    ensures IdsValid(ReplaceFirst(s, c), nextId)
    ensures HasId(s, c.id.value) ==> FindIn(ReplaceFirst(s, c), c.id.value) == Some(c)
    ensures !HasId(s, c.id.value) ==> ReplaceFirst(s, c) == s
    ensures forall i :: 0 <= i < |s| && s[i].id != c.id ==> ReplaceFirst(s, c)[i] == s[i]
  {
    var r := ReplaceFirst(s, c);
    if HasId(s, c.id.value) {
      var k := IndexOfId(s, c.id.value).value;
      assert r == s[k := c];
      assert forall i :: 0 <= i < |s| ==> r[i].id == s[i].id;
      FoundIsOnlyMatch(r, nextId, c.id.value, c);
    }
  }

  /** `removeIf(customer -> customer.getId().equals(id))` keeps the customers whose id is
      not `id`. */
  function KeepsOtherIds(id: int): Customer -> bool
  {
    (c: Customer) => c.id != Some(id)
  }

  /** A valid store stays valid when a customer with a fresh, in-range id is put in
      front of it. */
  lemma ConsKeepsIdsValid(c: Customer, rest: seq<Customer>, nextId: int)
    requires IdsValid(rest, nextId)
    requires c.id.Some? && 0 < c.id.value < nextId
    requires forall j :: 0 <= j < |rest| ==> rest[j].id != c.id
    ensures IdsValid([c] + rest, nextId)
  {
    var s := [c] + rest;
    forall i, j | 0 <= i < j < |s| ensures s[i].id != s[j].id {
      assert s[j] == rest[j - 1];
      if i > 0 { assert s[i] == rest[i - 1]; }
    }
  }

  /** Removing entries keeps the store valid. */
  lemma {:induction false} FilterKeepsIdsValid(s: seq<Customer>, nextId: int, p: Customer -> bool)
    requires IdsValid(s, nextId)
    ensures IdsValid(Filter(s, p), nextId)
  {
    if |s| > 0 {
      var tail := s[1..];
      assert IdsValid(tail, nextId) by {
        forall i, j | 0 <= i < j < |tail| ensures tail[i].id != tail[j].id {
          assert tail[i] == s[i + 1] && tail[j] == s[j + 1];
        }
      }
      FilterKeepsIdsValid(tail, nextId, p);
      var rest := Filter(tail, p);
      assert Filter(s, p) == (if p(s[0]) then [s[0]] else []) + rest;
      if p(s[0]) {
        forall j | 0 <= j < |rest| ensures rest[j].id != s[0].id {
          assert rest[j] in tail;
          var m :| 0 <= m < |tail| && tail[m] == rest[j];
          assert s[m + 1] == rest[j];
        }
        ConsKeepsIdsValid(s[0], rest, nextId);
      } else {
        assert Filter(s, p) == rest;
      }
    }
  }

  /** The store after `deleteById(id)`: the entries whose id is not `id`, in order. */
  function WithoutId(s: seq<Customer>, id: int): seq<Customer>
  {
    if |s| == 0 then []
    else (if s[0].id == Some(id) then [] else [s[0]]) + WithoutId(s[1..], id)
  }

  /** `removeIf` is the stream filter by the negated test. */
  lemma {:induction false} WithoutIdIsFilter(s: seq<Customer>, id: int)
    ensures WithoutId(s, id) == Filter(s, KeepsOtherIds(id))
  {
    if |s| > 0 {
      WithoutIdIsFilter(s[1..], id);
    }
  }

  /** Deletion removes every entry with the id, keeps every other entry, keeps the store
      valid, and removes something exactly when an entry has the id. */
  lemma DeleteEffect(s: seq<Customer>, nextId: int, id: int)
    requires IdsValid(s, nextId)
    ensures |WithoutId(s, id)| < |s| <==> HasId(s, id)
    ensures !HasId(WithoutId(s, id), id)
    ensures forall i :: 0 <= i < |s| && s[i].id != Some(id) ==> s[i] in WithoutId(s, id)
    ensures IdsValid(WithoutId(s, id), nextId)
  {
    WithoutIdIsFilter(s, id);
    FilterShrinks(s, KeepsOtherIds(id));
    FilterKeepsIdsValid(s, nextId, KeepsOtherIds(id));
  }

  /** The `findByNameContaining` test on one customer: its lower-cased name contains the
      lower-cased query. */
  predicate NameLike(c: Customer, query: string)
    requires c.name.Some?
  {
    Contains(ToLower(c.name.value), ToLower(query))
  }

  /** `findByNameContaining(name)`. The stream evaluates the filter on every entry, so an
      entry with a null name throws, and so does a null query as soon as there is any
      entry at all. */
  function NameSearch(s: seq<Customer>, name: Option<string>): (r: Outcome<seq<Customer>>)
    ensures r.Raised? ==> r.error == NullPointer
    ensures r.Raised? <==> |s| > 0 && (name.None? || exists i :: 0 <= i < |s| && s[i].name.None?)
    ensures r.Returned? ==>
      forall c :: c in r.value ==> c in s && c.name.Some? && NameLike(c, name.value)
  {
    if |s| == 0 then Returned([])
    else if s[0].name.None? || name.None? then Raised(NullPointer)
    else match NameSearch(s[1..], name)
      case Raised(e) =>
        assert exists i :: 0 <= i < |s| && s[i].name.None? by {
          var i :| 0 <= i < |s[1..]| && s[1..][i].name.None?;
          assert s[i + 1].name.None?;
        }
        Raised(e)
      case Returned(rest) =>
        Returned((if NameLike(s[0], name.value) then [s[0]] else []) + rest)
  }

  /** The name filter as a stream predicate. */
  function NameFilter(query: string): Customer -> bool
  {
    (c: Customer) => c.name.Some? && NameLike(c, query)
  }

  /** When nothing is null, the name search is the order-preserving filter of the store
      by the case-insensitive substring test. */
  lemma {:induction false} NameSearchIsFilter(s: seq<Customer>, query: string)
    requires forall i :: 0 <= i < |s| ==> s[i].name.Some?
    ensures NameSearch(s, Some(query)) == Returned(Filter(s, NameFilter(query)))
  {
    if |s| > 0 {
      NameSearchIsFilter(s[1..], query);
    }
  }

  /** The `findByEmail` test: `customer.getEmail().equalsIgnoreCase(email)`, false for a
      null argument. */
  predicate EmailIs(c: Customer, email: Option<string>)
    requires c.email.Some?
  {
    email.Some? && EqualsIgnoreCase(c.email.value, email.value)
  }

  /** `findByEmail(email)`: the first entry whose e-mail equals the argument ignoring case.
      The stream stops at the first match, so only an entry with a null e-mail that comes
      before any match throws. */
  function EmailSearch(s: seq<Customer>, email: Option<string>): (r: Outcome<Option<Customer>>)
    ensures r.Raised? ==> r.error == NullPointer
    ensures r.Returned? && r.value.Some? ==>
      r.value.value in s && r.value.value.email.Some? && EmailIs(r.value.value, email)
    ensures email.None? ==> (r.Raised? <==> exists i :: 0 <= i < |s| && s[i].email.None?)
  {
    if |s| == 0 then Returned(None)
    else if s[0].email.None? then Raised(NullPointer)
    else if EmailIs(s[0], email) then Returned(Some(s[0]))
    else
      var r := EmailSearch(s[1..], email);
      assert email.None? && r.Raised? ==> exists i :: 0 <= i < |s| && s[i].email.None? by {
        if email.None? && r.Raised? {
          var i :| 0 <= i < |s[1..]| && s[1..][i].email.None?;
          assert s[i + 1].email.None?;
        }
      }
      r
  }

  /** The e-mail filter as a stream predicate. */
  function EmailFilter(email: Option<string>): Customer -> bool
  {
    (c: Customer) => c.email.Some? && EmailIs(c, email)
  }

  /** When no stored e-mail is null, `findByEmail` is `filter(..).findFirst()`: no error,
      and the first entry that matches. */
  lemma {:induction false} EmailSearchIsFirstMatch(s: seq<Customer>, email: Option<string>)
    requires forall i :: 0 <= i < |s| ==> s[i].email.Some?
    ensures EmailSearch(s, email).Returned?
    ensures EmailSearch(s, email).value ==
      match FirstIndex(s, EmailFilter(email))
      case None => None
      case Some(k) => Some(s[k])
  {
    if |s| > 0 && !EmailIs(s[0], email) {
      EmailSearchIsFirstMatch(s[1..], email);
    }
  }

  class InMemoryCustomerRepository {
    var customers: seq<Customer>
    var nextId: int

    ghost predicate Valid()
      reads this
    {
      IdsValid(customers, nextId)
    }

    /** The store starts with ids 1, 2, 3 in order, and the counter at 4. */
    constructor()
      ensures customers == InitialCustomers && nextId == InitialNextId
      ensures Valid()
    {
      customers := InitialCustomers;
      nextId := InitialNextId;
    }

    /** `findAll` returns a copy: a value, which later changes to the store leave alone. */
    method FindAll() returns (r: seq<Customer>)
      ensures r == customers
    {
      r := customers;
    }

    method FindById(id: int) returns (r: Option<Customer>)
      ensures r == FindIn(customers, id)
    {
      r := FindIn(customers, id);
    }

    method FindByNameContaining(name: Option<string>) returns (r: Outcome<seq<Customer>>)
      ensures r == NameSearch(customers, name)
    {
      r := NameSearch(customers, name);
    }

    method FindByEmail(email: Option<string>) returns (r: Outcome<Option<Customer>>)
      ensures r == EmailSearch(customers, email)
    {
      r := EmailSearch(customers, email);
    }

    /** `existsById` holds exactly when `findById` finds something. */
    method ExistsById(id: int) returns (b: bool)
      ensures b == HasId(customers, id)
      ensures b <==> FindIn(customers, id).Some?
    {
      b := IndexOfId(customers, id).Some?;
    }

    method Count() returns (n: nat)
      ensures n == |customers|
    {
      n := |customers|;
    }

    /** `save`. A customer without an id gets the counter's value, the counter moves on,
        and the customer is appended. A customer with an id overwrites the first entry
        with that id, found by an index loop; when there is none the store is left as it
        was and the customer is still returned. */
    method Save(customer: Customer) returns (saved: Customer)
      requires Valid()
      modifies this
      ensures Valid()
      ensures customer.id.None? ==>
        && saved == customer.(id := Some(old(nextId)))
        && customers == old(customers) + [saved]
        && nextId == old(nextId) + 1
      ensures customer.id.Some? ==>
        && saved == customer
        && customers == ReplaceFirst(old(customers), customer)
        && nextId == old(nextId)
    {
      if customer.id.None? {
        saved := customer.(id := Some(nextId));
        customers := customers + [saved];
        nextId := nextId + 1;
      } else {
        var i := 0;
        while i < |customers|
          invariant 0 <= i <= |customers|
          invariant customers == old(customers)
          invariant forall j :: 0 <= j < i ==> customers[j].id != customer.id
        {
          if customers[i].id == customer.id {
            customers := customers[i := customer];
            break;
          }
          i := i + 1;
        }
        saved := customer;
        ReplaceFirstEffect(old(customers), nextId, customer);
      }
    }

    /** `deleteById`: every entry with the id goes, the rest stay in order, and the
        answer is whether anything went. */
    method DeleteById(id: int) returns (removed: bool)
      requires Valid()
      modifies this`customers
      ensures Valid()
      ensures customers == WithoutId(old(customers), id)
      ensures removed <==> HasId(old(customers), id)
    {
      DeleteEffect(customers, nextId, id);
      removed := HasId(customers, id);
      customers := WithoutId(customers, id);
    }
  }
}
