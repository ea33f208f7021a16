/** The customer record of the `com.ps.cs` service. Every field is a nullable Java
    reference: a customer posted without an id, a name or an e-mail address carries
    null there. */
module CustomerModel {
  import opened Base

  datatype Customer = Customer(id: Option<int>, name: Option<string>, email: Option<string>)
}
