/**
 * `CustomersController`: listing, reading, creating, updating and deleting
 * customers, each state-changing handler specified by a function from the old
 * `customers` table to its response and the new table.
 */
module CustomersController {
  import opened Js
  import opened Http
  import opened Validation
  import opened ListQuery
  import opened Database

  /** A contact as `show` includes it: `attributes: ["id", "name", "status"]`. */
  datatype ContactBrief = ContactBrief(name: string, status: string)

  /** What the customers' handlers return. */
  datatype CustomerJson =
    | Listing(options: FindOptions, columns: Columns, joined: Include, pagination: Pagination)   // `{ data: rows, pagination }`
    | WithContacts(id: int, name: string, email: string, status: string, contacts: map<int, ContactBrief>)
    | Row(id: int, name: string, email: string, status: string)

  function RowOf(id: int, c: Customer): CustomerJson {
    Row(id, c.name, c.email, c.status)
  }

  const CustomerNotFound := "Cliente não encontrado"

  /** The listing's `attributes`. */
  const ListingColumns := Only(["id", "name", "email", "status", "created_at", "updated_at"])

  /** The listing's `include`: each customer's contacts, a customer without any still listed. */
  const ListingContacts := Include("contacts", Only(["id", "name", "status"]), false)

  // ---------------------------------------------------------------------------
  // index
  // ---------------------------------------------------------------------------

  /**
   * `index`: the same construction as the users' listing (each date bound
   * checked and set in turn), with `count` the number of matching rows; the
   * rows carry six columns and their contacts, optionally.
   */
  method Index(q: Query, validDate: string -> bool, count: nat) returns (r: Response<CustomerJson>)
    ensures Build(q, None, validDate).BadDate? ==> r == InvalidDateParam(Build(q, None, validDate).field.Name())
    ensures Build(q, None, validDate).Built? ==>
      r == Response(200, Json(Listing(Build(q, None, validDate).options, ListingColumns, ListingContacts, Paginate(count, q))))
    ensures r.status == 200 ==>
      && r.payload.Json? && r.payload.value.Listing?
      && r.payload.value.joined.association == "contacts" && !r.payload.value.joined.required
      && !r.payload.value.joined.columns.Returns("email")
  {
    BuildByPairs(q, None, validDate);
    var page := IntOr(ParseIntOf(Param(q, "page")), DefaultPage);
    var limit := IntOr(ParseIntOf(Param(q, "limit")), DefaultLimit);
    var where := TextFilters(q, None);
    var created := BoundsInTurn(q, validDate, CreatedAfter, CreatedBefore);
    if created.Rejected? { return InvalidDateParam(created.field.Name()); }
    where := where.(createdAt := created.range);
    var updated := BoundsInTurn(q, validDate, UpdatedAfter, UpdatedBefore);
    if updated.Rejected? { return InvalidDateParam(updated.field.Name()); }
    where := where.(updatedAt := updated.range);
    var order: seq<SortKey> := [];
    var sort := Param(q, "sort");
    if Truthy(sort) { order := SortKeys(Split(sort.value, ',')); }
    var options := FindOptions(where, order, limit, (page - 1) * limit);
    var contacts := Include("contacts", Only(["id", "name", "status"]), false);
    r := Response(200, Json(Listing(options, ListingColumns, contacts, Pagination(count, page, limit, CeilDiv(count, limit)))));
  }

  // ---------------------------------------------------------------------------
  // show
  // ---------------------------------------------------------------------------

  function Briefs(contacts: map<int, Contact>): (r: map<int, ContactBrief>)
    ensures r.Keys == contacts.Keys
    ensures forall id :: id in r ==> r[id] == ContactBrief(contacts[id].name, contacts[id].status)
  {
    map id | id in contacts :: ContactBrief(contacts[id].name, contacts[id].status)
  }

  /** `show`: the customer with every contact whose `customer_id` is its id. */
  method Show(db: Db, idParam: string) returns (r: Response<CustomerJson>)
    ensures ParseInt(idParam).None? ==> r == InvalidId()
    ensures ParseInt(idParam).Some? && ParseInt(idParam).value !in db.customers ==>
      r == Response(404, Message(CustomerNotFound))
    ensures ParseInt(idParam).Some? && ParseInt(idParam).value in db.customers ==>
      var id := ParseInt(idParam).value;
      var c := db.customers[id];
      r == Response(200, Json(WithContacts(id, c.name, c.email, c.status, Briefs(ContactsOf(db.contacts, id)))))
  {
    var id := ParseInt(idParam);
    if id.None? { return InvalidId(); }
    if id.value !in db.customers { return Response(404, Message(CustomerNotFound)); }
    var c := db.customers[id.value];
    r := Response(200, Json(WithContacts(id.value, c.name, c.email, c.status, Briefs(ContactsOf(db.contacts, id.value)))));
  }

  // ---------------------------------------------------------------------------
  // create
  // ---------------------------------------------------------------------------

  /** The body of `POST /customers`. */
  datatype NewCustomer = NewCustomer(name: Option<string>, email: Option<string>, status: Option<string>)

  function CreateSchema(b: NewCustomer): seq<Field> {
    [ Field(b.name, [Required("Nome é obrigatório")]),
      Field(b.email, [Email("E-mail inválido"), Required("E-mail é obrigatório")]),
      Field(b.status, [OneOf(Statuses, "Status inválido")]) ]
  }

  /** The bodies the creation schema accepts. */
  predicate AcceptableNewCustomer(b: NewCustomer, isEmail: string -> bool) {
    && Truthy(b.name)
    && Truthy(b.email) && isEmail(b.email.value)
    && (b.status.Some? ==> b.status.value in Statuses)
  }

  lemma CreateSchemaMeaning(b: NewCustomer, isEmail: string -> bool)
    ensures Errors(CreateSchema(b), isEmail) == [] <==> AcceptableNewCustomer(b, isEmail)
  {
    var fields := CreateSchema(b);
    ErrorsEmptyIffAccepted(fields, isEmail);
    if !AcceptableNewCustomer(b, isEmail) {
      assert !Passes(fields[0].rules[0], fields[0].value, isEmail)
        || !Passes(fields[1].rules[0], fields[1].value, isEmail)
        || !Passes(fields[1].rules[1], fields[1].value, isEmail)
        || !Passes(fields[2].rules[0], fields[2].value, isEmail);
    }
  }

  /** `{ ...req.body, status: req.body.status || "ACTIVE" }`. */
  function NewRow(b: NewCustomer): Customer
    requires Truthy(b.name) && Truthy(b.email)
  {
    Customer(b.name.value, b.email.value, if Truthy(b.status) then b.status.value else DefaultStatus)
  }

  function CreateCustomer(customers: map<int, Customer>, next: int, b: NewCustomer, isEmail: string -> bool)
    : Outcome<CustomerJson, map<int, Customer>>
  {
    var errors := Errors(CreateSchema(b), isEmail);
    if errors != [] then Outcome(ValidationFailed(errors), customers)
    else
      CreateSchemaMeaning(b, isEmail);
      Outcome(Response(201, Json(RowOf(next, NewRow(b)))), customers[next := NewRow(b)])
  }

  /** `create`, over the store. */
  method Create(db: Db, b: NewCustomer, isEmail: string -> bool) returns (r: Response<CustomerJson>)
    requires db.Valid()
    modifies db`customers, db`nextCustomer
    ensures db.Valid()
    ensures r == CreateCustomer(old(db.customers), old(db.nextCustomer), b, isEmail).response
    ensures db.customers == CreateCustomer(old(db.customers), old(db.nextCustomer), b, isEmail).table
    ensures db.nextCustomer == if r.status == 201 then old(db.nextCustomer) + 1 else old(db.nextCustomer)
  {
    var errors := Errors(CreateSchema(b), isEmail);
    if errors != [] { return ValidationFailed(errors); }
    CreateSchemaMeaning(b, isEmail);
    var status := if Truthy(b.status) then b.status.value else DefaultStatus;
    var customer := Customer(b.name.value, b.email.value, status);
    var id := db.nextCustomer;
    db.customers := db.customers[id := customer];
    db.nextCustomer := id + 1;
    r := Response(201, Json(RowOf(id, customer)));
  }

  /**
   * An accepted body is stored under the next id with status ACTIVE when it
   * gives none and with its own status otherwise; a rejected one writes nothing.
   */
  lemma CreateDefaultsStatus(customers: map<int, Customer>, next: int, b: NewCustomer, isEmail: string -> bool)
    ensures var o := CreateCustomer(customers, next, b, isEmail);
      && (AcceptableNewCustomer(b, isEmail) <==> o.response.status == 201)
      && (o.response.status != 201 ==> o.table == customers && o.response == ValidationFailed(Errors(CreateSchema(b), isEmail)))
      && (o.response.status == 201 ==>
            && o.table == customers[next := o.table[next]]
            && o.table[next].name == b.name.value && o.table[next].email == b.email.value
            && o.table[next].status == (if b.status.None? then DefaultStatus else b.status.value))
  {
    CreateSchemaMeaning(b, isEmail);
  }

  // ---------------------------------------------------------------------------
  // update
  // ---------------------------------------------------------------------------

  /** The body of `PUT /customers/:id`; `customer.update(req.body)` sets every field present. */
  datatype CustomerChanges = CustomerChanges(name: Option<string>, email: Option<string>, status: Option<string>)

  function UpdateSchema(b: CustomerChanges): seq<Field> {
    [ Field(b.name, []),
      Field(b.email, [Email("E-mail inválido")]),
      Field(b.status, [OneOf(Statuses, "Status inválido")]) ]
  }

  function Changed(c: Customer, b: CustomerChanges): Customer {
    Customer(b.name.GetOr(c.name), b.email.GetOr(c.email), b.status.GetOr(c.status))
  }

  function UpdateCustomer(customers: map<int, Customer>, idParam: string, b: CustomerChanges, isEmail: string -> bool)
    : Outcome<CustomerJson, map<int, Customer>>
  {
    var id := ParseInt(idParam);
    var errors := Errors(UpdateSchema(b), isEmail);
    if id.None? then Outcome(InvalidId(), customers)
    else if errors != [] then Outcome(ValidationFailed(errors), customers)
    else if id.value !in customers then Outcome(Response(404, Message(CustomerNotFound)), customers)
    else Outcome(Response(200, Json(RowOf(id.value, Changed(customers[id.value], b)))),
                 customers[id.value := Changed(customers[id.value], b)])
  }

  /** `update`, over the store: each field of the body is assigned onto the record. */
  method Update(db: Db, idParam: string, b: CustomerChanges, isEmail: string -> bool) returns (r: Response<CustomerJson>)
    requires db.Valid()
    modifies db`customers
    ensures db.Valid()
    ensures r == UpdateCustomer(old(db.customers), idParam, b, isEmail).response
    ensures db.customers == UpdateCustomer(old(db.customers), idParam, b, isEmail).table
  {
    var id := ParseInt(idParam);
    if id.None? { return InvalidId(); }
    var errors := Errors(UpdateSchema(b), isEmail);
    if errors != [] { return ValidationFailed(errors); }
    if id.value !in db.customers { return Response(404, Message(CustomerNotFound)); }
    var customer := db.customers[id.value];
    if b.name.Some? { customer := customer.(name := b.name.value); }
    if b.email.Some? { customer := customer.(email := b.email.value); }
    if b.status.Some? { customer := customer.(status := b.status.value); }
    db.customers := db.customers[id.value := customer];
    r := Response(200, Json(RowOf(id.value, customer)));
  }

  /**
   * An update writes only after the id parses, the body validates and the
   * customer exists; it then changes exactly the fields the body gives.
   */
  lemma UpdateWritesOnlyOnSuccess(customers: map<int, Customer>, idParam: string, b: CustomerChanges, isEmail: string -> bool)
    ensures var o := UpdateCustomer(customers, idParam, b, isEmail);
      && (o.response.status == 200 <==>
            ParseInt(idParam).Some? && Errors(UpdateSchema(b), isEmail) == [] && ParseInt(idParam).value in customers)
      && (o.response.status != 200 ==> o.table == customers)
      && (ParseInt(idParam).Some? && ParseInt(idParam).value !in customers && Errors(UpdateSchema(b), isEmail) == [] ==>
            o == Outcome(Response(404, Message(CustomerNotFound)), customers))
      && (o.response.status == 200 ==>
            var id := ParseInt(idParam).value;
            var before, after := customers[id], o.table[id];
            && o.table == customers[id := after]
            && after.name == (if b.name.Some? then b.name.value else before.name)
            && after.email == (if b.email.Some? then b.email.value else before.email)
            && after.status == (if b.status.Some? then b.status.value else before.status))
  {
    var o := UpdateCustomer(customers, idParam, b, isEmail);
    var errors := Errors(UpdateSchema(b), isEmail);
    if ParseInt(idParam).None? {
      assert o == Outcome(InvalidId(), customers);
    } else if errors != [] {
      assert o == Outcome(ValidationFailed(errors), customers);
    } else if ParseInt(idParam).value !in customers {
      assert o == Outcome(Response(404, Message(CustomerNotFound)), customers);
    } else {
      var id := ParseInt(idParam).value;
      assert o.table == customers[id := Changed(customers[id], b)];
    }
  }

  /** The statuses an update can leave are the two the schema allows, or the one already there. */
  lemma UpdateKeepsStatusInRange(customers: map<int, Customer>, idParam: string, b: CustomerChanges, isEmail: string -> bool)
    requires UpdateCustomer(customers, idParam, b, isEmail).response.status == 200
    ensures var id := ParseInt(idParam).value;
      var s := UpdateCustomer(customers, idParam, b, isEmail).table[id].status;
      s in Statuses || s == customers[id].status
  {
    var fields := UpdateSchema(b);
    ErrorsEmptyIffAccepted(fields, isEmail);
    assert Passes(fields[2].rules[0], fields[2].value, isEmail);
  }

  // ---------------------------------------------------------------------------
  // destroy
  // ---------------------------------------------------------------------------

  function DestroyCustomer(customers: map<int, Customer>, idParam: string): Outcome<CustomerJson, map<int, Customer>> {
    var id := ParseInt(idParam);
    if id.None? then Outcome(InvalidId(), customers)
    else if id.value !in customers then Outcome(Response(404, Message(CustomerNotFound)), customers)
    else Outcome(Response(204, NoContent), customers - {id.value})
  }

  /** `destroy`, over the store. */
  method Destroy(db: Db, idParam: string) returns (r: Response<CustomerJson>)
    requires db.Valid()
    modifies db`customers
    ensures db.Valid()
    ensures r == DestroyCustomer(old(db.customers), idParam).response
    ensures db.customers == DestroyCustomer(old(db.customers), idParam).table
  {
    var id := ParseInt(idParam);
    if id.None? { return InvalidId(); }
    if id.value !in db.customers { return Response(404, Message(CustomerNotFound)); }
    db.customers := db.customers - {id.value};
    r := Response(204, NoContent);
  }

  /** 204 exactly when the customer exists; then it alone is removed, otherwise nothing is. */
  lemma DestroyRemovesExactlyOne(customers: map<int, Customer>, idParam: string)
    ensures var o := DestroyCustomer(customers, idParam);
      && (o.response.status == 204 <==> ParseInt(idParam).Some? && ParseInt(idParam).value in customers)
      && (o.response.status == 204 ==>
            && o.table.Keys == customers.Keys - {ParseInt(idParam).value}
            && forall k :: k in o.table ==> o.table[k] == customers[k])
      && (o.response.status != 204 ==> o.table == customers)
  {
  }
}
