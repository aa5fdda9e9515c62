/**
 * `ContactsController`: the contacts of one customer, reached through
 * `/customers/:customerId/contacts`. Every read and write goes through the
 * joint `(id, customer_id)` lookup, so a contact of another customer looks
 * exactly like a missing one.
 */
module ContactsController {
  import opened Js
  import opened Http
  import opened Validation
  import opened ListQuery
  import opened Database

  /** The customer as `show` includes it: `attributes: ["id", "status", "email"]`. */
  datatype CustomerBrief = CustomerBrief(id: int, status: string, email: string)

  /** What the contacts' handlers return. */
  datatype ContactJson =
    | Rows(options: FindOptions, columns: Columns, joined: Include)    // the bare row list the store returns, no count
    | WithCustomer(id: int, name: string, email: string, status: string, customer: Option<CustomerBrief>)
    | Record(id: int, contact: Contact)

  const ContactNotFound := "Contato não encontrado para esse cliente"
  const CreateFailed := "Erro interno ao criar contato"
  const UpdateFailed := "Erro ao atualizar contato"

  /** The listing's `attributes`. */
  const RowColumns := Only(["id", "name", "email", "status", "createdAt", "updatedAt"])

  /** The listing's `include`: `required: true`, so a contact without a customer is not listed. */
  const RowCustomer := Include("customer", Only(["id", "status", "email"]), true)

  // ---------------------------------------------------------------------------
  // index
  // ---------------------------------------------------------------------------

  /**
   * `index`: `where` is seeded with `customer_id` set to the path parameter
   * as given, the filters are added, each date pair is fully checked before
   * its bounds are set, and the rows are returned without a count, each
   * with its customer, which it must have.
   */
  method Index(q: Query, customerIdParam: string, validDate: string -> bool) returns (r: Response<ContactJson>)
    ensures Build(q, Some(customerIdParam), validDate).BadDate? ==>
      r == InvalidDateParam(Build(q, Some(customerIdParam), validDate).field.Name())
    ensures Build(q, Some(customerIdParam), validDate).Built? ==>
      r == Response(200, Json(Rows(Build(q, Some(customerIdParam), validDate).options, RowColumns, RowCustomer)))
    ensures r.status == 200 ==>
      && r.payload.Json? && r.payload.value.Rows?
      && r.payload.value.joined.association == "customer" && r.payload.value.joined.required
      && r.payload.value.options.where.customerId == Some(customerIdParam)
  {
    BuildByPairs(q, Some(customerIdParam), validDate);
    var page := IntOr(ParseIntOf(Param(q, "page")), DefaultPage);
    var limit := IntOr(ParseIntOf(Param(q, "limit")), DefaultLimit);
    var where := TextFilters(q, Some(customerIdParam));
    var created := BoundsCheckedFirst(q, validDate, CreatedAfter, CreatedBefore);
    if created.Rejected? { return InvalidDateParam(created.field.Name()); }
    where := where.(createdAt := created.range);
    var updated := BoundsCheckedFirst(q, validDate, UpdatedAfter, UpdatedBefore);
    if updated.Rejected? { return InvalidDateParam(updated.field.Name()); }
    where := where.(updatedAt := updated.range);
    var order: seq<SortKey> := [];
    var sort := Param(q, "sort");
    if Truthy(sort) { order := SortKeys(Split(sort.value, ',')); }
    var customer := Include("customer", Only(["id", "status", "email"]), true);
    r := Response(200, Json(Rows(FindOptions(where, order, limit, (page - 1) * limit), RowColumns, customer)));
  }

  // ---------------------------------------------------------------------------
  // show
  // ---------------------------------------------------------------------------

  /** Both path ids parse; otherwise the handler answers 400 before any lookup. */
  predicate IdsParse(customerIdParam: string, idParam: string) {
    ParseInt(customerIdParam).Some? && ParseInt(idParam).Some?
  }

  function CustomerBriefOf(customers: map<int, Customer>, id: int): (r: Option<CustomerBrief>)
    ensures r.Some? <==> id in customers
    ensures r.Some? ==> r.value == CustomerBrief(id, customers[id].status, customers[id].email)
  {
    if id in customers then Some(CustomerBrief(id, customers[id].status, customers[id].email)) else None
  }

  /** `show`: 400, then the joint lookup (404 when it fails), then the contact with its customer. */
  method Show(db: Db, customerIdParam: string, idParam: string) returns (r: Response<ContactJson>)
    ensures !IdsParse(customerIdParam, idParam) ==> r == InvalidId()
    ensures IdsParse(customerIdParam, idParam) ==>
      var id, cid := ParseInt(idParam).value, ParseInt(customerIdParam).value;
      && (!ScopedContact(db.contacts, id, cid) ==> r == Response(404, Message(ContactNotFound)))
      && (ScopedContact(db.contacts, id, cid) ==>
            var c := db.contacts[id];
            r == Response(200, Json(WithCustomer(id, c.name, c.email, c.status, CustomerBriefOf(db.customers, cid)))))
  {
    var id := ParseInt(idParam);
    var customerId := ParseInt(customerIdParam);
    if id.None? || customerId.None? { return InvalidId(); }
    if !(id.value in db.contacts && db.contacts[id.value].customerId == customerId.value) {
      return Response(404, Message(ContactNotFound));
    }
    var c := db.contacts[id.value];
    r := Response(200, Json(WithCustomer(id.value, c.name, c.email, c.status, CustomerBriefOf(db.customers, c.customerId))));
  }

  // ---------------------------------------------------------------------------
  // create
  // ---------------------------------------------------------------------------

  /** The body of `POST /customers/:customerId/contacts`. */
  datatype NewContact = NewContact(name: Option<string>, email: Option<string>, status: Option<string>)

  function CreateSchema(b: NewContact): seq<Field> {
    [ Field(b.name, [Required("Nome é obrigatório")]),
      Field(b.email, [Email("E-mail inválido"), Required("E-mail é obrigatório")]),
      Field(b.status, [OneOf(Statuses, "Status inválido")]) ]
  }

  predicate AcceptableNewContact(b: NewContact, isEmail: string -> bool) {
    && Truthy(b.name)
    && Truthy(b.email) && isEmail(b.email.value)
    && (b.status.Some? ==> b.status.value in Statuses)
  }

  lemma CreateSchemaMeaning(b: NewContact, isEmail: string -> bool)
    ensures Errors(CreateSchema(b), isEmail) == [] <==> AcceptableNewContact(b, isEmail)
  {
    var fields := CreateSchema(b);
    ErrorsEmptyIffAccepted(fields, isEmail);
    if !AcceptableNewContact(b, isEmail) {
      assert !Passes(fields[0].rules[0], fields[0].value, isEmail)
        || !Passes(fields[1].rules[0], fields[1].value, isEmail)
        || !Passes(fields[1].rules[1], fields[1].value, isEmail)
        || !Passes(fields[2].rules[0], fields[2].value, isEmail);
    }
  }

  /**
   * The specification of `create`: validation, then the insert with
   * `customer_id` taken from the path as the text it is. The foreign key
   * refuses the row unless the column stores that text as the id of an
   * existing customer, and the handler turns the refusal into a 500; an
   * absent status takes the column default ACTIVE.
   */
  function CreateContact(contacts: map<int, Contact>, customers: map<int, Customer>, next: int, customerIdParam: string,
                         b: NewContact, isEmail: string -> bool)
    : Outcome<ContactJson, map<int, Contact>>
  {
    var errors := Errors(CreateSchema(b), isEmail);
    if errors != [] then Outcome(ValidationFailed(errors), contacts)
    else
      CreateSchemaMeaning(b, isEmail);
      var cid := ColumnInt(customerIdParam);
      if cid.None? || cid.value !in customers then Outcome(Response(500, Message(CreateFailed)), contacts)
      else
        var c := Contact(b.name.value, b.email.value, b.status.GetOr(DefaultStatus), cid.value);
        Outcome(Response(201, Json(Record(next, c))), contacts[next := c])
  }

  /** `create`, over the store. */
  method Create(db: Db, customerIdParam: string, b: NewContact, isEmail: string -> bool) returns (r: Response<ContactJson>)
    requires db.Valid()
    modifies db`contacts, db`nextContact
    ensures db.Valid()
    ensures r == CreateContact(old(db.contacts), db.customers, old(db.nextContact), customerIdParam, b, isEmail).response
    ensures db.contacts == CreateContact(old(db.contacts), db.customers, old(db.nextContact), customerIdParam, b, isEmail).table
    ensures db.nextContact == if r.status == 201 then old(db.nextContact) + 1 else old(db.nextContact)
  {
    var errors := Errors(CreateSchema(b), isEmail);
    if errors != [] { return ValidationFailed(errors); }
    CreateSchemaMeaning(b, isEmail);
    var customerId := ColumnInt(customerIdParam);
    if customerId.None? || customerId.value !in db.customers { return Response(500, Message(CreateFailed)); }
    var contact := Contact(b.name.value, b.email.value, b.status.GetOr(DefaultStatus), customerId.value);
    var id := db.nextContact;
    db.contacts := db.contacts[id := contact];
    db.nextContact := id + 1;
    r := Response(201, Json(Record(id, contact)));
  }

  /**
   * A contact created under `/customers/<n>/contacts` belongs to customer
   * `n`, and the joint lookup with that customer finds it.
   */
  lemma CreateUsesPathCustomer(contacts: map<int, Contact>, customers: map<int, Customer>, next: int, n: int,
                               b: NewContact, isEmail: string -> bool)
    requires AcceptableNewContact(b, isEmail)
    requires n in customers && MinInt64 <= n <= MaxInt64
    ensures var o := CreateContact(contacts, customers, next, Decimal(n), b, isEmail);
      && o.response.status == 201
      && ScopedContact(o.table, next, n)
      && o.table == contacts[next := Contact(b.name.value, b.email.value, b.status.GetOr(DefaultStatus), n)]
  {
    CreateSchemaMeaning(b, isEmail);
    ColumnIntOfDecimal(n);
  }

  /** A create that does not answer 201 writes nothing; one that does writes only the next id. */
  lemma CreateWritesOnlyOnSuccess(contacts: map<int, Contact>, customers: map<int, Customer>, next: int,
                                  customerIdParam: string, b: NewContact, isEmail: string -> bool)
    ensures var o := CreateContact(contacts, customers, next, customerIdParam, b, isEmail);
      && (o.response.status != 201 ==> o.table == contacts)
      && (o.response.status == 201 ==>
            && AcceptableNewContact(b, isEmail) && ColumnInt(customerIdParam).Some?
            && ColumnInt(customerIdParam).value in customers
            && o.table == contacts[next := o.table[next]]
            && o.table[next].customerId == ColumnInt(customerIdParam).value)
  {
    CreateSchemaMeaning(b, isEmail);
  }

  /**
   * An accepted body is refused with 500, and nothing written, exactly when
   * the foreign key finds no customer: the path text is not stored as an
   * integer, or no customer has that id.
   */
  lemma CreateNeedsExistingCustomer(contacts: map<int, Contact>, customers: map<int, Customer>, next: int,
                                    customerIdParam: string, b: NewContact, isEmail: string -> bool)
    requires AcceptableNewContact(b, isEmail)
    ensures var o := CreateContact(contacts, customers, next, customerIdParam, b, isEmail);
      && (o.response.status == 500 <==>
            ColumnInt(customerIdParam).None? || ColumnInt(customerIdParam).value !in customers)
      && (o.response.status == 500 ==> o == Outcome(Response(500, Message(CreateFailed)), contacts))
      && o.response.status in {201, 500}
  {
    CreateSchemaMeaning(b, isEmail);
  }

  // ---------------------------------------------------------------------------
  // update
  // ---------------------------------------------------------------------------

  /**
   * The body of `PUT /customers/:customerId/contacts/:id`. `contact.update(req.body)`
   * sets every model attribute the body carries, the `customer_id` foreign key included.
   */
  datatype ContactChanges = ContactChanges(name: Option<string>, email: Option<string>, status: Option<string>,
                                           customerId: Option<int>)

  function UpdateSchema(b: ContactChanges): seq<Field> {
    [ Field(b.name, []),
      Field(b.email, [Email("E-mail inválido")]),
      Field(b.status, [OneOf(Statuses, "Status inválido")]) ]
  }

  function Changed(c: Contact, b: ContactChanges): Contact {
    Contact(b.name.GetOr(c.name), b.email.GetOr(c.email), b.status.GetOr(c.status), b.customerId.GetOr(c.customerId))
  }

  /**
   * Whether the write would change the contact's `customer_id` to an id no
   * customer has, which the foreign key refuses. An unchanged column is not
   * written, so it is not checked.
   */
  predicate MovesToMissingCustomer(c: Contact, b: ContactChanges, customers: map<int, Customer>) {
    b.customerId.Some? && b.customerId.value != c.customerId && b.customerId.value !in customers
  }

  function UpdateContact(contacts: map<int, Contact>, customers: map<int, Customer>, customerIdParam: string,
                         idParam: string, b: ContactChanges, isEmail: string -> bool)
    : Outcome<ContactJson, map<int, Contact>>
  {
    if !IdsParse(customerIdParam, idParam) then Outcome(InvalidId(), contacts)
    else
      var id, cid := ParseInt(idParam).value, ParseInt(customerIdParam).value;
      var errors := Errors(UpdateSchema(b), isEmail);
      if errors != [] then Outcome(ValidationFailed(errors), contacts)
      else if !ScopedContact(contacts, id, cid) then Outcome(Response(404, Message(ContactNotFound)), contacts)
      else if MovesToMissingCustomer(contacts[id], b, customers) then Outcome(Response(500, Message(UpdateFailed)), contacts)
      else Outcome(Response(200, Json(Record(id, Changed(contacts[id], b)))), contacts[id := Changed(contacts[id], b)])
  }

  /** `update`, over the store: each field of the body is assigned onto the record found by the joint lookup. */
  method Update(db: Db, customerIdParam: string, idParam: string, b: ContactChanges, isEmail: string -> bool)
    returns (r: Response<ContactJson>)
    requires db.Valid()
    modifies db`contacts
    ensures db.Valid()
    ensures r == UpdateContact(old(db.contacts), db.customers, customerIdParam, idParam, b, isEmail).response
    ensures db.contacts == UpdateContact(old(db.contacts), db.customers, customerIdParam, idParam, b, isEmail).table
  {
    var id := ParseInt(idParam);
    var customerId := ParseInt(customerIdParam);
    if id.None? || customerId.None? { return InvalidId(); }
    var errors := Errors(UpdateSchema(b), isEmail);
    if errors != [] { return ValidationFailed(errors); }
    if !(id.value in db.contacts && db.contacts[id.value].customerId == customerId.value) {
      return Response(404, Message(ContactNotFound));
    }
    var contact := db.contacts[id.value];
    if b.name.Some? { contact := contact.(name := b.name.value); }
    if b.email.Some? { contact := contact.(email := b.email.value); }
    if b.status.Some? { contact := contact.(status := b.status.value); }
    if b.customerId.Some? { contact := contact.(customerId := b.customerId.value); }
    if contact.customerId != db.contacts[id.value].customerId && contact.customerId !in db.customers {
      return Response(500, Message(UpdateFailed));
    }
    db.contacts := db.contacts[id.value := contact];
    r := Response(200, Json(Record(id.value, contact)));
  }

  // ---------------------------------------------------------------------------
  // destroy
  // ---------------------------------------------------------------------------

  function DestroyContact(contacts: map<int, Contact>, customerIdParam: string, idParam: string)
    : Outcome<ContactJson, map<int, Contact>>
  {
    if !IdsParse(customerIdParam, idParam) then Outcome(InvalidId(), contacts)
    else
      var id, cid := ParseInt(idParam).value, ParseInt(customerIdParam).value;
      if !ScopedContact(contacts, id, cid) then Outcome(Response(404, Message(ContactNotFound)), contacts)
      else Outcome(Response(204, NoContent), contacts - {id})
  }

  /** `destroy`, over the store. */
  method Destroy(db: Db, customerIdParam: string, idParam: string) returns (r: Response<ContactJson>)
    requires db.Valid()
    modifies db`contacts
    ensures db.Valid()
    ensures r == DestroyContact(old(db.contacts), customerIdParam, idParam).response
    ensures db.contacts == DestroyContact(old(db.contacts), customerIdParam, idParam).table
  {
    var id := ParseInt(idParam);
    var customerId := ParseInt(customerIdParam);
    if id.None? || customerId.None? { return InvalidId(); }
    if !(id.value in db.contacts && db.contacts[id.value].customerId == customerId.value) {
      return Response(404, Message(ContactNotFound));
    }
    db.contacts := db.contacts - {id.value};
    r := Response(204, NoContent);
  }

  // ---------------------------------------------------------------------------
  // Scoping
  // ---------------------------------------------------------------------------

  /** A non-numeric id or customer id is answered with 400 before the body or the store is looked at. */
  lemma BadIdsAnsweredFirst(contacts: map<int, Contact>, customers: map<int, Customer>, customerIdParam: string,
                            idParam: string, b: ContactChanges,
                            isEmail: string -> bool)
    requires !IdsParse(customerIdParam, idParam)
    ensures UpdateContact(contacts, customers, customerIdParam, idParam, b, isEmail) == Outcome(InvalidId(), contacts)
    ensures DestroyContact(contacts, customerIdParam, idParam) == Outcome(InvalidId(), contacts)
  {
  }

  /**
   * A contact that belongs to another customer is answered like a missing
   * one (404 after a valid body) and is neither changed nor deleted.
   */
  lemma ForeignContactUntouched(contacts: map<int, Contact>, customers: map<int, Customer>, cid: int, id: int,
                                b: ContactChanges, isEmail: string -> bool)
    requires id in contacts && contacts[id].customerId != cid
    ensures var u := UpdateContact(contacts, customers, Decimal(cid), Decimal(id), b, isEmail);
      && u.table == contacts
      && (Errors(UpdateSchema(b), isEmail) == [] ==> u.response == Response(404, Message(ContactNotFound)))
    ensures DestroyContact(contacts, Decimal(cid), Decimal(id)) == Outcome(Response(404, Message(ContactNotFound)), contacts)
  {
    ParseIntOfDecimal(cid, []);
    ParseIntOfDecimal(id, []);
    assert Decimal(cid) + [] == Decimal(cid);
    assert Decimal(id) + [] == Decimal(id);
  }

  /**
   * Update and delete touch only the contact the joint lookup finds: every
   * other contact keeps its record, whatever customer it belongs to.
   */
  lemma OthersUntouched(contacts: map<int, Contact>, customers: map<int, Customer>, customerIdParam: string,
                        idParam: string, b: ContactChanges,
                        isEmail: string -> bool, other: int)
    requires other in contacts
    requires !(ParseInt(idParam).Some? && ParseInt(idParam).value == other)
    ensures var u := UpdateContact(contacts, customers, customerIdParam, idParam, b, isEmail).table;
      other in u && u[other] == contacts[other]
    ensures var d := DestroyContact(contacts, customerIdParam, idParam).table;
      other in d && d[other] == contacts[other]
  {
    var u := UpdateContact(contacts, customers, customerIdParam, idParam, b, isEmail).table;
    if IdsParse(customerIdParam, idParam) {
      var id, cid := ParseInt(idParam).value, ParseInt(customerIdParam).value;
      if Errors(UpdateSchema(b), isEmail) == [] && ScopedContact(contacts, id, cid)
         && !MovesToMissingCustomer(contacts[id], b, customers) {
        assert u == contacts[id := Changed(contacts[id], b)];
      } else {
        assert u == contacts;
      }
    } else {
      assert u == contacts;
    }
  }

  /**
   * A successful update changes exactly the fields the body gives; without a
   * `customer_id` in the body the contact stays with the customer in the path.
   */
  lemma UpdateChangesOnlyGivenFields(contacts: map<int, Contact>, customers: map<int, Customer>, customerIdParam: string,
                                     idParam: string, b: ContactChanges,
                                     isEmail: string -> bool)
    requires UpdateContact(contacts, customers, customerIdParam, idParam, b, isEmail).response.status == 200
    ensures var id := ParseInt(idParam).value;
      var before, after := contacts[id], UpdateContact(contacts, customers, customerIdParam, idParam, b, isEmail).table[id];
      && ScopedContact(contacts, id, ParseInt(customerIdParam).value)
      && after.name == (if b.name.Some? then b.name.value else before.name)
      && after.email == (if b.email.Some? then b.email.value else before.email)
      && after.status == (if b.status.Some? then b.status.value else before.status)
      && after.customerId == (if b.customerId.Some? then b.customerId.value else before.customerId)
      && (after.customerId == before.customerId || after.customerId in customers)
      && (b.customerId.None? ==> ScopedContact(UpdateContact(contacts, customers, customerIdParam, idParam, b, isEmail).table, id, ParseInt(customerIdParam).value))
  {
  }

  /**
   * Once the ids, the body and the lookup pass, the write fails with 500
   * exactly when it would move the contact to an id no customer has.
   */
  lemma UpdateNeedsExistingCustomer(contacts: map<int, Contact>, customers: map<int, Customer>, customerIdParam: string,
                                    idParam: string, b: ContactChanges, isEmail: string -> bool)
    requires IdsParse(customerIdParam, idParam) && Errors(UpdateSchema(b), isEmail) == []
    requires ScopedContact(contacts, ParseInt(idParam).value, ParseInt(customerIdParam).value)
    ensures var o := UpdateContact(contacts, customers, customerIdParam, idParam, b, isEmail);
      var id := ParseInt(idParam).value;
      && o.response.status in {200, 500}
      && (o.response.status == 500 <==> b.customerId.Some? && b.customerId.value != contacts[id].customerId
                                         && b.customerId.value !in customers)
      && (o.response.status == 500 ==> o == Outcome(Response(500, Message(UpdateFailed)), contacts))
  {
  }

  /** 204 exactly when the joint lookup succeeds; then that contact alone is removed. */
  lemma DestroyRemovesExactlyOne(contacts: map<int, Contact>, customerIdParam: string, idParam: string)
    ensures var o := DestroyContact(contacts, customerIdParam, idParam);
      && (o.response.status == 204 <==>
            IdsParse(customerIdParam, idParam) && ScopedContact(contacts, ParseInt(idParam).value, ParseInt(customerIdParam).value))
      && (o.response.status == 204 ==> o.table.Keys == contacts.Keys - {ParseInt(idParam).value})
      && (o.response.status != 204 ==> o.table == contacts)
  {
  }
}
