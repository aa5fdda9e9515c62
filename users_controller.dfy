/**
 * `UsersController`: listing, reading, creating, updating and deleting
 * users. A state-changing handler is specified by a function from the old
 * `users` table to its response and the new table; the handler itself does
 * the work step by step, as the controller does, and is proved to agree.
 */
module UsersController {
  import opened Js
  import opened Http
  import opened Validation
  import opened ListQuery
  import opened Database

  /**
   * What the users' handlers return. The listing asks the store for every
   * column but `password_hash`; the other variants have no room for the
   * hash, which `show` excludes and `create` and `update` destructure away.
   */
  datatype UserJson =
    | Listing(options: FindOptions, columns: Columns, pagination: Pagination)  // `{ data: rows, pagination }`; `rows` are the store's answer
    | Profile(id: int, name: string, email: string, status: string, role: string)
    | Brief(id: int, name: string, email: string)           // the columns `update` fetches, less the hash

  function ProfileOf(id: int, u: User): UserJson {
    Profile(id, u.name, u.email, u.status, u.role)
  }

  const UserNotFound := "Usuário não encontrado"
  const EmailRegistered := "E-mail já cadastrado"
  const OldPasswordNeeded := "Senha antiga é necessária para atualizar email ou senha"
  const OldPasswordWrong := "Senha antiga incorreta"
  const EmailInUse := "E-mail já está sendo usado por outro usuário"
  const ShortPassword := "Senha deve ter no mínimo 8 caracteres"
  const NewPasswordRequired := "Nova senha é obrigatória"
  const ConfirmRequired := "Confirmação de senha é obrigatória"
  /** yup's default `oneOf` message for `oneOf([yup.ref("password")])`. */
  const ConfirmMismatch := "passwordConfirm must be one of the following values: Ref(password)"

  const DefaultRole := "USER"

  /** `attributes: { exclude: ["password_hash"] }`. */
  const HashExcluded := Excluding({"password_hash"})

  // ---------------------------------------------------------------------------
  // index
  // ---------------------------------------------------------------------------

  /**
   * `index`: the filters are set one by one, each date pair is checked and
   * set in turn with a return at the first bad date, then the sort keys;
   * `count` is the number of matching rows the store reports.
   */
  method Index(q: Query, validDate: string -> bool, count: nat) returns (r: Response<UserJson>)
    ensures Build(q, None, validDate).BadDate? ==> r == InvalidDateParam(Build(q, None, validDate).field.Name())
    ensures Build(q, None, validDate).Built? ==>
      r == Response(200, Json(Listing(Build(q, None, validDate).options, HashExcluded, Paginate(count, q))))
    ensures r.status == 200 ==>
      && r.payload.Json? && r.payload.value.Listing?
      && !r.payload.value.columns.Returns("password_hash")
      && forall column :: column in ["id", "name", "email", "status", "role"] ==> r.payload.value.columns.Returns(column)
  {
    BuildByPairs(q, None, validDate);
    var page := IntOr(ParseIntOf(Param(q, "page")), DefaultPage);
    var limit := IntOr(ParseIntOf(Param(q, "limit")), DefaultLimit);
    var where := TextFilters(q, None);
    var created := BoundsInTurn(q, validDate, CreatedAfter, CreatedBefore);
    if created.Rejected? { return InvalidDateParam(created.field.Name()); }
    where := where.(createdAt := created.range);
    var updated := BoundsInTurn(q, validDate, UpdatedAfter, UpdatedBefore);
    if updated.Rejected? { return InvalidDateParam(updated.field.Name()); }
    where := where.(updatedAt := updated.range);
    var order: seq<SortKey> := [];
    var sort := Param(q, "sort");
    if Truthy(sort) { order := SortKeys(Split(sort.value, ',')); }
    var options := FindOptions(where, order, limit, (page - 1) * limit);
    r := Response(200, Json(Listing(options, Excluding({"password_hash"}), Pagination(count, page, limit, CeilDiv(count, limit)))));
  }

  // ---------------------------------------------------------------------------
  // show
  // ---------------------------------------------------------------------------

  /** `show`: 400 for a non-numeric id, 404 for a missing user, else the user without its hash. */
  method Show(db: Db, idParam: string) returns (r: Response<UserJson>)
    ensures ParseInt(idParam).None? ==> r == InvalidId()
    ensures ParseInt(idParam).Some? && ParseInt(idParam).value !in db.users ==>
      r == Response(404, Message(UserNotFound))
    ensures ParseInt(idParam).Some? && ParseInt(idParam).value in db.users ==>
      r == Response(200, Json(ProfileOf(ParseInt(idParam).value, db.users[ParseInt(idParam).value])))
  {
    var id := ParseInt(idParam);
    if id.None? { return InvalidId(); }
    if id.value !in db.users { return Response(404, Message(UserNotFound)); }
    r := Response(200, Json(ProfileOf(id.value, db.users[id.value])));
  }

  // ---------------------------------------------------------------------------
  // create
  // ---------------------------------------------------------------------------

  /** The body of `POST /users`. */
  datatype NewUser = NewUser(name: Option<string>, email: Option<string>, password: Option<string>,
                             status: Option<string>, role: Option<string>)

  function CreateSchema(b: NewUser): seq<Field> {
    [ Field(b.name, [Required("Nome é obrigatório")]),
      Field(b.email, [Email("E-mail inválido"), Required("E-mail é obrigatório")]),
      Field(b.password, [Min(8, ShortPassword), Required("Senha é obrigatória")]),
      Field(b.status, [OneOf(["ACTIVE", "INACTIVE"], "Status inválido")]),
      Field(b.role, [OneOf(["USER", "ADMIN"], "Role inválido")]) ]
  }

  /** The bodies the creation schema accepts, field by field. */
  predicate AcceptableNewUser(b: NewUser, isEmail: string -> bool) {
    && Truthy(b.name)
    && Truthy(b.email) && isEmail(b.email.value)
    && Truthy(b.password) && Utf16Length(b.password.value) >= 8
    && (b.status.Some? ==> b.status.value in ["ACTIVE", "INACTIVE"])
    && (b.role.Some? ==> b.role.value in ["USER", "ADMIN"])
  }

  lemma CreateSchemaMeaning(b: NewUser, isEmail: string -> bool)
    ensures Errors(CreateSchema(b), isEmail) == [] <==> AcceptableNewUser(b, isEmail)
  {
    var fields := CreateSchema(b);
    ErrorsEmptyIffAccepted(fields, isEmail);
    if AcceptableNewUser(b, isEmail) {
      forall i, j | 0 <= i < |fields| && 0 <= j < |fields[i].rules|
        ensures Passes(fields[i].rules[j], fields[i].value, isEmail)
      {
      }
    } else {
      assert !Passes(fields[0].rules[0], fields[0].value, isEmail)
        || !Passes(fields[1].rules[0], fields[1].value, isEmail)
        || !Passes(fields[1].rules[1], fields[1].value, isEmail)
        || !Passes(fields[2].rules[0], fields[2].value, isEmail)
        || !Passes(fields[2].rules[1], fields[2].value, isEmail)
        || !Passes(fields[3].rules[0], fields[3].value, isEmail)
        || !Passes(fields[4].rules[0], fields[4].value, isEmail);
    }
  }

  /** The row `create` inserts: the given fields, the hashed password, and the two defaults. */
  function NewRow(b: NewUser, hash: string -> string): User
    requires Truthy(b.name) && Truthy(b.email) && Truthy(b.password)
  {
    User(b.name.value, b.email.value, hash(b.password.value), b.status.GetOr(DefaultStatus), b.role.GetOr(DefaultRole))
  }

  /**
   * The specification of `create`: validation, then the e-mail probe, then
   * the insert under the next id of the sequence.
   */
  function CreateUser(users: map<int, User>, next: int, b: NewUser, isEmail: string -> bool, hash: string -> string)
    : Outcome<UserJson, map<int, User>>
  {
    var errors := Errors(CreateSchema(b), isEmail);
    if errors != [] then Outcome(ValidationFailed(errors), users)
    else
      CreateSchemaMeaning(b, isEmail);
      if FindByEmail(users, b.email.value).Some? then Outcome(Response(400, Message(EmailRegistered)), users)
      else Outcome(Response(201, Json(ProfileOf(next, NewRow(b, hash)))), users[next := NewRow(b, hash)])
  }

  /** `create`, over the store. */
  method Create(db: Db, b: NewUser, isEmail: string -> bool, hash: string -> string) returns (r: Response<UserJson>)
    requires db.Valid()
    modifies db`users, db`nextUser
    ensures db.Valid()
    ensures r == CreateUser(old(db.users), old(db.nextUser), b, isEmail, hash).response
    ensures db.users == CreateUser(old(db.users), old(db.nextUser), b, isEmail, hash).table
    ensures db.nextUser == if r.status == 201 then old(db.nextUser) + 1 else old(db.nextUser)
  {
    var errors := Errors(CreateSchema(b), isEmail);
    if errors != [] { return ValidationFailed(errors); }
    CreateSchemaMeaning(b, isEmail);
    var existing := FindByEmail(db.users, b.email.value);
    if existing.Some? { return Response(400, Message(EmailRegistered)); }
    var hashed := hash(b.password.value);
    var id := db.nextUser;
    var user := User(b.name.value, b.email.value, hashed, b.status.GetOr(DefaultStatus), b.role.GetOr(DefaultRole));
    assert !EmailTakenByOther(db.users, user.email, id);
    UniqueAfterUpdate(db.users, id, user);
    db.users := db.users[id := user];
    db.nextUser := id + 1;
    r := Response(201, Json(ProfileOf(id, user)));
  }

  /** Creation writes exactly when it answers 201, and then under the next id. */
  lemma CreateWritesOnlyOnSuccess(users: map<int, User>, next: int, b: NewUser, isEmail: string -> bool, hash: string -> string)
    ensures var o := CreateUser(users, next, b, isEmail, hash);
      && (o.response.status != 201 ==> o.table == users)
      && (o.response.status == 201 ==> next in o.table && o.table - {next} == users - {next})
  {
  }

  /**
   * An accepted body whose e-mail some user already holds gets 400 and
   * nothing is written; an accepted body with a fresh e-mail is stored with
   * the hash of its password and the defaults ACTIVE and USER.
   */
  lemma CreateChecksEmailFirst(users: map<int, User>, next: int, b: NewUser, isEmail: string -> bool, hash: string -> string)
    requires AcceptableNewUser(b, isEmail)
    ensures var o := CreateUser(users, next, b, isEmail, hash);
      && ((exists id :: id in users && users[id].email == b.email.value) <==>
          o == Outcome(Response(400, Message(EmailRegistered)), users))
      && ((forall id :: id in users ==> users[id].email != b.email.value) ==>
          && o.response.status == 201
          && o.table[next].passwordHash == hash(b.password.value)
          && o.table[next].status == (if b.status.None? then DefaultStatus else b.status.value)
          && o.table[next].role == (if b.role.None? then DefaultRole else b.role.value))
  {
    CreateSchemaMeaning(b, isEmail);
  }

  /** A rejected body is answered with every message of every rule it breaks, and nothing is written. */
  lemma CreateReportsAllFailures(users: map<int, User>, next: int, b: NewUser, isEmail: string -> bool, hash: string -> string)
    requires !AcceptableNewUser(b, isEmail)
    ensures var o := CreateUser(users, next, b, isEmail, hash);
      && o.table == users
      && o.response == ValidationFailed(Errors(CreateSchema(b), isEmail))
      && Errors(CreateSchema(b), isEmail) != []
  {
    CreateSchemaMeaning(b, isEmail);
  }

  /** No creation field pairs `oneOf` with another rule, so every failed rule's message is reported. */
  lemma CreateReportsEveryFailure(b: NewUser, isEmail: string -> bool, i: nat, j: nat)
    requires i < 5 && j < |CreateSchema(b)[i].rules|
    requires !Passes(CreateSchema(b)[i].rules[j], CreateSchema(b)[i].value, isEmail)
    ensures CreateSchema(b)[i].rules[j].message in Errors(CreateSchema(b), isEmail)
  {
    EveryFailureReportedWhenOneOfAlone(CreateSchema(b), isEmail, i, j);
  }

  /** Creation keeps e-mails unique when the next id is not taken. */
  lemma CreateKeepsEmailsUnique(users: map<int, User>, next: int, b: NewUser, isEmail: string -> bool, hash: string -> string)
    requires UniqueEmails(users) && next !in users
    ensures UniqueEmails(CreateUser(users, next, b, isEmail, hash).table)
  {
    var o := CreateUser(users, next, b, isEmail, hash);
    if o.response.status == 201 {
      CreateSchemaMeaning(b, isEmail);
      UniqueAfterUpdate(users, next, NewRow(b, hash));
    }
  }

  // ---------------------------------------------------------------------------
  // update
  // ---------------------------------------------------------------------------

  /** The body of `PUT /users/:id`. */
  datatype UserChanges = UserChanges(name: Option<string>, email: Option<string>, oldPassword: Option<string>,
                                     password: Option<string>, passwordConfirm: Option<string>)

  /**
   * The update schema as it reads: `password` is required when `oldPassword`
   * is given, and `passwordConfirm` is required and must equal `password`
   * when `password` is given.
   */
  function UpdateSchema(b: UserChanges): (r: seq<Field>)
    ensures |r| == 5 && r[3].value == b.password && r[4].value == b.passwordConfirm
    ensures Required(NewPasswordRequired) in r[3].rules <==> Truthy(b.oldPassword)
    ensures Required(ConfirmRequired) in r[4].rules <==> Truthy(b.password)
  {
    [ Field(b.name, []),
      Field(b.email, [Email("E-mail inválido")]),
      Field(b.oldPassword, [Min(8, ShortPassword)]),
      Field(b.password, [Min(8, ShortPassword)] + (if Truthy(b.oldPassword) then [Required(NewPasswordRequired)] else [])),
      Field(b.passwordConfirm,
        if Truthy(b.password) then [Required(ConfirmRequired), OneOf([b.password.value], ConfirmMismatch)] else []) ]
  }

  /**
   * The same schema as yup 1 resolves it: a `.when("x", (x, field) => ...)`
   * builder receives the ARRAY of dependency values, which is always truthy,
   * so both conditional branches are always taken.
   */
  function UpdateSchemaAsWritten(b: UserChanges): (r: seq<Field>)
    ensures |r| == 5 && r[3].value == b.password && r[4].value == b.passwordConfirm
    ensures Required(NewPasswordRequired) in r[3].rules && Required(ConfirmRequired) in r[4].rules
  {
    [ Field(b.name, []),
      Field(b.email, [Email("E-mail inválido")]),
      Field(b.oldPassword, [Min(8, ShortPassword)]),
      Field(b.password, [Min(8, ShortPassword), Required(NewPasswordRequired)]),
      Field(b.passwordConfirm,
        [Required(ConfirmRequired), OneOf(if b.password.Some? then [b.password.value] else [], ConfirmMismatch)]) ]
  }

  /**
   * The bodies the update schema accepts: a valid e-mail when given, passwords
   * of at least 8 characters, a new password whenever the old one is given,
   * and a confirmation equal to the new password whenever that is given.
   */
  predicate AcceptableChanges(b: UserChanges, isEmail: string -> bool) {
    && (Truthy(b.email) ==> isEmail(b.email.value))
    && (b.oldPassword.Some? ==> Utf16Length(b.oldPassword.value) >= 8)
    && (b.password.Some? ==> Utf16Length(b.password.value) >= 8)
    && (Truthy(b.oldPassword) ==> Truthy(b.password))
    && (Truthy(b.password) ==> b.passwordConfirm == b.password)
  }

  lemma UpdateSchemaMeaning(b: UserChanges, isEmail: string -> bool)
    ensures Errors(UpdateSchema(b), isEmail) == [] <==> AcceptableChanges(b, isEmail)
  {
    var fields := UpdateSchema(b);
    ErrorsEmptyIffAccepted(fields, isEmail);
    if !AcceptableChanges(b, isEmail) {
      if Truthy(b.email) && !isEmail(b.email.value) {
        assert !Passes(fields[1].rules[0], fields[1].value, isEmail);
      } else if b.oldPassword.Some? && Utf16Length(b.oldPassword.value) < 8 {
        assert !Passes(fields[2].rules[0], fields[2].value, isEmail);
      } else if b.password.Some? && Utf16Length(b.password.value) < 8 {
        assert !Passes(fields[3].rules[0], fields[3].value, isEmail);
      } else if Truthy(b.oldPassword) && !Truthy(b.password) {
        assert !Passes(fields[3].rules[1], fields[3].value, isEmail);
      } else if !Truthy(b.passwordConfirm) {
        assert !Passes(fields[4].rules[0], fields[4].value, isEmail);
      } else {
        assert !Passes(fields[4].rules[1], fields[4].value, isEmail);
      }
    }
  }

  /**
   * What the schema as yup resolves it accepts: besides the e-mail and
   * length rules, ALWAYS a new password and a confirmation equal to it.
   */
  lemma UpdateSchemaAsWrittenMeaning(b: UserChanges, isEmail: string -> bool)
    ensures Errors(UpdateSchemaAsWritten(b), isEmail) == [] <==>
      && (Truthy(b.email) ==> isEmail(b.email.value))
      && (b.oldPassword.Some? ==> Utf16Length(b.oldPassword.value) >= 8)
      && Truthy(b.password) && Utf16Length(b.password.value) >= 8
      && b.passwordConfirm == b.password
  {
    var fields := UpdateSchemaAsWritten(b);
    ErrorsEmptyIffAccepted(fields, isEmail);
    if Truthy(b.email) && !isEmail(b.email.value) {
      assert !Passes(fields[1].rules[0], fields[1].value, isEmail);
    } else if b.oldPassword.Some? && Utf16Length(b.oldPassword.value) < 8 {
      assert !Passes(fields[2].rules[0], fields[2].value, isEmail);
    } else if b.password.Some? && Utf16Length(b.password.value) < 8 {
      assert !Passes(fields[3].rules[0], fields[3].value, isEmail);
    } else if !Truthy(b.password) {
      assert !Passes(fields[3].rules[1], fields[3].value, isEmail);
    } else if !Truthy(b.passwordConfirm) {
      assert !Passes(fields[4].rules[0], fields[4].value, isEmail);
    } else if b.passwordConfirm != b.password {
      assert !Passes(fields[4].rules[1], fields[4].value, isEmail);
    }
  }

  /** A body that only renames the user (`{ name }`). */
  function NameOnly(name: string): UserChanges {
    UserChanges(Some(name), None, None, None, None)
  }

  /** As written, a rename alone is refused: a new password and its confirmation are demanded. */
  lemma NameOnlyRefusedAsWritten(name: string, isEmail: string -> bool)
    ensures Errors(UpdateSchemaAsWritten(NameOnly(name)), isEmail) == [NewPasswordRequired, ConfirmRequired]
  {
    var fields := UpdateSchemaAsWritten(NameOnly(name));
    ErrorsOfFive(fields, isEmail);
    NameOnlyFirst(name, isEmail);
    NameOnlyLast(name, isEmail);
  }

  /** As written, the name, e-mail and old password of a rename pass. */
  lemma NameOnlyFirst(name: string, isEmail: string -> bool)
    ensures var fields := UpdateSchemaAsWritten(NameOnly(name));
      && RuleErrors(fields[0].value, fields[0].rules, isEmail) == []
      && RuleErrors(fields[1].value, fields[1].rules, isEmail) == []
      && RuleErrors(fields[2].value, fields[2].rules, isEmail) == []
  {
    var fields := UpdateSchemaAsWritten(NameOnly(name));
    RuleErrorsOfTwo(fields[0].value, fields[0].rules, isEmail);
    RuleErrorsOfTwo(fields[1].value, fields[1].rules, isEmail);
    RuleErrorsOfTwo(fields[2].value, fields[2].rules, isEmail);
  }

  /** As written, the absent new password and confirmation of a rename each fail `required`. */
  lemma NameOnlyLast(name: string, isEmail: string -> bool)
    ensures var fields := UpdateSchemaAsWritten(NameOnly(name));
      && RuleErrors(fields[3].value, fields[3].rules, isEmail) == [NewPasswordRequired]
      && RuleErrors(fields[4].value, fields[4].rules, isEmail) == [ConfirmRequired]
  {
    var fields := UpdateSchemaAsWritten(NameOnly(name));
    RuleErrorsOfTwo(fields[3].value, fields[3].rules, isEmail);
    RuleErrorsOfTwo(fields[4].value, fields[4].rules, isEmail);
  }

  /** A password change whose confirmation is left empty. */
  function EmptyConfirm(oldPassword: string, password: string): UserChanges {
    UserChanges(None, None, Some(oldPassword), Some(password), Some(""))
  }

  /**
   * An empty `passwordConfirm` beside a new password fails its `oneOf`, an
   * initial test, so its `required` is skipped: only the mismatch is reported.
   */
  lemma EmptyConfirmAsWritten(oldPassword: string, password: string, isEmail: string -> bool)
    requires Utf16Length(oldPassword) >= 8 && Utf16Length(password) >= 8
    ensures Errors(UpdateSchemaAsWritten(EmptyConfirm(oldPassword, password)), isEmail) == [ConfirmMismatch]
  {
    var fields := UpdateSchemaAsWritten(EmptyConfirm(oldPassword, password));
    ErrorsOfFive(fields, isEmail);
    EmptyConfirmFirst(oldPassword, password, isEmail);
    EmptyConfirmLast(oldPassword, password, isEmail);
  }

  /** The name, e-mail and old password of `EmptyConfirm` pass. */
  lemma EmptyConfirmFirst(oldPassword: string, password: string, isEmail: string -> bool)
    requires Utf16Length(oldPassword) >= 8
    ensures var fields := UpdateSchemaAsWritten(EmptyConfirm(oldPassword, password));
      && RuleErrors(fields[0].value, fields[0].rules, isEmail) == []
      && RuleErrors(fields[1].value, fields[1].rules, isEmail) == []
      && RuleErrors(fields[2].value, fields[2].rules, isEmail) == []
  {
    var fields := UpdateSchemaAsWritten(EmptyConfirm(oldPassword, password));
    RuleErrorsOfTwo(fields[0].value, fields[0].rules, isEmail);
    RuleErrorsOfTwo(fields[1].value, fields[1].rules, isEmail);
    RuleErrorsOfTwo(fields[2].value, fields[2].rules, isEmail);
  }

  /** The new password of `EmptyConfirm` passes and its confirmation fails only `oneOf`. */
  lemma EmptyConfirmLast(oldPassword: string, password: string, isEmail: string -> bool)
    requires Utf16Length(password) >= 8
    ensures var fields := UpdateSchemaAsWritten(EmptyConfirm(oldPassword, password));
      && RuleErrors(fields[3].value, fields[3].rules, isEmail) == []
      && RuleErrors(fields[4].value, fields[4].rules, isEmail) == [ConfirmMismatch]
  {
    var fields := UpdateSchemaAsWritten(EmptyConfirm(oldPassword, password));
    assert password != "";
    RuleErrorsOfTwo(fields[3].value, fields[3].rules, isEmail);
    RuleErrorsOfTwo(fields[4].value, fields[4].rules, isEmail);
  }

  /** With the conditions read as intended, a rename alone passes validation. */
  lemma NameOnlyAccepted(name: string, isEmail: string -> bool)
    ensures Errors(UpdateSchema(NameOnly(name)), isEmail) == []
  {
    var fields := UpdateSchema(NameOnly(name));
    ErrorsOfFive(fields, isEmail);
    assert RuleErrors(fields[0].value, fields[0].rules, isEmail) == [] by {
      RuleErrorsOfTwo(fields[0].value, fields[0].rules, isEmail);
    }
    assert RuleErrors(fields[1].value, fields[1].rules, isEmail) == [] by {
      RuleErrorsOfTwo(fields[1].value, fields[1].rules, isEmail);
    }
    assert RuleErrors(fields[2].value, fields[2].rules, isEmail) == [] by {
      RuleErrorsOfTwo(fields[2].value, fields[2].rules, isEmail);
    }
    assert RuleErrors(fields[3].value, fields[3].rules, isEmail) == [] by {
      RuleErrorsOfTwo(fields[3].value, fields[3].rules, isEmail);
    }
    assert RuleErrors(fields[4].value, fields[4].rules, isEmail) == [] by {
      RuleErrorsOfTwo(fields[4].value, fields[4].rules, isEmail);
    }
  }

  /** The user's row after a successful update: each truthy field replaces its column. */
  function Patched(u: User, b: UserChanges, hash: string -> string): User {
    User(
      if Truthy(b.name) then b.name.value else u.name,
      if Truthy(b.email) then b.email.value else u.email,
      if Truthy(b.password) then hash(b.password.value) else u.passwordHash,
      u.status, u.role)
  }

  /**
   * The specification of `update`: id, validation, lookup, the old-password
   * gate, the old-password check, the e-mail probe, then the write.
   */
  function UpdateUser(users: map<int, User>, idParam: string, b: UserChanges,
                      isEmail: string -> bool, compare: (string, string) -> bool, hash: string -> string)
    : Outcome<UserJson, map<int, User>>
  {
    var id := ParseInt(idParam);
    var errors := Errors(UpdateSchema(b), isEmail);
    if id.None? then Outcome(InvalidId(), users)
    else if errors != [] then Outcome(ValidationFailed(errors), users)
    else if id.value !in users then Outcome(Response(404, Message(UserNotFound)), users)
    else if (Truthy(b.email) || Truthy(b.password)) && !Truthy(b.oldPassword) then
      Outcome(Response(401, Message(OldPasswordNeeded)), users)
    else if Truthy(b.oldPassword) && !compare(b.oldPassword.value, users[id.value].passwordHash) then
      Outcome(Response(401, Message(OldPasswordWrong)), users)
    else if Truthy(b.email) && EmailTakenByOther(users, b.email.value, id.value) then
      Outcome(Response(400, Message(EmailInUse)), users)
    else
      var u := Patched(users[id.value], b, hash);
      Outcome(Response(200, Json(Brief(id.value, u.name, u.email))), users[id.value := u])
  }

  /**
   * `update` refuses a password change whose confirmation is empty with the
   * mismatch alone, before looking the user up.
   */
  lemma EmptyConfirmRefused(users: map<int, User>, idParam: string, oldPassword: string, password: string,
                            isEmail: string -> bool, compare: (string, string) -> bool, hash: string -> string)
    requires ParseInt(idParam).Some?
    requires Utf16Length(oldPassword) >= 8 && Utf16Length(password) >= 8
    ensures UpdateUser(users, idParam, EmptyConfirm(oldPassword, password), isEmail, compare, hash)
         == Outcome(ValidationFailed([ConfirmMismatch]), users)
  {
    var b := EmptyConfirm(oldPassword, password);
    assert oldPassword != "" && password != "";
    assert UpdateSchema(b)[3].rules == [Min(8, ShortPassword), Required(NewPasswordRequired)];
    assert UpdateSchema(b) == UpdateSchemaAsWritten(b);
    EmptyConfirmAsWritten(oldPassword, password, isEmail);
  }

  /** The columns `user.update(updates)` may set; an absent one is left as it is. */
  datatype UserUpdates = UserUpdates(name: Option<string>, email: Option<string>, passwordHash: Option<string>)

  function Apply(u: User, updates: UserUpdates): User {
    User(updates.name.GetOr(u.name), updates.email.GetOr(u.email), updates.passwordHash.GetOr(u.passwordHash), u.status, u.role)
  }

  /** `update`, over the store: `updates` is filled in step by step and written once. */
  method Update(db: Db, idParam: string, b: UserChanges,
                isEmail: string -> bool, compare: (string, string) -> bool, hash: string -> string)
    returns (r: Response<UserJson>)
    requires db.Valid()
    modifies db`users
    ensures db.Valid()
    ensures r == UpdateUser(old(db.users), idParam, b, isEmail, compare, hash).response
    ensures db.users == UpdateUser(old(db.users), idParam, b, isEmail, compare, hash).table
  {
    var id := ParseInt(idParam);
    if id.None? { return InvalidId(); }
    var errors := Errors(UpdateSchema(b), isEmail);
    if errors != [] { return ValidationFailed(errors); }
    if id.value !in db.users { return Response(404, Message(UserNotFound)); }
    var user := db.users[id.value];

    var updates := UserUpdates(None, None, None);
    if Truthy(b.name) { updates := updates.(name := b.name); }
    if (Truthy(b.email) || Truthy(b.password)) && !Truthy(b.oldPassword) {
      return Response(401, Message(OldPasswordNeeded));
    }
    if Truthy(b.oldPassword) && !compare(b.oldPassword.value, user.passwordHash) {
      return Response(401, Message(OldPasswordWrong));
    }
    if Truthy(b.email) {
      if EmailTakenByOther(db.users, b.email.value, id.value) {
        return Response(400, Message(EmailInUse));
      }
      updates := updates.(email := b.email);
    }
    if Truthy(b.password) { updates := updates.(passwordHash := Some(hash(b.password.value))); }

    var updated := Apply(user, updates);
    assert updated == Patched(user, b, hash);
    assert !EmailTakenByOther(db.users, updated.email, id.value);
    UniqueAfterUpdate(db.users, id.value, updated);
    assert UpdateUser(db.users, idParam, b, isEmail, compare, hash)
        == Outcome(Response(200, Json(Brief(id.value, updated.name, updated.email))), db.users[id.value := updated]);
    db.users := db.users[id.value := updated];
    r := Response(200, Json(Brief(id.value, updated.name, updated.email)));
  }

  /** An update writes only when it answers 200, and then only the row it names. */
  lemma UpdateWritesOnlyOnSuccess(users: map<int, User>, idParam: string, b: UserChanges,
                                  isEmail: string -> bool, compare: (string, string) -> bool, hash: string -> string)
    ensures var o := UpdateUser(users, idParam, b, isEmail, compare, hash);
      && (o.response.status != 200 ==> o.table == users)
      && (o.response.status == 200 ==>
            ParseInt(idParam).Some? && ParseInt(idParam).value in users
            && o.table == users[ParseInt(idParam).value := Patched(users[ParseInt(idParam).value], b, hash)])
  {
    var o := UpdateUser(users, idParam, b, isEmail, compare, hash);
    var errors := Errors(UpdateSchema(b), isEmail);
    if ParseInt(idParam).None? {
      assert o == Outcome(InvalidId(), users);
    } else if errors != [] {
      assert o == Outcome(ValidationFailed(errors), users);
    } else if ParseInt(idParam).value !in users {
      assert o == Outcome(Response(404, Message(UserNotFound)), users);
    } else {
      var id := ParseInt(idParam).value;
      assert o.response.status == 200 ==> o.table == users[id := Patched(users[id], b, hash)];
      assert o.response.status != 200 ==> o.table == users;
    }
  }


  /** A rename alone, of an existing user, needs no old password and writes only the name. */
  lemma RenameNeedsNoOldPassword(users: map<int, User>, id: int, name: string,
                                 isEmail: string -> bool, compare: (string, string) -> bool, hash: string -> string)
    requires id in users
    ensures var o := UpdateUser(users, Decimal(id), NameOnly(name), isEmail, compare, hash);
      var u := users[id];
      && o.response.status == 200
      && o.table == users[id := if name == "" then u else u.(name := name)]
  {
    ParseIntOfDecimal(id, []);
    assert Decimal(id) + [] == Decimal(id);
    NameOnlyAccepted(name, isEmail);
    var u := users[id];
    assert Patched(u, NameOnly(name), hash) == if name == "" then u else u.(name := name);
  }

  /**
   * A new e-mail or password without `oldPassword`, or with a wrong one, is
   * refused with 401 and nothing is written, not even a name sent with it.
   */
  lemma CredentialsNeedOldPassword(users: map<int, User>, idParam: string, b: UserChanges,
                                   isEmail: string -> bool, compare: (string, string) -> bool, hash: string -> string)
    requires ParseInt(idParam).Some? && ParseInt(idParam).value in users
    requires Errors(UpdateSchema(b), isEmail) == []
    ensures var o := UpdateUser(users, idParam, b, isEmail, compare, hash);
      && ((Truthy(b.email) || Truthy(b.password)) && !Truthy(b.oldPassword) ==>
            o == Outcome(Response(401, Message(OldPasswordNeeded)), users))
      && (Truthy(b.oldPassword) && !compare(b.oldPassword.value, users[ParseInt(idParam).value].passwordHash) ==>
            o == Outcome(Response(401, Message(OldPasswordWrong)), users))
  {
  }

  /**
   * Taking an e-mail that another user holds is refused with 400 and nothing
   * is written; keeping one's own e-mail is not a clash.
   */
  lemma UpdateRejectsTakenEmail(users: map<int, User>, idParam: string, b: UserChanges,
                                isEmail: string -> bool, compare: (string, string) -> bool, hash: string -> string)
    requires ParseInt(idParam).Some? && ParseInt(idParam).value in users
    requires Errors(UpdateSchema(b), isEmail) == []
    requires Truthy(b.oldPassword) && compare(b.oldPassword.value, users[ParseInt(idParam).value].passwordHash)
    requires Truthy(b.email)
    ensures var o := UpdateUser(users, idParam, b, isEmail, compare, hash);
      var id := ParseInt(idParam).value;
      && ((exists other :: other in users && other != id && users[other].email == b.email.value) <==>
          o == Outcome(Response(400, Message(EmailInUse)), users))
      && (users[id].email == b.email.value && UniqueEmails(users) ==> o.response.status == 200)
  {
  }

  /** A successful update with a new password stores that password's hash. */
  lemma UpdateStoresNewHash(users: map<int, User>, idParam: string, b: UserChanges,
                            isEmail: string -> bool, compare: (string, string) -> bool, hash: string -> string)
    requires UpdateUser(users, idParam, b, isEmail, compare, hash).response.status == 200
    ensures var o := UpdateUser(users, idParam, b, isEmail, compare, hash);
      var id := ParseInt(idParam).value;
      && (Truthy(b.password) ==> o.table[id].passwordHash == hash(b.password.value))
      && (!Truthy(b.password) ==> o.table[id].passwordHash == users[id].passwordHash)
  {
  }

  /** Updates keep e-mails unique. */
  lemma UpdateKeepsEmailsUnique(users: map<int, User>, idParam: string, b: UserChanges,
                                isEmail: string -> bool, compare: (string, string) -> bool, hash: string -> string)
    requires UniqueEmails(users)
    ensures UniqueEmails(UpdateUser(users, idParam, b, isEmail, compare, hash).table)
  {
    var o := UpdateUser(users, idParam, b, isEmail, compare, hash);
    if o.response.status == 200 {
      var id := ParseInt(idParam).value;
      UniqueAfterUpdate(users, id, Patched(users[id], b, hash));
    }
  }

  // ---------------------------------------------------------------------------
  // destroy
  // ---------------------------------------------------------------------------

  function DestroyUser(users: map<int, User>, idParam: string): Outcome<UserJson, map<int, User>> {
    var id := ParseInt(idParam);
    if id.None? then Outcome(InvalidId(), users)
    else if id.value !in users then Outcome(Response(404, Message(UserNotFound)), users)
    else Outcome(Response(204, NoContent), users - {id.value})
  }

  /** `destroy`, over the store. */
  method Destroy(db: Db, idParam: string) returns (r: Response<UserJson>)
    requires db.Valid()
    modifies db`users
    ensures db.Valid()
    ensures r == DestroyUser(old(db.users), idParam).response
    ensures db.users == DestroyUser(old(db.users), idParam).table
  {
    var id := ParseInt(idParam);
    if id.None? { return InvalidId(); }
    if id.value !in db.users { return Response(404, Message(UserNotFound)); }
    db.users := db.users - {id.value};
    r := Response(204, NoContent);
  }

  /** After a 204 the user is gone (so `show` answers 404) and every other user is untouched. */
  lemma DestroyRemovesExactlyOne(users: map<int, User>, idParam: string)
    ensures var o := DestroyUser(users, idParam);
      && (o.response.status == 204 <==> ParseInt(idParam).Some? && ParseInt(idParam).value in users)
      && (o.response.status == 204 ==>
            ParseInt(idParam).value !in o.table
            && forall other :: other != ParseInt(idParam).value ==>
                 (other in o.table <==> other in users) && (other in users ==> o.table[other] == users[other]))
      && (o.response.status != 204 ==> o.table == users)
  {
  }
}
