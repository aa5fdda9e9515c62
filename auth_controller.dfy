/**
 * `AuthController.authenticate`: look the user up by e-mail, compare the
 * password with the stored hash, and sign a token over `{ id }` that
 * expires in three days. The password comparison and the signing are
 * functions the caller supplies.
 */
module AuthController {
  import opened Js
  import opened Http
  import opened Database
  import UsersController

  /** The payload `jwt.sign` is given: the user's id and nothing else. */
  datatype Claims = Claims(id: int)

  /** Everything `jwt.sign` receives: payload, server secret and lifetime in seconds. */
  datatype SignRequest = SignRequest(claims: Claims, secret: string, expiresIn: int)

  /** `expiresIn: "3d"`, in seconds. */
  const TokenLifetime := 3 * 24 * 60 * 60

  /** `{ token }`. */
  datatype AuthJson = Token(token: string)

  const WrongPassword := "Senha incorreta"

  /** The response a successful login sends for user `id`. */
  function Issued(id: int, secret: string, sign: SignRequest -> string): Response<AuthJson> {
    Response(200, Json(Token(sign(SignRequest(Claims(id), secret, TokenLifetime)))))
  }

  /**
   * `authenticate`: 404 when no user has exactly this e-mail, 401 when the
   * password does not match that user's hash, and otherwise 200 with a token
   * signed over that user's id alone.
   */
  function Authenticate(users: map<int, User>, email: string, password: string,
                        compare: (string, string) -> bool, sign: SignRequest -> string, secret: string)
    : (r: Response<AuthJson>)
    ensures r.status == 404 <==> forall id :: id in users ==> users[id].email != email
    ensures r.status == 404 ==> r == Response(404, Message(UsersController.UserNotFound))
    ensures r.status == 401 <==>
      exists id :: id in users && users[id].email == email && FindByEmail(users, email) == Some(id)
        && !compare(password, users[id].passwordHash)
    ensures r.status == 401 ==> r == Response(401, Message(WrongPassword))
    ensures r.status == 200 ==>
      exists id :: id in users && users[id].email == email && compare(password, users[id].passwordHash)
        && r == Issued(id, secret, sign)
    ensures r.status in {200, 401, 404}
  {
    match FindByEmail(users, email)
    case None => Response(404, Message(UsersController.UserNotFound))
    case Some(id) =>
      if !compare(password, users[id].passwordHash) then Response(401, Message(WrongPassword))
      else Issued(id, secret, sign)
  }

  /** With unique e-mails, the right password for a user's e-mail yields a token for that user. */
  lemma RightPasswordGetsToken(users: map<int, User>, id: int, password: string,
                               compare: (string, string) -> bool, sign: SignRequest -> string, secret: string)
    requires UniqueEmails(users) && id in users
    requires compare(password, users[id].passwordHash)
    ensures Authenticate(users, users[id].email, password, compare, sign, secret) == Issued(id, secret, sign)
  {
    FindByEmailUnique(users, id);
  }

  /** An unknown e-mail gets 404 whatever the comparison and the signer do: neither is consulted. */
  lemma UnknownEmailNeverCompared(users: map<int, User>, email: string, password: string,
                                  compare1: (string, string) -> bool, sign1: SignRequest -> string, secret1: string,
                                  compare2: (string, string) -> bool, sign2: SignRequest -> string, secret2: string)
    requires forall id :: id in users ==> users[id].email != email
    ensures Authenticate(users, email, password, compare1, sign1, secret1)
         == Authenticate(users, email, password, compare2, sign2, secret2)
         == Response(404, Message(UsersController.UserNotFound))
  {
  }

  /**
   * A user created through `POST /users` can log in with the password given
   * at creation, when `compare` accepts every password against its own hash.
   */
  lemma CreatedUserCanLogIn(users: map<int, User>, next: int, b: UsersController.NewUser,
                            isEmail: string -> bool, hash: string -> string,
                            compare: (string, string) -> bool, sign: SignRequest -> string, secret: string)
    requires UniqueEmails(users) && next !in users
    requires forall p :: compare(p, hash(p))
    requires UsersController.AcceptableNewUser(b, isEmail)
    requires forall id :: id in users ==> users[id].email != b.email.value
    ensures Authenticate(UsersController.CreateUser(users, next, b, isEmail, hash).table,
                         b.email.value, b.password.value, compare, sign, secret)
         == Issued(next, secret, sign)
  {
    var o := UsersController.CreateUser(users, next, b, isEmail, hash);
    UsersController.CreateChecksEmailFirst(users, next, b, isEmail, hash);
    UsersController.CreateKeepsEmailsUnique(users, next, b, isEmail, hash);
    assert o.table[next] == UsersController.NewRow(b, hash);
    RightPasswordGetsToken(o.table, next, b.password.value, compare, sign, secret);
  }

  /**
   * After a successful password change the new password logs the user in,
   * when `compare` accepts every password against its own hash.
   */
  lemma ChangedPasswordLogsIn(users: map<int, User>, idParam: string, b: UsersController.UserChanges,
                              isEmail: string -> bool, hash: string -> string,
                              compare: (string, string) -> bool, sign: SignRequest -> string, secret: string)
    requires UniqueEmails(users)
    requires forall p :: compare(p, hash(p))
    requires UsersController.UpdateUser(users, idParam, b, isEmail, compare, hash).response.status == 200
    requires Truthy(b.password)
    ensures var after := UsersController.UpdateUser(users, idParam, b, isEmail, compare, hash).table;
      var id := ParseInt(idParam).value;
      Authenticate(after, after[id].email, b.password.value, compare, sign, secret) == Issued(id, secret, sign)
  {
    var after := UsersController.UpdateUser(users, idParam, b, isEmail, compare, hash).table;
    var id := ParseInt(idParam).value;
    UsersController.UpdateKeepsEmailsUnique(users, idParam, b, isEmail, compare, hash);
    UsersController.UpdateStoresNewHash(users, idParam, b, isEmail, compare, hash);
    RightPasswordGetsToken(after, id, b.password.value, compare, sign, secret);
  }

  // ---------------------------------------------------------------------------
  // The lookup as written
  // ---------------------------------------------------------------------------

  /**
   * The user as `User.findOne({ where: { email } })` loads it: the model's
   * default scope excludes `password_hash`, so the hash is undefined (None).
   */
  datatype ScopedUser = ScopedUser(id: int, name: string, email: string, passwordHash: Option<string>)

  function FindOneScoped(users: map<int, User>, email: string): (r: Option<ScopedUser>)
    ensures r.Some? ==> r.value.passwordHash.None? && r.value.id in users && users[r.value.id].email == email
    ensures r.None? <==> FindByEmail(users, email).None?
  {
    match FindByEmail(users, email)
    case None => None
    case Some(id) => Some(ScopedUser(id, users[id].name, email, None))
  }

  /**
   * `authenticate` as written: `bcrypt.compare(password, undefined)` rejects
   * with "Illegal arguments", which no `try` catches, so the handler answers
   * nothing of its own (None) for every e-mail that exists.
   */
  function AuthenticateAsWritten(users: map<int, User>, email: string, password: string,
                                 compare: (string, string) -> bool, sign: SignRequest -> string, secret: string)
    : (r: Option<Response<AuthJson>>)
    ensures r.None? <==> exists id :: id in users && users[id].email == email
    ensures r.Some? ==> r.value == Response(404, Message(UsersController.UserNotFound))
  {
    match FindOneScoped(users, email)
    case None => Some(Response(404, Message(UsersController.UserNotFound)))
    case Some(u) =>
      match u.passwordHash
      case None => None
      case Some(h) =>
        if !compare(password, h) then Some(Response(401, Message(WrongPassword)))
        else Some(Issued(u.id, secret, sign))
  }

  /**
   * As written, no login ever succeeds, not even right after sign-up: where
   * the intended handler issues the new user a token, the handler as written
   * answers nothing.
   */
  lemma NoLoginSucceedsAsWritten(users: map<int, User>, next: int, b: UsersController.NewUser,
                                 isEmail: string -> bool, hash: string -> string,
                                 compare: (string, string) -> bool, sign: SignRequest -> string, secret: string)
    requires UniqueEmails(users) && next !in users
    requires forall p :: compare(p, hash(p))
    requires UsersController.AcceptableNewUser(b, isEmail)
    requires forall id :: id in users ==> users[id].email != b.email.value
    ensures var table := UsersController.CreateUser(users, next, b, isEmail, hash).table;
      && AuthenticateAsWritten(table, b.email.value, b.password.value, compare, sign, secret).None?
      && Authenticate(table, b.email.value, b.password.value, compare, sign, secret) == Issued(next, secret, sign)
  {
    CreatedUserCanLogIn(users, next, b, isEmail, hash, compare, sign, secret);
    var table := UsersController.CreateUser(users, next, b, isEmail, hash).table;
    assert next in table && table[next].email == b.email.value;
  }
}
