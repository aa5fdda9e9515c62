# Customer-and-contacts REST API: the controllers, modelled in Dafny

The service is an Express + Sequelize back end with four controllers:

- **users**: list, show, sign-up (`POST /users`), update with an old-password gate, and delete;
- **customers**: list, show with the customer's contacts, create, update and delete;
- **contacts**: the same five handlers, nested under `/customers/:customerId/contacts`, with every lookup scoped to the customer in the path;
- **auth**: `POST /login`, which is meant to answer 404 / 401 / 200 with a JWT signed over `{ id }` that expires after three days. As written it never issues a token (see Findings).

The model keeps the handlers' own structure:

| module | models |
|---|---|
| `Js` | The JavaScript semantics the handlers rely on: truthiness of optional strings, `parseInt(x, 10)`, `\|\|` defaults, one-character `split` / `join`, `toUpperCase` and `String.length` in UTF-16 code units. |
| `Http` | A handler's answer as a status code and a JSON payload (`{ error }`, `{ error, details }`, an entity, or an empty 204). |
| `Validation` | The yup schemas as rule tables evaluated with `abortEarly: false`, so every field is validated. Within a field yup runs its initial tests first (`oneOf`, and an absent value under `required`); when one fails, the field's other tests are skipped and only the initial failures are reported. |
| `ListQuery` | The list-query builder the three `index` handlers share:<br>• the `where` filter, the `order` list, `limit` and `offset`;<br>• the first bad date parameter;<br>• the `pagination` block. |
| `Database` | The three tables of the in-memory SQLite store, as a `Db` class whose `Valid()` invariant requires unique user e-mails and ids below each sequence's next value. It also holds the queries the handlers issue, and what SQLite stores when text is written into the INTEGER column `customer_id`. |
| `UsersController`, `CustomersController`, `ContactsController`, `AuthController` | One module per controller. |

How state-changing and read-only handlers are modelled:

- Each state-changing handler has a specification function from the old table to an `Outcome`: the response plus the new table.
- The handler itself is a module method taking the store `db: Db` and changing only the table fields its `modifies` names. It works step by step, as the controller does: it fills `updates`, assigns fields onto the found record, and writes once. It is proved to produce exactly that function's response and table, and to keep `Valid()`.
- The properties of each handler are lemmas over the specification function.
- Read-only handlers (`index`, `show`) are methods whose `ensures` give the response for every input.

Foreign capabilities become parameters of the handlers:

- `isEmail`: yup's e-mail test;
- `validDate`: `isValid(parseISO(..))`;
- `hash`: `bcrypt.hash`;
- `compare`: `bcrypt.compare`;
- `sign`: `jwt.sign`;
- `secret`: `JWT_SECRET`;
- `count`: the store's row count for `findAndCountAll`.

## Model

| member | source | states |
|---|---|---|
| Js.ParseInt | src/app/controllers/usersController.js:96-97 | `parseInt(x, 10)` is a number exactly when, after leading white space, the string starts with a digit or a sign followed by a digit; otherwise it is NaN, which the handlers answer with 400. A negative result comes only after a `-`. |
| Js.ParseIntOfDecimal | src/app/controllers/usersController.js:96-97 | `parseInt` reads back the decimal rendering of every integer, whatever non-digit text follows it. |
| Js.DigitsValueOfDigits | src/app/controllers/usersController.js:21-22 | The digit value of the decimal rendering of `n` is `n`. |
| Js.DigitRunOfDigitsThen | src/app/controllers/usersController.js:21-22 | `parseInt` stops at the first non-digit: the digit run of digits followed by a non-digit is exactly those digits. |
| Js.Digits | src/app/controllers/usersController.js:21-22 | The reference decimal rendering is non-empty and consists of digits only. |
| Js.Split | src/app/controllers/usersController.js:29 | `split(sep)` yields at least one piece, and no piece contains the separator. |
| Js.JoinSplit | src/app/controllers/usersController.js:29 | Joining the pieces of a split gives the original string back. |
| Js.SplitJoin | src/app/controllers/usersController.js:29 | Splitting a join of separator-free pieces gives the pieces back, in order. |
| Js.SplitWithoutSep | src/app/controllers/usersController.js:65 | A string without the separator splits into itself alone (`"name".split(":")` is `["name"]`). |
| Js.SplitPieceThenSep | src/app/controllers/usersController.js:65 | A separator-free piece, then the separator, then `t`: the split is that piece followed by the split of `t`. |
| Js.UpperOf | src/app/controllers/usersController.js:29 | The upper case of one character: a–z and the Latin-1 lower-case letters move to their capitals, ß becomes "SS", ÿ becomes U+0178 and µ becomes U+039C. The result is non-empty, has no lower-case letter of the table, and anything else is kept. |
| Js.ToUpper | src/app/controllers/usersController.js:29 | `toUpperCase` upper-cases each character in turn. The result is never shorter than the input (ß lengthens it) and has no lower-case letter of the table. |
| Js.ToUpperKeepsUpper | src/app/controllers/usersController.js:66 | A string with no lower-case letter is its own upper case. |
| Js.SharpSUpperCase | src/app/controllers/usersController.js:29 | `"straße".toUpperCase()` is `"STRASSE"`. |
| Js.ToUpperIdempotent | src/app/controllers/usersController.js:66 | Upper-casing twice is the same as upper-casing once. |
| Js.Utf16Length | src/app/controllers/usersController.js:118 | `String.length` counts UTF-16 code units: between one and two per character, and exactly one per character when every character is in the Basic Multilingual Plane. |
| Js.EmojiLength | src/app/controllers/usersController.js:118 | Four emoji outside the Basic Multilingual Plane have length 8, so they meet `min(8)`. |
| Js.UpperAll | src/app/controllers/usersController.js:29 | `.map((s) => s.toUpperCase())` upper-cases every token and keeps their order and number. |
| Validation.Passes | src/app/controllers/usersController.js:113-122 | One yup rule on one value: an absent value passes every rule but `required`; `required` passes exactly the truthy values; a `min(n)` passes a string of at least `n` characters. |
| Validation.ErrorsBound | src/app/controllers/usersController.js:125 | Validation reports at most one message per rule. |
| Validation.RuleErrorsEmptyIff | src/app/controllers/usersController.js:125 | A field reports no message exactly when every rule attached to it passes. |
| Validation.ErrorsEmptyIffAccepted | src/app/controllers/usersController.js:125 | Validation reports no message exactly when every rule of every field passes. |
| Validation.FailedRuleInRuleErrors | src/app/controllers/usersController.js:125 | The message of a failed rule is among its field's messages when the rule failed an initial test or no initial test of its field failed. |
| Validation.EveryFailureReported | src/app/controllers/usersController.js:125 | With `abortEarly: false` every field is validated: the message of every failed rule is in `details`, unless a failed initial test of its field skipped it. |
| Validation.RuleErrorsFromFailures | src/app/controllers/usersController.js:125 | Every message of a field comes from a failed rule that was not skipped: an initial failure, or any failure when every initial test passed. |
| Validation.OnlyFailuresReported | src/app/controllers/usersController.js:125 | Every message in `details` is the message of a failed rule that was not skipped. |
| Validation.ReportedWhenOneOfAlone | src/app/controllers/usersController.js:125 | In a field whose `oneOf` is its only rule, no failed rule is skipped. |
| Validation.EveryFailureReportedWhenOneOfAlone | src/app/controllers/usersController.js:125 | When a field's `oneOf` stands alone, the message of each of its failed rules is in `details`. |
| ListQuery.Build | src/app/controllers/usersController.js:21-76 | The list-query builder fails only with a given, invalid date field, and yields options if and only if no date field is invalid. Built options keep the scope, `limit` rows and offset `(page - 1) * limit`. |
| ListQuery.Paginate | src/app/controllers/usersController.js:78-86 | The `pagination` block reports the row count, the page and the limit. For a positive limit, `totalPages` pages hold every row with no empty last page. |
| ListQuery.LimitOf | src/app/controllers/usersController.js:22 | `parseInt(limit) \|\| 25` is never 0, so `count / limit` is always defined. |
| ListQuery.SortKeys | src/app/controllers/usersController.js:64-67 | The order has one key per comma-separated item, in the same order. |
| ListQuery.CeilDiv | src/app/controllers/usersController.js:84 | `Math.ceil(count / limit)`:<br>• for a positive limit, the pages hold every row and the last page is not empty;<br>• for a negative limit, the mirror bounds hold. |
| ListQuery.TextFilters | src/app/controllers/usersController.js:24-29 | `where` is seeded with the scope. Then:<br>• name and e-mail become `%x%` patterns only when given;<br>• status becomes its upper-cased comma tokens. |
| ListQuery.BoundsInTurn | src/app/controllers/usersController.js:31-45 | The users/customers way of handling a date pair: make the range, then check and set each bound in turn, returning at the first bad one. This gives the pair's specification `PairBounds`: `*After` is checked first, then `*Before`. |
| ListQuery.BoundsCheckedFirst | src/app/controllers/contactsController.js:32-42 | The contacts way: check both bounds, then make and fill the range. It gives the same `PairBounds`. |
| ListQuery.BuildByPairs | src/app/controllers/usersController.js:31-61 | The builder `Build` is the created pair, then the updated pair: the first `Rejected` pair ends it with that field's 400. |
| ListQuery.FirstInvalidUnfolded | src/app/controllers/usersController.js:31-61 | The date parameters are checked in the order createdAfter, createdBefore, updatedAfter, updatedBefore, and the first invalid one is reported. |
| ListQuery.EarlierValid | src/app/controllers/usersController.js:31-61 | "Every date parameter checked before `f` is fine" means: nothing for createdAfter; createdAfter for createdBefore; both created bounds for updatedAfter; and those three for updatedBefore. |
| ListQuery.FirstInvalidOfDateOrder | src/app/controllers/usersController.js:31-61 | The reported date parameter is given and invalid, and every one checked before it is absent, empty or valid. None is reported exactly when all are fine. |
| ListQuery.DateErrorIsFirstInvalid | src/app/controllers/usersController.js:31-61 | The builder fails with field `f` if and only if `f` is the first invalid date parameter. |
| ListQuery.BoundsAreInclusive | src/app/controllers/usersController.js:31-61 | `*After` is an inclusive lower bound (`Op.gte`) and `*Before` an inclusive upper bound (`Op.lte`). An absent or empty bound constrains nothing, and the two timestamp columns are constrained independently. |
| ListQuery.PatternsOnlyWhenGiven | src/app/controllers/usersController.js:27-28 | There is a name / e-mail filter exactly when that parameter is non-empty, and then it is `%value%`. |
| ListQuery.PageAndLimitDefaults | src/app/controllers/usersController.js:21-22 | Page and limit default to 1 and 25 when absent, non-numeric or zero. Any other parsed value, negatives included, is used unclamped. |
| ListQuery.EmptyQuery | src/app/controllers/usersController.js:21-86 | An empty query lists the first 25 rows with no filter and no order, and its pagination of 0 rows has 0 pages. |
| ListQuery.StatusTokensRoundTrip | src/app/controllers/usersController.js:29 | Comma-joined status tokens come back upper-cased and in order. A status is listed exactly when it is the upper case of a token. |
| ListQuery.SortKeyOfItem | src/app/controllers/usersController.js:65-66 | `field:dir` gives `[field, DIR]`, and `field` or `field:` gives `[field, "ASC"]`. |
| ListQuery.SortKeysOfTexts | src/app/controllers/usersController.js:64-67 | Every well-formed item becomes the key it stands for. |
| ListQuery.TextsAreCommaFree | src/app/controllers/usersController.js:64 | Written-out well-formed items contain no comma and the first is non-empty, so the `sort` value is truthy and splits back into them. |
| ListQuery.SortOrderRoundTrip | src/app/controllers/usersController.js:63-68 | A `sort` value written from items gives their keys in the written order: the first item is the primary key, directions are upper-cased and default to ASC. |
| Database.AtMostOneHolder | src/app/models/users.js:18 | With unique e-mails, at most one user holds any given e-mail. |
| Database.FindByEmail | src/app/controllers/usersController.js:129-130 | `findOne({ where: { email } })` finds nothing if and only if no user holds that e-mail. Otherwise it finds a holder, the lowest id. |
| Database.FindByEmailUnique | src/app/controllers/authController.js:9 | With unique e-mails the lookup finds exactly the user who holds the e-mail. |
| Database.UniqueAfterUpdate | src/app/controllers/usersController.js:199-206 | Writing a row whose e-mail no other user holds keeps user e-mails unique. |
| Database.ReadNumeral | src/database/index.js:10 | What SQLite reads as a numeric literal: an optional sign, digits with an optional point and fraction, and an optional exponent. The result keeps the digits, the scale, and whether the literal is an integer one. |
| Database.ColumnInt | src/app/controllers/contactsController.js:132 | SQLite's INTEGER column (src/database/index.js:10) stores a text as an integer only when the trimmed text is a numeric literal. An integer literal is kept when it fits in 64 bits. A real literal is kept when its value is an integer from -2^51 up to, but not including, 2^51. Every result lies in the 64-bit range. Other texts stay TEXT or REAL, and the foreign key refuses them. |
| Database.IntegerTextStoredAsParsed | src/app/controllers/contactsController.js:132 | A signed digit string is stored as the integer `parseInt` reads from it when that integer fits in 64 bits, and refused otherwise. |
| Database.ColumnIntOfDecimal | src/app/controllers/contactsController.js:132 | The decimal rendering of an integer is stored as that integer exactly when it fits in 64 bits; a wider one becomes a REAL, which the foreign key refuses. |
| Database.TrimPadding | src/app/controllers/contactsController.js:132 | White space around a text is dropped before the column reads it. |
| Database.FractionNumeral | src/app/controllers/contactsController.js:132 | `w.f` reads as a real literal with the digits of `w` then `f` and scale `-\|f\|`. |
| Database.ExponentNumeral | src/app/controllers/contactsController.js:132 | `wex` reads as a real literal with the digits of `w` and scale `x`. |
| Database.PaddedIdStored | src/app/controllers/contactsController.js:132 | `" 7 "` is stored as 7. |
| Database.PointZeroStored | src/app/controllers/contactsController.js:132 | `"5.0"` is stored as 5. |
| Database.ExponentStored | src/app/controllers/contactsController.js:132 | `"3e2"` is stored as 300, while `parseInt` reads 3 from it. |
| Database.FractionRefused | src/app/controllers/contactsController.js:132 | `"5.5"` is not stored as an integer. |
| Database.WordsRefused | src/app/controllers/contactsController.js:132 | `"abc"` and `"0x10"` are not stored as integers. |
| UsersController.Index | src/app/controllers/usersController.js:9-91 | Built step by step:<br>• a bad date parameter gives 400 naming the field the builder reports;<br>• otherwise 200 with the builder's options, every column but `password_hash` (`attributes: { exclude: ["password_hash"] }`, line 73), and `{ total, page, limit, totalPages }`. |
| UsersController.Show | src/app/controllers/usersController.js:94-109 | • 400 for a NaN id;<br>• 404 for a missing user;<br>• otherwise 200 with the user's fields, where the response shape has no room for the hash. |
| UsersController.CreateSchemaMeaning | src/app/controllers/usersController.js:113-122 | The creation schema accepts a body exactly when:<br>• name is given;<br>• e-mail is given and valid;<br>• password is given with at least 8 UTF-16 code units (`String.length`);<br>• status is ACTIVE/INACTIVE and role is USER/ADMIN when present. |
| UsersController.Create | src/app/controllers/usersController.js:112-150 | The sign-up handler gives the response and the new users table of its specification `CreateUser`, advances the id sequence only on 201, and keeps the store invariant. |
| UsersController.CreateWritesOnlyOnSuccess | src/app/controllers/usersController.js:124-143 | Sign-up writes only when it answers 201, and then only the next id. |
| UsersController.CreateChecksEmailFirst | src/app/controllers/usersController.js:127-140 | For an accepted body:<br>• 400 "E-mail já cadastrado", with nothing written, if and only if the e-mail is held;<br>• otherwise 201, storing the hash of the password and defaulting status to ACTIVE and role to USER. |
| UsersController.CreateReportsAllFailures | src/app/controllers/usersController.js:145-146 | A rejected body gets 400 with the schema's messages in `details`, at least one, and nothing is written. |
| UsersController.CreateReportsEveryFailure | src/app/controllers/usersController.js:113-125 | No creation field pairs `oneOf` with another rule, so the message of every failed rule is in `details`. |
| UsersController.CreateKeepsEmailsUnique | src/app/controllers/usersController.js:129-140 | Sign-up keeps user e-mails unique. |
| UsersController.UpdateSchema | src/app/controllers/usersController.js:155-172 | The update schema with its conditions read as the code reads: the new password is required exactly when `oldPassword` is truthy, and the confirmation exactly when `password` is. |
| UsersController.UpdateSchemaMeaning | src/app/controllers/usersController.js:155-172 | That schema accepts a body exactly when:<br>• a given e-mail is valid;<br>• each given password has at least 8 UTF-16 code units;<br>• a new password comes with an old one;<br>• a new password comes with an equal confirmation. |
| UsersController.UpdateSchemaAsWritten | src/app/controllers/usersController.js:155-172 | The update schema as yup 1 resolves it: the new password and the confirmation are always required. |
| UsersController.UpdateSchemaAsWrittenMeaning | src/app/controllers/usersController.js:155-172 | As written, the schema accepts a body exactly when a given e-mail is valid, a given old password is long enough, and a new password of at least 8 code units comes with an equal confirmation. |
| UsersController.NameOnlyRefusedAsWritten | src/app/controllers/usersController.js:159-171 | As yup resolves the schema, a body `{ name }` is refused with exactly "Nova senha é obrigatória" and "Confirmação de senha é obrigatória". |
| UsersController.EmptyConfirmAsWritten | src/app/controllers/usersController.js:165-170 | For any old and new password of at least 8 code units and an empty confirmation, only the `oneOf` message is reported: the failed initial `oneOf` skips the field's `required`. |
| UsersController.EmptyConfirmRefused | src/app/controllers/usersController.js:155-177 | `update` answers that body with 400 and the `oneOf` message alone, before looking the user up, and writes nothing. |
| UsersController.NameOnlyAccepted | src/app/controllers/usersController.js:159-171 | With the conditions read as their code reads, a body `{ name }` passes validation. |
| UsersController.Update | src/app/controllers/usersController.js:154-221 | The update handler fills `updates` step by step and writes once. It gives the response and table of its specification `UpdateUser` (id, validation, lookup, old-password gate, old-password check, e-mail probe, write) and keeps the invariant. |
| UsersController.UpdateWritesOnlyOnSuccess | src/app/controllers/usersController.js:174-213 | An update writes only when it answers 200, and then only the row of the parsed id, which becomes the patched user. |
| UsersController.RenameNeedsNoOldPassword | src/app/controllers/usersController.js:185-210 | Renaming an existing user needs no old password. It answers 200 and changes only the name, and an empty name changes nothing. |
| UsersController.CredentialsNeedOldPassword | src/app/controllers/usersController.js:191-197 | A new e-mail or password with no old password, or with a wrong one, gets 401 with its message, and nothing is written (not even a name sent along). |
| UsersController.UpdateRejectsTakenEmail | src/app/controllers/usersController.js:199-206 | Taking another user's e-mail gets 400, with nothing written, if and only if another user holds it. Keeping one's own e-mail is not a clash. |
| UsersController.UpdateStoresNewHash | src/app/controllers/usersController.js:208-210 | A successful update stores the hash of a new password, and keeps the old hash when none is given. |
| UsersController.UpdateKeepsEmailsUnique | src/app/controllers/usersController.js:199-210 | Updates keep user e-mails unique. |
| UsersController.Destroy | src/app/controllers/usersController.js:224-238 | The delete handler gives the response and table of `DestroyUser` and keeps the invariant. |
| UsersController.DestroyRemovesExactlyOne | src/app/controllers/usersController.js:224-238 | 204 exactly when the id parses and the user exists. Then that user alone is removed, and otherwise nothing is. |
| CustomersController.Index | src/app/controllers/customersController.js:9-108 | Same as the users' listing: 400 naming the reported date field, or 200 with the options, the six listed columns, the customer's contacts (`id`, `name`, `status`, lines 84-90) as an outer join, and the pagination. |
| Database.ContactsPartition | src/app/controllers/customersController.js:117-123 | A contact is included under exactly one customer, the one its `customer_id` names. |
| CustomersController.Show | src/app/controllers/customersController.js:110-132 | • 400 for a NaN id;<br>• 404 for a missing customer;<br>• otherwise 200 with the customer and exactly its own contacts. |
| CustomersController.CreateSchemaMeaning | src/app/controllers/customersController.js:135-139 | The schema accepts a body exactly when:<br>• name is given;<br>• e-mail is given and valid;<br>• status is ACTIVE/ARCHIVED when present. |
| CustomersController.Create | src/app/controllers/customersController.js:134-160 | The create handler gives the response and table of `CreateCustomer`, advances the sequence only on 201, and keeps the invariant. |
| CustomersController.CreateDefaultsStatus | src/app/controllers/customersController.js:141-156 | 201 if and only if the body is accepted, and then the row is stored under the next id with status ACTIVE when none is given. Otherwise 400 with every message, and nothing is written. |
| CustomersController.Update | src/app/controllers/customersController.js:162-190 | The update handler assigns the body's fields onto the record, and gives the response and table of `UpdateCustomer`. |
| CustomersController.UpdateWritesOnlyOnSuccess | src/app/controllers/customersController.js:169-179 | 200 if and only if the id parses, the body validates and the customer exists; otherwise nothing is written, and a missing customer gets 404. On 200, exactly the given fields change. |
| CustomersController.UpdateKeepsStatusInRange | src/app/controllers/customersController.js:166 | After an update the status is ACTIVE, ARCHIVED or the one already stored. |
| CustomersController.Destroy | src/app/controllers/customersController.js:192-206 | The delete handler gives the response and table of `DestroyCustomer`. |
| CustomersController.DestroyRemovesExactlyOne | src/app/controllers/customersController.js:192-206 | 204 exactly when the customer exists. Then it alone is removed and the other rows are unchanged; otherwise nothing is removed. |
| ContactsController.Index | src/app/controllers/contactsController.js:9-84 | `where` is scoped to the path's `customer_id`. The result is 400 naming the reported date field, or 200 with the rows for the built options, the six listed columns, and each row's customer (`id`, `status`, `email`) as a required inner join (lines 66-74), with no count. |
| ContactsController.Show | src/app/controllers/contactsController.js:86-115 | • 400 when either path id is NaN;<br>• 404 unless the joint `(id, customer_id)` lookup finds the contact;<br>• otherwise 200 with the contact and its customer. |
| ContactsController.CreateSchemaMeaning | src/app/controllers/contactsController.js:118-122 | The schema accepts a body exactly when:<br>• name is given;<br>• e-mail is given and valid;<br>• status is ACTIVE/ARCHIVED when present. |
| ContactsController.Create | src/app/controllers/contactsController.js:117-144 | The create handler gives the response and table of `CreateContact`: validation, then the insert with the path's `customer_id`. It answers 500 when the foreign key (src/app/models/contacts.js:42-50) finds no customer with the id the column stores. It advances the sequence only on 201. |
| ContactsController.CreateUsesPathCustomer | src/app/controllers/contactsController.js:127-135 | A contact created under `/customers/<n>/contacts`, for an existing customer `n`, is stored under the next id, belongs to `n`, and is found by the joint lookup. |
| ContactsController.CreateWritesOnlyOnSuccess | src/app/controllers/contactsController.js:124-143 | Nothing is written unless the answer is 201. On 201 the body was accepted, the column stored the path parameter as an existing customer's id, and only the next id was written, under that customer. |
| ContactsController.CreateNeedsExistingCustomer | src/app/controllers/contactsController.js:129-142 | For an accepted body the answer is 201 or 500, and 500 exactly when the column does not store the path parameter as an existing customer's id. A 500 writes nothing. |
| ContactsController.Update | src/app/controllers/contactsController.js:146-178 | The update handler assigns the body's fields onto the contact the joint lookup finds, in the order ids, validation, lookup, write. The write fails with 500 when the foreign key refuses a new `customer_id`. It gives the response and table of `UpdateContact`. |
| ContactsController.Destroy | src/app/controllers/contactsController.js:180-199 | The delete handler gives the response and table of `DestroyContact`. |
| ContactsController.BadIdsAnsweredFirst | src/app/controllers/contactsController.js:154-159 | A NaN path id gets 400 before the body or the store is looked at, and nothing is written. |
| ContactsController.ForeignContactUntouched | src/app/controllers/contactsController.js:163-165 | Another customer's contact is answered like a missing one, 404, and is neither changed nor deleted. |
| ContactsController.OthersUntouched | src/app/controllers/contactsController.js:163-169 | Update and delete leave every contact other than the addressed one as it was. |
| ContactsController.UpdateChangesOnlyGivenFields | src/app/controllers/contactsController.js:163-169 | A successful update found the contact under the path's customer and changes exactly the fields the body gives. A changed `customer_id` names an existing customer. Without `customer_id` in the body, the contact stays under that customer. |
| ContactsController.UpdateNeedsExistingCustomer | src/app/controllers/contactsController.js:167-176 | Once the ids, the body and the lookup pass, the answer is 200 or 500. It is 500, with nothing written, exactly when the body moves the contact to an id no customer has. |
| ContactsController.DestroyRemovesExactlyOne | src/app/controllers/contactsController.js:180-194 | 204 exactly when both ids parse and the joint lookup succeeds. Then that contact alone is removed, and otherwise nothing is. |
| AuthController.Authenticate | src/app/controllers/authController.js:6-20 | Login answers:<br>• 404 "Usuário não encontrado" if and only if no user holds the e-mail;<br>• 401 "Senha incorreta" if and only if the user found fails the password comparison;<br>• otherwise 200 with a token signed over that user's id, for three days;<br>• no other status. |
| AuthController.RightPasswordGetsToken | src/app/controllers/authController.js:9-19 | With unique e-mails, the right password for a user's e-mail yields that user's token. |
| AuthController.UnknownEmailNeverCompared | src/app/controllers/authController.js:9-10 | An unknown e-mail gets 404 whatever the comparison and the signer would do. |
| AuthController.CreatedUserCanLogIn | src/app/controllers/authController.js:9-19 | A user signed up with an accepted body and a fresh e-mail logs in with that password and gets a token for the new id. |
| AuthController.ChangedPasswordLogsIn | src/app/controllers/authController.js:12-19 | After a successful password change, the new password logs the user in. |
| AuthController.FindOneScoped | src/app/models/users.js:40-42 | `User.findOne({ where: { email } })` under the default scope finds the holder of the e-mail, loaded without its `password_hash`. |
| AuthController.AuthenticateAsWritten | src/app/controllers/authController.js:6-20 | As written, login answers nothing of its own (the hash comparison throws) exactly when some user holds the e-mail; the only answer it gives is 404 "Usuário não encontrado". |
| AuthController.NoLoginSucceedsAsWritten | src/app/controllers/authController.js:9-13 | Right after a sign-up with an accepted body and a fresh e-mail, the intended handler issues the new user a token, while the handler as written answers nothing. |

## Left out

- Store query semantics (`Op.iLike`, `Op.in`, `order`, `limit`/`offset`, the column projections and the `include` joins) are not evaluated. A listing's response carries what is handed to the store (options, columns, include), not the rows it returns.
- The row count of `findAndCountAll` is a parameter of the listings.
- The 500 answers that come from exceptions thrown by the store are left out. The modelled exceptions are the foreign key refusing the contacts' `customer_id`, in `create` and in `update`.
- ORM-level validators (`notEmpty`, `isEmail`, `len`) and the unique constraints on the customers' and contacts' e-mails are left out. User e-mail uniqueness is kept as the store invariant `Valid()`.
- The foreign-key action on a deleted customer's contacts is left out: `CustomersController.Destroy` leaves the contacts table as it is.
- `createdAt`/`updatedAt` timestamps are left out. The date range filters keep the parameter strings; `BoundsAreInclusive` states their meaning through a `timeOf` function.
- `async`/`await` interleavings and concurrent requests are left out: each handler is atomic.
- Js.ToUpper: the case mapping is modelled for ASCII and Latin-1 letters only (with ß, ÿ and µ leaving Latin-1); letters beyond Latin-1 are kept as they are, where JavaScript would upper-case them.
- JavaScript strings with unpaired surrogates cannot be written as Dafny strings; every other string is a sequence of code points, and `Js.Utf16Length` gives its JavaScript length.
- `parseInt` is modelled on unbounded integers: precision loss beyond 2^53 and `-0` are left out.
- Query and body values that are arrays or non-strings are left out: every body field is an optional string, except the contacts' `customer_id`, an optional integer.
- Messages within a field follow rule order. The exact order in which yup interleaves messages across fields is not modelled.
- The default `oneOf` message for the password confirmation is modelled as a fixed string.
- The authentication middleware that guards every route but `POST /users` and `POST /login` is left out (src/routes.js:14-19); its source is not part of this model.
- The `User` model declares no `status` or `role` attribute (src/app/models/users.js:8-33), so the ORM would drop those two on insert. The model stores them as the handler passes them.
- The contacts' listing filters on `where.createdAt` / `where.updatedAt`; these are modelled as the same date ranges as the other listings' `created_at` / `updated_at`.
- AuthController.Authenticate: a body without `email` is left out: `findOne` then throws, and `compare` may throw on a missing password. A missing `JWT_SECRET` is also left out.
- Database.FindByEmail: without an `order`, the store may return any matching row. The model takes the lowest id, which is the only one under `UniqueEmails`.
- Database.ColumnInt: SQLite also stores as an integer a real literal whose value is an integer outside [-2^51, 2^51) but within 64 bits, or a non-integral one that rounds to an integer in double precision. Which of these it keeps depends on its version and rounding. The model refuses them all.
- Validation.Errors: the messages are listed field by field in the order the schema declares the fields; the order in which yup lists the messages of different fields is not modelled. yup 0.x runs `required` on an absent value as an ordinary test, not an initial one; every other rule here passes an absent value, so the reported messages are the same.
- CustomersController.Create: of the body's attributes, only `name`, `email` and `status` are modelled; `create({ ...req.body })` (customersController.js:145) would write other keys too.
- CustomersController.Update: of the body's attributes, only `name`, `email` and `status` are modelled; `update(req.body)` (customersController.js:178) would write other keys too.
- ContactsController.Update: of the body's attributes, only `name`, `email`, `status` and `customer_id` are modelled; other keys of `req.body` would be written too.

## Findings

| source | as written | input that shows it | evidently intended | confidence | as-written member | corrected member |
|---|---|---|---|---|---|---|
| src/app/controllers/usersController.js:162-171 | `.when("oldPassword", (oldPassword, field) => oldPassword ? ...)`: in yup 1 the builder receives the array of dependency values, which is always truthy. So the password and its confirmation are always required. | `PUT /users/1` with body `{ "name": "Novo Nome" }` is refused with 400 "Nova senha é obrigatória", "Confirmação de senha é obrigatória" | The password is required only when `oldPassword` is given, and the confirmation only when `password` is given. A rename alone then passes (the handler's own 401 gate covers credentials). | medium, not executed (yup's major version is not visible in the source) | UsersController.NameOnlyRefusedAsWritten | UsersController.NameOnlyAccepted |
| src/app/controllers/authController.js:9-12 | `User.findOne({ where: { email } })` uses the default scope, which excludes `password_hash` (src/app/models/users.js:40-42). So `bcrypt.compare(password, undefined)` rejects, and the handler has no `try` around it. | `POST /login` with the e-mail and password of an existing user gets no answer from the handler (an unhandled rejection) instead of 200 | Load the hash, e.g. `User.scope(null).findOne` or `attributes` including `password_hash`, so the right password yields a token. | high, not executed | AuthController.NoLoginSucceedsAsWritten | AuthController.CreatedUserCanLogIn |
