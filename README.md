# Koa books/users service: the request-decision layer in Dafny

This project models how the route handlers of a small Koa REST service decide
what to answer. The service has five groups of routes:

- `/books` (list, get, create, patch, delete);
- `/users` (list, get, create, patch, delete) and `/user-books/:id`;
- `/user/:userId/book/:bookId` (assign, reassign, unassign a book to a user);
- `/sign-up`;
- `/sign-in`.

Each handler reads its path parameters and JSON body and makes at most a few
calls: awaited ones to a data-access object (DAO), and, in sign-in, one
synchronous call to the token assigner. It then writes `ctx.status` and
`ctx.body`, returning early at each check.

Each handler is modelled twice:

- **A specification function `…Reply`.** It gives the `Reply` the handler
  produces: the status it assigns, the body it assigns, and the collaborator
  calls it makes, in order. `None` means the handler leaves a field alone.
  Its `ensures` clauses state the handler's decision table. They give each
  status as an if-and-only-if over the inputs, and the exact calls on every
  path. In particular, a validation failure never calls anything.
- **An imperative method on a `Ctx` object.** The object has `status` and
  `body` fields. The method writes them step by step with the source's early
  returns, and is proved to leave exactly what the `…Reply` function
  describes.

DAO answers are inputs. Each handler group takes a record of functions from
call arguments to answers:

- `undefined` and other falsy answers are `None`.
- In sign-up and sign-in, whose bodies run inside a `try`/`catch` that only
  logs, an answer may also be `Threw`.

`Number(ctx.params.x)` is a `NumVal`: an integer, or not one.

The payload schemas are zod schemas. They are modelled on a small zod core
(module `Zod`):

- object schemas that strip or reject unknown keys;
- `string().min(n)`, `email()`, `optional()`, `partial()` and `strict()`;
- single-level unions of object schemas;
- `safeParse`, returning the stripped record or an error.

The zod default email pattern is a concrete predicate (module `Email`). Each
schema is characterised by a plain predicate, such as `IsBookDraft` or
`IsSignUpPayload`. A lemma proves `safeParse` accepts exactly when the
predicate holds and gives the record it returns.

The `users_books` table behind `UserBooksDao` is a multiset of rows. Its
unique `(user_id, book_id)` constraint is an invariant. Its three queries are
modelled three times:

- as functions from the old table to the new table and the returned rows;
- as methods of a `UserBooksDao` class that update the rows in place;
- linked to the assignment handlers by lemmas that run those handlers
  against the table.

## Model

| member | source | states |
|---|---|---|
| Http.Ctx.constructor | src/routes/book.route.ts:8-11 | a fresh Koa context has no status set and an undefined body |
| Http.Ctx.Shows | src/routes/book.route.ts:8-11 | a handler overwrites `ctx.status` and `ctx.body` only where it assigns them; otherwise the values it found stand |
| Email.IsEmail | src/validation/signUp.validation.ts:5 | zod's email pattern: a local part, one '@', one or more host labels each followed by '.', and a top-level label of at least two letters, with no two adjacent dots |
| Json.IsPositiveInteger | src/routes/book.route.ts:15 | the id guard `Number.isInteger(id) && id > 0`: an integer greater than 0 passes, anything else (a non-integer, or 0 or below) does not; the same guard stands at book.route.ts:47 and 72, user.route.ts:16, 33, 64 and 89, and userBooks.route.ts:10, 30 and 48 |
| Email.EmailIntro | src/validation/signUp.validation.ts:5 | `local@host.top` matches zod's email pattern whenever the local part, host label and top-level label each match their part of the pattern and the local part has no two adjacent dots |
| Email.OneAt | src/validation/signUp.validation.ts:5 | an address the email pattern accepts has exactly one '@', so the split at the first '@' is the only one |
| Email.SampleAddress | src/tests/signIn.spec.ts:17 | "user@example.com", the address of the sign-up and sign-in payloads, is email-shaped |
| Zod.FieldIssues | src/validation/book.validation.ts:4-6 | a field reports no issue exactly when it is present and satisfies its check, or is optional and absent |
| Zod.ShapeIssues | src/validation/book.validation.ts:3-7 | an object shape reports no issue exactly when every field of the shape accepts the payload |
| Zod.ParseObject | src/validation/book.validation.ts:3-9 | an object schema succeeds exactly when the payload is an object, every field accepts it and, if strict, it has no undeclared key; success returns the declared keys' values, failure carries at least one issue |
| Zod.FirstAccepting | src/validation/signIn.validation.ts:3-8 | the chosen union option is the first option accepting the payload, or none when no option accepts it |
| Zod.ParseUnion | src/validation/signIn.validation.ts:3-8 | a union succeeds exactly when some option accepts the payload, and returns what the first accepting option returns |
| Zod.SafeParse | src/validation/signIn.validation.ts:3-8 | `safeParse` dispatches on the schema: an object schema parses as `ParseObject`, a union as `ParseUnion` |
| Zod.PartialAccepts | src/validation/book.validation.ts:9 | `partial()` accepts exactly an object whose present declared keys each satisfy their check (with no undeclared key when the schema was strict): an absent key is never an issue |
| Zod.StrictRejectsUndeclared | src/validation/book.validation.ts:9 | `strict()` fails on any object holding an undeclared key, reporting those keys, whatever the declared fields hold |
| Zod.PartialStrictAccepts | src/validation/book.validation.ts:9 | `partial().strict()` accepts exactly an object with only declared keys where each present key satisfies its check |
| Zod.PartialStrictWidens | src/validation/book.validation.ts:9 | a payload with only declared keys that an object schema accepts is accepted by its strict partial, with the same result |
| Zod.SingleOptionUnion | src/validation/signIn.validation.ts:3-8 | a union with one option accepts exactly what that option accepts and returns the same record |
| BookValidation.CreateBook | src/validation/book.validation.ts:3-7 | the schema: `name` and `author` strings of length at least 1, an optional string `date`, unknown keys stripped |
| BookValidation.UpdateBook | src/validation/book.validation.ts:9 | `CreateBook.partial().strict()` |
| BookValidation.CreateBookShape | src/validation/book.validation.ts:3-9 | `CreateBook` and `UpdateBook` declare exactly the keys `name`, `author`, `date` |
| BookValidation.CreateBookAccepts | src/validation/book.validation.ts:3-7 | `CreateBook` accepts exactly objects whose `name` and `author` are strings of length at least 1 and whose `date`, if present, is a string |
| BookValidation.CreateBookOutput | src/validation/book.validation.ts:3-7 | an accepted `CreateBook` payload is returned with every key other than `name`, `author`, `date` stripped |
| BookValidation.CreateBookDateOptional | src/validation/book.validation.ts:6 | a payload with a valid `name` and `author` and no `date` is accepted |
| BookValidation.CreateBookRejectsFooBar | src/tests/book.spec.ts:104-118 | `{foo: "bar"}` fails `CreateBook` |
| BookValidation.UpdateBookAccepts | src/validation/book.validation.ts:9 | `UpdateBook` accepts exactly objects with only book keys where each present key obeys its `CreateBook` rule |
| BookValidation.UpdateBookOutput | src/validation/book.validation.ts:9 | an accepted `UpdateBook` payload is returned unchanged |
| BookValidation.UpdateBookAcceptsEmpty | src/validation/book.validation.ts:9 | `{}` is accepted by `UpdateBook` and returned as `{}` |
| BookValidation.UpdateBookRejectsUnknownKey | src/validation/book.validation.ts:9 | any key other than `name`, `author`, `date` makes `UpdateBook` fail |
| BookValidation.UpdateBookRejectsNonsense | src/tests/book.spec.ts:153-167 | `{nonsense: true}` fails `UpdateBook` |
| BookValidation.CreateImpliesUpdate | src/validation/book.validation.ts:9 | a payload with only book keys that `CreateBook` accepts is accepted by `UpdateBook` with the same result |
| SignUpValidation.SignUpSchema | src/validation/signUp.validation.ts:3-7 | the schema: `username` and `password` strings of length at least 6, an email-shaped `email`, unknown keys stripped |
| SignUpValidation.UpdateUser | src/validation/signUp.validation.ts:9 | `SignUpSchema.partial().strict()` |
| SignUpValidation.SignUpShape | src/validation/signUp.validation.ts:3-9 | `SignUpSchema` and `UpdateUser` declare exactly `username`, `email`, `password` |
| SignUpValidation.SignUpAccepts | src/validation/signUp.validation.ts:3-7 | `SignUpSchema` accepts exactly objects whose `username` and `password` are strings of length at least 6 and whose `email` is email-shaped |
| SignUpValidation.SignUpOutput | src/validation/signUp.validation.ts:3-7 | an accepted sign-up payload is returned stripped to the user keys |
| SignUpValidation.SignUpRejectsShortUsername | src/validation/signUp.validation.ts:4 | a username of length 5 is rejected |
| SignUpValidation.SignUpRejectsShortPassword | src/validation/signUp.validation.ts:6 | a password of length 5 is rejected |
| SignUpValidation.SignUpRejectsFooBar | src/tests/users.spec.ts:169-185 | `{foo: "bar"}` fails `SignUpSchema` |
| SignUpValidation.UpdateUserAccepts | src/validation/signUp.validation.ts:9 | `UpdateUser` accepts exactly objects with only user keys where each present key obeys its `SignUpSchema` rule |
| SignUpValidation.UpdateUserOutput | src/validation/signUp.validation.ts:9 | an accepted user patch is returned unchanged |
| SignUpValidation.UpdateUserRejectsUnknownKey | src/validation/signUp.validation.ts:9 | any key other than the user keys makes `UpdateUser` fail |
| SignUpValidation.UpdateUserRejectsNonsense | src/tests/users.spec.ts:226-242 | `{nonsense: true}` fails `UpdateUser` |
| SignUpValidation.UpdateUserAcceptsEmailOnly | src/tests/users.spec.ts:187-206 | a patch holding only an email-shaped `email` is accepted and returned as sent |
| SignInValidation.SignInSchema | src/validation/signIn.validation.ts:3-8 | a union of one object schema: an email-shaped `email` and a `password` string of length at least 6 |
| SignInValidation.SignInAccepts | src/validation/signIn.validation.ts:3-8 | `SignInSchema` accepts exactly objects with an email-shaped `email` and a string `password` of length at least 6 |
| SignInValidation.SignInOutput | src/validation/signIn.validation.ts:3-8 | accepted credentials are returned as exactly `{email, password}` |
| SignInValidation.SignInIgnoresUsername | src/validation/signIn.validation.ts:4-7 | adding a `username` of any value to accepted credentials changes neither whether they are accepted nor the result |
| SignInValidation.SignInRejectsMissingPassword | src/validation/signIn.validation.ts:6 | credentials without `password` are rejected |
| SignInValidation.SignInRejectsShortPassword | src/validation/signIn.validation.ts:6 | a password of length 5 is rejected |
| BookRoutes.ListBooksReply | src/routes/book.route.ts:8-11 | `GET /books` calls `findAll` once and makes its list the body, without setting a status |
| BookRoutes.ListBooks | src/routes/book.route.ts:8-11 | the handler writes the context as `ListBooksReply` says |
| BookRoutes.GetBookReply | src/routes/book.route.ts:13-28 | a bad id answers 400 without a call; otherwise `findById(id)` is called once, 404 `Book not found` exactly when it yields nothing, else the book is the body |
| BookRoutes.GetBook | src/routes/book.route.ts:13-28 | the handler writes the context as `GetBookReply` says |
| BookRoutes.CreateBookReply | src/routes/book.route.ts:30-43 | 201 exactly when the payload satisfies `CreateBook`; otherwise 400 `Invalid payload` with `create` never called; on success `create` gets the stripped payload once and its rows are the body |
| BookRoutes.CreateBook | src/routes/book.route.ts:30-43 | the handler writes the context as `CreateBookReply` says |
| BookRoutes.PatchBookReply | src/routes/book.route.ts:45-68 | the id check comes before the payload check and both come before any call; `update(id, patch)` is called exactly when both pass, 404 exactly when it returns no rows, else the rows are the body |
| BookRoutes.PatchBook | src/routes/book.route.ts:45-68 | the handler writes the context as `PatchBookReply` says |
| BookRoutes.DeleteBookReply | src/routes/book.route.ts:70-85 | a bad id answers 400 without a call; `delete(id)` returning 0 answers 404, any other count 204 with the body untouched |
| BookRoutes.DeleteBook | src/routes/book.route.ts:70-85 | the handler writes the context as `DeleteBookReply` says |
| BookRoutes.BadIdRejectedAlike | src/routes/book.route.ts:13-85 | `GET`, `PATCH` and `DELETE /books/:id` answer a bad id with the same reply, 400 `id must be a positive integer` and no call, whatever the DAO and the body |
| UserRoutes.ListUsersReply | src/routes/user.route.ts:8-12 | `GET /users` calls `findAll` once, always sets 200, and makes the list the body |
| UserRoutes.ListUsers | src/routes/user.route.ts:8-12 | the handler writes the context as `ListUsersReply` says |
| UserRoutes.GetUserReply | src/routes/user.route.ts:14-29 | a bad id answers 400 without a call; 404 `User not found` exactly when `findById` yields nothing, else the user is the body |
| UserRoutes.GetUser | src/routes/user.route.ts:14-29 | the handler writes the context as `GetUserReply` says |
| UserRoutes.GetUserBooksReply | src/routes/user.route.ts:31-46 | a bad id answers 400 without a call; 404 exactly when `findUserBooks` returns an empty list; an undefined result does not 404 and becomes the body |
| UserRoutes.GetUserBooks | src/routes/user.route.ts:31-46 | the handler writes the context as `GetUserBooksReply` says |
| UserRoutes.CreateUserReply | src/routes/user.route.ts:48-60 | 201 exactly when the payload satisfies `SignUpSchema`; otherwise 400 `Invalid payload` with `create` untouched; on success `create` gets the stripped payload once and its rows are the body |
| UserRoutes.CreateUser | src/routes/user.route.ts:48-60 | the handler writes the context as `CreateUserReply` says |
| UserRoutes.PatchUserReply | src/routes/user.route.ts:62-85 | the id check, then the `UpdateUser` check, then one `update(id, patch)`; 404 `User not found` exactly when it returns no rows |
| UserRoutes.PatchUser | src/routes/user.route.ts:62-85 | the handler writes the context as `PatchUserReply` says |
| UserRoutes.DeleteUserReply | src/routes/user.route.ts:87-102 | a bad id answers 400 without a call; a count of 0 answers 404, anything else 204 with the body untouched |
| UserRoutes.DeleteUser | src/routes/user.route.ts:87-102 | the handler writes the context as `DeleteUserReply` says |
| UserRoutes.BadIdRejectedAlike | src/routes/user.route.ts:14-102 | `GET /users/:id`, `GET /user-books/:id`, `PATCH` and `DELETE /users/:id` answer a bad id with the same reply, 400 `id must be a positive integer` and no call, whatever the DAO and the body |
| UserBooksRoutes.AssignReply | src/routes/userBooks.route.ts:7-24 | unless both ids are positive integers, 400 with no call; otherwise `assignBookToUser(userId, bookId)` once, 409 `book already exists` exactly when it returns no rows, 201 with the rows exactly when it returns some |
| UserBooksRoutes.Assign | src/routes/userBooks.route.ts:7-24 | the handler writes the context as `AssignReply` says |
| UserBooksRoutes.ReassignReply | src/routes/userBooks.route.ts:26-43 | only the path `bookId` and `userId` are checked; `updateBooksUser(oldUserId, newUserId, bookId)` gets the body's `newUserId` as sent; 404 exactly when the answer is falsy, and any list, `[]` included, becomes the body with the status untouched |
| UserBooksRoutes.Reassign | src/routes/userBooks.route.ts:26-43 | the handler writes the context as `ReassignReply` says |
| UserBooksRoutes.UnassignReply | src/routes/userBooks.route.ts:45-61 | bad ids answer 400 with the reassign message and no call; `removeBookFromUser(userId, bookId)` returning 0 answers 404, anything else 204 |
| UserBooksRoutes.Unassign | src/routes/userBooks.route.ts:45-61 | the handler writes the context as `UnassignReply` says |
| UserBooksRoutes.ReassignPassesNewUserIdUnchecked | src/routes/userBooks.route.ts:29-36 | for every pair of valid path ids, a body without `newUserId`, or with `newUserId: 0`, still reaches `updateBooksUser` with the path ids |
| UserBooksRoutes.AssignOverTable | src/routes/userBooks.route.ts:16-23 | over the table, assign answers 409 exactly when the pair is already held, and otherwise returns the one new row |
| UserBooksRoutes.ReassignMissingPairOverTable | src/routes/userBooks.route.ts:36-42 | over the table, reassigning a pair it does not hold answers `[]` with the status untouched: the 404 branch is not reached |
| UserBooksRoutes.UnassignOverTable | src/routes/userBooks.route.ts:54-60 | over a table that keeps the constraint, unassign answers 404 exactly when the pair is not held, and the count is at most 1 |
| UserBooksStore.Unique | src/migrations/20251016073332_usersBooksTable.ts:9 | the unique constraint on `(user_id, book_id)`: every pair in the table is held once |
| UserBooksStore.Insert | src/daos/userBooks.dao.ts:7-13 | insert-or-ignore: an absent pair is added once and returned as the one row; a present pair leaves the table unchanged and returns `[]`; other pairs are untouched |
| UserBooksStore.Reassign | src/daos/userBooks.dao.ts:15-17 | the update moves every row `(oldUserId, bookId)` to `newUserId` and returns the moved rows; no match changes nothing and returns `[]`; moving onto the same user changes nothing; a move onto a different user already holding the book fails with a unique violation; other pairs are untouched |
| UserBooksStore.Remove | src/daos/userBooks.dao.ts:19-21 | the delete removes every row of the pair and returns how many there were; other pairs are untouched |
| UserBooksStore.InsertKeepsUnique | src/migrations/20251016073332_usersBooksTable.ts:9 | insert-or-ignore keeps the unique constraint |
| UserBooksStore.ReassignKeepsUnique | src/migrations/20251016073332_usersBooksTable.ts:9 | a reassignment that succeeds keeps the unique constraint |
| UserBooksStore.RemoveKeepsUnique | src/migrations/20251016073332_usersBooksTable.ts:9 | a delete keeps the unique constraint |
| UserBooksStore.RemoveCountAtMostOne | src/daos/userBooks.dao.ts:19-21 | under the constraint a delete removes 0 or 1 rows |
| UserBooksStore.ReassignConflict | src/daos/userBooks.dao.ts:16 | under the constraint a reassignment fails exactly when `oldUserId` holds the book and a different `newUserId` already holds it too |
| UserBooksStore.ReassignReturnsMovedRow | src/daos/userBooks.dao.ts:16 | under the constraint a successful reassignment of a held book returns exactly the row `(newUserId, bookId)` |
| UserBooksStore.InsertIdempotent | src/daos/userBooks.dao.ts:7-13 | assigning the same pair twice leaves the table as the first insert left it, and the second returns `[]` |
| UserBooksStore.RemoveUndoesInsert | src/daos/userBooks.dao.ts:7-21 | removing a freshly assigned pair restores the table and reports one row |
| UserBooksStore.UserBooksDao.Valid | src/migrations/20251016073332_usersBooksTable.ts:9 | the DAO's table keeps the unique constraint |
| UserBooksStore.UserBooksDao.AssignBookToUser | src/daos/userBooks.dao.ts:7-13 | the rows become `Insert`'s table, the result is `Insert`'s rows, and the constraint is kept |
| UserBooksStore.UserBooksDao.UpdateBooksUser | src/daos/userBooks.dao.ts:15-17 | the rows become `Reassign`'s table and the result is its rows; on a unique violation the rows are unchanged and the error is returned |
| UserBooksStore.UserBooksDao.RemoveBookFromUser | src/daos/userBooks.dao.ts:19-21 | the rows become `Remove`'s table and the result is its count, at most 1 |
| SignUpRoute.SignUpReply | src/routes/signUp.route.ts:8-26 | a rejected payload sets only the body to the zod error, with no status and no call; otherwise `findByEmail(email)` first; 409 `User exists!` exactly when it finds a user, and then `create` is never called; `create` runs once with the stripped payload exactly when the lookup finds nothing; 201 with its rows exactly when it returns; a throw from the lookup ends the request after that one call, and a throw from either call leaves status and body alone |
| SignUpRoute.SignUp | src/routes/signUp.route.ts:8-26 | the handler writes the context as `SignUpReply` says |
| SignUpRoute.SamplePayloadAccepted | src/tests/signUp.spec.ts:18-22 | the test payload satisfies `SignUpSchema` and is stored as sent |
| SignUpRoute.SampleCreated | src/tests/signUp.spec.ts:24-38 | with a free email, the test payload is looked up, created once as sent, and answered 201 |
| SignUpRoute.SampleConflict | src/tests/signUp.spec.ts:40-54 | with the email taken, the answer is 409 after the lookup alone |
| SignInRoute.DigitChar | src/routes/signIn.route.ts:20 | the character for a digit is a decimal digit of that value |
| SignInRoute.Digits | src/routes/signIn.route.ts:20 | `String(n)` of a natural number is a non-empty string of decimal digits with no leading zero |
| SignInRoute.DecimalString | src/routes/signIn.route.ts:20 | `String(id)` starts with '-' exactly for a negative id, and is digits after that |
| SignInRoute.DigitsRoundTrip | src/routes/signIn.route.ts:20 | reading the digits of `n` back gives `n` |
| SignInRoute.DecimalRoundTrip | src/routes/signIn.route.ts:20 | reading `String(id)` back gives `id` |
| SignInRoute.DecimalStringInjective | src/routes/signIn.route.ts:20 | distinct ids give distinct token subjects |
| SignInRoute.Matches | src/routes/signIn.route.ts:13 | `user?.password == password`: true exactly when a user was found and its password equals the submitted one |
| SignInRoute.SignInReply | src/routes/signIn.route.ts:6-33 | rejected credentials set only the body, with no status and no lookup; otherwise `findByEmail(email)` first; 401 `Wrong password!` exactly when no user with that password is found, with no token call; the token assigner is called once with `String(user.id)` exactly when the password matches, and nothing else is ever called; 201 with `{user: {email, password}, token}` exactly when it returns; a throw from the lookup ends the request after that one call, and a throw from either call leaves status and body alone |
| SignInRoute.SignIn | src/routes/signIn.route.ts:6-33 | the handler writes the context as `SignInReply` says |
| SignInRoute.UnknownEmailLikeWrongPassword | src/tests/signIn.spec.ts:35-53 | an unknown email and a wrong password produce identical replies |
| SignInRoute.SampleCredentials | src/tests/signIn.spec.ts:17 | the test credentials satisfy `SignInSchema` |
| SignInRoute.SampleSignIn | src/tests/signIn.spec.ts:20-33 | user 7 with the submitted password gets 201 echoing the credentials, after one lookup and one token call for "7" |

## Behaviour worth noting

The model follows the handlers as written. In three places the code does
less than its own messages, tests or sibling routes suggest.

- **Reassign does not check `newUserId`.** The 400 message at
  `src/routes/userBooks.route.ts:32` names "userId in body", and the test at
  `src/tests/userBooks.spec.ts:98` is called "should throw 400 when newUserId
  missing". Yet the guard at `src/routes/userBooks.route.ts:30` checks only
  the path `bookId` and `userId`. That test sends `{}`, and its path `userId`,
  `nk`, already fails the path check. A body without `newUserId` and valid
  path ids reaches `updateBooksUser`. See
  `UserBooksRoutes.ReassignPassesNewUserIdUnchecked`.
- **Reassign's 404 needs a falsy DAO answer.** The handler answers 404 only
  when `updateBooksUser` returns a falsy value
  (`src/routes/userBooks.route.ts:37`). The test at
  `src/tests/userBooks.spec.ts:114-129` gets its 404 from a mock that resolves
  `0`. The real DAO returns the `returning("*")` array
  (`src/daos/userBooks.dao.ts:15-17`), which is truthy even when empty. So over
  the table a pair that is not held is answered with `[]` and no status. See
  `UserBooksRoutes.ReassignMissingPairOverTable`.
- **Sign-up and sign-in set no status on a rejected payload.** The book and
  user routes answer a rejected payload with 400 (`src/routes/book.route.ts:33`,
  `src/routes/user.route.ts:51`). Sign-up and sign-in set only the body
  (`src/routes/signUp.route.ts:11`, `src/routes/signIn.route.ts:9`), so the
  status is whatever Koa defaults to.

## Left out

- Koa's implicit status is not modelled: 200 once a body is set, 204 for an
  empty body, 404 when nothing is set. `Reply.status` records only what a
  handler assigns itself.
- Exceptions from DAOs in the book, user and user-book handlers are not
  modelled. They are not caught there and reach Koa's error handling. Sign-up
  and sign-in catch and log them, and those throws are modelled as `Threw`.
- The books and users DAOs (`src/daos/book.dao.ts`, `src/daos/user.dao.ts`)
  are not modelled. They are pass-through knex queries, so their answers are
  inputs to the handlers.
- Server wiring is not modelled: `src/server.ts`, router registration, body
  parsing, logging, the JWT gate and token signing. The token assigner is a
  function parameter.
- Sign-up builds its own `UserDao` from a database handle, while its tests
  pass a DAO mock. The model takes the `findByEmail`/`create` answers as
  inputs in both cases.
- `Number()` coercion of path strings is not modelled. Its outcome is the
  `NumVal` input.
- `String(user.id)` is modelled for integers written in plain decimal. The
  exponent notation JavaScript uses from 1e21 on, and non-integer ids, are not
  modelled.
- Foreign keys and `ON DELETE CASCADE` on `users_books` are not modelled, nor
  the `unsigned`/`notNullable` column rules. The DAO class takes `newUserId`
  as an integer. A missing or non-numeric `newUserId` reaching the database is
  not modelled.
- Async scheduling, concurrent requests and `console.log` are not modelled.
- Zod.ParseObject: on failure the error is only promised to hold at least one
  issue. zod's exact issue list, issue codes, messages and paths are
  approximated.
- Zod.ParseUnion: only unions of object schemas are modelled. A failing
  union's error collects the options' errors without zod's exact formatting.
- Zod.FieldIssues: `string().min(n)` is measured in Dafny characters rather
  than UTF-16 code units. The two differ only outside the Basic Multilingual
  Plane.
- Email.IsEmail: letters are ASCII only, in either case, as in the pattern.
