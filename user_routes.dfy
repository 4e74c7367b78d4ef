/**
 * The `/users` and `/user-books/:id` handlers of `createUsersRoutes`, each as
 * the reply it produces and as the method that writes it into the context.
 */
module UserRoutes {

  import opened Wrappers
  import opened Json
  import opened Zod
  import opened Http
  import SignUpValidation

  /** The user data-access object, as the handlers see it: each call's answer. */
  datatype UserDao = UserDao(
    findAll: Option<seq<User>>,                // `None`: `undefined`
    findById: int -> Option<User>,             // `None`: no such user
    findUserBooks: int -> Option<seq<Book>>,   // `None`: `undefined`
    create: Record -> seq<User>,
    update: (int, Record) -> seq<User>,        // the updated rows
    delete: int -> int)                        // the deleted row count

  const NotFound: string := "User not found"

  const NoBooks: string := "User not found or does not have books"

  // ---------------------------------------------------------------- GET /users

  /** `GET /users`: status 200 set explicitly, the DAO's list as the body. */
  function ListUsersReply(dao: UserDao): (r: Reply)
    ensures r.calls == [FindAll] && r.status == Some(200)
    ensures dao.findAll.Some? ==> r.body == Some(Users(dao.findAll.value))
    ensures dao.findAll.None? ==> r.body == Some(Undefined)
  {
    Reply(Some(200), Some(if dao.findAll.Some? then Users(dao.findAll.value) else Undefined), [FindAll])
  }

  method ListUsers(ctx: Ctx, dao: UserDao) returns (calls: seq<Call>)
    modifies ctx
    ensures ctx.Shows(old(ctx.status), old(ctx.body), ListUsersReply(dao)) && calls == ListUsersReply(dao).calls
  {
    var rows := dao.findAll;
    calls := [FindAll];
    ctx.status := Some(200);
    ctx.body := if rows.Some? then Users(rows.value) else Undefined;
  }

  // ------------------------------------------------------------ GET /users/:id

  /** `GET /users/:id`: 400 on a bad id, 404 exactly when no user is found, else the user. */
  function GetUserReply(id: NumVal, dao: UserDao): (r: Reply)
    ensures !IsPositiveInteger(id) ==> r == Rejected(InvalidId)
    ensures IsPositiveInteger(id) ==> r.calls == [FindById(id.n)]
    ensures r.status == Some(404) <==> IsPositiveInteger(id) && dao.findById(id.n).None?
    ensures r.status == Some(404) ==> r.body == Some(Error(NotFound))
    ensures IsPositiveInteger(id) && dao.findById(id.n).Some? ==>
              r.status == None && r.body == Some(UserValue(dao.findById(id.n).value))
  {
    if !IsPositiveInteger(id) then Rejected(InvalidId)
    else
      var user := dao.findById(id.n);
      if user.None? then Reply(Some(404), Some(Error(NotFound)), [FindById(id.n)])
      else Reply(None, Some(UserValue(user.value)), [FindById(id.n)])
  }

  method GetUser(ctx: Ctx, id: NumVal, dao: UserDao) returns (calls: seq<Call>)
    modifies ctx
    ensures ctx.Shows(old(ctx.status), old(ctx.body), GetUserReply(id, dao)) && calls == GetUserReply(id, dao).calls
  {
    if !IsPositiveInteger(id) {
      ctx.status := Some(400);
      ctx.body := Error(InvalidId);
      return [];
    }
    var user := dao.findById(id.n);
    calls := [FindById(id.n)];
    if user.None? {
      ctx.status := Some(404);
      ctx.body := Error(NotFound);
      return;
    }
    ctx.body := UserValue(user.value);
  }

  // ------------------------------------------------------- GET /user-books/:id

  /**
   * `GET /user-books/:id`: 404 exactly when the list is empty. Through `?.`,
   * an undefined result is not empty, so it is assigned to the body as it is.
   */
  function GetUserBooksReply(id: NumVal, dao: UserDao): (r: Reply)
    ensures !IsPositiveInteger(id) ==> r == Rejected(InvalidId)
    ensures IsPositiveInteger(id) ==> r.calls == [FindUserBooks(id.n)]
    ensures r.status == Some(404) <==> IsPositiveInteger(id) && dao.findUserBooks(id.n) == Some([])
    ensures r.status == Some(404) ==> r.body == Some(Error(NoBooks))
    ensures IsPositiveInteger(id) && dao.findUserBooks(id.n).None? ==> r.status == None && r.body == Some(Undefined)
    ensures IsPositiveInteger(id) && dao.findUserBooks(id.n).Some? && dao.findUserBooks(id.n) != Some([]) ==>
              r.status == None && r.body == Some(Books(dao.findUserBooks(id.n).value))
  {
    if !IsPositiveInteger(id) then Rejected(InvalidId)
    else
      var books := dao.findUserBooks(id.n);
      if books.Some? && |books.value| == 0 then Reply(Some(404), Some(Error(NoBooks)), [FindUserBooks(id.n)])
      else Reply(None, Some(if books.Some? then Books(books.value) else Undefined), [FindUserBooks(id.n)])
  }

  method GetUserBooks(ctx: Ctx, id: NumVal, dao: UserDao) returns (calls: seq<Call>)
    modifies ctx
    ensures ctx.Shows(old(ctx.status), old(ctx.body), GetUserBooksReply(id, dao)) && calls == GetUserBooksReply(id, dao).calls
  {
    if !IsPositiveInteger(id) {
      ctx.status := Some(400);
      ctx.body := Error(InvalidId);
      return [];
    }
    var books := dao.findUserBooks(id.n);
    calls := [FindUserBooks(id.n)];
    if books.Some? && |books.value| == 0 {
      ctx.status := Some(404);
      ctx.body := Error(NoBooks);
      return;
    }
    ctx.body := if books.Some? then Books(books.value) else Undefined;
  }

  // --------------------------------------------------------------- POST /users

  /**
   * `POST /users`: a payload `SignUpSchema` rejects gives 400 with the zod
   * error and no call; an accepted one is created, stripped of unknown keys,
   * and answered 201 with the created rows.
   */
  function CreateUserReply(body: Json, dao: UserDao): (r: Reply)
    ensures r.status == Some(201) <==> SignUpValidation.IsSignUpPayload(body)
    ensures !SignUpValidation.IsSignUpPayload(body) ==>
              r.status == Some(400) && r.calls == [] && r.body.Some? && r.body.value.InvalidPayload?
    ensures SignUpValidation.IsSignUpPayload(body) ==>
              var data := Known(SignUpValidation.SignUpSchema.shape, body.fields);
              r.calls == [Create(data)] && r.body == Some(Users(dao.create(data)))
  {
    SignUpValidation.SignUpAccepts(body);
    var parsed := SafeParse(Object(SignUpValidation.SignUpSchema), body);
    if parsed.Failure? then Reply(Some(400), Some(InvalidPayload(parsed.error)), [])
    else
      SignUpValidation.SignUpOutput(body);
      Reply(Some(201), Some(Users(dao.create(parsed.value))), [Create(parsed.value)])
  }

  method CreateUser(ctx: Ctx, body: Json, dao: UserDao) returns (calls: seq<Call>)
    modifies ctx
    ensures ctx.Shows(old(ctx.status), old(ctx.body), CreateUserReply(body, dao)) && calls == CreateUserReply(body, dao).calls
  {
    var parsed := SafeParse(Object(SignUpValidation.SignUpSchema), body);
    if parsed.Failure? {
      ctx.status := Some(400);
      ctx.body := InvalidPayload(parsed.error);
      return [];
    }
    var created := dao.create(parsed.value);
    calls := [Create(parsed.value)];
    ctx.status := Some(201);
    ctx.body := Users(created);
  }

  // ---------------------------------------------------------- PATCH /users/:id

  /**
   * `PATCH /users/:id`: the id check, then the `UpdateUser` check, then
   * `update(id, patch)` once; an empty result answers 404.
   */
  function PatchUserReply(id: NumVal, body: Json, dao: UserDao): (r: Reply)
    ensures !IsPositiveInteger(id) ==> r == Rejected(InvalidId)
    ensures IsPositiveInteger(id) && !SignUpValidation.IsUserPatch(body) ==>
              r.status == Some(400) && r.calls == [] && r.body.Some? && r.body.value.InvalidPayload?
    ensures r.calls != [] <==> IsPositiveInteger(id) && SignUpValidation.IsUserPatch(body)
    ensures r.calls != [] ==> r.calls == [Update(id.n, body.fields)]
    ensures r.calls != [] ==> (r.status == Some(404) <==> dao.update(id.n, body.fields) == [])
    ensures r.calls != [] && r.status == Some(404) ==> r.body == Some(Error(NotFound))
    ensures r.calls != [] && r.status != Some(404) ==>
              r.status == None && r.body == Some(Users(dao.update(id.n, body.fields)))
  {
    if !IsPositiveInteger(id) then Rejected(InvalidId)
    else
      SignUpValidation.UpdateUserAccepts(body);
      var parsed := SafeParse(Object(SignUpValidation.UpdateUser), body);
      if parsed.Failure? then Reply(Some(400), Some(InvalidPayload(parsed.error)), [])
      else
        SignUpValidation.UpdateUserOutput(body);
        var updated := dao.update(id.n, parsed.value);
        if |updated| == 0 then Reply(Some(404), Some(Error(NotFound)), [Update(id.n, parsed.value)])
        else Reply(None, Some(Users(updated)), [Update(id.n, parsed.value)])
  }

  method PatchUser(ctx: Ctx, id: NumVal, body: Json, dao: UserDao) returns (calls: seq<Call>)
    modifies ctx
    ensures ctx.Shows(old(ctx.status), old(ctx.body), PatchUserReply(id, body, dao)) && calls == PatchUserReply(id, body, dao).calls
  {
    if !IsPositiveInteger(id) {
      ctx.status := Some(400);
      ctx.body := Error(InvalidId);
      return [];
    }
    var parsed := SafeParse(Object(SignUpValidation.UpdateUser), body);
    if parsed.Failure? {
      ctx.status := Some(400);
      ctx.body := InvalidPayload(parsed.error);
      return [];
    }
    var updated := dao.update(id.n, parsed.value);
    calls := [Update(id.n, parsed.value)];
    if |updated| == 0 {
      ctx.status := Some(404);
      ctx.body := Error(NotFound);
      return;
    }
    ctx.body := Users(updated);
  }

  // --------------------------------------------------------- DELETE /users/:id

  /** `DELETE /users/:id`: 404 exactly when nothing was deleted, else 204 with the body left alone. */
  function DeleteUserReply(id: NumVal, dao: UserDao): (r: Reply)
    ensures !IsPositiveInteger(id) ==> r == Rejected(InvalidId)
    ensures IsPositiveInteger(id) ==> r.calls == [Delete(id.n)]
    ensures r.status == Some(404) <==> IsPositiveInteger(id) && dao.delete(id.n) == 0
    ensures r.status == Some(404) ==> r.body == Some(Error(NotFound))
    ensures r.status == Some(204) <==> IsPositiveInteger(id) && dao.delete(id.n) != 0
    ensures r.status == Some(204) ==> r.body == None
  {
    if !IsPositiveInteger(id) then Rejected(InvalidId)
    else
      var count := dao.delete(id.n);
      if count == 0 then Reply(Some(404), Some(Error(NotFound)), [Delete(id.n)])
      else Reply(Some(204), None, [Delete(id.n)])
  }

  method DeleteUser(ctx: Ctx, id: NumVal, dao: UserDao) returns (calls: seq<Call>)
    modifies ctx
    ensures ctx.Shows(old(ctx.status), old(ctx.body), DeleteUserReply(id, dao)) && calls == DeleteUserReply(id, dao).calls
  {
    if !IsPositiveInteger(id) {
      ctx.status := Some(400);
      ctx.body := Error(InvalidId);
      return [];
    }
    var count := dao.delete(id.n);
    calls := [Delete(id.n)];
    if count == 0 {
      ctx.status := Some(404);
      ctx.body := Error(NotFound);
      return;
    }
    ctx.status := Some(204);
  }

  /**
   * Every user route that takes an id answers a bad one identically: 400 with
   * the id message and no DAO call, whatever the DAO holds and the body says.
   */
  lemma BadIdRejectedAlike(id: NumVal, body: Json, dao: UserDao)
    requires !IsPositiveInteger(id)
    ensures var bad := Reply(Some(400), Some(Error("id must be a positive integer")), []);
            && GetUserReply(id, dao) == bad && GetUserBooksReply(id, dao) == bad
            && PatchUserReply(id, body, dao) == bad && DeleteUserReply(id, dao) == bad
  {
  }
}
