/**
 * The `/user/:userId/book/:bookId` handlers of `createUsersBooksRoutes`:
 * assign (POST), reassign (PATCH) and unassign (DELETE).
 */
module UserBooksRoutes {

  import opened Wrappers
  import opened Json
  import opened Http
  import UserBooksStore

  /**
   * The assignment data-access object, as the handlers see it. `newUserId`
   * reaches `updateBooksUser` as it came in the body (`None`: absent), and a
   * `None` answer stands for a falsy result.
   */
  datatype AssignmentDao = AssignmentDao(
    assignBookToUser: (int, int) -> seq<UserBook>,
    updateBooksUser: (int, Option<Json>, int) -> Option<seq<UserBook>>,
    removeBookFromUser: (int, int) -> int)

  const BadIds: string := "userId and bookId must be positive integers"

  /** The message of the reassign and unassign guards. */
  const BadPathIds: string := "bookId in path and userId in body must be positive integers"

  const Exists: string := "book already exists"

  const NotFound: string := "Assignment not found for this book"

  // ------------------------------------------------------------------- assign

  /** POST: 400 unless both ids are positive integers, 409 when nothing was inserted, else 201 with the rows. */
  function AssignReply(userId: NumVal, bookId: NumVal, dao: AssignmentDao): (r: Reply)
    ensures !(IsPositiveInteger(userId) && IsPositiveInteger(bookId)) ==> r == Rejected(BadIds)
    ensures IsPositiveInteger(userId) && IsPositiveInteger(bookId) ==>
              r.calls == [AssignBookToUser(userId.n, bookId.n)]
    ensures r.status == Some(409) <==>
              IsPositiveInteger(userId) && IsPositiveInteger(bookId) && dao.assignBookToUser(userId.n, bookId.n) == []
    ensures r.status == Some(409) ==> r.body == Some(Error(Exists))
    ensures r.status == Some(201) <==>
              IsPositiveInteger(userId) && IsPositiveInteger(bookId) && dao.assignBookToUser(userId.n, bookId.n) != []
    ensures r.status == Some(201) ==> r.body == Some(Assignments(dao.assignBookToUser(userId.n, bookId.n)))
  {
    if !(IsPositiveInteger(userId) && IsPositiveInteger(bookId)) then Rejected(BadIds)
    else
      var rows := dao.assignBookToUser(userId.n, bookId.n);
      if |rows| == 0 then Reply(Some(409), Some(Error(Exists)), [AssignBookToUser(userId.n, bookId.n)])
      else Reply(Some(201), Some(Assignments(rows)), [AssignBookToUser(userId.n, bookId.n)])
  }

  method Assign(ctx: Ctx, userId: NumVal, bookId: NumVal, dao: AssignmentDao) returns (calls: seq<Call>)
    modifies ctx
    ensures ctx.Shows(old(ctx.status), old(ctx.body), AssignReply(userId, bookId, dao))
    ensures calls == AssignReply(userId, bookId, dao).calls
  {
    if !IsPositiveInteger(userId) || !IsPositiveInteger(bookId) {
      ctx.status := Some(400);
      ctx.body := Error(BadIds);
      return [];
    }
    var rows := dao.assignBookToUser(userId.n, bookId.n);
    calls := [AssignBookToUser(userId.n, bookId.n)];
    if |rows| == 0 {
      ctx.status := Some(409);
      ctx.body := Error(Exists);
      return;
    }
    ctx.status := Some(201);
    ctx.body := Assignments(rows);
  }

  // ----------------------------------------------------------------- reassign

  /**
   * PATCH: only the path ids are checked; `newUserId` is read from the body
   * and handed on unchecked as `updateBooksUser(oldUserId, newUserId, bookId)`.
   * Only a falsy result answers 404: any list, `[]` included, becomes the body.
   */
  function ReassignReply(userId: NumVal, bookId: NumVal, body: Json, dao: AssignmentDao): (r: Reply)
    ensures !(IsPositiveInteger(bookId) && IsPositiveInteger(userId)) ==> r == Rejected(BadPathIds)
    ensures IsPositiveInteger(bookId) && IsPositiveInteger(userId) ==>
              r.calls == [UpdateBooksUser(userId.n, Member(body, "newUserId"), bookId.n)]
    ensures r.status == Some(404) <==>
              IsPositiveInteger(bookId) && IsPositiveInteger(userId) &&
              dao.updateBooksUser(userId.n, Member(body, "newUserId"), bookId.n).None?
    ensures r.status == Some(404) ==> r.body == Some(Error(NotFound))
    ensures IsPositiveInteger(bookId) && IsPositiveInteger(userId) &&
            dao.updateBooksUser(userId.n, Member(body, "newUserId"), bookId.n).Some? ==>
              r.status == None &&
              r.body == Some(Assignments(dao.updateBooksUser(userId.n, Member(body, "newUserId"), bookId.n).value))
  {
    var newUserId := Member(body, "newUserId");
    if !(IsPositiveInteger(bookId) && IsPositiveInteger(userId)) then Rejected(BadPathIds)
    else
      var updated := dao.updateBooksUser(userId.n, newUserId, bookId.n);
      if updated.None? then Reply(Some(404), Some(Error(NotFound)), [UpdateBooksUser(userId.n, newUserId, bookId.n)])
      else Reply(None, Some(Assignments(updated.value)), [UpdateBooksUser(userId.n, newUserId, bookId.n)])
  }

  method Reassign(ctx: Ctx, userId: NumVal, bookId: NumVal, body: Json, dao: AssignmentDao) returns (calls: seq<Call>)
    modifies ctx
    ensures ctx.Shows(old(ctx.status), old(ctx.body), ReassignReply(userId, bookId, body, dao))
    ensures calls == ReassignReply(userId, bookId, body, dao).calls
  {
    var newUserId := Member(body, "newUserId");
    if !IsPositiveInteger(bookId) || !IsPositiveInteger(userId) {
      ctx.status := Some(400);
      ctx.body := Error(BadPathIds);
      return [];
    }
    var updated := dao.updateBooksUser(userId.n, newUserId, bookId.n);
    calls := [UpdateBooksUser(userId.n, newUserId, bookId.n)];
    if updated.None? {
      ctx.status := Some(404);
      ctx.body := Error(NotFound);
      return;
    }
    ctx.body := Assignments(updated.value);
  }

  // ----------------------------------------------------------------- unassign

  /** DELETE: 400 with the reassign message on a bad id, 404 when nothing was removed, else 204. */
  function UnassignReply(userId: NumVal, bookId: NumVal, dao: AssignmentDao): (r: Reply)
    ensures !(IsPositiveInteger(bookId) && IsPositiveInteger(userId)) ==> r == Rejected(BadPathIds)
    ensures IsPositiveInteger(bookId) && IsPositiveInteger(userId) ==>
              r.calls == [RemoveBookFromUser(userId.n, bookId.n)]
    ensures r.status == Some(404) <==>
              IsPositiveInteger(bookId) && IsPositiveInteger(userId) && dao.removeBookFromUser(userId.n, bookId.n) == 0
    ensures r.status == Some(404) ==> r.body == Some(Error(NotFound))
    ensures r.status == Some(204) <==>
              IsPositiveInteger(bookId) && IsPositiveInteger(userId) && dao.removeBookFromUser(userId.n, bookId.n) != 0
    ensures r.status == Some(204) ==> r.body == None
  {
    if !(IsPositiveInteger(bookId) && IsPositiveInteger(userId)) then Rejected(BadPathIds)
    else
      var count := dao.removeBookFromUser(userId.n, bookId.n);
      if count == 0 then Reply(Some(404), Some(Error(NotFound)), [RemoveBookFromUser(userId.n, bookId.n)])
      else Reply(Some(204), None, [RemoveBookFromUser(userId.n, bookId.n)])
  }

  method Unassign(ctx: Ctx, userId: NumVal, bookId: NumVal, dao: AssignmentDao) returns (calls: seq<Call>)
    modifies ctx
    ensures ctx.Shows(old(ctx.status), old(ctx.body), UnassignReply(userId, bookId, dao))
    ensures calls == UnassignReply(userId, bookId, dao).calls
  {
    if !IsPositiveInteger(bookId) || !IsPositiveInteger(userId) {
      ctx.status := Some(400);
      ctx.body := Error(BadPathIds);
      return [];
    }
    var count := dao.removeBookFromUser(userId.n, bookId.n);
    calls := [RemoveBookFromUser(userId.n, bookId.n)];
    if count == 0 {
      ctx.status := Some(404);
      ctx.body := Error(NotFound);
      return;
    }
    ctx.status := Some(204);
  }

  /**
   * With valid path ids, a body without `newUserId`, or with `newUserId: 0`,
   * still reaches `updateBooksUser`: the guard never looks at the body.
   */
  lemma ReassignPassesNewUserIdUnchecked(userId: NumVal, bookId: NumVal, dao: AssignmentDao)
    requires IsPositiveInteger(userId) && IsPositiveInteger(bookId)
    ensures ReassignReply(userId, bookId, JObject(map[]), dao).calls == [UpdateBooksUser(userId.n, None, bookId.n)]
    ensures var zero := JObject(map["newUserId" := JNumber(0.0)]);
            ReassignReply(userId, bookId, zero, dao).calls == [UpdateBooksUser(userId.n, Some(JNumber(0.0)), bookId.n)]
  {
  }

  // ------------------------------------------------- handlers over the table

  /** Backed by the table, assign answers 409 exactly when the pair is already held, and 201 with the new row otherwise. */
  lemma AssignOverTable(rows: multiset<UserBook>, userId: NumVal, bookId: NumVal, dao: AssignmentDao)
    requires IsPositiveInteger(userId) && IsPositiveInteger(bookId)
    requires dao.assignBookToUser(userId.n, bookId.n) == UserBooksStore.Insert(rows, userId.n, bookId.n).returned
    ensures AssignReply(userId, bookId, dao).status == Some(409) <==> UserBook(userId.n, bookId.n) in rows
    ensures UserBook(userId.n, bookId.n) !in rows ==>
              AssignReply(userId, bookId, dao).body == Some(Assignments([UserBook(userId.n, bookId.n)]))
  {
  }

  /**
   * Backed by the table, reassigning a pair the table does not hold answers
   * with an empty list and leaves the status alone: the 404 branch is not
   * reached, because `[]` is truthy. The target `newUserId` the table moves
   * to plays no part: with no row of the pair, nothing moves whatever the
   * body's `newUserId` is.
   */
  lemma ReassignMissingPairOverTable(rows: multiset<UserBook>, userId: NumVal, bookId: NumVal, newUserId: int,
                                     body: Json, dao: AssignmentDao)
    requires IsPositiveInteger(userId) && IsPositiveInteger(bookId)
    requires UserBook(userId.n, bookId.n) !in rows
    requires var outcome := UserBooksStore.Reassign(rows, userId.n, newUserId, bookId.n);
             dao.updateBooksUser(userId.n, Member(body, "newUserId"), bookId.n) == Some(outcome.value.returned)
    ensures ReassignReply(userId, bookId, body, dao).status == None
    ensures ReassignReply(userId, bookId, body, dao).body == Some(Assignments([]))
  {
  }

  /** Backed by a table that keeps the constraint, unassign never answers 404 for a held pair and always does for a missing one. */
  lemma UnassignOverTable(rows: multiset<UserBook>, userId: NumVal, bookId: NumVal, dao: AssignmentDao)
    requires UserBooksStore.Unique(rows)
    requires IsPositiveInteger(userId) && IsPositiveInteger(bookId)
    requires dao.removeBookFromUser(userId.n, bookId.n) == UserBooksStore.Remove(rows, userId.n, bookId.n).count
    ensures UnassignReply(userId, bookId, dao).status == Some(404) <==> UserBook(userId.n, bookId.n) !in rows
    ensures UserBooksStore.Remove(rows, userId.n, bookId.n).count <= 1
  {
    UserBooksStore.RemoveCountAtMostOne(rows, userId.n, bookId.n);
  }
}
