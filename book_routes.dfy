/**
 * The `/books` handlers of `createBooksRoutes`. Each handler is given as the
 * reply it produces (a function of the path id, the request body and the
 * data-access object) and as the method that writes that reply into the
 * context step by step, returning early after each failed check.
 */
module BookRoutes {

  import opened Wrappers
  import opened Json
  import opened Zod
  import opened Http
  import BookValidation

  /** The book data-access object, as the handlers see it: each call's answer. */
  datatype BookDao = BookDao(
    findAll: Option<seq<Book>>,          // `None`: `undefined`
    findById: int -> Option<Book>,       // `None`: no such book
    create: Record -> seq<Book>,
    update: (int, Record) -> seq<Book>,  // the updated rows
    delete: int -> int)                  // the deleted row count

  const NotFound: string := "Book not found"

  // ---------------------------------------------------------------- GET /books

  /** `GET /books`: the DAO's list, unchanged, as the body. */
  function ListBooksReply(dao: BookDao): (r: Reply)
    ensures r.calls == [FindAll] && r.status == None
    ensures dao.findAll.Some? ==> r.body == Some(Books(dao.findAll.value))
    ensures dao.findAll.None? ==> r.body == Some(Undefined)
  {
    Reply(None, Some(if dao.findAll.Some? then Books(dao.findAll.value) else Undefined), [FindAll])
  }

  method ListBooks(ctx: Ctx, dao: BookDao) returns (calls: seq<Call>)
    modifies ctx
    ensures ctx.Shows(old(ctx.status), old(ctx.body), ListBooksReply(dao)) && calls == ListBooksReply(dao).calls
  {
    var rows := dao.findAll;
    calls := [FindAll];
    ctx.body := if rows.Some? then Books(rows.value) else Undefined;
  }

  // ------------------------------------------------------------ GET /books/:id

  /** `GET /books/:id`: 400 on a bad id, 404 exactly when no book is found, else the book. */
  function GetBookReply(id: NumVal, dao: BookDao): (r: Reply)
    ensures !IsPositiveInteger(id) ==> r == Rejected(InvalidId)
    ensures IsPositiveInteger(id) ==> r.calls == [FindById(id.n)]
    ensures r.status == Some(404) <==> IsPositiveInteger(id) && dao.findById(id.n).None?
    ensures r.status == Some(404) ==> r.body == Some(Error(NotFound))
    ensures IsPositiveInteger(id) && dao.findById(id.n).Some? ==>
              r.status == None && r.body == Some(BookValue(dao.findById(id.n).value))
  {
    if !IsPositiveInteger(id) then Rejected(InvalidId)
    else
      var book := dao.findById(id.n);
      if book.None? then Reply(Some(404), Some(Error(NotFound)), [FindById(id.n)])
      else Reply(None, Some(BookValue(book.value)), [FindById(id.n)])
  }

  method GetBook(ctx: Ctx, id: NumVal, dao: BookDao) returns (calls: seq<Call>)
    modifies ctx
    ensures ctx.Shows(old(ctx.status), old(ctx.body), GetBookReply(id, dao)) && calls == GetBookReply(id, dao).calls
  {
    if !IsPositiveInteger(id) {
      ctx.status := Some(400);
      ctx.body := Error(InvalidId);
      return [];
    }
    var book := dao.findById(id.n);
    calls := [FindById(id.n)];
    if book.None? {
      ctx.status := Some(404);
      ctx.body := Error(NotFound);
      return;
    }
    ctx.body := BookValue(book.value);
  }

  // --------------------------------------------------------------- POST /books

  /**
   * `POST /books`: a payload `CreateBook` rejects gives 400 with the zod error
   * and no call; an accepted one is created, stripped of unknown keys, and
   * answered 201 with the created rows.
   */
  function CreateBookReply(body: Json, dao: BookDao): (r: Reply)
    ensures r.status == Some(201) <==> BookValidation.IsBookDraft(body)
    ensures !BookValidation.IsBookDraft(body) ==>
              r.status == Some(400) && r.calls == [] && r.body.Some? && r.body.value.InvalidPayload?
    ensures BookValidation.IsBookDraft(body) ==>
              var draft := Known(BookValidation.CreateBook.shape, body.fields);
              r.calls == [Create(draft)] && r.body == Some(Books(dao.create(draft)))
  {
    BookValidation.CreateBookAccepts(body);
    var parsed := SafeParse(Object(BookValidation.CreateBook), body);
    if parsed.Failure? then Reply(Some(400), Some(InvalidPayload(parsed.error)), [])
    else
      BookValidation.CreateBookOutput(body);
      Reply(Some(201), Some(Books(dao.create(parsed.value))), [Create(parsed.value)])
  }

  method CreateBook(ctx: Ctx, body: Json, dao: BookDao) returns (calls: seq<Call>)
    modifies ctx
    ensures ctx.Shows(old(ctx.status), old(ctx.body), CreateBookReply(body, dao)) && calls == CreateBookReply(body, dao).calls
  {
    var parsed := SafeParse(Object(BookValidation.CreateBook), body);
    if parsed.Failure? {
      ctx.status := Some(400);
      ctx.body := InvalidPayload(parsed.error);
      return [];
    }
    var created := dao.create(parsed.value);
    calls := [Create(parsed.value)];
    ctx.status := Some(201);
    ctx.body := Books(created);
  }

  // ---------------------------------------------------------- PATCH /books/:id

  /**
   * `PATCH /books/:id`: the id is checked first, then the payload against
   * `UpdateBook`, both before any call; then `update(id, patch)` runs once and
   * an empty result answers 404.
   */
  function PatchBookReply(id: NumVal, body: Json, dao: BookDao): (r: Reply)
    ensures !IsPositiveInteger(id) ==> r == Rejected(InvalidId)
    ensures IsPositiveInteger(id) && !BookValidation.IsBookPatch(body) ==>
              r.status == Some(400) && r.calls == [] && r.body.Some? && r.body.value.InvalidPayload?
    ensures r.calls != [] <==> IsPositiveInteger(id) && BookValidation.IsBookPatch(body)
    ensures r.calls != [] ==> r.calls == [Update(id.n, body.fields)]
    ensures r.calls != [] ==> (r.status == Some(404) <==> dao.update(id.n, body.fields) == [])
    ensures r.calls != [] && r.status == Some(404) ==> r.body == Some(Error(NotFound))
    ensures r.calls != [] && r.status != Some(404) ==>
              r.status == None && r.body == Some(Books(dao.update(id.n, body.fields)))
  {
    if !IsPositiveInteger(id) then Rejected(InvalidId)
    else
      BookValidation.UpdateBookAccepts(body);
      var parsed := SafeParse(Object(BookValidation.UpdateBook), body);
      if parsed.Failure? then Reply(Some(400), Some(InvalidPayload(parsed.error)), [])
      else
        BookValidation.UpdateBookOutput(body);
        var updated := dao.update(id.n, parsed.value);
        if |updated| == 0 then Reply(Some(404), Some(Error(NotFound)), [Update(id.n, parsed.value)])
        else Reply(None, Some(Books(updated)), [Update(id.n, parsed.value)])
  }

  method PatchBook(ctx: Ctx, id: NumVal, body: Json, dao: BookDao) returns (calls: seq<Call>)
    modifies ctx
    ensures ctx.Shows(old(ctx.status), old(ctx.body), PatchBookReply(id, body, dao)) && calls == PatchBookReply(id, body, dao).calls
  {
    if !IsPositiveInteger(id) {
      ctx.status := Some(400);
      ctx.body := Error(InvalidId);
      return [];
    }
    var parsed := SafeParse(Object(BookValidation.UpdateBook), body);
    if parsed.Failure? {
      ctx.status := Some(400);
      ctx.body := InvalidPayload(parsed.error);
      return [];
    }
    var updated := dao.update(id.n, parsed.value);
    calls := [Update(id.n, parsed.value)];
    if |updated| == 0 {
      ctx.status := Some(404);
      ctx.body := Error(NotFound);
      return;
    }
    ctx.body := Books(updated);
  }

  // --------------------------------------------------------- DELETE /books/:id

  /** `DELETE /books/:id`: 404 exactly when nothing was deleted, else 204 with the body left alone. */
  function DeleteBookReply(id: NumVal, dao: BookDao): (r: Reply)
    ensures !IsPositiveInteger(id) ==> r == Rejected(InvalidId)
    ensures IsPositiveInteger(id) ==> r.calls == [Delete(id.n)]
    ensures r.status == Some(404) <==> IsPositiveInteger(id) && dao.delete(id.n) == 0
    ensures r.status == Some(404) ==> r.body == Some(Error(NotFound))
    ensures r.status == Some(204) <==> IsPositiveInteger(id) && dao.delete(id.n) != 0
    ensures r.status == Some(204) ==> r.body == None
  {
    if !IsPositiveInteger(id) then Rejected(InvalidId)
    else
      var count := dao.delete(id.n);
      if count == 0 then Reply(Some(404), Some(Error(NotFound)), [Delete(id.n)])
      else Reply(Some(204), None, [Delete(id.n)])
  }

  method DeleteBook(ctx: Ctx, id: NumVal, dao: BookDao) returns (calls: seq<Call>)
    modifies ctx
    ensures ctx.Shows(old(ctx.status), old(ctx.body), DeleteBookReply(id, dao)) && calls == DeleteBookReply(id, dao).calls
  {
    if !IsPositiveInteger(id) {
      ctx.status := Some(400);
      ctx.body := Error(InvalidId);
      return [];
    }
    var count := dao.delete(id.n);
    calls := [Delete(id.n)];
    if count == 0 {
      ctx.status := Some(404);
      ctx.body := Error(NotFound);
      return;
    }
    ctx.status := Some(204);
  }

  /**
   * Every book route that takes an id answers a bad one identically: 400 with
   * the id message and no DAO call, whatever the DAO holds and the body says.
   */
  lemma BadIdRejectedAlike(id: NumVal, body: Json, dao: BookDao)
    requires !IsPositiveInteger(id)
    ensures var bad := Reply(Some(400), Some(Error("id must be a positive integer")), []);
            GetBookReply(id, dao) == bad && PatchBookReply(id, body, dao) == bad && DeleteBookReply(id, dao) == bad
  {
  }
}
