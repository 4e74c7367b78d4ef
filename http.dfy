/**
 * What a route handler sees and writes: the rows the data-access objects
 * return, the Koa context's `status` and `body` fields, and the calls a
 * handler makes to its collaborators.
 */
module Http {

  import opened Wrappers
  import opened Json
  import Zod

  datatype Book = Book(id: int, name: string, author: string, date: string)

  datatype User = User(id: int, username: string, email: string, password: string)

  /** A row of the `users_books` table. */
  datatype UserBook = UserBook(userId: int, bookId: int)

  /** The JSON values the handlers assign to `ctx.body`. */
  datatype Body =
    | Undefined                                    // `undefined`: the initial value, or an undefined DAO result
    | Error(message: string)                       // `{ error: message }`
    | InvalidPayload(details: Zod.ZodError)        // `{ error: "Invalid payload", details }`
    | ValidationFailure(error: Zod.ZodError)       // `{ error: <zod error> }`
    | BookValue(book: Book)
    | Books(books: seq<Book>)
    | UserValue(user: User)
    | Users(users: seq<User>)
    | Assignments(rows: seq<UserBook>)
    | Session(email: string, password: string, token: string)   // `{ user: { email, password }, token }`

  /** A call a handler makes to its data-access object or to the token assigner. */
  datatype Call =
    | FindAll
    | FindById(id: int)
    | FindByEmail(email: string)
    | FindUserBooks(id: int)
    | Create(data: Zod.Record)
    | Update(id: int, patch: Zod.Record)
    | Delete(id: int)
    | AssignBookToUser(userId: int, bookId: int)
    | UpdateBooksUser(oldUserId: int, newUserId: Option<Json>, bookId: int)
    | RemoveBookFromUser(userId: int, bookId: int)
    | AssignToken(subject: string)

  /**
   * The effect of one request on the context: the status and body the handler
   * assigns (`None` when it leaves the field alone) and the calls it makes, in
   * order.
   */
  datatype Reply = Reply(status: Option<int>, body: Option<Body>, calls: seq<Call>)

  /** How an awaited collaborator call ended: with a value, or by throwing. */
  datatype Answer<+T> = Returned(value: T) | Threw

  /** The message of the shared id guard. */
  const InvalidId: string := "id must be a positive integer"

  /** A 400 with `{ error: message }`, reached before any call. */
  function Rejected(message: string): (r: Reply)
    ensures r.status == Some(400) && r.body == Some(Error(message)) && r.calls == []
  {
    Reply(Some(400), Some(Error(message)), [])
  }

  /** The Koa context of one request, as far as the handlers write it. */
  class Ctx {
    /** `ctx.status` when a handler has set it, `None` while Koa's default stands. */
    var status: Option<int>
    var body: Body

    constructor()
      ensures status == None && body == Undefined
    {
      status := None;
      body := Undefined;
    }

    /** The fields hold what `r` wrote over `status0` and `body0`. */
    ghost predicate Shows(status0: Option<int>, body0: Body, r: Reply)
      reads this
    {
      && status == (if r.status.Some? then r.status else status0)
      && body == (if r.body.Some? then r.body.value else body0)
    }
  }
}
