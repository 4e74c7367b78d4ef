/**
 * `UserBooksDao` over the `users_books` table. The table is a bag of
 * `(user_id, book_id)` rows; its `unique(["user_id", "book_id"])` constraint
 * is the invariant `Unique`. Each query is a function from the old table to
 * the new table and the rows it returns, and the DAO class applies it in place.
 */
module UserBooksStore {

  import opened Wrappers
  import opened Http

  /** The unique constraint: no `(user_id, book_id)` pair is held twice. */
  ghost predicate Unique(rows: multiset<UserBook>) {
    forall p | p in rows :: rows[p] == 1
  }

  /** The table after a query, and the rows `returning("*")` hands back. */
  datatype Change = Change(table: multiset<UserBook>, returned: seq<UserBook>)

  /** The table after a delete, and the number of rows deleted. */
  datatype Removal = Removal(table: multiset<UserBook>, count: nat)

  /** The error the database raises when an update would break the unique constraint. */
  datatype DbError = UniqueViolation(userId: int, bookId: int)

  /** `insert(row).onConflict(["user_id", "book_id"]).ignore().returning("*")` */
  function Insert(rows: multiset<UserBook>, userId: int, bookId: int): (r: Change)
    ensures UserBook(userId, bookId) in r.table
    ensures r.returned == [] <==> UserBook(userId, bookId) in rows
    ensures r.returned == [] ==> r.table == rows
    ensures r.returned != [] ==> r.returned == [UserBook(userId, bookId)] && r.table[UserBook(userId, bookId)] == 1
    ensures forall p | p != UserBook(userId, bookId) :: r.table[p] == rows[p]
  {
    var row := UserBook(userId, bookId);
    if row in rows then Change(rows, [])
    else Change(rows + multiset{row}, [row])
  }

  /**
   * `where({ user_id: oldUserId, book_id: bookId }).update({ user_id: newUserId }).returning("*")`:
   * every matching row moves to `newUserId`, and the statement fails, changing
   * nothing, when the moved rows would collide with the unique constraint.
   */
  function Reassign(rows: multiset<UserBook>, oldUserId: int, newUserId: int, bookId: int): (r: Result<Change, DbError>)
    ensures r.Failure? <==>
              UserBook(oldUserId, bookId) in rows && oldUserId != newUserId &&
              rows[UserBook(newUserId, bookId)] + rows[UserBook(oldUserId, bookId)] > 1
    ensures r.Failure? ==> r.error == UniqueViolation(newUserId, bookId)
    ensures r.Success? ==> |r.value.returned| == rows[UserBook(oldUserId, bookId)]
    ensures r.Success? ==> forall i | 0 <= i < |r.value.returned| :: r.value.returned[i] == UserBook(newUserId, bookId)
    ensures r.Success? && UserBook(oldUserId, bookId) !in rows ==> r.value.table == rows
    ensures r.Success? && oldUserId == newUserId ==> r.value.table == rows
    ensures r.Success? && oldUserId != newUserId && UserBook(oldUserId, bookId) in rows ==>
              UserBook(oldUserId, bookId) !in r.value.table && r.value.table[UserBook(newUserId, bookId)] == 1
    ensures r.Success? ==> forall p | p != UserBook(oldUserId, bookId) && p != UserBook(newUserId, bookId) ::
              r.value.table[p] == rows[p]
  {
    var from := UserBook(oldUserId, bookId);
    var to := UserBook(newUserId, bookId);
    var k := rows[from];
    if k == 0 then Success(Change(rows, []))
    else if oldUserId == newUserId then Success(Change(rows, seq(k, _ => from)))
    else if rows[to] + k > 1 then Failure(UniqueViolation(newUserId, bookId))
    else Success(Change(rows[from := 0][to := 1], [to]))
  }

  /** `where({ user_id: userId, book_id: bookId }).delete()` */
  function Remove(rows: multiset<UserBook>, userId: int, bookId: int): (r: Removal)
    ensures r.count == rows[UserBook(userId, bookId)]
    ensures UserBook(userId, bookId) !in r.table
    ensures forall p | p != UserBook(userId, bookId) :: r.table[p] == rows[p]
  {
    var row := UserBook(userId, bookId);
    Removal(rows[row := 0], rows[row])
  }

  // ---------------------------------------------------------------- invariant

  lemma InsertKeepsUnique(rows: multiset<UserBook>, userId: int, bookId: int)
    requires Unique(rows)
    ensures Unique(Insert(rows, userId, bookId).table)
  {
    var t := Insert(rows, userId, bookId).table;
    forall p | p in t
      ensures t[p] == 1
    {
      if p != UserBook(userId, bookId) {
        assert t[p] == rows[p];
      }
    }
  }

  lemma ReassignKeepsUnique(rows: multiset<UserBook>, oldUserId: int, newUserId: int, bookId: int)
    requires Unique(rows)
    requires Reassign(rows, oldUserId, newUserId, bookId).Success?
    ensures Unique(Reassign(rows, oldUserId, newUserId, bookId).value.table)
  {
    var t := Reassign(rows, oldUserId, newUserId, bookId).value.table;
    forall p | p in t
      ensures t[p] == 1
    {
      if p != UserBook(oldUserId, bookId) && p != UserBook(newUserId, bookId) {
        assert t[p] == rows[p];
      }
    }
  }

  lemma RemoveKeepsUnique(rows: multiset<UserBook>, userId: int, bookId: int)
    requires Unique(rows)
    ensures Unique(Remove(rows, userId, bookId).table)
  {
    var t := Remove(rows, userId, bookId).table;
    forall p | p in t
      ensures t[p] == 1
    {
      assert t[p] == rows[p];
    }
  }

  // --------------------------------------------------------------- properties

  /** Under the constraint, a delete removes at most one row. */
  lemma RemoveCountAtMostOne(rows: multiset<UserBook>, userId: int, bookId: int)
    requires Unique(rows)
    ensures Remove(rows, userId, bookId).count <= 1
  {
    if UserBook(userId, bookId) in rows {
      assert rows[UserBook(userId, bookId)] == 1;
    }
  }

  /**
   * Under the constraint, a reassignment fails exactly when the book is held
   * by `oldUserId` and already by a different `newUserId`.
   */
  lemma ReassignConflict(rows: multiset<UserBook>, oldUserId: int, newUserId: int, bookId: int)
    requires Unique(rows)
    ensures Reassign(rows, oldUserId, newUserId, bookId).Failure? <==>
              UserBook(oldUserId, bookId) in rows && oldUserId != newUserId && UserBook(newUserId, bookId) in rows
  {
    if UserBook(oldUserId, bookId) in rows {
      assert rows[UserBook(oldUserId, bookId)] == 1;
    }
  }

  /** Under the constraint, a successful reassignment of a held book returns exactly the moved row. */
  lemma ReassignReturnsMovedRow(rows: multiset<UserBook>, oldUserId: int, newUserId: int, bookId: int)
    requires Unique(rows)
    requires UserBook(oldUserId, bookId) in rows
    requires Reassign(rows, oldUserId, newUserId, bookId).Success?
    ensures Reassign(rows, oldUserId, newUserId, bookId).value.returned == [UserBook(newUserId, bookId)]
  {
    var r := Reassign(rows, oldUserId, newUserId, bookId).value.returned;
    assert rows[UserBook(oldUserId, bookId)] == 1;
    assert |r| == 1 && r[0] == UserBook(newUserId, bookId);
  }

  /** Inserting a pair twice leaves the table as the first insert made it, and the second returns nothing. */
  lemma InsertIdempotent(rows: multiset<UserBook>, userId: int, bookId: int)
    ensures var once := Insert(rows, userId, bookId).table;
            Insert(once, userId, bookId) == Change(once, [])
  {
  }

  /** Removing a pair just inserted into a table without it restores the table. */
  lemma RemoveUndoesInsert(rows: multiset<UserBook>, userId: int, bookId: int)
    requires UserBook(userId, bookId) !in rows
    ensures Remove(Insert(rows, userId, bookId).table, userId, bookId) == Removal(rows, 1)
  {
    var row := UserBook(userId, bookId);
    assert (rows + multiset{row})[row := 0] == rows;
  }

  // ---------------------------------------------------------------- the DAO

  class UserBooksDao {
    /** The rows of `users_books`. */
    var rows: multiset<UserBook>

    ghost predicate Valid()
      reads this
    {
      Unique(rows)
    }

    constructor(initial: multiset<UserBook>)
      requires Unique(initial)
      ensures Valid() && rows == initial
    {
      rows := initial;
    }

    method AssignBookToUser(userId: int, bookId: int) returns (inserted: seq<UserBook>)
      requires Valid()
      modifies this
      ensures Valid()
      ensures rows == Insert(old(rows), userId, bookId).table
      ensures inserted == Insert(old(rows), userId, bookId).returned
    {
      InsertKeepsUnique(rows, userId, bookId);
      var row := UserBook(userId, bookId);
      if row in rows {
        return [];
      }
      rows := rows + multiset{row};
      inserted := [row];
    }

    /** Throws, as the database would, by returning `Failure`; the rows are then unchanged. */
    method UpdateBooksUser(oldUserId: int, newUserId: int, bookId: int) returns (updated: Result<seq<UserBook>, DbError>)
      requires Valid()
      modifies this
      ensures Valid()
      ensures var r := Reassign(old(rows), oldUserId, newUserId, bookId);
              if r.Success? then rows == r.value.table && updated == Success(r.value.returned)
              else rows == old(rows) && updated == Failure(r.error)
    {
      var from := UserBook(oldUserId, bookId);
      var to := UserBook(newUserId, bookId);
      var k := rows[from];
      if k == 0 {
        return Success([]);
      }
      if oldUserId == newUserId {
        return Success(seq(k, _ => from));
      }
      if rows[to] + k > 1 {
        return Failure(UniqueViolation(newUserId, bookId));
      }
      ReassignKeepsUnique(rows, oldUserId, newUserId, bookId);
      rows := rows[from := 0][to := 1];
      updated := Success([to]);
    }

    method RemoveBookFromUser(userId: int, bookId: int) returns (count: nat)
      requires Valid()
      modifies this
      ensures Valid()
      ensures rows == Remove(old(rows), userId, bookId).table
      ensures count == Remove(old(rows), userId, bookId).count && count <= 1
    {
      RemoveKeepsUnique(rows, userId, bookId);
      RemoveCountAtMostOne(rows, userId, bookId);
      var row := UserBook(userId, bookId);
      count := rows[row];
      rows := rows[row := 0];
    }
  }
}
