/**
 * The `users` table of database_functions.py as a value: rows keyed by the
 * Telegram user id, which is the table's PRIMARY KEY, so a second insert of
 * the same id raises instead of overwriting.
 */
module UserTable {
  import opened Wrappers

  /** One row of `users`; `username` is NULL for a Telegram account without one. */
  datatype UserRecord = UserRecord(
    fullName: string,
    phoneNumber: string,
    workplace: string,
    username: Option<string>)

  /** sqlite3.IntegrityError raised by the PRIMARY KEY on `users.id`. */
  datatype DbError = UniqueConstraintFailed(id: int)

  type Table = map<int, UserRecord>

  /** `SELECT id FROM users WHERE id = ?` followed by `fetchone()`. */
  function SelectId(table: Table, id: int): Option<int>
  {
    if id in table then Some(id) else None
  }

  /** `is_user_registered`: the SELECT found a row, which happens exactly when the id has one. */
  predicate IsUserRegistered(table: Table, id: int)
    ensures IsUserRegistered(table, id) <==> id in table
  {
    SelectId(table, id) != None
  }

  /**
   * `register_user`: the INSERT of one row. It succeeds exactly when the id
   * is new, and then adds that one row and changes no other; otherwise it
   * fails and the table keeps its old rows.
   */
  function RegisterUser(table: Table, id: int, record: UserRecord): (r: Result<Table, DbError>)
    ensures r.Ok? <==> !IsUserRegistered(table, id)
    ensures r.Ok? ==> r.value.Keys == table.Keys + {id} && r.value[id] == record
    ensures r.Ok? ==> forall k :: k in table ==> r.value[k] == table[k]
    ensures r.Err? ==> r.error == UniqueConstraintFailed(id)
  {
    if id in table then Err(UniqueConstraintFailed(id)) else Ok(table[id := record])
  }

  /** A registered user can be looked up and keeps the record inserted for them. */
  lemma RegisterThenLookUp(table: Table, id: int, record: UserRecord)
    requires !IsUserRegistered(table, id)
    ensures RegisterUser(table, id, record).Ok?
    ensures IsUserRegistered(RegisterUser(table, id, record).value, id)
    ensures RegisterUser(RegisterUser(table, id, record).value, id, record).Err?
  {
  }
}
