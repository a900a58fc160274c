/**
  An in-memory stand-in for a document collection: records keyed by a
  numeric id that a counter hands out in increasing order, so that sorting
  by id is sorting by creation time.
 */
module Store {

  datatype Table<T> = Table(rows: map<nat, T>, nextId: nat) {
    /** Every stored id was handed out by the counter. */
    predicate Valid() {
      forall id :: id in rows ==> id < nextId
    }
  }

  /** A collection whose ids all come from its counter. */
  type Db<T> = t: Table<T> | t.Valid() witness Table(map[], 0)

  /** Stores `row` under a fresh id, newer than every id already stored. */
  function Insert<T>(db: Db<T>, row: T): (out: (Db<T>, nat))
    ensures out.1 !in db.rows
    ensures forall id :: id in db.rows ==> id < out.1
    ensures out.0.rows == db.rows[out.1 := row]
  {
    (Table(db.rows[db.nextId := row], db.nextId + 1), db.nextId)
  }

  /** Overwrites the record stored under `id`. */
  function Put<T>(db: Db<T>, id: nat, row: T): (out: Db<T>)
    requires id in db.rows
    ensures out.rows.Keys == db.rows.Keys
    ensures out.rows == db.rows[id := row]
  {
    Table(db.rows[id := row], db.nextId)
  }

  /** Removes the record stored under `id`, if any. */
  function Delete<T>(db: Db<T>, id: nat): (out: Db<T>)
    ensures out.rows.Keys == db.rows.Keys - {id}
    ensures out.rows == db.rows - {id}
  {
    Table(db.rows - {id}, db.nextId)
  }
}
