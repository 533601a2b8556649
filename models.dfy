/** The persisted `users` table of the bot and the row it stores per registered sender. */
module Models {
  import opened Base

  /**
   * One row of the `users` table. The creation timestamp `joined_at` is set by
   * the database clock and is not modelled.
   */
  datatype User = User(
    id: int,
    name: string,
    age: int,
    phoneNumber: int,
    username: Option<string>,
    blocked: bool,
    deactived: bool)

  /** The range of a signed 64-bit `BigInteger` column. */
  predicate InBigInteger(x: int)
  {
    -0x8000_0000_0000_0000 <= x < 0x8000_0000_0000_0000
  }

  /**
   * A row the database accepts: its 64-bit columns hold their values, the
   * name fits its 128-character column and the username its 32-character one.
   */
  predicate Storable(u: User)
  {
    && InBigInteger(u.id) && InBigInteger(u.phoneNumber)
    && |u.name| <= 128
    && (u.username.Some? ==> |u.username.value| <= 32)
  }

  /**
   * The table keyed by primary key: every row sits under its own id and was
   * created by a completed registration, so it fits its columns, its age is
   * in 9..99 and its phone number is non-negative.
   */
  ghost predicate TableValid(users: map<int, User>)
  {
    forall id | id in users ::
      users[id].id == id && Storable(users[id]) && 8 < users[id].age < 100 && users[id].phoneNumber >= 0
  }

  /**
   * Whether committing the pending new rows succeeds: the database is
   * reachable (`available`), no pending row reuses a primary key already in
   * the table, and every pending row fits its columns.
   */
  predicate CommitSucceeds(users: map<int, User>, pending: map<int, User>, available: bool)
  {
    available && forall id | id in pending :: id !in users && Storable(pending[id])
  }

  /**
   * Committing one new row succeeds exactly when the database is reachable,
   * its primary key is new and it fits its columns: an overlong name or
   * username, like an out-of-range id, takes the failure path.
   */
  lemma CommitOneRow(users: map<int, User>, u: User, available: bool)
    ensures CommitSucceeds(users, map[u.id := u], available) <==> available && u.id !in users && Storable(u)
  {
    assert u.id in map[u.id := u] && map[u.id := u][u.id] == u;
  }

  /** A committed insertion keeps the table valid. */
  lemma CommitKeepsTableValid(users: map<int, User>, u: User)
    requires TableValid(users)
    requires CommitSucceeds(users, map[u.id := u], true)
    requires 8 < u.age < 100 && u.phoneNumber >= 0
    ensures TableValid(users[u.id := u])
    ensures u.id !in users && |users[u.id := u]| == |users| + 1
  {
    assert u.id in map[u.id := u];
  }
}
