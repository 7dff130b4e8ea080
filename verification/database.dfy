/**
 * The user registry: the `users` table, reduced to the columns the upsert
 * reads and writes, as a map from primary key to row.
 */
module Database {

  /** A row of the `users` table. */
  datatype User = User(userId: int, userName: string, messageCount: int)

  /**
   * The table after one `get_or_create_user(user_id, user_name)`: an absent
   * user is created with the given name and a count of one; a present user's
   * count goes up by exactly one and keeps its stored name; no other row
   * changes.
   */
  function Upserted(users: map<int, User>, userId: int, userName: string): (r: map<int, User>)
    ensures r.Keys == users.Keys + {userId}
    ensures userId !in users ==> r[userId] == User(userId, userName, 1)
    ensures userId in users ==>
      r[userId].messageCount == users[userId].messageCount + 1 &&
      r[userId].userName == users[userId].userName && r[userId].userId == users[userId].userId
    ensures forall u :: u in users && u != userId ==> r[u] == users[u]
  {
    if userId !in users then users[userId := User(userId, userName, 1)]
    else users[userId := users[userId].(messageCount := users[userId].messageCount + 1)]
  }

  /** The table after a sequence of upserts, each an `(id, name)` pair, in order. */
  function UpsertAll(users: map<int, User>, calls: seq<(int, string)>): map<int, User>
    decreases |calls|
  {
    if calls == [] then users else UpsertAll(Upserted(users, calls[0].0, calls[0].1), calls[1..])
  }

  /** How many of `calls` are for `userId`. */
  function CallsFor(calls: seq<(int, string)>, userId: int): (k: nat)
    ensures k <= |calls|
  {
    if calls == [] then 0 else (if calls[0].0 == userId then 1 else 0) + CallsFor(calls[1..], userId)
  }

  /** The name passed with the first call for `userId` (the first call for it exists). */
  function FirstNameFor(calls: seq<(int, string)>, userId: int): string
    requires CallsFor(calls, userId) > 0
  {
    if calls[0].0 == userId then calls[0].1 else FirstNameFor(calls[1..], userId)
  }

  /**
   * Counting law: after any sequence of upserts, a user's message count is
   * its count before (zero if absent) plus the number of calls for it, and its
   * name is the stored one, or else the one passed with its first call.
   */
  lemma {:induction false} UpsertAllCounts(users: map<int, User>, calls: seq<(int, string)>, userId: int)
    requires userId in users || CallsFor(calls, userId) > 0
    ensures userId in UpsertAll(users, calls)
    ensures UpsertAll(users, calls)[userId].messageCount ==
      (if userId in users then users[userId].messageCount else 0) + CallsFor(calls, userId)
    ensures UpsertAll(users, calls)[userId].userName ==
      if userId in users then users[userId].userName else FirstNameFor(calls, userId)
    ensures UpsertAll(users, calls)[userId].userId == if userId in users then users[userId].userId else userId
    decreases |calls|
  {
    if calls != [] {
      var next := Upserted(users, calls[0].0, calls[0].1);
      UpsertAllCounts(next, calls[1..], userId);
    }
  }

  /** A database session; `users` holds every committed row. */
  class Session {
    var users: map<int, User>

    /** Keys are the rows' own ids. */
    ghost predicate Valid()
      reads this
    {
      forall u :: u in users ==> users[u].userId == u
    }

    constructor (users: map<int, User>)
      requires forall u :: u in users ==> users[u].userId == u
      ensures Valid() && this.users == users
    {
      this.users := users;
    }

    /** `get_or_create_user`: fetch by key, create or increment, commit, return the stored row. */
    method GetOrCreateUser(userId: int, userName: string) returns (user: User)
      requires Valid()
      modifies this
      ensures Valid()
      ensures users == Upserted(old(users), userId, userName)
      ensures userId in users && user == users[userId]
    {
      if userId !in users {
        user := User(userId, userName, 1);
      } else {
        user := users[userId];
        user := user.(messageCount := user.messageCount + 1);
      }
      users := users[userId := user];
    }
  }
}
