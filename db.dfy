/**
 * The record store of src/db.rs: the `users` and `conversations` tables as maps
 * owned by one `Store` object, with the schema constraints of `run_migrations`
 * as its invariant and one member per query function.
 *
 * Errors that the data itself provokes (a duplicate name, a dangling user id, an
 * exhausted id sequence) are modelled here. A failure to reach the database at
 * all is not a property of the data; the handlers take it as an injected fault.
 */
module Db {
  import opened Wrappers
  import opened Models

  /** Largest value the sequence behind `id SERIAL` hands out (a 4-byte integer column). */
  const MaxSerial: int := MaxI32

  /** The non-key columns of a `users` row. */
  datatype UserRow = UserRow(name: string, prompt: Option<string>)

  datatype DbError =
    | UniqueViolation      // INSERT of a name that is already taken (`name TEXT UNIQUE`)
    | ForeignKeyViolation  // a `conversations.user_id` that matches no `users.id`
    | SequenceExhausted    // the SERIAL sequence has passed its maximum

  class Store {
    /** `users`: id -> (name, prompt). */
    var users: map<int, UserRow>
    /** The unique index on `users.name`: name -> id. */
    var nameIndex: map<string, int>
    /** `conversations`: user_id (its primary key) -> conversation_summary. */
    var conversations: map<int, Option<string>>
    /** The next value of the SERIAL sequence behind `users.id`. */
    var nextId: int

    /**
     * The schema of src/db.rs:31-45: ids come from the sequence (so they are
     * positive and below its next value), names are unique (the name index is
     * exactly the inverse of the name column), and every conversation refers to
     * an existing user. `user_id PRIMARY KEY` is the map itself: one row per key.
     */
    ghost predicate Valid()
      reads this
    {
      && 1 <= nextId <= MaxSerial + 1
      && (forall id :: id in users ==> 1 <= id < nextId)
      && (forall id :: id in users ==> users[id].name in nameIndex && nameIndex[users[id].name] == id)
      && (forall n :: n in nameIndex ==> nameIndex[n] in users && users[nameIndex[n]].name == n)
      && conversations.Keys <= users.Keys
    }

    /** Freshly migrated, empty tables. */
    constructor ()
      ensures Valid()
      ensures users == map[] && nameIndex == map[] && conversations == map[] && nextId == 1
    {
      users, nameIndex, conversations, nextId := map[], map[], map[], 1;
    }

    /** `SELECT id, name, prompt FROM users WHERE id = $1`. */
    function GetUserById(userId: int): (r: Option<User>)
      reads this
      ensures r.Some? <==> userId in users
      ensures r.Some? ==> r.value.id == userId && UserRow(r.value.name, r.value.prompt) == users[userId]
    {
      if userId in users then Some(User(userId, users[userId].name, users[userId].prompt)) else None
    }

    /** `SELECT id, name, prompt FROM users WHERE name = $1`, answered from the unique index. */
    function GetUserByName(name: string): (r: Option<User>)
      requires Valid()
      reads this
      ensures r.Some? <==> exists id :: id in users && users[id].name == name
      ensures r.Some? ==> r.value.name == name && GetUserById(r.value.id) == r
    {
      if name in nameIndex then GetUserById(nameIndex[name]) else None
    }

    /** `SELECT user_id, conversation_summary FROM conversations WHERE user_id = $1`. */
    function GetConversationSummaryByUserId(userId: int): (r: Option<Conversation>)
      reads this
      ensures r.Some? <==> userId in conversations
      ensures r.Some? ==> r.value.userId == userId && r.value.conversationSummary == conversations[userId]
    {
      if userId in conversations then Some(Conversation(userId, conversations[userId])) else None
    }

    /**
     * `SELECT conversation_summary ...` with the two levels of absence flattened:
     * no row and a NULL summary both read as None.
     */
    function GetConversationSummary(userId: int): (r: Option<string>)
      reads this
      ensures r.Some? <==> userId in conversations && conversations[userId].Some?
      ensures r.Some? ==> conversations[userId] == r
      ensures r == match GetConversationSummaryByUserId(userId)
                   case None => None
                   case Some(c) => c.conversationSummary
    {
      if userId in conversations then conversations[userId] else None
    }

    /**
     * `INSERT INTO users (name, prompt) VALUES ($1, $2) RETURNING id, name, prompt`.
     * The id is drawn from the sequence before the unique check, so a rejected
     * duplicate still uses up one id (sequence values are never given back).
     */
    method CreateUser(name: string, prompt: string) returns (r: Result<User, DbError>)
      requires Valid()
      modifies this
      ensures Valid()
      ensures conversations == old(conversations)
      ensures old(nextId) > MaxSerial ==> r == Err(SequenceExhausted) && unchanged(this)
      ensures old(nextId) <= MaxSerial && name in old(nameIndex) ==>
        r == Err(UniqueViolation) && users == old(users) && nameIndex == old(nameIndex) && nextId == old(nextId) + 1
      ensures old(nextId) <= MaxSerial && name !in old(nameIndex) ==>
        && r == Ok(User(old(nextId), name, Some(prompt)))
        && old(GetUserById(nextId)) == None
        && users == old(users)[old(nextId) := UserRow(name, Some(prompt))]
        && nameIndex == old(nameIndex)[name := old(nextId)]
        && nextId == old(nextId) + 1
      ensures r.Ok? ==> GetUserById(r.value.id) == Some(r.value) && GetUserByName(name) == Some(r.value)
    {
      if nextId > MaxSerial {
        return Err(SequenceExhausted);
      }
      var id := nextId;
      nextId := nextId + 1;
      if name in nameIndex {
        return Err(UniqueViolation);
      }
      users := users[id := UserRow(name, Some(prompt))];
      nameIndex := nameIndex[name := id];
      r := Ok(User(id, name, Some(prompt)));
    }

    /**
     * `UPDATE users SET prompt = $1 WHERE id = $2`, reporting whether a row was
     * affected. Names and every other user are left alone.
     */
    method UpdateUserPrompt(userId: int, newPrompt: string) returns (updated: bool)
      requires Valid()
      modifies this
      ensures Valid()
      ensures updated <==> userId in old(users)
      ensures updated ==> users == old(users)[userId := UserRow(old(users)[userId].name, Some(newPrompt))]
      ensures !updated ==> unchanged(this)
      ensures nameIndex == old(nameIndex) && conversations == old(conversations) && nextId == old(nextId)
    {
      updated := userId in users;
      if updated {
        users := users[userId := UserRow(users[userId].name, Some(newPrompt))];
      }
    }

    /**
     * Look the name up; return the stored user as it is (its prompt is not
     * reset), or else insert a new user with `defaultPrompt`. There is no retry:
     * an error of the insert is the caller's error.
     */
    method GetOrCreateUser(name: string, defaultPrompt: string) returns (r: Result<User, DbError>)
      requires Valid()
      modifies this
      ensures Valid()
      ensures old(GetUserByName(name)).Some? ==>
        r == Ok(old(GetUserByName(name)).value) && unchanged(this)
      ensures old(GetUserByName(name)).None? && old(nextId) > MaxSerial ==>
        r == Err(SequenceExhausted) && unchanged(this)
      ensures old(GetUserByName(name)).None? && old(nextId) <= MaxSerial ==>
        && r == Ok(User(old(nextId), name, Some(defaultPrompt)))
        && old(GetUserById(nextId)) == None
        && users == old(users)[old(nextId) := UserRow(name, Some(defaultPrompt))]
        && nameIndex == old(nameIndex)[name := old(nextId)]
        && conversations == old(conversations)
        && nextId == old(nextId) + 1
      ensures r.Ok? ==> GetUserByName(name) == Some(r.value)
    {
      var found := GetUserByName(name);
      if found.Some? {
        return Ok(found.value);
      }
      assert name !in nameIndex;
      r := CreateUser(name, defaultPrompt);
    }

    /**
     * `INSERT INTO conversations ... ON CONFLICT (user_id) DO UPDATE`: the summary
     * of `userId` becomes exactly `summary`, whether or not a row existed; the
     * foreign key rejects a user id with no user.
     */
    method UpdateConversationSummary(userId: int, summary: string) returns (r: Result<(), DbError>)
      requires Valid()
      modifies this
      ensures Valid()
      ensures r.Err? <==> userId !in users
      ensures r.Err? ==> r.error == ForeignKeyViolation && unchanged(this)
      ensures r.Ok? ==> conversations == old(conversations)[userId := Some(summary)]
      ensures r.Ok? ==> GetConversationSummary(userId) == Some(summary)
      ensures users == old(users) && nameIndex == old(nameIndex) && nextId == old(nextId)
    {
      if userId !in users {
        return Err(ForeignKeyViolation);
      }
      conversations := conversations[userId := Some(summary)];
      r := Ok(());
    }
  }

  /** Distinct users never share a name (src/db.rs:34). */
  lemma NamesAreUnique(s: Store, i: int, j: int)
    requires s.Valid()
    requires i in s.users && j in s.users && s.users[i].name == s.users[j].name
    ensures i == j
  {
  }
}
