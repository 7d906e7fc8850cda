/** The SQLite store of db.js: the `users`, `profiles` and `tricks` tables held in
    memory (users and profiles keyed by user id, tricks in row order), the column lists
    the migration inspects, and `initDB`. */
module Db {
  import opened Common
  import Sorting

  const AdminEmail := "admin@gmail.com"

  /** A row of `users`. `is_admin` and `banned` are SQLite integers; a column that may
      hold NULL is an Option. */
  datatype UserRow = UserRow(
    email: string, password: string, role: string, isAdmin: int, banned: int,
    name: Option<string>, bio: Option<string>, points: Option<int>, avatarUrl: Option<string>)

  /** A row of `profiles`, keyed by its UNIQUE `user_id`. `trick_videos` holds JSON text. */
  datatype ProfileRow = ProfileRow(
    name: Option<string>, bio: Option<string>, favoriteTricks: Option<string>, points: Option<int>,
    avatarUrl: Option<string>, ridingLevel: string, trickVideos: Option<string>,
    rating: int, position: int, banned: int)

  /** A row of `tricks`. `hashtags` holds JSON text; `created_at` is a timestamp. */
  datatype TrickRow = TrickRow(
    id: int, userId: int, title: string, description: Option<string>, videoUrl: Option<string>,
    level: Option<string>, hashtags: Option<string>, createdAt: int)

  /** The whole store. The AUTOINCREMENT counters give the next row ids; the column sets are
      what `PRAGMA table_info` would list (empty: the table does not exist yet). */
  datatype Tables = Tables(
    users: map<int, UserRow>, profiles: map<int, ProfileRow>, tricks: seq<TrickRow>,
    nextUserId: int, nextTrickId: int, userColumns: set<string>, profileColumns: set<string>)

  datatype TableName = UsersTable | ProfilesTable

  /** A route's effect: the store afterwards and the reply. */
  datatype Outcome<T> = Outcome(tables: Tables, reply: Result<T>)

  lemma {:induction false} WithoutKeepsDistinct(tricks: seq<TrickRow>, id: int)
    requires TrickIdsDistinct(tricks)
    ensures TrickIdsDistinct(Without(tricks, id))
    decreases |tricks|
  {
    if tricks != [] {
      WithoutKeepsDistinct(tricks[1..], id);
      if tricks[0].id != id {
        var rest := Without(tricks[1..], id);
        forall k | 0 <= k < |rest| ensures rest[k].id != tricks[0].id {
          var j :| 0 <= j < |tricks[1..]| && tricks[1..][j] == rest[k];
          assert tricks[j + 1] == rest[k];
        }
      }
    }
  }

  /** `FROM tricks t JOIN users u ON u.id = t.user_id`: the tricks whose author exists, in order. */
  function Joined(users: map<int, UserRow>, tricks: seq<TrickRow>): (r: seq<TrickRow>)
    ensures forall x :: x in r <==> x in tricks && x.userId in users
    ensures forall i :: 0 <= i < |r| ==> r[i].userId in users
    decreases |tricks|
  {
    if tricks == [] then []
    else if tricks[0].userId in users then [tricks[0]] + Joined(users, tricks[1..])
    else Joined(users, tricks[1..])
  }

  predicate HasTrick(tricks: seq<TrickRow>, id: int) {
    exists i :: 0 <= i < |tricks| && tricks[i].id == id
  }

  predicate TrickIdsDistinct(tricks: seq<TrickRow>) {
    forall i, j :: 0 <= i < j < |tricks| ==> tricks[i].id != tricks[j].id
  }

  /** `DELETE FROM tricks WHERE id = ?`: the other rows, in order. */
  function Without(tricks: seq<TrickRow>, id: int): (r: seq<TrickRow>)
    ensures !HasTrick(r, id)
    ensures forall i :: 0 <= i < |r| ==> r[i] in tricks
    ensures forall x :: x in tricks && x.id != id ==> x in r
    ensures |r| <= |tricks|
    decreases |tricks|
  {
    if tricks == [] then []
    else if tricks[0].id == id then Without(tricks[1..], id)
    else [tricks[0]] + Without(tricks[1..], id)
  }

  const UsersSchema: set<string> :=
    {"id", "email", "password", "role", "is_admin", "banned", "name", "bio", "points", "avatar_url"}
  const UsersAdded: seq<string> := ["role", "is_admin", "banned", "name", "bio", "points", "avatar_url"]
  const ProfilesSchema: set<string> :=
    {"id", "user_id", "name", "bio", "favorite_tricks", "points", "avatar_url", "riding_level",
     "trick_videos", "rating", "position", "banned"}
  const ProfilesAdded: seq<string> :=
    ["favorite_tricks", "points", "avatar_url", "riding_level", "trick_videos", "rating", "position", "banned"]

  function ToSet(names: seq<string>): set<string> {
    set n | n in names
  }

  predicate EmailTaken(users: map<int, UserRow>, email: string) {
    exists id :: id in users && users[id].email == email
  }

  ghost predicate EmailsUnique(users: map<int, UserRow>) {
    forall a, b :: a in users && b in users && users[a].email == users[b].email ==> a == b
  }

  /** What the store's keys and constraints guarantee at every step: AUTOINCREMENT ids
      below the counters, distinct trick ids, UNIQUE emails. */
  ghost predicate WellFormed(t: Tables) {
    && 0 < t.nextUserId && 0 < t.nextTrickId
    && (forall id :: id in t.users ==> 0 < id < t.nextUserId)
    && (forall id :: id in t.profiles ==> id < t.nextUserId)
    && (forall i :: 0 <= i < |t.tricks| ==> 0 < t.tricks[i].id < t.nextTrickId)
    && TrickIdsDistinct(t.tricks)
    && EmailsUnique(t.users)
  }

  /** What `initDB` establishes and every route keeps: each user has its profile row. */
  ghost predicate Consistent(t: Tables) {
    WellFormed(t) && forall id :: id in t.users ==> id in t.profiles
  }

  /** `SELECT … FROM users WHERE email = ?`. */
  ghost function UserByEmail(users: map<int, UserRow>, email: string): (r: Option<int>)
    ensures r.Some? <==> EmailTaken(users, email)
    ensures r.Some? ==> r.value in users && users[r.value].email == email
  {
    if EmailTaken(users, email) then Some(var id :| id in users && users[id].email == email; id)
    else None
  }

  /** With UNIQUE emails, the row found by email is the only one with that email. */
  lemma UserByEmailUnique(users: map<int, UserRow>, email: string, id: int)
    requires EmailsUnique(users) && id in users && users[id].email == email
    ensures UserByEmail(users, email) == Some(id)
  {
  }

  // ---------------------------------------------------------------------------
  // Column migration

  /** `addUserCol`/`addProfileCol` over a list of names: the column list is read once
      (`snapshot`), and a name missing from it is added with ALTER TABLE, which fails
      (None) when the column is in fact already there. */
  function AddMissingColumns(snapshot: set<string>, cols: set<string>, names: seq<string>): Option<set<string>>
    decreases |names|
  {
    if names == [] then Some(cols)
    else if names[0] in snapshot then AddMissingColumns(snapshot, cols, names[1..])
    else if names[0] in cols then None
    else AddMissingColumns(snapshot, cols + {names[0]}, names[1..])
  }

  lemma {:induction false} AddMissingColumnsFrom(snapshot: set<string>, cols: set<string>, names: seq<string>)
    requires Sorting.Distinct(names)
    requires snapshot <= cols
    requires forall n :: n in names && n in cols ==> n in snapshot
    ensures AddMissingColumns(snapshot, cols, names) == Some(cols + ToSet(names))
    decreases |names|
  {
    if names != [] {
      assert ToSet(names) == {names[0]} + ToSet(names[1..]);
      if names[0] in snapshot {
        AddMissingColumnsFrom(snapshot, cols, names[1..]);
        assert cols + ToSet(names[1..]) == cols + ToSet(names);
      } else {
        assert forall n :: n in names[1..] ==> n != names[0];
        AddMissingColumnsFrom(snapshot, cols + {names[0]}, names[1..]);
        assert cols + {names[0]} + ToSet(names[1..]) == cols + ToSet(names);
      }
    } else {
      assert ToSet(names) == {};
      assert cols + ToSet(names) == cols;
    }
  }

  /** With distinct names the guarded ALTERs never fail, and add exactly the missing names. */
  lemma MigrationSucceeds(cols: set<string>, names: seq<string>)
    requires Sorting.Distinct(names)
    ensures AddMissingColumns(cols, cols, names) == Some(cols + ToSet(names))
  {
    AddMissingColumnsFrom(cols, cols, names);
  }

  /** A second migration over the migrated columns adds nothing. */
  lemma MigrationIdempotent(cols: set<string>, names: seq<string>)
    requires Sorting.Distinct(names)
    ensures AddMissingColumns(cols + ToSet(names), cols + ToSet(names), names) == Some(cols + ToSet(names))
  {
    MigrationSucceeds(cols + ToSet(names), names);
    assert cols + ToSet(names) + ToSet(names) == cols + ToSet(names);
  }

  /** `CREATE TABLE IF NOT EXISTS`: a missing table gets its full column list. */
  function Created(cols: set<string>, schema: set<string>): set<string> {
    if cols == {} then schema else cols
  }

  // ---------------------------------------------------------------------------
  // Profile backfill and the admin account

  /** The profile the backfill INSERT … SELECT makes from a user's own columns; the
      columns it does not name take their defaults. */
  function BackfilledProfile(u: UserRow): ProfileRow {
    ProfileRow(u.name, u.bio, None, u.points, u.avatarUrl, "beginner", None, 0, 0, u.banned)
  }

  /** Every user without a profile gets one copied from the user; existing profiles stay. */
  function Backfill(users: map<int, UserRow>, profiles: map<int, ProfileRow>): (r: map<int, ProfileRow>)
    ensures r.Keys == profiles.Keys + users.Keys
    ensures forall id :: id in profiles ==> r[id] == profiles[id]
    ensures forall id :: id in users && id !in profiles ==> r[id] == BackfilledProfile(users[id])
  {
    map id | id in profiles.Keys + users.Keys ::
      if id in profiles then profiles[id] else BackfilledProfile(users[id])
  }

  function AdminUser(hash: string): UserRow {
    UserRow(AdminEmail, hash, "admin", 1, 0, Some("Admin"), Some("Administrator"), Some(0), None)
  }

  function AdminProfile(): ProfileRow {
    ProfileRow(Some("Admin"), Some("Administrator"), None, Some(0), None, "admin", None, 0, 0, 0)
  }

  /** The admin account exists with both admin flags. */
  ghost predicate AdminReady(t: Tables) {
    exists id :: id in t.users && t.users[id].email == AdminEmail
      && t.users[id].isAdmin == 1 && t.users[id].role == "admin"
  }

  /** Create admin@gmail.com with its profile when absent; restore its flags when either is off. */
  ghost function WithAdmin(t: Tables, adminHash: string): Tables {
    match UserByEmail(t.users, AdminEmail)
    case None =>
      t.(users := t.users[t.nextUserId := AdminUser(adminHash)],
         profiles := t.profiles[t.nextUserId := AdminProfile()],
         nextUserId := t.nextUserId + 1)
    case Some(id) =>
      if t.users[id].isAdmin != 1 || t.users[id].role != "admin"
      then t.(users := t.users[id := t.users[id].(isAdmin := 1, role := "admin")])
      else t
  }

  /** The store after `initDB`. */
  ghost function Initialized(t: Tables, adminHash: string): Tables {
    var migrated := t.(
      userColumns := Created(t.userColumns, UsersSchema) + ToSet(UsersAdded),
      profileColumns := Created(t.profileColumns, ProfilesSchema) + ToSet(ProfilesAdded));
    WithAdmin(migrated.(profiles := Backfill(t.users, t.profiles)), adminHash)
  }

  lemma WithAdminReady(t: Tables, adminHash: string)
    requires WellFormed(t)
    ensures WellFormed(WithAdmin(t, adminHash)) && AdminReady(WithAdmin(t, adminHash))
    ensures WithAdmin(t, adminHash).users.Keys - t.users.Keys <= {t.nextUserId}
    ensures forall id :: id in WithAdmin(t, adminHash).users && id !in t.users ==> id in WithAdmin(t, adminHash).profiles
  {
    var r := WithAdmin(t, adminHash);
    match UserByEmail(t.users, AdminEmail)
    case None =>
      assert r.users[t.nextUserId].email == AdminEmail;
      assert AdminReady(r);
    case Some(id) =>
      assert r.users[id].email == AdminEmail;
      assert AdminReady(r);
  }

  /** After `initDB` every user has a profile and the admin account holds both flags. */
  lemma InitializedConsistent(t: Tables, adminHash: string)
    requires WellFormed(t)
    ensures Consistent(Initialized(t, adminHash)) && AdminReady(Initialized(t, adminHash))
  {
    var filled := t.(
      userColumns := Created(t.userColumns, UsersSchema) + ToSet(UsersAdded),
      profileColumns := Created(t.profileColumns, ProfilesSchema) + ToSet(ProfilesAdded),
      profiles := Backfill(t.users, t.profiles));
    assert WellFormed(filled);
    WithAdminReady(filled, adminHash);
  }

  lemma BackfillComplete(users: map<int, UserRow>, profiles: map<int, ProfileRow>)
    requires users.Keys <= profiles.Keys
    ensures Backfill(users, profiles) == profiles
  {
  }

  lemma DistinctAdded()
    ensures Sorting.Distinct(UsersAdded) && Sorting.Distinct(ProfilesAdded)
  {
  }

  /** Running `initDB` on an initialized store changes nothing. */
  lemma InitializedIdempotent(t: Tables, adminHash: string)
    requires WellFormed(t)
    ensures Initialized(Initialized(t, adminHash), adminHash) == Initialized(t, adminHash)
  {
    var once := Initialized(t, adminHash);
    InitializedConsistent(t, adminHash);
    MigratedAgain(once);
    AdminAgain(once, adminHash);
  }

  /** A second migration and backfill over a migrated, consistent store change nothing. */
  lemma MigratedAgain(once: Tables)
    requires Consistent(once)
    requires once.userColumns != {} && ToSet(UsersAdded) <= once.userColumns
    requires once.profileColumns != {} && ToSet(ProfilesAdded) <= once.profileColumns
    ensures once.(
      userColumns := Created(once.userColumns, UsersSchema) + ToSet(UsersAdded),
      profileColumns := Created(once.profileColumns, ProfilesSchema) + ToSet(ProfilesAdded),
      profiles := Backfill(once.users, once.profiles)) == once
  {
    forall id | id in once.users.Keys ensures id in once.profiles.Keys {
      assert id in once.users;
    }
    BackfillComplete(once.users, once.profiles);
  }

  /** The admin step leaves a store whose admin account is ready as it is. */
  lemma AdminAgain(once: Tables, adminHash: string)
    requires WellFormed(once) && AdminReady(once)
    ensures WithAdmin(once, adminHash) == once
  {
    var id :| id in once.users && once.users[id].email == AdminEmail
      && once.users[id].isAdmin == 1 && once.users[id].role == "admin";
    UserByEmailUnique(once.users, AdminEmail, id);
  }

  // ---------------------------------------------------------------------------
  // The database as an object updated in place

  class Database {
    var users: map<int, UserRow>
    var profiles: map<int, ProfileRow>
    var tricks: seq<TrickRow>
    var nextUserId: int
    var nextTrickId: int
    var userColumns: set<string>
    var profileColumns: set<string>

    function Snapshot(): Tables
      reads this
    {
      Tables(users, profiles, tricks, nextUserId, nextTrickId, userColumns, profileColumns)
    }

    ghost predicate Valid()
      reads this
    {
      WellFormed(Snapshot())
    }

    /** Opens a database file whose current contents are `t`. */
    constructor (t: Tables)
      ensures Snapshot() == t
    {
      users, profiles, tricks := t.users, t.profiles, t.tricks;
      nextUserId, nextTrickId := t.nextUserId, t.nextTrickId;
      userColumns, profileColumns := t.userColumns, t.profileColumns;
    }

    function Columns(table: TableName): set<string>
      reads this
    {
      if table == UsersTable then userColumns else profileColumns
    }

    method CreateTableIfNotExists(table: TableName)
      modifies this
      ensures Snapshot() == old(Snapshot()).(
        userColumns := if table == UsersTable then Created(old(userColumns), UsersSchema) else old(userColumns),
        profileColumns := if table == ProfilesTable then Created(old(profileColumns), ProfilesSchema) else old(profileColumns))
    {
      if table == UsersTable && userColumns == {} {
        userColumns := UsersSchema;
      } else if table == ProfilesTable && profileColumns == {} {
        profileColumns := ProfilesSchema;
      }
    }

    /** ALTER TABLE … ADD COLUMN, which SQLite refuses for a column that exists. */
    method AlterAddColumn(table: TableName, name: string)
      requires name !in Columns(table)
      modifies this
      ensures Columns(table) == old(Columns(table)) + {name}
      ensures Snapshot() == old(Snapshot()).(userColumns := userColumns, profileColumns := profileColumns)
      ensures table == UsersTable ==> profileColumns == old(profileColumns)
      ensures table == ProfilesTable ==> userColumns == old(userColumns)
    {
      if table == UsersTable {
        userColumns := userColumns + {name};
      } else {
        profileColumns := profileColumns + {name};
      }
    }

    /** The column list is read once; each listed name missing from it is added. */
    method AddColumnsIfMissing(table: TableName, names: seq<string>)
      requires Sorting.Distinct(names)
      modifies this
      ensures Some(Columns(table)) == AddMissingColumns(old(Columns(table)), old(Columns(table)), names)
      ensures Columns(table) == old(Columns(table)) + ToSet(names)
      ensures Snapshot() == old(Snapshot()).(userColumns := userColumns, profileColumns := profileColumns)
      ensures table == UsersTable ==> profileColumns == old(profileColumns)
      ensures table == ProfilesTable ==> userColumns == old(userColumns)
    {
      var snapshot := Columns(table);
      for i := 0 to |names|
        invariant Columns(table) == snapshot + ToSet(names[..i])
        invariant Snapshot() == old(Snapshot()).(userColumns := userColumns, profileColumns := profileColumns)
        invariant table == UsersTable ==> profileColumns == old(profileColumns)
        invariant table == ProfilesTable ==> userColumns == old(userColumns)
      {
        assert ToSet(names[..i + 1]) == ToSet(names[..i]) + {names[i]} by {
          assert names[..i + 1] == names[..i] + [names[i]];
        }
        if names[i] !in snapshot {
          assert names[i] !in ToSet(names[..i]);
          AlterAddColumn(table, names[i]);
        }
      }
      assert names[..|names|] == names;
      MigrationSucceeds(snapshot, names);
    }

    /** The backfill INSERT … SELECT for users without a profile. */
    method BackfillProfiles()
      requires Valid()
      modifies this
      ensures Valid()
      ensures Snapshot() == old(Snapshot()).(profiles := Backfill(old(users), old(profiles)))
    {
      profiles := Backfill(users, profiles);
    }

    method EnsureAdmin(adminHash: string)
      requires Valid()
      modifies this
      ensures Valid() && AdminReady(Snapshot())
      ensures Snapshot() == WithAdmin(old(Snapshot()), adminHash)
    {
      ghost var before := Snapshot();
      WithAdminReady(before, adminHash);
      if exists id :: id in users && users[id].email == AdminEmail {
        var id :| id in users && users[id].email == AdminEmail;
        UserByEmailUnique(users, AdminEmail, id);
        if users[id].isAdmin != 1 || users[id].role != "admin" {
          users := users[id := users[id].(isAdmin := 1, role := "admin")];
        }
      } else {
        var id := nextUserId;
        users := users[id := AdminUser(adminHash)];
        nextUserId := nextUserId + 1;
        profiles := profiles[id := AdminProfile()];
      }
    }

    /** `initDB`: create and migrate the tables, backfill profiles, bootstrap the admin. */
    method InitDB(adminHash: string)
      requires Valid()
      modifies this
      ensures Valid() && Consistent(Snapshot()) && AdminReady(Snapshot())
      ensures Snapshot() == Initialized(old(Snapshot()), adminHash)
    {
      DistinctAdded();
      CreateTableIfNotExists(UsersTable);
      AddColumnsIfMissing(UsersTable, UsersAdded);
      CreateTableIfNotExists(ProfilesTable);
      AddColumnsIfMissing(ProfilesTable, ProfilesAdded);
      BackfillProfiles();
      EnsureAdmin(adminHash);
      InitializedConsistent(old(Snapshot()), adminHash);
    }

    // Single statements used by the routes

    /** INSERT INTO users; the new row's id is the AUTOINCREMENT counter. */
    method InsertUser(row: UserRow) returns (id: int)
      requires Valid() && !EmailTaken(users, row.email)
      modifies this
      ensures Valid()
      ensures id == old(nextUserId) && id !in old(users) && id !in old(profiles)
      ensures Snapshot() == old(Snapshot()).(users := old(users)[id := row], nextUserId := id + 1)
    {
      id := nextUserId;
      users := users[id := row];
      nextUserId := nextUserId + 1;
    }

    /** INSERT INTO profiles, whose `user_id` is UNIQUE. */
    method InsertProfile(userId: int, row: ProfileRow)
      requires Valid() && userId !in profiles && userId < nextUserId
      modifies this
      ensures Valid()
      ensures Snapshot() == old(Snapshot()).(profiles := old(profiles)[userId := row])
    {
      profiles := profiles[userId := row];
    }

    /** UPDATE users SET … WHERE id = ?: no row, no change. */
    method UpdateUser(id: int, change: UserRow -> UserRow)
      requires Valid()
      requires id in users ==> change(users[id]).email == users[id].email
      modifies this
      ensures Valid()
      ensures Snapshot() == old(Snapshot()).(users := if id in old(users) then old(users)[id := change(old(users)[id])] else old(users))
    {
      if id in users {
        users := users[id := change(users[id])];
      }
    }

    /** UPDATE profiles SET … WHERE user_id = ?: no row, no change. */
    method UpdateProfile(userId: int, change: ProfileRow -> ProfileRow)
      requires Valid()
      modifies this
      ensures Valid()
      ensures Snapshot() == old(Snapshot()).(profiles := if userId in old(profiles) then old(profiles)[userId := change(old(profiles)[userId])] else old(profiles))
    {
      if userId in profiles {
        profiles := profiles[userId := change(profiles[userId])];
      }
    }

    method DeleteTrick(id: int)
      requires Valid()
      modifies this
      ensures Valid()
      ensures Snapshot() == old(Snapshot()).(tricks := Without(old(tricks), id))
    {
      WithoutKeepsDistinct(tricks, id);
      tricks := Without(tricks, id);
    }

    /** INSERT INTO tricks, given the row without its id; the id is the counter. */
    method InsertTrick(row: TrickRow) returns (id: int)
      requires Valid()
      modifies this
      ensures Valid()
      ensures id == old(nextTrickId)
      ensures Snapshot() == old(Snapshot()).(tricks := old(tricks) + [row.(id := id)], nextTrickId := id + 1)
    {
      id := nextTrickId;
      tricks := tricks + [row.(id := id)];
      nextTrickId := nextTrickId + 1;
    }
  }
}
