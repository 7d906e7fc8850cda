/** The moderation routes of routes/admin.js, all behind `authenticate` and
    `requireAdmin`: the posts listing, post deletion, the users listing, ban/unban and
    the administrator's own profile update. */
module AdminRoutes {
  import opened Common
  import opened Db
  import opened Guard
  import Sorting

  const AdminOnly: seq<Stage> := [RequireAdmin]

  function NotFound(message: string): HttpError {
    HttpError(404, None, message)
  }

  // ---------------------------------------------------------------------------
  // GET /posts

  datatype PostView = PostView(
    id: int, title: string, description: Option<string>, videoUrl: Option<string>,
    level: Option<string>, createdAt: int, authorId: int, authorName: string)

  /** `COALESCE(p.name, u.email)` over the LEFT JOIN with `profiles`. */
  function AuthorName(t: Tables, userId: int): string
    requires userId in t.users
  {
    if userId in t.profiles && t.profiles[userId].name.Some? then t.profiles[userId].name.value
    else t.users[userId].email
  }

  function PostOf(t: Tables, row: TrickRow): PostView
    requires row.userId in t.users
  {
    PostView(row.id, row.title, row.description, row.videoUrl, row.level, row.createdAt, row.userId, AuthorName(t, row.userId))
  }

  function PostViews(t: Tables, rows: seq<TrickRow>): (r: seq<PostView>)
    requires forall i :: 0 <= i < |rows| ==> rows[i].userId in t.users
    ensures |r| == |rows| && forall i :: 0 <= i < |rows| ==> r[i] == PostOf(t, rows[i])
  {
    seq(|rows|, i requires 0 <= i < |rows| => PostOf(t, rows[i]))
  }

  function ListPosts(t: Tables, header: Option<string>, verify: Verifier): (r: Result<seq<PostView>>)
    ensures Run(header, verify, t.users, AdminOnly).Err? ==> r == Err(Run(header, verify, t.users, AdminOnly).error)
    ensures r.Ok? <==> Run(header, verify, t.users, AdminOnly).Ok?
  {
    match Run(header, verify, t.users, AdminOnly)
    case Err(e) => Err(e)
    case Ok(_) => Ok(Sorting.SortDesc(PostViews(t, Joined(t.users, t.tricks)), (p: PostView) => p.createdAt))
  }

  /** Newest first; exactly one entry per trick whose author exists, named after the
      author's profile name or, failing that, the author's email. */
  lemma ListPostsContents(t: Tables, header: Option<string>, verify: Verifier)
    requires ListPosts(t, header, verify).Ok?
    ensures var posts := ListPosts(t, header, verify).value;
      && Sorting.SortedDesc(posts, (p: PostView) => p.createdAt)
      && |posts| == |Joined(t.users, t.tricks)|
      && (forall row :: row in t.tricks && row.userId in t.users ==> PostOf(t, row) in posts)
      && (forall p :: p in posts ==> exists row :: row in t.tricks && row.userId in t.users && p == PostOf(t, row))
  {
    var rows := Joined(t.users, t.tricks);
    var posts := ListPosts(t, header, verify).value;
    EveryTrickPosted(t, rows, posts);
    OnlyTricksPosted(t, rows, posts);
  }

  /** A reordering of the joined rows' views has a view of every trick whose author exists. */
  lemma EveryTrickPosted(t: Tables, rows: seq<TrickRow>, posts: seq<PostView>)
    requires forall x :: x in rows <==> x in t.tricks && x.userId in t.users
    requires forall i :: 0 <= i < |rows| ==> rows[i].userId in t.users
    requires multiset(posts) == multiset(PostViews(t, rows))
    ensures forall row :: row in t.tricks && row.userId in t.users ==> PostOf(t, row) in posts
  {
    var views := PostViews(t, rows);
    forall row | row in t.tricks && row.userId in t.users ensures PostOf(t, row) in posts {
      var i :| 0 <= i < |rows| && rows[i] == row;
      assert views[i] in multiset(views);
    }
  }

  /** ... and only views of such tricks. */
  lemma OnlyTricksPosted(t: Tables, rows: seq<TrickRow>, posts: seq<PostView>)
    requires forall x :: x in rows <==> x in t.tricks && x.userId in t.users
    requires forall i :: 0 <= i < |rows| ==> rows[i].userId in t.users
    requires multiset(posts) == multiset(PostViews(t, rows))
    ensures forall p :: p in posts ==> exists row :: row in t.tricks && row.userId in t.users && p == PostOf(t, row)
  {
    var views := PostViews(t, rows);
    forall p | p in posts ensures exists row :: row in t.tricks && row.userId in t.users && p == PostOf(t, row) {
      assert p in multiset(views);
      var i :| 0 <= i < |views| && views[i] == p;
      assert rows[i] in rows;
    }
  }

  // ---------------------------------------------------------------------------
  // DELETE /posts/:id

  function DeletePostHandler(t: Tables, postId: int): (r: Outcome<string>)
    ensures r.reply.Err? ==> r.tables == t && r.reply.error.status == 404
    ensures r.reply.Ok? <==> HasTrick(t.tricks, postId)
  {
    if !HasTrick(t.tricks, postId) then Outcome(t, Err(NotFound("Post not found")))
    else Outcome(t.(tricks := Without(t.tricks, postId)), Ok("Post deleted successfully"))
  }

  function DeletePost(t: Tables, header: Option<string>, verify: Verifier, postId: int): (r: Outcome<string>)
    ensures Run(header, verify, t.users, AdminOnly).Err? ==> r == Outcome(t, Err(Run(header, verify, t.users, AdminOnly).error))
    ensures Run(header, verify, t.users, AdminOnly).Ok? ==> (r.reply.Ok? <==> HasTrick(t.tricks, postId))
    ensures r.reply.Err? ==> r.tables == t
  {
    match Run(header, verify, t.users, AdminOnly)
    case Err(e) => Outcome(t, Err(e))
    case Ok(_) => DeletePostHandler(t, postId)
  }

  method DeletePostRoute(db: Database, header: Option<string>, verify: Verifier, postId: int) returns (reply: Result<string>)
    requires db.Valid()
    modifies db
    ensures db.Valid()
    ensures Outcome(db.Snapshot(), reply) == DeletePost(old(db.Snapshot()), header, verify, postId)
  {
    var access := Run(header, verify, db.users, AdminOnly);
    if access.Err? {
      return Err(access.error);
    }
    if !HasTrick(db.tricks, postId) {
      return Err(NotFound("Post not found"));
    }
    db.DeleteTrick(postId);
    reply := Ok("Post deleted successfully");
  }

  /** Deletion removes exactly the rows with that id, and a second delete of it is a 404. */
  lemma DeleteRemovesExactlyThePost(t: Tables, header: Option<string>, verify: Verifier, postId: int)
    requires DeletePost(t, header, verify, postId).reply.Ok?
    ensures var after := DeletePost(t, header, verify, postId).tables;
      && (forall row :: row in after.tricks <==> row in t.tricks && row.id != postId)
      && after.users == t.users && after.profiles == t.profiles
      && DeletePost(after, header, verify, postId).reply == Err(NotFound("Post not found"))
  {
  }

  // ---------------------------------------------------------------------------
  // GET /users

  datatype UserView = UserView(
    id: int, name: string, email: string, role: string, points: int,
    avatarUrl: Option<string>, banned: bool, bio: string)

  function ProfileField<T>(t: Tables, id: int, field: ProfileRow -> Option<T>): Option<T> {
    if id in t.profiles then field(t.profiles[id]) else None
  }

  /** One row of the listing: `COALESCE(u.name, p.name) || "Unnamed User"`,
      `COALESCE(p.bio, u.bio) || ""`, `COALESCE(p.points, u.points, 0)`,
      `COALESCE(p.avatar_url, u.avatar_url)` and `Boolean(u.banned)`. */
  function UserViewOf(t: Tables, id: int): (v: UserView)
    requires id in t.users
    ensures v.id == id && v.email == t.users[id].email && v.role == t.users[id].role
    ensures v.banned == (t.users[id].banned != 0)
  {
    var u := t.users[id];
    UserView(
      id,
      OrElse(Coalesce(u.name, ProfileField(t, id, (p: ProfileRow) => p.name)), "Unnamed User"),
      u.email,
      u.role,
      Coalesce(Coalesce(ProfileField(t, id, (p: ProfileRow) => p.points), u.points), Some(0)).value,
      Coalesce(ProfileField(t, id, (p: ProfileRow) => p.avatarUrl), u.avatarUrl),
      u.banned != 0,
      OrElse(Coalesce(ProfileField(t, id, (p: ProfileRow) => p.bio), u.bio), ""))
  }

  function ViewsOf(t: Tables, ids: seq<int>): (r: seq<UserView>)
    requires forall i :: 0 <= i < |ids| ==> ids[i] in t.users
    ensures |r| == |ids|
    ensures forall i :: 0 <= i < |r| ==> r[i].id == ids[i] && r[i] == UserViewOf(t, ids[i])
  {
    seq(|ids|, i requires 0 <= i < |ids| => UserViewOf(t, ids[i]))
  }

  /** The listing body: ordered by id, largest first, one entry per user. */
  ghost function UserListing(t: Tables): (r: seq<UserView>)
    ensures forall i, j :: 0 <= i < j < |r| ==> r[i].id > r[j].id
    ensures forall i :: 0 <= i < |r| ==> r[i].id in t.users && r[i] == UserViewOf(t, r[i].id)
    ensures forall id :: id in t.users ==> exists i :: 0 <= i < |r| && r[i].id == id
  {
    var ids := Sorting.Descending(t.users.Keys);
    var views := ViewsOf(t, ids);
    assert forall id :: id in t.users ==> exists i :: 0 <= i < |views| && views[i].id == id by {
      forall id | id in t.users ensures exists i :: 0 <= i < |views| && views[i].id == id {
        var i :| 0 <= i < |ids| && ids[i] == id;
        assert views[i].id == id;
      }
    }
    views
  }

  ghost function ListUsers(t: Tables, header: Option<string>, verify: Verifier): (r: Result<seq<UserView>>)
    ensures Run(header, verify, t.users, AdminOnly).Err? ==> r == Err(Run(header, verify, t.users, AdminOnly).error)
    ensures r.Ok? <==> Run(header, verify, t.users, AdminOnly).Ok?
  {
    match Run(header, verify, t.users, AdminOnly)
    case Err(e) => Err(e)
    case Ok(_) => Ok(UserListing(t))
  }

  /** The listed name is the user's own, else the profile's, else "Unnamed User" (an
      empty user name hides the profile's); points come from the profile, else the user,
      else 0; the listed ban flag is the stored one. */
  lemma ListedUserFields(t: Tables, i: int)
    requires 0 <= i < |UserListing(t)|
    ensures var v := UserListing(t)[i];
      var row := t.users[v.id];
      && v.name != ""
      && (Present(row.name) ==> v.name == row.name.value)
      && (row.name == Some("") ==> v.name == "Unnamed User")
      && (row.name.None? && v.id in t.profiles && Present(t.profiles[v.id].name) ==> v.name == t.profiles[v.id].name.value)
      && (row.name.None? && (v.id !in t.profiles || !Present(t.profiles[v.id].name)) ==> v.name == "Unnamed User")
      && (v.id in t.profiles && t.profiles[v.id].points.Some? ==> v.points == t.profiles[v.id].points.value)
      && ((v.id !in t.profiles || t.profiles[v.id].points.None?) ==> v.points == row.points.GetOr(0))
      && v.banned == (row.banned != 0)
      && v.email == row.email && v.role == row.role
      && (v.id in t.profiles && t.profiles[v.id].bio.Some? ==> v.bio == t.profiles[v.id].bio.value)
      && ((v.id !in t.profiles || t.profiles[v.id].bio.None?) ==> v.bio == row.bio.GetOr(""))
      && (v.id in t.profiles && t.profiles[v.id].avatarUrl.Some? ==> v.avatarUrl == t.profiles[v.id].avatarUrl)
      && ((v.id !in t.profiles || t.profiles[v.id].avatarUrl.None?) ==> v.avatarUrl == row.avatarUrl)
  {
  }

  // ---------------------------------------------------------------------------
  // PUT /users/:id/ban

  datatype BanReply = BanReply(message: string, id: int, email: string, role: string, banned: bool)

  function BanHandler(t: Tables, u: Identity, userId: int, banned: JsValue): (r: Outcome<BanReply>)
    ensures r.reply.Err? ==> r.tables == t
    ensures r.reply.Err? ==> r.reply.error.status == (if u.id == userId then 400 else 404)
    ensures r.reply.Ok? <==> u.id != userId && userId in t.users
  {
    if u.id == userId then Outcome(t, Err(HttpError(400, None, "You cannot ban yourself")))
    else if userId !in t.users then Outcome(t, Err(NotFound("User not found")))
    else
      var flag := if Truthy(banned) then 1 else 0;
      var users := t.users[userId := t.users[userId].(banned := flag)];
      var profiles := if userId in t.profiles then t.profiles[userId := t.profiles[userId].(banned := flag)] else t.profiles;
      var row := users[userId];
      Outcome(t.(users := users, profiles := profiles),
        Ok(BanReply(if Truthy(banned) then "User has been banned" else "User has been unbanned",
                    userId, row.email, row.role, row.banned != 0)))
  }

  function Ban(t: Tables, header: Option<string>, verify: Verifier, userId: int, banned: JsValue): (r: Outcome<BanReply>)
    ensures Run(header, verify, t.users, AdminOnly).Err? ==> r == Outcome(t, Err(Run(header, verify, t.users, AdminOnly).error))
    ensures Run(header, verify, t.users, AdminOnly).Ok? ==> (r.reply.Ok? <==> Run(header, verify, t.users, AdminOnly).value.id != userId && userId in t.users)
    ensures r.reply.Err? ==> r.tables == t
  {
    match Run(header, verify, t.users, AdminOnly)
    case Err(e) => Outcome(t, Err(e))
    case Ok(u) => BanHandler(t, u, userId, banned)
  }

  /** The two UPDATE statements run one after the other. */
  method PutBan(db: Database, header: Option<string>, verify: Verifier, userId: int, banned: JsValue)
      returns (reply: Result<BanReply>)
    requires db.Valid()
    modifies db
    ensures db.Valid()
    ensures Outcome(db.Snapshot(), reply) == Ban(old(db.Snapshot()), header, verify, userId, banned)
  {
    var access := Run(header, verify, db.users, AdminOnly);
    if access.Err? {
      return Err(access.error);
    }
    if access.value.id == userId {
      return Err(HttpError(400, None, "You cannot ban yourself"));
    }
    if userId !in db.users {
      return Err(NotFound("User not found"));
    }
    var flag := if Truthy(banned) then 1 else 0;
    db.UpdateUser(userId, (row: UserRow) => row.(banned := flag));
    db.UpdateProfile(userId, (row: ProfileRow) => row.(banned := flag));
    var row := db.users[userId];
    reply := Ok(BanReply(if Truthy(banned) then "User has been banned" else "User has been unbanned",
                         userId, row.email, row.role, row.banned != 0));
  }

  /** A ban sets `users.banned` and `profiles.banned` of the target to `banned ? 1 : 0`,
      reports the same flag as a boolean, and changes no other row or column. */
  lemma BanMirrorsFlag(t: Tables, header: Option<string>, verify: Verifier, userId: int, banned: JsValue)
    requires Consistent(t)
    requires Ban(t, header, verify, userId, banned).reply.Ok?
    ensures var r := Ban(t, header, verify, userId, banned);
      var flag := if Truthy(banned) then 1 else 0;
      && r.tables.users == t.users[userId := t.users[userId].(banned := flag)]
      && r.tables.profiles == t.profiles[userId := t.profiles[userId].(banned := flag)]
      && r.tables.tricks == t.tricks
      && r.reply.value.banned == Truthy(banned)
      && Consistent(r.tables)
  {
  }

  /** A caller whose row has `is_admin` 0 gets the NOT_ADMIN 403 from every moderation
      route, whatever its role, and changes nothing. */
  lemma NonAdminChangesNothing(t: Tables, header: Option<string>, verify: Verifier, postId: int,
                               userId: int, banned: JsValue, name: Option<string>, bio: Option<string>, avatar: Option<string>)
    requires Authenticate(header, verify, t.users).Ok?
    requires t.users[Authenticate(header, verify, t.users).value.id].isAdmin == 0
    ensures ListPosts(t, header, verify) == Err(StageError(RequireAdmin))
    ensures ListUsers(t, header, verify) == Err(StageError(RequireAdmin))
    ensures DeletePost(t, header, verify, postId) == Outcome(t, Err(StageError(RequireAdmin)))
    ensures Ban(t, header, verify, userId, banned) == Outcome(t, Err(StageError(RequireAdmin)))
    ensures UpdateAdminProfile(t, header, verify, name, bio, avatar) == Outcome(t, Err(StageError(RequireAdmin)))
  {
  }

  /** An administrator cannot ban themselves, whatever the request body says. */
  lemma NoSelfBan(t: Tables, header: Option<string>, verify: Verifier, banned: JsValue)
    requires Run(header, verify, t.users, AdminOnly).Ok?
    ensures var r := Ban(t, header, verify, Run(header, verify, t.users, AdminOnly).value.id, banned);
      r.tables == t && r.reply.Err? && r.reply.error.status == 400
  {
  }

  /** Once banned, the target's next request to a route behind `blockBanned` is refused,
      even with the token it held before. */
  lemma BannedUserIsBlocked(t: Tables, header: Option<string>, verify: Verifier, userId: int,
                            targetHeader: Option<string>, targetVerify: Verifier, stages: seq<Stage>)
    requires Ban(t, header, verify, userId, Bool(true)).reply.Ok?
    requires Authenticate(targetHeader, targetVerify, t.users) == Ok(IdentityOf(userId, t.users[userId]))
    requires BlockBanned in stages
    ensures var after := Ban(t, header, verify, userId, Bool(true)).tables;
      Run(targetHeader, targetVerify, after.users, stages).Err?
  {
    var after := Ban(t, header, verify, userId, Bool(true)).tables;
    assert Authenticate(targetHeader, targetVerify, after.users).Ok?;
    BannedRowIsBlocked(targetHeader, targetVerify, after.users, stages);
  }

  // ---------------------------------------------------------------------------
  // PUT /users/profile

  datatype AdminProfileReply = AdminProfileReply(
    id: int, name: Option<string>, email: string, role: string, points: Option<int>,
    bio: Option<string>, banned: bool)

  function AdminProfileHandler(t: Tables, u: Identity, name: Option<string>, bio: Option<string>, avatar: Option<string>): (r: Outcome<AdminProfileReply>)
    ensures r.reply.Err? ==> r.tables == t
    ensures r.reply.Ok? <==> u.id in t.users
    ensures u.id !in t.users ==> r.reply == Err(NotFound("User not found"))
  {
    if u.id !in t.users then Outcome(t, Err(NotFound("User not found")))
    else
      var users := t.users[u.id := t.users[u.id].(name := name, bio := bio)];
      var profiles := if Present(avatar) && u.id in t.profiles
        then t.profiles[u.id := t.profiles[u.id].(avatarUrl := avatar)] else t.profiles;
      var row := users[u.id];
      Outcome(t.(users := users, profiles := profiles),
        Ok(AdminProfileReply(u.id, row.name, row.email, row.role, row.points, row.bio, row.banned != 0)))
  }

  /** The 404 of the handler cannot happen behind the guard, which has just read the row. */
  function UpdateAdminProfile(t: Tables, header: Option<string>, verify: Verifier, name: Option<string>, bio: Option<string>, avatar: Option<string>): (r: Outcome<AdminProfileReply>)
    ensures Run(header, verify, t.users, AdminOnly).Err? ==>
      r == Outcome(t, Err(Run(header, verify, t.users, AdminOnly).error))
    ensures r.reply.Ok? <==> Run(header, verify, t.users, AdminOnly).Ok?
  {
    match Run(header, verify, t.users, AdminOnly)
    case Err(e) => Outcome(t, Err(e))
    case Ok(u) => AdminProfileHandler(t, u, name, bio, avatar)
  }

  method PutAdminProfile(db: Database, header: Option<string>, verify: Verifier, name: Option<string>, bio: Option<string>, avatar: Option<string>)
      returns (reply: Result<AdminProfileReply>)
    requires db.Valid()
    modifies db
    ensures db.Valid()
    ensures Outcome(db.Snapshot(), reply) == UpdateAdminProfile(old(db.Snapshot()), header, verify, name, bio, avatar)
  {
    var access := Run(header, verify, db.users, AdminOnly);
    if access.Err? {
      return Err(access.error);
    }
    var id := access.value.id;
    if id !in db.users {
      return Err(NotFound("User not found"));
    }
    db.UpdateUser(id, (row: UserRow) => row.(name := name, bio := bio));
    if Present(avatar) {
      db.UpdateProfile(id, (row: ProfileRow) => row.(avatarUrl := avatar));
    }
    var row := db.users[id];
    reply := Ok(AdminProfileReply(id, row.name, row.email, row.role, row.points, row.bio, row.banned != 0));
  }

  /** The update writes the caller's `users.name` and `users.bio`; `profiles.avatar_url`
      changes only when an avatar is given; nothing else changes. */
  lemma AdminProfileTouchesOnlyCaller(t: Tables, header: Option<string>, verify: Verifier, name: Option<string>, bio: Option<string>, avatar: Option<string>)
    requires Run(header, verify, t.users, AdminOnly).Ok?
    ensures var r := UpdateAdminProfile(t, header, verify, name, bio, avatar);
      var id := Run(header, verify, t.users, AdminOnly).value.id;
      && r.reply.Ok? && r.reply.value.id == id && id in t.users
      && r.tables.users == t.users[id := t.users[id].(name := name, bio := bio)]
      && (!Present(avatar) ==> r.tables.profiles == t.profiles)
      && (Present(avatar) && id in t.profiles ==> r.tables.profiles == t.profiles[id := t.profiles[id].(avatarUrl := avatar)])
      && r.tables.tricks == t.tricks
      && r.reply.value.name == name && r.reply.value.bio == bio
  {
  }

  /** Deleting a post keeps each user's profile row in place. */
  lemma DeletePostKeepsConsistent(t: Tables, header: Option<string>, verify: Verifier, postId: int)
    requires Consistent(t)
    ensures Consistent(DeletePost(t, header, verify, postId).tables)
  {
    WithoutKeepsDistinct(t.tricks, postId);
    var rest := Without(t.tricks, postId);
    forall i | 0 <= i < |rest| ensures 0 < rest[i].id < t.nextTrickId {
      var k :| 0 <= k < |t.tricks| && t.tricks[k] == rest[i];
    }
  }

  /** Editing the admin's own profile keeps each user's profile row in place, and every
      email. */
  lemma AdminProfileKeepsConsistent(t: Tables, header: Option<string>, verify: Verifier,
                                    name: Option<string>, bio: Option<string>, avatar: Option<string>)
    requires Consistent(t)
    ensures Consistent(UpdateAdminProfile(t, header, verify, name, bio, avatar).tables)
  {
    var r := UpdateAdminProfile(t, header, verify, name, bio, avatar);
    assert forall id :: id in r.tables.users ==> id in t.users && r.tables.users[id].email == t.users[id].email;
  }
}
