/** The admin dashboard (`AdminDashboard`): who may see it, the rider tier it shows,
    and its optimistic ban and delete updates of the users and posts lists. */
module AdminPage {
  import opened Common
  import ProfilePage

  /** The dashboard's test of the stored admin user: role "admin", or an `is_admin`
      flag that is `true` or `1`. */
  predicate IsAdminUser(o: JsObject) {
    || Get(o, "role") == Str("admin")
    || Get(o, "is_admin") == Bool(true)
    || Get(o, "is_admin") == Num(1)
  }

  /** The mount effect's checks on `admin_token` and `admin_user` from localStorage.
      `parse` stands for `JSON.parse`, None when it throws (or yields no object).
      The result is the admin user the page shows; None means a redirect to the admin
      login page. */
  function AdminGate(token: Option<string>, rawUser: Option<string>, parse: string -> Option<JsObject>): (r: Option<JsObject>)
    ensures !Present(token) || !Present(rawUser) || rawUser == Some("undefined") ==> r.None?
    ensures r.Some? ==> IsAdminUser(r.value) && parse(rawUser.value) == r
    ensures (&& Present(token) && Present(rawUser) && rawUser.value != "undefined"
             && parse(rawUser.value).Some? && IsAdminUser(parse(rawUser.value).value)) ==> r.Some?
  {
    if !Present(token) || !Present(rawUser) || rawUser.value == "undefined" then None
    else match parse(rawUser.value)
      case None => None
      case Some(parsed) => if IsAdminUser(parsed) then Some(parsed) else None
  }

  /** `getRiderLevel(points = 0)`: its own copy of the thresholds, which agrees with
      the profile page's `getRidingLevel`. A missing `points` counts as 0 (as does
      `null`, which compares as 0). */
  function RiderLevel(points: Option<int>): (t: ProfilePage.Tier)
    ensures t == ProfilePage.RidingLevel(points.GetOr(0))
  {
    var p := points.GetOr(0);
    if p >= 100 then ProfilePage.Professional
    else if p >= 50 then ProfilePage.Advanced
    else if p >= 20 then ProfilePage.Intermediate
    else ProfilePage.Beginner
  }

  /** `rows.map(u => u.id === id ? { ...u, banned: b } : u)`. */
  function WithBanned(rows: seq<JsObject>, id: JsValue, b: bool): (r: seq<JsObject>)
    ensures |r| == |rows|
    ensures forall i :: 0 <= i < |rows| && Get(rows[i], "id") != id ==> r[i] == rows[i]
    ensures forall i :: 0 <= i < |rows| && Get(rows[i], "id") == id ==>
      Get(r[i], "banned") == Bool(b) && r[i] - {"banned"} == rows[i] - {"banned"}
  {
    seq(|rows|, i requires 0 <= i < |rows| =>
      if Get(rows[i], "id") == id then rows[i]["banned" := Bool(b)] else rows[i])
  }

  /** Every row with that id shows `banned` as the boolean b. */
  predicate ShowsBanned(rows: seq<JsObject>, id: JsValue, b: bool) {
    forall i :: 0 <= i < |rows| && Get(rows[i], "id") == id ==> Get(rows[i], "banned") == Bool(b)
  }

  /** The rollback undoes the optimistic flip: when the target rows showed `banned`,
      flipping to `!banned` and back gives the original list. */
  lemma FlipRollback(rows: seq<JsObject>, id: JsValue, banned: bool)
    requires ShowsBanned(rows, id, banned)
    ensures WithBanned(WithBanned(rows, id, !banned), id, banned) == rows
  {
    var flipped := WithBanned(rows, id, !banned);
    var back := WithBanned(flipped, id, banned);
    forall i | 0 <= i < |rows| ensures back[i] == rows[i] {
      if Get(rows[i], "id") == id {
        assert "id" != "banned";
        assert Get(flipped[i], "id") == id;
        assert "banned" in rows[i];
        assert back[i] == flipped[i]["banned" := Bool(banned)];
        assert back[i] == rows[i];
      }
    }
  }

  /** After the flip the target rows show the new value, so a second click flips back. */
  lemma FlipShows(rows: seq<JsObject>, id: JsValue, b: bool)
    ensures ShowsBanned(WithBanned(rows, id, b), id, b)
  {
    var r := WithBanned(rows, id, b);
    forall i | 0 <= i < |r| && Get(r[i], "id") == id ensures Get(r[i], "banned") == Bool(b) {
      assert "id" != "banned";
    }
  }

  /** `posts.filter(p => p.id !== id)`. */
  function Removed(posts: seq<JsObject>, id: JsValue): (r: seq<JsObject>)
    ensures |r| <= |posts|
    ensures forall p :: p in r <==> p in posts && Get(p, "id") != id
    ensures (forall i :: 0 <= i < |posts| ==> Get(posts[i], "id") != id) ==> r == posts
  {
    if posts == [] then []
    else
      var rest := Removed(posts[1..], id);
      assert posts == [posts[0]] + posts[1..];
      if Get(posts[0], "id") == id then rest else [posts[0]] + rest
  }

  /** The filter keeps list order and repeats: it works post by post. */
  lemma {:induction false} RemovedConcat(a: seq<JsObject>, b: seq<JsObject>, id: JsValue)
    ensures Removed(a + b, id) == Removed(a, id) + Removed(b, id)
    decreases |a|
  {
    if a == [] {
      assert a + b == b;
    } else {
      assert (a + b)[0] == a[0];
      assert (a + b)[1..] == a[1..] + b;
      RemovedConcat(a[1..], b, id);
    }
  }

  /** Deleting a post a second time changes nothing. */
  lemma {:induction false} RemovedIdempotent(posts: seq<JsObject>, id: JsValue)
    ensures Removed(Removed(posts, id), id) == Removed(posts, id)
    decreases |posts|
  {
    if posts != [] {
      RemovedIdempotent(posts[1..], id);
      var rest := Removed(posts[1..], id);
      if Get(posts[0], "id") != id {
        assert ([posts[0]] + rest)[1..] == rest;
      }
    }
  }

  /** The dashboard's state: the signed-in admin, and the users and posts lists. */
  class Dashboard {
    var me: JsObject
    var users: seq<JsObject>
    var posts: seq<JsObject>

    /** The page once the gate let `me` in and both lists were fetched. */
    constructor (me: JsObject, users: seq<JsObject>, posts: seq<JsObject>)
      requires IsAdminUser(me)
      ensures this.me == me && this.users == users && this.posts == posts
    {
      this.me := me;
      this.users := users;
      this.posts := posts;
    }

    /** `toggleBanUser(userId, banned)`: never on oneself; otherwise the rows with that
        id show `!banned` at once, and if the request fails they are set back to
        `banned`. `requestOk` stands for the PUT succeeding. */
    method ToggleBanUser(userId: JsValue, banned: bool, requestOk: bool)
      modifies this
      ensures me == old(me) && posts == old(posts)
      ensures userId == Get(me, "id") ==> users == old(users)
      ensures userId != Get(me, "id") && requestOk ==> users == WithBanned(old(users), userId, !banned)
      ensures userId != Get(me, "id") && !requestOk ==>
        users == WithBanned(WithBanned(old(users), userId, !banned), userId, banned)
      ensures !requestOk && ShowsBanned(old(users), userId, banned) ==> users == old(users)
    {
      if userId == Get(me, "id") {
        return;
      }
      users := WithBanned(users, userId, !banned);
      if !requestOk {
        users := WithBanned(users, userId, banned);
        if ShowsBanned(old(users), userId, banned) {
          FlipRollback(old(users), userId, banned);
        }
      }
    }

    /** `deletePost(postId)`: nothing unless confirmed; otherwise the post leaves the
        list at once, and if the request fails the list is fetched again (`refetched`,
        None when that fetch fails too). */
    method DeletePost(postId: JsValue, confirmed: bool, requestOk: bool, refetched: Option<seq<JsObject>>)
      modifies this
      ensures me == old(me) && users == old(users)
      ensures !confirmed ==> posts == old(posts)
      ensures confirmed && (requestOk || refetched.None?) ==> posts == Removed(old(posts), postId)
      ensures confirmed && !requestOk && refetched.Some? ==> posts == refetched.value
    {
      if !confirmed {
        return;
      }
      posts := Removed(posts, postId);
      if !requestOk && refetched.Some? {
        posts := refetched.value;
      }
    }
  }
}
