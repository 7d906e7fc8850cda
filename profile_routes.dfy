/** The rider profile routes of routes/profile.js: reading and editing the caller's
    profile, adding points, and the avatar and trick-video uploads. Every route runs
    `authenticate`; the mutating ones also run `blockBanned`. Moving the uploaded file
    is outside the model; only the path stored for it is modelled. */
module ProfileRoutes {
  import opened Common
  import opened Json
  import opened Db
  import opened Guard

  const Unbanned: seq<Stage> := [BlockBanned]

  /** A profile as the routes return it: the row with `trick_videos` decoded and
      `banned` a boolean; `email` and `role` are there when the query joins `users`. */
  datatype ProfileReply = ProfileReply(
    userId: int, name: Option<string>, bio: Option<string>, favoriteTricks: Option<string>,
    points: Option<int>, avatarUrl: Option<string>, ridingLevel: string, trickVideos: seq<string>,
    rating: int, position: int, banned: bool, email: Option<string>, role: Option<string>)

  function ServerError(message: string): HttpError {
    HttpError(500, None, message)
  }

  /** The tolerant decode: NULL, empty or malformed JSON give the empty list. */
  function VideoList(col: Option<string>): seq<string> {
    match ReadColumn(col)
    case Some(videos) => videos
    case None => []
  }

  /** A list written by the server reads back unchanged; NULL reads as empty. */
  lemma VideoListOfWritten(videos: seq<string>)
    ensures VideoList(Some(Encode(videos))) == videos
    ensures VideoList(None) == [] && VideoList(Some("")) == []
  {
    ReadWrittenColumn(videos);
  }

  function ReplyOf(id: int, p: ProfileRow, videos: seq<string>, email: Option<string>, role: Option<string>): ProfileReply {
    ProfileReply(id, p.name, p.bio, p.favoriteTricks, p.points, p.avatarUrl, p.ridingLevel, videos,
                 p.rating, p.position, p.banned != 0, email, role)
  }

  /** `SELECT p.*, u.email, u.role FROM profiles p JOIN users u … WHERE p.user_id = ?`,
      with the tolerant decode of `trick_videos`. */
  function JoinedProfile(t: Tables, id: int): (r: Option<ProfileReply>)
    ensures r.Some? <==> id in t.profiles && id in t.users
    ensures r.Some? ==> (r.value.userId == id && r.value.email == Some(t.users[id].email)
      && r.value.trickVideos == VideoList(t.profiles[id].trickVideos))
  {
    if id in t.profiles && id in t.users
    then Some(ReplyOf(id, t.profiles[id], VideoList(t.profiles[id].trickVideos), Some(t.users[id].email), Some(t.users[id].role)))
    else None
  }

  /** Sets the caller's profile row, when it has one (`UPDATE profiles … WHERE user_id = ?`). */
  function WithProfile(t: Tables, id: int, change: ProfileRow -> ProfileRow): (r: Tables)
    ensures r.users == t.users && r.tricks == t.tricks && r.profiles.Keys == t.profiles.Keys
  {
    if id in t.profiles then t.(profiles := t.profiles[id := change(t.profiles[id])]) else t
  }

  // ---------------------------------------------------------------------------
  // GET /me

  function GetMe(t: Tables, header: Option<string>, verify: Verifier): (r: Result<ProfileReply>)
    ensures r.Err? ==> r.error.status in {401, 404}
    ensures Authenticate(header, verify, t.users).Err? ==> r == Err(Authenticate(header, verify, t.users).error)
    ensures Authenticate(header, verify, t.users).Ok? ==>
      var id := Authenticate(header, verify, t.users).value.id;
      r == (if JoinedProfile(t, id).Some? then Ok(JoinedProfile(t, id).value)
            else Err(HttpError(404, None, "Profile not found")))
  {
    match Run(header, verify, t.users, [])
    case Err(e) => Err(e)
    case Ok(u) =>
      match JoinedProfile(t, u.id)
      case None => Err(HttpError(404, None, "Profile not found"))
      case Some(p) => Ok(p)
  }

  /** In a store where every user has a profile, reading one's own profile only fails
      at `authenticate`. */
  lemma GetMeFindsProfile(t: Tables, header: Option<string>, verify: Verifier)
    requires Consistent(t)
    ensures GetMe(t, header, verify).Ok? <==> Authenticate(header, verify, t.users).Ok?
  {
  }

  // ---------------------------------------------------------------------------
  // PUT /me

  function EditProfile(t: Tables, header: Option<string>, verify: Verifier,
                       name: Option<string>, bio: Option<string>, favoriteTricks: Option<string>): (r: Outcome<ProfileReply>)
    ensures Run(header, verify, t.users, Unbanned).Err? ==>
      r == Outcome(t, Err(Run(header, verify, t.users, Unbanned).error))
    ensures Run(header, verify, t.users, Unbanned).Ok? ==>
      (r.reply.Ok? <==> Run(header, verify, t.users, Unbanned).value.id in t.profiles)
    ensures r.reply.Err? ==> r.tables == t
  {
    match Run(header, verify, t.users, Unbanned)
    case Err(e) => Outcome(t, Err(e))
    case Ok(u) =>
      var after := WithProfile(t, u.id, (p: ProfileRow) => p.(name := name, bio := bio, favoriteTricks := favoriteTricks));
      match JoinedProfile(after, u.id)
      case None => Outcome(after, Err(ServerError("Server error")))
      case Some(p) => Outcome(after, Ok(p))
  }

  method PutMe(db: Database, header: Option<string>, verify: Verifier,
               name: Option<string>, bio: Option<string>, favoriteTricks: Option<string>) returns (reply: Result<ProfileReply>)
    requires db.Valid()
    modifies db
    ensures db.Valid()
    ensures Outcome(db.Snapshot(), reply) == EditProfile(old(db.Snapshot()), header, verify, name, bio, favoriteTricks)
  {
    var access := Run(header, verify, db.users, Unbanned);
    if access.Err? {
      return Err(access.error);
    }
    var id := access.value.id;
    db.UpdateProfile(id, (p: ProfileRow) => p.(name := name, bio := bio, favoriteTricks := favoriteTricks));
    var updated := JoinedProfile(db.Snapshot(), id);
    if updated.None? {
      return Err(ServerError("Server error"));
    }
    reply := Ok(updated.value);
  }

  /** The edit writes the caller's name, bio and favourite tricks and nothing else. */
  lemma EditTouchesOnlyNamedFields(t: Tables, header: Option<string>, verify: Verifier,
                                   name: Option<string>, bio: Option<string>, favoriteTricks: Option<string>)
    requires Run(header, verify, t.users, Unbanned).Ok?
    requires Run(header, verify, t.users, Unbanned).value.id in t.profiles
    ensures var r := EditProfile(t, header, verify, name, bio, favoriteTricks);
      var id := Run(header, verify, t.users, Unbanned).value.id;
      && r.reply.Ok? && r.reply.value.userId == id
      && r.tables == t.(profiles := t.profiles[id := t.profiles[id].(name := name, bio := bio, favoriteTricks := favoriteTricks)])
      && r.reply.value.name == name && r.reply.value.bio == bio && r.reply.value.favoriteTricks == favoriteTricks
      && r.reply.value.points == t.profiles[id].points
  {
  }

  // ---------------------------------------------------------------------------
  // POST /add-points

  /** SQL `points + ?`: NULL on either side gives NULL. */
  function SqlAdd(a: Option<int>, b: Option<int>): (r: Option<int>)
    ensures r.Some? <==> a.Some? && b.Some?
    ensures r.Some? ==> r.value - a.value == b.value
  {
    if a.Some? && b.Some? then Some(a.value + b.value) else None
  }

  function AddPoints(t: Tables, header: Option<string>, verify: Verifier, delta: Option<int>): (r: Outcome<ProfileReply>)
    ensures Run(header, verify, t.users, Unbanned).Err? ==>
      r == Outcome(t, Err(Run(header, verify, t.users, Unbanned).error))
    ensures Run(header, verify, t.users, Unbanned).Ok? ==>
      (r.reply.Ok? <==> Run(header, verify, t.users, Unbanned).value.id in t.profiles)
    ensures r.reply.Err? ==> r.tables == t
  {
    match Run(header, verify, t.users, Unbanned)
    case Err(e) => Outcome(t, Err(e))
    case Ok(u) =>
      var after := WithProfile(t, u.id, (p: ProfileRow) => p.(points := SqlAdd(p.points, delta)));
      match JoinedProfile(after, u.id)
      case None => Outcome(after, Err(ServerError("Internal Server Error")))
      case Some(p) => Outcome(after, Ok(p))
  }

  method PostAddPoints(db: Database, header: Option<string>, verify: Verifier, delta: Option<int>) returns (reply: Result<ProfileReply>)
    requires db.Valid()
    modifies db
    ensures db.Valid()
    ensures Outcome(db.Snapshot(), reply) == AddPoints(old(db.Snapshot()), header, verify, delta)
  {
    var access := Run(header, verify, db.users, Unbanned);
    if access.Err? {
      return Err(access.error);
    }
    var id := access.value.id;
    db.UpdateProfile(id, (p: ProfileRow) => p.(points := SqlAdd(p.points, delta)));
    var updated := JoinedProfile(db.Snapshot(), id);
    if updated.None? {
      return Err(ServerError("Internal Server Error"));
    }
    reply := Ok(updated.value);
  }

  /** The caller's points grow by exactly the delta, with no bound, and no other column
      or row changes. */
  lemma AddPointsAddsDelta(t: Tables, header: Option<string>, verify: Verifier, points: int, delta: int)
    requires Run(header, verify, t.users, Unbanned).Ok?
    requires Run(header, verify, t.users, Unbanned).value.id in t.profiles
    requires t.profiles[Run(header, verify, t.users, Unbanned).value.id].points == Some(points)
    ensures var r := AddPoints(t, header, verify, Some(delta));
      var id := Run(header, verify, t.users, Unbanned).value.id;
      && r.reply.Ok? && r.reply.value.userId == id
      && r.reply.value.points == Some(points + delta)
      && r.tables == t.(profiles := t.profiles[id := t.profiles[id].(points := Some(points + delta))])
  {
  }

  /** Two increments add up: the routes keep a running total. */
  lemma AddPointsTwice(t: Tables, header: Option<string>, verify: Verifier, points: int, d1: int, d2: int)
    requires Run(header, verify, t.users, Unbanned).Ok?
    requires Run(header, verify, t.users, Unbanned).value.id in t.profiles
    requires t.profiles[Run(header, verify, t.users, Unbanned).value.id].points == Some(points)
    ensures var once := AddPoints(t, header, verify, Some(d1));
      var twice := AddPoints(once.tables, header, verify, Some(d2));
      once.reply.Ok? && twice.reply.Ok? && twice.reply.value.points == Some(points + d1 + d2)
  {
    var u := Run(header, verify, t.users, Unbanned).value;
    var once := AddPoints(t, header, verify, Some(d1)).tables;
    assert once.users == t.users;
    assert Run(header, verify, once.users, Unbanned) == Ok(u);
  }

  // ---------------------------------------------------------------------------
  // Upload paths

  /** `path.join(dir, sub, file)` on a platform whose separator is `sep`. */
  function PathJoin(dir: string, sub: string, file: string, sep: char): string {
    dir + ([sep] + (sub + ([sep] + file)))
  }

  /** `${id}_${Date.now()}_${name}`. */
  function UploadName(userId: int, now: int, name: string): string {
    Decimal(userId) + ("_" + (Decimal(now) + ("_" + name)))
  }

  /** The stored URL: "/" and the joined path with every backslash turned into "/". */
  function UploadPath(kind: string, userId: int, now: int, fileName: string, sep: char): string {
    ['/'] + ReplaceChar(PathJoin("uploads", kind, UploadName(userId, now, fileName), sep), '\\', '/')
  }

  /** The URL is the same on either separator: "/uploads/<kind>/<id>_<now>_<name>", with
      the name's backslashes turned into "/" and no backslash left anywhere. */
  lemma UploadPathShape(kind: string, userId: int, now: int, fileName: string, sep: char)
    requires sep == '/' || sep == '\\'
    requires '\\' !in kind
    ensures UploadPath(kind, userId, now, fileName, sep)
      == ['/'] + PathJoin("uploads", kind, UploadName(userId, now, ReplaceChar(fileName, '\\', '/')), '/')
    ensures '\\' !in UploadPath(kind, userId, now, fileName, sep)
  {
    var d1, d2 := Decimal(userId), Decimal(now);
    ReplaceCharKeeps("_", fileName);
    ReplaceCharKeeps(d2, "_" + fileName);
    ReplaceCharKeeps("_", d2 + ("_" + fileName));
    var name := UploadName(userId, now, fileName);
    ReplaceCharKeeps(d1, "_" + (d2 + ("_" + fileName)));
    ReplaceCharSeparator(sep, name);
    ReplaceCharKeeps(kind, [sep] + name);
    ReplaceCharSeparator(sep, kind + ([sep] + name));
    ReplaceCharKeeps("uploads", [sep] + (kind + ([sep] + name)));
  }

  lemma ReplaceCharKeeps(a: string, b: string)
    requires '\\' !in a
    ensures ReplaceChar(a + b, '\\', '/') == a + ReplaceChar(b, '\\', '/')
  {
    ReplaceCharConcat(a, b, '\\', '/');
    ReplaceCharAbsent(a, '\\', '/');
  }

  lemma ReplaceCharSeparator(sep: char, b: string)
    requires sep == '/' || sep == '\\'
    ensures ReplaceChar([sep] + b, '\\', '/') == ['/'] + ReplaceChar(b, '\\', '/')
  {
    ReplaceCharConcat([sep], b, '\\', '/');
  }

  // ---------------------------------------------------------------------------
  // POST /avatar

  /** `SELECT * FROM profiles WHERE user_id = ?` followed by `JSON.parse` without a
      fallback: a malformed stored video list is an error here. */
  function PlainProfile(t: Tables, id: int): Result<ProfileReply> {
    if id !in t.profiles then Err(ServerError("Internal Server Error"))
    else
      var p := t.profiles[id];
      if !Present(p.trickVideos) then Ok(ReplyOf(id, p, [], None, None))
      else match Decode(p.trickVideos.value)
        case None => Err(ServerError("Internal Server Error"))
        case Some(videos) => Ok(ReplyOf(id, p, videos, None, None))
  }

  /** `file` is the uploaded file's name, None when no file was sent; `now` is `Date.now()`. */
  function Avatar(t: Tables, header: Option<string>, verify: Verifier, file: Option<string>, now: int, sep: char): (r: Outcome<ProfileReply>)
    ensures r.reply.Err? && r.reply.error.status != 500 ==> r.tables == t
    ensures Run(header, verify, t.users, Unbanned).Err? ==>
      r == Outcome(t, Err(Run(header, verify, t.users, Unbanned).error))
    ensures Run(header, verify, t.users, Unbanned).Ok? && file.None? ==>
      r == Outcome(t, Err(HttpError(400, None, "No avatar uploaded")))
  {
    match Run(header, verify, t.users, Unbanned)
    case Err(e) => Outcome(t, Err(e))
    case Ok(u) =>
      if file.None? then Outcome(t, Err(HttpError(400, None, "No avatar uploaded")))
      else
        var url := UploadPath("avatars", u.id, now, file.value, sep);
        var after := WithProfile(t, u.id, (p: ProfileRow) => p.(avatarUrl := Some(url)));
        Outcome(after, PlainProfile(after, u.id))
  }

  method PostAvatar(db: Database, header: Option<string>, verify: Verifier, file: Option<string>, now: int, sep: char)
      returns (reply: Result<ProfileReply>)
    requires db.Valid()
    modifies db
    ensures db.Valid()
    ensures Outcome(db.Snapshot(), reply) == Avatar(old(db.Snapshot()), header, verify, file, now, sep)
  {
    var access := Run(header, verify, db.users, Unbanned);
    if access.Err? {
      return Err(access.error);
    }
    if file.None? {
      return Err(HttpError(400, None, "No avatar uploaded"));
    }
    var url := UploadPath("avatars", access.value.id, now, file.value, sep);
    db.UpdateProfile(access.value.id, (p: ProfileRow) => p.(avatarUrl := Some(url)));
    reply := PlainProfile(db.Snapshot(), access.value.id);
  }

  /** The caller's avatar URL is set to the upload path even when the reply is a 500
      over a malformed stored video list; nothing else changes. */
  lemma AvatarStoresPath(t: Tables, header: Option<string>, verify: Verifier, file: string, now: int, sep: char)
    requires Run(header, verify, t.users, Unbanned).Ok?
    requires Run(header, verify, t.users, Unbanned).value.id in t.profiles
    ensures var id := Run(header, verify, t.users, Unbanned).value.id;
      var r := Avatar(t, header, verify, Some(file), now, sep);
      && r.tables == t.(profiles := t.profiles[id := t.profiles[id].(avatarUrl := Some(UploadPath("avatars", id, now, file, sep)))])
      && (r.reply.Ok? <==> !Present(t.profiles[id].trickVideos) || Decode(t.profiles[id].trickVideos.value).Some?)
  {
  }

  // ---------------------------------------------------------------------------
  // POST /video

  function Video(t: Tables, header: Option<string>, verify: Verifier, file: Option<string>, now: int, sep: char): (r: Outcome<ProfileReply>)
    ensures r.reply.Err? ==> r.tables == t
    ensures Run(header, verify, t.users, Unbanned).Err? ==>
      r == Outcome(t, Err(Run(header, verify, t.users, Unbanned).error))
    ensures Run(header, verify, t.users, Unbanned).Ok? && file.None? ==>
      r == Outcome(t, Err(HttpError(400, None, "No video uploaded")))
    ensures Run(header, verify, t.users, Unbanned).Ok? && file.Some? ==>
      (r.reply.Ok? <==> Run(header, verify, t.users, Unbanned).value.id in t.profiles)
  {
    match Run(header, verify, t.users, Unbanned)
    case Err(e) => Outcome(t, Err(e))
    case Ok(u) =>
      if file.None? then Outcome(t, Err(HttpError(400, None, "No video uploaded")))
      else if u.id !in t.profiles then Outcome(t, Err(ServerError("Internal Server Error")))
      else
        var videos := VideoList(t.profiles[u.id].trickVideos) + [UploadPath("videos", u.id, now, file.value, sep)];
        var after := WithProfile(t, u.id, (p: ProfileRow) => p.(trickVideos := Some(Encode(videos))));
        Outcome(after, Ok(ReplyOf(u.id, after.profiles[u.id], videos, None, None)))
  }

  method PostVideo(db: Database, header: Option<string>, verify: Verifier, file: Option<string>, now: int, sep: char)
      returns (reply: Result<ProfileReply>)
    requires db.Valid()
    modifies db
    ensures db.Valid()
    ensures Outcome(db.Snapshot(), reply) == Video(old(db.Snapshot()), header, verify, file, now, sep)
  {
    var access := Run(header, verify, db.users, Unbanned);
    if access.Err? {
      return Err(access.error);
    }
    if file.None? {
      return Err(HttpError(400, None, "No video uploaded"));
    }
    var id := access.value.id;
    if id !in db.profiles {
      return Err(ServerError("Internal Server Error"));
    }
    var videos := VideoList(db.profiles[id].trickVideos);
    videos := videos + [UploadPath("videos", id, now, file.value, sep)];
    db.UpdateProfile(id, (p: ProfileRow) => p.(trickVideos := Some(Encode(videos))));
    reply := Ok(ReplyOf(id, db.profiles[id], videos, None, None));
  }

  /** The new path goes at the end of the earlier list (empty when the stored text was
      malformed), and the stored column reads back as exactly the returned list. */
  lemma VideoAppends(t: Tables, header: Option<string>, verify: Verifier, file: string, now: int, sep: char)
    requires Run(header, verify, t.users, Unbanned).Ok?
    requires Run(header, verify, t.users, Unbanned).value.id in t.profiles
    ensures var r := Video(t, header, verify, Some(file), now, sep);
      var id := Run(header, verify, t.users, Unbanned).value.id;
      && r.reply.Ok? && r.reply.value.userId == id && id in r.tables.profiles
      && r.reply.value.trickVideos == VideoList(t.profiles[id].trickVideos) + [UploadPath("videos", id, now, file, sep)]
      && VideoList(r.tables.profiles[id].trickVideos) == r.reply.value.trickVideos
      && r.tables.profiles[id] == t.profiles[id].(trickVideos := r.tables.profiles[id].trickVideos)
      && r.tables.users == t.users && r.tables.tricks == t.tricks
  {
    var r := Video(t, header, verify, Some(file), now, sep);
    VideoListOfWritten(r.reply.value.trickVideos);
  }

  /** A banned caller changes nothing through any of the mutating profile routes. */
  lemma BannedCallerChangesNothing(t: Tables, header: Option<string>, verify: Verifier,
                                   name: Option<string>, bio: Option<string>, tricks: Option<string>,
                                   delta: Option<int>, file: Option<string>, now: int, sep: char)
    requires Authenticate(header, verify, t.users).Ok? && Authenticate(header, verify, t.users).value.banned
    ensures EditProfile(t, header, verify, name, bio, tricks) == Outcome(t, Err(StageError(BlockBanned)))
    ensures AddPoints(t, header, verify, delta) == Outcome(t, Err(StageError(BlockBanned)))
    ensures Avatar(t, header, verify, file, now, sep) == Outcome(t, Err(StageError(BlockBanned)))
    ensures Video(t, header, verify, file, now, sep) == Outcome(t, Err(StageError(BlockBanned)))
  {
  }

  /** Every mutating profile route keeps each user's profile row in place. */
  lemma ProfileRoutesKeepConsistent(t: Tables, header: Option<string>, verify: Verifier,
                                    name: Option<string>, bio: Option<string>, favoriteTricks: Option<string>,
                                    delta: Option<int>, file: Option<string>, now: int, sep: char)
    requires Consistent(t)
    ensures Consistent(EditProfile(t, header, verify, name, bio, favoriteTricks).tables)
    ensures Consistent(AddPoints(t, header, verify, delta).tables)
    ensures Consistent(Avatar(t, header, verify, file, now, sep).tables)
    ensures Consistent(Video(t, header, verify, file, now, sep).tables)
  {
    SameRowsConsistent(t, EditProfile(t, header, verify, name, bio, favoriteTricks).tables);
    SameRowsConsistent(t, AddPoints(t, header, verify, delta).tables);
    SameRowsConsistent(t, Avatar(t, header, verify, file, now, sep).tables);
    SameRowsConsistent(t, Video(t, header, verify, file, now, sep).tables);
  }

  lemma SameRowsConsistent(t: Tables, after: Tables)
    requires Consistent(t)
    requires after.users == t.users && after.tricks == t.tricks && after.profiles.Keys == t.profiles.Keys
    requires after.nextUserId == t.nextUserId && after.nextTrickId == t.nextTrickId
    ensures Consistent(after)
  {
  }
}
