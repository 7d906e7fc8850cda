/** The trick feed of routes/trick.js: the public listing, with its optional level
    filter and newest-first order, and posting a trick (behind `authenticate` and
    `blockBanned`). Hashtags are stored as JSON text and decoded on the way out. */
module TrickRoutes {
  import opened Common
  import opened Json
  import opened Db
  import opened Guard
  import Sorting

  /** A trick as the routes return it: the row, its decoded hashtags and the author's
      profile name and avatar from the LEFT JOIN. */
  datatype TrickView = TrickView(
    id: int, userId: int, title: string, description: Option<string>, videoUrl: Option<string>,
    level: Option<string>, hashtags: seq<string>, createdAt: int,
    authorName: Option<string>, authorAvatar: Option<string>)

  function ServerError(): HttpError {
    HttpError(500, None, "Internal Server Error")
  }

  /** `t.hashtags ? JSON.parse(t.hashtags) : []`; None when the parse throws. */
  function Hashtags(row: TrickRow): Option<seq<string>> {
    ReadColumn(row.hashtags)
  }

  function ViewOf(t: Tables, row: TrickRow, tags: seq<string>): TrickView {
    var name := if row.userId in t.profiles then t.profiles[row.userId].name else None;
    var avatar := if row.userId in t.profiles then t.profiles[row.userId].avatarUrl else None;
    TrickView(row.id, row.userId, row.title, row.description, row.videoUrl, row.level, tags, row.createdAt, name, avatar)
  }

  /** The `.map` over the rows: one throw fails the whole request. */
  function DecodeAll(t: Tables, rows: seq<TrickRow>): (r: Result<seq<TrickView>>)
    ensures r.Ok? <==> forall i :: 0 <= i < |rows| ==> Hashtags(rows[i]).Some?
    ensures r.Ok? ==> (|r.value| == |rows|
      && forall i :: 0 <= i < |rows| ==> r.value[i] == ViewOf(t, rows[i], Hashtags(rows[i]).value))
    ensures r.Err? ==> r.error == ServerError()
    decreases |rows|
  {
    if rows == [] then Ok([])
    else match Hashtags(rows[0])
      case None => Err(ServerError())
      case Some(tags) =>
        match DecodeAll(t, rows[1..])
        case Err(e) => Err(e)
        case Ok(rest) =>
          assert forall i :: 1 <= i < |rows| ==> rows[i] == rows[1..][i - 1];
          Ok([ViewOf(t, rows[0], tags)] + rest)
  }

  /** `WHERE t.level = ?`, only when a level is given. */
  function AtLevel(rows: seq<TrickRow>, level: string): (r: seq<TrickRow>)
    ensures forall x :: x in r <==> x in rows && x.level == Some(level)
    decreases |rows|
  {
    if rows == [] then []
    else if rows[0].level == Some(level) then [rows[0]] + AtLevel(rows[1..], level)
    else AtLevel(rows[1..], level)
  }

  /** The query's WHERE: the author exists and, when a level is given, it matches exactly. */
  predicate Listed(t: Tables, level: Option<string>, row: TrickRow) {
    row.userId in t.users && (Present(level) ==> row.level == level)
  }

  /** The rows the query selects, before ordering. */
  function Selected(t: Tables, level: Option<string>): (r: seq<TrickRow>)
    ensures forall x :: x in r <==> x in t.tricks && Listed(t, level, x)
  {
    var rows := Joined(t.users, t.tricks);
    if Present(level) then AtLevel(rows, level.value) else rows
  }

  function ByTime(row: TrickRow): int {
    row.createdAt
  }

  function ListTricks(t: Tables, level: Option<string>): Result<seq<TrickView>> {
    DecodeAll(t, Sorting.SortDesc(Selected(t, level), ByTime))
  }

  /** Newest first. */
  lemma ListTricksNewestFirst(t: Tables, level: Option<string>)
    requires ListTricks(t, level).Ok?
    ensures var views := ListTricks(t, level).value;
      forall i, j :: 0 <= i < j < |views| ==> views[i].createdAt >= views[j].createdAt
  {
    var sorted := Sorting.SortDesc(Selected(t, level), ByTime);
    var views := ListTricks(t, level).value;
    forall i, j | 0 <= i < j < |views| ensures views[i].createdAt >= views[j].createdAt {
      assert ByTime(sorted[i]) >= ByTime(sorted[j]);
    }
  }

  /** Only selected tricks are listed, each with its decoded hashtags. */
  lemma ListTricksOnlySelected(t: Tables, level: Option<string>, v: TrickView)
    requires ListTricks(t, level).Ok? && v in ListTricks(t, level).value
    ensures exists row :: (row in t.tricks && Listed(t, level, row) && Hashtags(row).Some?
      && v == ViewOf(t, row, Hashtags(row).value))
  {
    var selected := Selected(t, level);
    var sorted := Sorting.SortDesc(selected, ByTime);
    var views := ListTricks(t, level).value;
    var i :| 0 <= i < |views| && views[i] == v;
    var row := sorted[i];
    assert row in multiset(selected);
    assert row in selected;
    assert Hashtags(row).Some? && v == ViewOf(t, row, Hashtags(row).value);
  }

  /** Every selected trick is listed. */
  lemma ListTricksAllSelected(t: Tables, level: Option<string>, row: TrickRow)
    requires ListTricks(t, level).Ok?
    requires row in t.tricks && Listed(t, level, row)
    ensures Hashtags(row).Some? && ViewOf(t, row, Hashtags(row).value) in ListTricks(t, level).value
  {
    var selected := Selected(t, level);
    var sorted := Sorting.SortDesc(selected, ByTime);
    assert row in multiset(sorted);
    var i :| 0 <= i < |sorted| && sorted[i] == row;
    assert ListTricks(t, level).value[i] == ViewOf(t, row, Hashtags(row).value);
  }

  // ---------------------------------------------------------------------------
  // POST /

  /** The row inserted for a post; `created_at` is the insertion time `now`. */
  function NewTrick(t: Tables, userId: int, title: string, description: Option<string>, videoUrl: Option<string>,
                    level: Option<string>, hashtags: Option<seq<string>>, now: int): TrickRow {
    TrickRow(t.nextTrickId, userId, title, description, videoUrl, level, Some(Encode(hashtags.GetOr([]))), now)
  }

  /** A missing title breaks the NOT NULL constraint and nothing is inserted. The
      re-read row's hashtags always parse, since the server wrote them. */
  function CreateTrick(t: Tables, header: Option<string>, verify: Verifier, title: Option<string>,
                       description: Option<string>, videoUrl: Option<string>, level: Option<string>,
                       hashtags: Option<seq<string>>, now: int): (r: Outcome<TrickView>)
    ensures r.reply.Err? ==> r.tables == t
    ensures Run(header, verify, t.users, [BlockBanned]).Err? ==>
      r == Outcome(t, Err(Run(header, verify, t.users, [BlockBanned]).error))
    ensures Run(header, verify, t.users, [BlockBanned]).Ok? ==> (r.reply.Ok? <==> title.Some?)
    ensures Run(header, verify, t.users, [BlockBanned]).Ok? && title.None? ==> r == Outcome(t, Err(ServerError()))
  {
    match Run(header, verify, t.users, [BlockBanned])
    case Err(e) => Outcome(t, Err(e))
    case Ok(u) =>
      if title.None? then Outcome(t, Err(ServerError()))
      else
        var row := NewTrick(t, u.id, title.value, description, videoUrl, level, hashtags, now);
        var after := t.(tricks := t.tricks + [row], nextTrickId := t.nextTrickId + 1);
        ReadWrittenColumn(hashtags.GetOr([]));
        Outcome(after, Ok(ViewOf(after, row, Hashtags(row).value)))
  }

  method PostTrick(db: Database, header: Option<string>, verify: Verifier, title: Option<string>,
                   description: Option<string>, videoUrl: Option<string>, level: Option<string>,
                   hashtags: Option<seq<string>>, now: int) returns (reply: Result<TrickView>)
    requires db.Valid()
    modifies db
    ensures db.Valid()
    ensures Outcome(db.Snapshot(), reply) == CreateTrick(old(db.Snapshot()), header, verify, title, description, videoUrl, level, hashtags, now)
  {
    var access := Run(header, verify, db.users, [BlockBanned]);
    if access.Err? {
      return Err(access.error);
    }
    if title.None? {
      return Err(ServerError());
    }
    var row := NewTrick(db.Snapshot(), access.value.id, title.value, description, videoUrl, level, hashtags, now);
    ReadWrittenColumn(hashtags.GetOr([]));
    var id := db.InsertTrick(row);
    reply := Ok(ViewOf(db.Snapshot(), row, Hashtags(row).value));
  }

  /** A posted trick belongs to the caller, is appended under a fresh id, and its
      hashtags read back as the submitted list (or [] when none was sent). */
  lemma CreatedTrickRoundTrip(t: Tables, header: Option<string>, verify: Verifier, title: string,
                              description: Option<string>, videoUrl: Option<string>, level: Option<string>,
                              hashtags: Option<seq<string>>, now: int)
    requires WellFormed(t)
    requires Run(header, verify, t.users, [BlockBanned]).Ok?
    ensures var r := CreateTrick(t, header, verify, Some(title), description, videoUrl, level, hashtags, now);
      && r.reply.Ok?
      && r.reply.value.userId == Run(header, verify, t.users, [BlockBanned]).value.id
      && r.reply.value.hashtags == hashtags.GetOr([])
      && r.reply.value.id == t.nextTrickId && !HasTrick(t.tricks, r.reply.value.id)
      && r.tables == t.(tricks := t.tricks + [NewTrick(t, r.reply.value.userId, title, description, videoUrl, level, hashtags, now)],
                        nextTrickId := t.nextTrickId + 1)
      && WellFormed(r.tables)
  {
    ReadWrittenColumn(hashtags.GetOr([]));
  }

  /** A caller whose row is banned is refused with BANNED before anything is written,
      even with a token issued before the ban. */
  lemma BannedCannotPost(t: Tables, header: Option<string>, verify: Verifier, title: Option<string>,
                         description: Option<string>, videoUrl: Option<string>, level: Option<string>,
                         hashtags: Option<seq<string>>, now: int)
    requires Authenticate(header, verify, t.users).Ok?
    requires t.users[Authenticate(header, verify, t.users).value.id].banned != 0
    ensures CreateTrick(t, header, verify, title, description, videoUrl, level, hashtags, now)
      == Outcome(t, Err(StageError(BlockBanned)))
  {
  }

  /** Posting a trick keeps each user's profile row in place. */
  lemma CreateTrickKeepsConsistent(t: Tables, header: Option<string>, verify: Verifier, title: Option<string>,
                                   description: Option<string>, videoUrl: Option<string>, level: Option<string>,
                                   hashtags: Option<seq<string>>, now: int)
    requires Consistent(t)
    ensures Consistent(CreateTrick(t, header, verify, title, description, videoUrl, level, hashtags, now).tables)
  {
    if Run(header, verify, t.users, [BlockBanned]).Ok? && title.Some? {
      CreatedTrickRoundTrip(t, header, verify, title.value, description, videoUrl, level, hashtags, now);
    }
  }
}
