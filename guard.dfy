/** The Express middleware of middleware/auth.js: `authenticate`, which turns the
    Authorization header into the caller's identity read from the `users` table, and the
    `requireAdmin` and `blockBanned` gates placed after it. */
module Guard {
  import opened Common
  import opened Db

  /** The payload of a verified JSON Web Token. Only `id` is used by `authenticate`. */
  datatype Claims = Claims(id: Option<int>, email: Option<string>, role: Option<string>, isAdmin: Option<bool>)

  /** `req.user`: the row's flags turned into booleans. */
  datatype Identity = Identity(id: int, email: string, role: string, isAdmin: bool, banned: bool)

  datatype Stage = RequireAdmin | BlockBanned

  /** The token verifier (signature and expiry checks with the server secret). */
  type Verifier = string -> Option<Claims>

  /** `header.split(" ")[1]` when it is truthy. */
  function BearerToken(header: string): (r: Option<string>)
    ensures r.Some? ==> r.value != [] && ' ' !in r.value
  {
    var parts := Split(header, ' ');
    if |parts| >= 2 && parts[1] != [] then Some(parts[1]) else None
  }

  /** The client sends `Bearer <token>`; the token is what the middleware reads back. */
  lemma BearerTokenOf(scheme: string, token: string, rest: string)
    requires ' ' !in scheme && ' ' !in token && token != []
    ensures BearerToken(scheme + [' '] + token) == Some(token)
    ensures BearerToken(scheme + [' '] + token + [' '] + rest) == Some(token)
  {
    SplitAtSeparator(scheme, token, ' ');
    SplitWithoutSeparator(token, ' ');
    assert scheme + [' '] + token + [' '] + rest == scheme + [' '] + (token + [' '] + rest);
    SplitAtSeparator(scheme, token + [' '] + rest, ' ');
    SplitAtSeparator(token, rest, ' ');
  }

  /** A header with no space carries no token ("Token missing"). */
  lemma NoSpaceNoToken(header: string)
    requires ' ' !in header
    ensures BearerToken(header) == None
  {
    SplitWithoutSeparator(header, ' ');
  }

  function IdentityOf(id: int, row: UserRow): Identity {
    Identity(id, row.email, row.role, row.isAdmin != 0, row.banned != 0)
  }

  /** The token verified and its `id` claim is `id`. */
  predicate Names(claims: Option<Claims>, id: int) {
    claims.Some? && claims.value.id == Some(id)
  }

  function Unauthorized(message: string): HttpError {
    HttpError(401, None, message)
  }

  /** `authenticate`: every failure is a 401 without a code; on success the identity is
      the current row of the user named by the token's `id` claim. */
  function Authenticate(header: Option<string>, verify: Verifier, users: map<int, UserRow>): (r: Result<Identity>)
    ensures r.Err? ==> r.error.status == 401 && r.error.code == None
    ensures r.Ok? ==> r.value.id in users && r.value == IdentityOf(r.value.id, users[r.value.id])
    ensures r.Ok? ==> (header.Some? && BearerToken(header.value).Some?
      && Names(verify(BearerToken(header.value).value), r.value.id))
    ensures forall id ::
      (Present(header) && BearerToken(header.value).Some?
       && Names(verify(BearerToken(header.value).value), id) && id in users) ==>
        r == Ok(IdentityOf(id, users[id]))
    ensures !Present(header) ==> r == Err(Unauthorized("Authorization header missing"))
    ensures Present(header) && BearerToken(header.value).None? ==> r == Err(Unauthorized("Token missing"))
    ensures Present(header) && BearerToken(header.value).Some? && verify(BearerToken(header.value).value).None? ==>
      r == Err(Unauthorized("Invalid or expired token"))
    ensures Present(header) && BearerToken(header.value).Some? && verify(BearerToken(header.value).value).Some? ==>
      var claims := verify(BearerToken(header.value).value).value;
      (claims.id.None? || claims.id.value !in users) ==> r == Err(Unauthorized("User not found"))
  {
    if !Present(header) then Err(Unauthorized("Authorization header missing"))
    else match BearerToken(header.value)
      case None => Err(Unauthorized("Token missing"))
      case Some(token) =>
        match verify(token)
        case None => Err(Unauthorized("Invalid or expired token"))
        case Some(claims) =>
          if claims.id.Some? && claims.id.value in users
          then Ok(IdentityOf(claims.id.value, users[claims.id.value]))
          else Err(Unauthorized("User not found"))
  }

  predicate Passes(u: Identity, stage: Stage) {
    match stage
    case RequireAdmin => u.isAdmin
    case BlockBanned => !u.banned
  }

  function StageError(stage: Stage): HttpError {
    match stage
    case RequireAdmin => HttpError(403, Some("NOT_ADMIN"), "Forbidden: Admin access required")
    case BlockBanned => HttpError(403, Some("BANNED"), "Your account is banned")
  }

  /** The gates after `authenticate`, in route order: the first that fails answers. */
  function Gate(u: Identity, stages: seq<Stage>): (r: Result<Identity>)
    ensures r.Ok? <==> forall i :: 0 <= i < |stages| ==> Passes(u, stages[i])
    ensures r.Ok? ==> r.value == u
    decreases |stages|
  {
    if stages == [] then Ok(u)
    else if !Passes(u, stages[0]) then Err(StageError(stages[0]))
    else
      var r := Gate(u, stages[1..]);
      assert forall i :: 1 <= i < |stages| ==> stages[i] == stages[1..][i - 1];
      r
  }

  /** A refusal is the error of the first gate that fails. */
  lemma {:induction false} GateFirstFailure(u: Identity, stages: seq<Stage>)
    requires Gate(u, stages).Err?
    ensures exists i :: (0 <= i < |stages| && !Passes(u, stages[i])
      && Gate(u, stages).error == StageError(stages[i]) && forall j :: 0 <= j < i ==> Passes(u, stages[j]))
    decreases |stages|
  {
    if Passes(u, stages[0]) {
      GateFirstFailure(u, stages[1..]);
      var i :| 0 <= i < |stages| - 1 && !Passes(u, stages[1..][i])
        && Gate(u, stages[1..]).error == StageError(stages[1..][i])
        && forall j :: 0 <= j < i ==> Passes(u, stages[1..][j]);
      assert forall j :: 1 <= j < i + 1 ==> stages[j] == stages[1..][j - 1];
      assert stages[i + 1] == stages[1..][i];
    } else {
      assert !Passes(u, stages[0]);
    }
  }

  /** A route's middleware chain: `authenticate` and then its gates. */
  function Run(header: Option<string>, verify: Verifier, users: map<int, UserRow>, stages: seq<Stage>): Result<Identity> {
    match Authenticate(header, verify, users)
    case Err(e) => Err(e)
    case Ok(u) => Gate(u, stages)
  }

  /** The claims other than `id` play no part: a token cannot grant itself a role. */
  lemma OnlyIdClaimCounts(header: Option<string>, v1: Verifier, v2: Verifier, users: map<int, UserRow>)
    requires forall token :: v1(token).Some? <==> v2(token).Some?
    requires forall token :: v1(token).Some? ==> v1(token).value.id == v2(token).value.id
    ensures Authenticate(header, v1, users) == Authenticate(header, v2, users)
  {
  }

  /** A ban recorded in the table stops the user at `blockBanned` on the next request,
      even with a token issued before the ban. */
  lemma BannedRowIsBlocked(header: Option<string>, verify: Verifier, users: map<int, UserRow>, stages: seq<Stage>)
    requires BlockBanned in stages
    requires Run(header, verify, users, []).Ok?
    requires users[Run(header, verify, users, []).value.id].banned != 0
    ensures Run(header, verify, users, stages).Err?
    ensures Run(header, verify, users, stages).error.status == 403
  {
    var u := Run(header, verify, users, []).value;
    var i :| 0 <= i < |stages| && stages[i] == BlockBanned;
    assert !Passes(u, stages[i]);
    GateFirstFailure(u, stages);
  }

  /** A user whose `is_admin` column is 0 never passes `requireAdmin`, whatever its `role`. */
  lemma NonAdminRowIsRefused(header: Option<string>, verify: Verifier, users: map<int, UserRow>, stages: seq<Stage>)
    requires RequireAdmin in stages
    requires Run(header, verify, users, []).Ok?
    requires users[Run(header, verify, users, []).value.id].isAdmin == 0
    ensures Run(header, verify, users, stages).Err?
    ensures Run(header, verify, users, stages).error.status == 403
  {
    var u := Run(header, verify, users, []).value;
    var i :| 0 <= i < |stages| && stages[i] == RequireAdmin;
    assert !Passes(u, stages[i]);
    GateFirstFailure(u, stages);
  }

  /** A chain passes exactly when `authenticate` succeeds and every gate passes. */
  lemma RunAllows(header: Option<string>, verify: Verifier, users: map<int, UserRow>, stages: seq<Stage>)
    ensures Run(header, verify, users, stages).Ok? <==>
      Authenticate(header, verify, users).Ok?
      && forall i :: 0 <= i < |stages| ==> Passes(Authenticate(header, verify, users).value, stages[i])
  {
  }
}
