# BmxHive in Dafny

BmxHive is a BMX riders' community site. An Express server keeps users, rider profiles and
posted tricks in SQLite. A React client holds the signed-in session in localStorage. It shows
a profile page with points, a rating and a leaderboard position. It also shows a trick feed
searchable by hashtag, an admin dashboard for banning users and deleting posts, and local
registration and login pages.

This project models the server's request handling and the client's state updates, and proves
what they promise:

- `Db` holds the three tables as a value (`Tables`) and as a `Database` class whose fields the
  routes update. `initDB` creates and migrates the tables, backfills profiles and bootstraps the
  admin account, and is proved idempotent.
- `Guard` is the middleware chain `authenticate`, `requireAdmin` and `blockBanned`.
- `AuthRoutes`, `ProfileRoutes`, `TrickRoutes` and `AdminRoutes` each model one routes file.
  Every mutating route is a pure transition on `Tables`, with a method on `Database` proved
  equal to it.
- `Json` is the JSON text of a list of strings, as stored in `hashtags` and `trick_videos`. It
  is proved to round-trip.
- `Sorting` is the descending sort behind `ORDER BY … DESC` and the leaderboard.
- `Storage` models localStorage: JSON objects as association lists in key order.
- `ProfilePage`, `AdminPage`, `ForumPage`, `RegisterPage` and `LoginPage` model the client
  pages. `AuthContext` models the session provider.

The pages and the session that change state in place are classes with `modifies` clauses.

Some things the code does are outside Dafny, so they are parameters:

- verifying a JSON Web Token: `verify`;
- `bcrypt.compare`: `matches`, and the output of `bcrypt.hash`: `hash`;
- `Date.now()`: `now`;
- `JSON.parse` of text that the model does not construct: `parse`;
- the outcome of an HTTP request made by a page: `requestOk`, `reply` or `refetched`;
- the file a user picked: `file`.

## Model

| member | source | states |
|---|---|---|
| Guard.BearerToken | middleware/auth.js:14-17 | the token read from the header is the non-empty, space-free second word |
| Guard.BearerTokenOf | middleware/auth.js:14-17 | `<scheme> <token>` (with or without a trailing word) yields exactly that token |
| Guard.NoSpaceNoToken | middleware/auth.js:14-17 | a header without a space gives no token |
| Guard.Authenticate | middleware/auth.js:7-49 | succeeds iff the header carries a token that verifies with an `id` claim naming an existing user, and then gives that user's current row; otherwise a 401 saying "Authorization header missing", "Token missing", "Invalid or expired token" or "User not found", in the order the checks run |
| Guard.Gate | middleware/auth.js:52-71 | the gates pass exactly when every listed gate passes, and then the identity goes through unchanged |
| Guard.GateFirstFailure | middleware/auth.js:52-71 | a refusal is the error of the first failing gate, all earlier gates having passed |
| Guard.OnlyIdClaimCounts | middleware/auth.js:20-43 | two verifiers that accept the same tokens with the same `id` give the same result: other claims cannot grant a role |
| Guard.BannedRowIsBlocked | middleware/auth.js:63-71 | a user whose row is banned is refused with 403 by any chain containing `blockBanned` |
| Guard.NonAdminRowIsRefused | middleware/auth.js:52-60 | a user whose `is_admin` is 0 is refused with 403 by `requireAdmin`, whatever the role |
| Guard.RunAllows | middleware/auth.js:7-71 | a middleware chain passes iff authentication succeeds and every gate passes |
| AuthRoutes.MeAfterAuthenticate | routes/auth.js:10-32 | `/me` succeeds exactly when authentication does (its 404 cannot happen) and returns the caller's row |
| AuthRoutes.RoleOrUser | routes/auth.js:55-58 | the stored role is never empty |
| AuthRoutes.Register | routes/auth.js:34-81 | a missing email or password is "Email and password required", a taken email "Email already registered", both 400 with no change; a non-empty email and password with a fresh email succeed, adding the user and its profile under the next id with the requested role or "user" |
| AuthRoutes.PostRegister | routes/auth.js:34-81 | the route's effect on the database and its reply are those of `Register` |
| AuthRoutes.RegisterRefusesTakenEmail | routes/auth.js:44-49 | a taken email is refused and nothing is inserted |
| AuthRoutes.RegisterAddsOneUser | routes/auth.js:55-64 | for every non-empty email and password with a fresh email, registration succeeds and adds exactly one non-admin user and its profile, tricks unchanged, every user still having a profile |
| AuthRoutes.Login | routes/auth.js:84-130 | a missing or empty email or password is 400 "Email and password required"; with both given every other refusal is "Invalid credentials"; success needs both and names the stored user with that email whose hash matches |
| AuthRoutes.LoginHidesWhichCheckFailed | routes/auth.js:97-105 | an unknown email and a wrong password get the same reply |
| AuthRoutes.LoginRole | routes/auth.js:102-122 | login succeeds iff the password matches, and reports "admin" iff `is_admin` is non-zero |
| AuthRoutes.RegisterThenLogin | routes/auth.js:34-130 | every non-empty email and password with a fresh email registers, and the new account then logs in with its password as "user" with its fresh profile, whatever role it asked for |
| AuthRoutes.AdminLogin | routes/auth.js:133-180 | a missing or empty email or password is 400 "Email and password required"; with both given every other refusal is "Invalid admin credentials"; success only for a row with the requested email and `is_admin` 1 whose hash matches, with role "admin" and the admin claim |
| AuthRoutes.AdminLoginSucceeds | routes/auth.js:143-154 | with distinct emails, the admin login succeeds exactly when the account with that email has `is_admin` 1 and a matching hash, and it signs in that account |
| AuthRoutes.AdminLoginNeedsAccount | routes/auth.js:143-149 | an email with no account never opens the admin login, and with a password given the refusal is "Invalid admin credentials" |
| AuthRoutes.AdminLoginNeedsFlag | routes/auth.js:143-154 | an account whose `is_admin` is not 1 cannot use the admin login, and with a password given the refusal is "Invalid admin credentials" |
| AuthRoutes.BootstrapAdminCanLogIn | db.js:120-142 | after `initDB` on a store without the admin account, admin@gmail.com logs in with "admin" |
| ProfileRoutes.VideoListOfWritten | routes/profile.js:28-36 | a video list written by the server reads back unchanged; NULL and empty read as [] |
| ProfileRoutes.JoinedProfile | routes/profile.js:15-25 | the joined row exists iff the user and the profile do, carrying the user's email and the decoded videos |
| ProfileRoutes.WithProfile | routes/profile.js:53-60 | an `UPDATE profiles` changes neither the users, the tricks nor which profiles exist |
| ProfileRoutes.GetMe | routes/profile.js:11-45 | an authentication failure is passed on; otherwise the reply is the caller's joined profile, or 404 "Profile not found" when there is none |
| ProfileRoutes.GetMeFindsProfile | routes/profile.js:11-45 | in a consistent store, reading one's profile fails only when authentication does |
| ProfileRoutes.EditProfile | routes/profile.js:48-89 | a guard's refusal is passed on with no change; behind the guards the edit succeeds iff the caller has a profile, and a failure changes nothing |
| ProfileRoutes.PutMe | routes/profile.js:48-89 | the route's effect and reply are those of the pure edit |
| ProfileRoutes.EditTouchesOnlyNamedFields | routes/profile.js:50-60 | for an unbanned caller with a profile the edit succeeds, writes the caller's name, bio and favourite tricks and nothing else |
| ProfileRoutes.SqlAdd | routes/profile.js:97-100 | SQL addition is NULL when either side is NULL, else the exact sum |
| ProfileRoutes.AddPoints | routes/profile.js:92-129 | a guard's refusal is passed on with no change; behind the guards the increment succeeds iff the caller has a profile, and a failure changes nothing |
| ProfileRoutes.PostAddPoints | routes/profile.js:92-129 | the route's effect and reply are those of the pure add |
| ProfileRoutes.AddPointsAddsDelta | routes/profile.js:97-100 | for an unbanned caller with a profile the increment succeeds, the caller's points grow by exactly the delta, without bound, and nothing else changes |
| ProfileRoutes.AddPointsTwice | routes/profile.js:97-100 | for an unbanned caller with a profile two increments both succeed and add up to their sum |
| ProfileRoutes.UploadPathShape | routes/profile.js:139-150 | the stored URL is "/uploads/<kind>/<id>_<now>_<name>" on either path separator, with no backslash left |
| ProfileRoutes.Avatar | routes/profile.js:132-168 | a refusal other than a 500 changes nothing; a guard's refusal is passed on, and with the guards passed a missing file is 400 "No avatar uploaded" |
| ProfileRoutes.PostAvatar | routes/profile.js:132-168 | the route's effect and reply are those of `Avatar` |
| ProfileRoutes.AvatarStoresPath | routes/profile.js:148-160 | the avatar URL is stored even when the reply is a 500 over malformed stored videos; nothing else changes |
| ProfileRoutes.Video | routes/profile.js:170-215 | a refusal changes nothing; a guard's refusal is passed on, and with the guards passed a missing file is 400 "No video uploaded" and an upload succeeds iff the caller has a profile |
| ProfileRoutes.PostVideo | routes/profile.js:170-215 | the route's effect and reply are those of `Video` |
| ProfileRoutes.VideoAppends | routes/profile.js:186-207 | for an unbanned caller with a profile the upload succeeds, the new path goes last after the earlier list (empty if malformed), and the column reads back as the reply's list |
| ProfileRoutes.BannedCallerChangesNothing | routes/profile.js:48-215 | a banned caller gets 403 and changes nothing through any mutating profile route |
| TrickRoutes.DecodeAll | routes/trick.js:33-36 | the listing succeeds iff every row's hashtags parse, and then has one view per row in order |
| TrickRoutes.AtLevel | routes/trick.js:24-27 | the level filter keeps exactly the rows at that level |
| TrickRoutes.Selected | routes/trick.js:13-27 | the query selects exactly the tricks whose author exists and whose level matches when one is given |
| TrickRoutes.ListTricksNewestFirst | routes/trick.js:29 | the listing is ordered by `created_at`, newest first |
| TrickRoutes.ListTricksOnlySelected | routes/trick.js:13-36 | every listed trick is a selected row with its decoded hashtags |
| TrickRoutes.ListTricksAllSelected | routes/trick.js:13-36 | every selected row is listed |
| TrickRoutes.CreateTrick | routes/trick.js:45-88 | a refusal of `authenticate` or `blockBanned` is passed on with no change; behind the guards the post succeeds iff a title is given, and a missing title is a 500 with no change |
| TrickRoutes.BannedCannotPost | routes/trick.js:45 | a caller whose row is banned gets the BANNED 403 and nothing is written, whatever its token says |
| TrickRoutes.PostTrick | routes/trick.js:45-88 | the route's effect and reply are those of `CreateTrick` |
| TrickRoutes.CreatedTrickRoundTrip | routes/trick.js:50-81 | a post appends one trick of the caller under a fresh id, advances the id counter and changes nothing else, and its hashtags read back as sent (or []) |
| AdminRoutes.PostViews | routes/admin.js:14-28 | one view per joined row, in order |
| AdminRoutes.ListPosts | routes/admin.js:9-34 | a refusal of `authenticate` or `requireAdmin` is passed on, and the listing succeeds iff the caller passes both |
| AdminRoutes.ListPostsContents | routes/admin.js:9-34 | posts are newest first, one per trick whose author exists, and only such tricks |
| AdminRoutes.EveryTrickPosted | routes/admin.js:14-28 | every trick whose author exists has its post view listed |
| AdminRoutes.OnlyTricksPosted | routes/admin.js:14-28 | every listed post is the view of such a trick |
| AdminRoutes.DeletePostHandler | routes/admin.js:36-61 | the delete succeeds iff the trick exists; a 404 changes nothing |
| AdminRoutes.DeletePost | routes/admin.js:36-61 | a guard's refusal is passed on with no change; behind the admin guard the delete succeeds iff the trick exists; a failure changes nothing |
| AdminRoutes.DeletePostRoute | routes/admin.js:36-61 | the route's effect and reply are those of the pure delete |
| AdminRoutes.DeleteRemovesExactlyThePost | routes/admin.js:42-54 | exactly the rows with that id go, users and profiles stay, and deleting again is a 404 |
| AdminRoutes.UserViewOf | routes/admin.js:67-92 | a listed user carries its own id, email and role, and its ban flag as a boolean |
| AdminRoutes.ViewsOf | routes/admin.js:82-92 | one view per id, in order |
| AdminRoutes.UserListing | routes/admin.js:67-92 | the listing has every user once, ordered by id, largest first |
| AdminRoutes.ListUsers | routes/admin.js:63-98 | a refusal of `authenticate` or `requireAdmin` is passed on, and the listing succeeds iff the caller passes both |
| AdminRoutes.ListedUserFields | routes/admin.js:67-92 | name, bio, points and avatar follow the COALESCE order of the query with the "Unnamed User", "" and 0 defaults; email and role are the user's; the ban flag is the stored one as a boolean |
| AdminRoutes.Ban | routes/admin.js:100-155 | a guard's refusal is passed on with no change; behind the admin guard a ban succeeds iff the target exists and is not the caller; a failure changes nothing |
| AdminRoutes.BanHandler | routes/admin.js:100-155 | a ban succeeds iff the target exists and is not the caller; refusals (400 self, 404 missing) change nothing |
| AdminRoutes.PutBan | routes/admin.js:100-155 | the two UPDATEs in sequence have the effect and reply of the pure ban |
| AdminRoutes.BanMirrorsFlag | routes/admin.js:123-150 | users and profiles both get `banned ? 1 : 0`, the reply reports it, nothing else changes |
| AdminRoutes.NonAdminChangesNothing | routes/admin.js:9-209 | a caller whose `is_admin` is 0 gets the NOT_ADMIN 403 from all five moderation routes, and nothing changes |
| AdminRoutes.NoSelfBan | routes/admin.js:106-110 | an administrator cannot ban themselves |
| AdminRoutes.BannedUserIsBlocked | routes/admin.js:126-135 | once banned, the target's next request behind `blockBanned` is refused |
| AdminRoutes.AdminProfileHandler | routes/admin.js:158-209 | the update succeeds iff the caller's row exists, else 404 "User not found"; a refusal changes nothing |
| AdminRoutes.UpdateAdminProfile | routes/admin.js:158-209 | a guard's refusal is passed on with no change, and the update succeeds iff the admin guard passes |
| AdminRoutes.PutAdminProfile | routes/admin.js:158-209 | the route's effect and reply are those of the pure update |
| AdminRoutes.AdminProfileTouchesOnlyCaller | routes/admin.js:169-204 | for a caller passing the admin guard the update succeeds; only the caller's name and bio change, and the avatar only when one is given |
| AdminRoutes.DeletePostKeepsConsistent | routes/admin.js:36-61 | deleting a post keeps every user's profile and the store's key constraints |
| AdminRoutes.AdminProfileKeepsConsistent | routes/admin.js:158-209 | the admin's profile edit keeps every user's profile, every email and the key constraints |
| ProfileRoutes.ProfileRoutesKeepConsistent | routes/profile.js:48-215 | the four mutating profile routes keep every user's profile and the key constraints |
| TrickRoutes.CreateTrickKeepsConsistent | routes/trick.js:45-88 | posting a trick keeps every user's profile and the key constraints |
| Db.Joined | routes/admin.js:20-21 | the join keeps exactly the tricks whose author exists |
| Db.Without | routes/admin.js:51-54 | no row with that id remains, every other row does, and no row is added |
| Db.WithoutKeepsDistinct | routes/admin.js:51-54 | deletion keeps trick ids distinct |
| Db.UserByEmail | routes/auth.js:44-49 | a row is found iff the email is taken, and it has that email |
| Db.UserByEmailUnique | db.js:23 | with UNIQUE emails the row found is the only one with the email |
| Db.AddMissingColumnsFrom | db.js:35-48 | the guarded ALTERs over a column list read once add exactly the missing names |
| Db.MigrationSucceeds | db.js:35-82 | with distinct names the migration never fails and adds exactly the missing columns |
| Db.MigrationIdempotent | db.js:35-82 | a second migration adds nothing |
| Db.Backfill | db.js:111-118 | every user without a profile gets one copied from its row; existing profiles stay |
| Db.BackfillComplete | db.js:111-118 | when every user has a profile the backfill changes nothing |
| Db.WithAdminReady | db.js:120-151 | the admin step leaves the admin account with both flags, adding at most one user, with a profile |
| Db.InitializedConsistent | db.js:17-154 | after `initDB` every user has a profile and the admin account holds both flags |
| Db.InitializedIdempotent | db.js:17-154 | running `initDB` twice is the same as once |
| Db.MigratedAgain | db.js:35-118 | migration and backfill over a migrated, consistent store change nothing |
| Db.AdminAgain | db.js:145-151 | the admin step leaves a ready admin account as it is |
| Db.Database.constructor | db.js:10-15 | the opened database holds the given tables |
| Db.Database.CreateTableIfNotExists | db.js:20-33 | a missing table gets its full column list; nothing else changes |
| Db.Database.AlterAddColumn | db.js:42 | ALTER adds exactly one column, to one table |
| Db.Database.AddColumnsIfMissing | db.js:35-48 | the table's columns become the old ones plus the listed names, as `AddMissingColumns` says |
| Db.Database.BackfillProfiles | db.js:111-118 | the profiles become `Backfill` of the old tables |
| Db.Database.EnsureAdmin | db.js:120-151 | the tables become `WithAdmin` of the old ones, with the admin ready |
| Db.Database.InitDB | db.js:17-154 | the tables become `Initialized` of the old ones, consistent and with the admin ready |
| Db.Database.InsertUser | routes/auth.js:55-58 | the new user gets the AUTOINCREMENT id, fresh in users and profiles |
| Db.Database.InsertProfile | routes/auth.js:61-64 | exactly one profile row is added under the user id |
| Db.Database.UpdateUser | routes/admin.js:126-129 | the row with that id changes as given; no row, no change |
| Db.Database.UpdateProfile | routes/profile.js:53-60 | the profile with that user id changes as given; no row, no change |
| Db.Database.DeleteTrick | routes/admin.js:51-54 | the tricks become `Without` the id |
| Db.Database.InsertTrick | routes/trick.js:50-63 | the trick is appended under the AUTOINCREMENT id |
| Json.ParseString | routes/trick.js:35 | reading a string body always consumes input |
| Json.ParseEscaped | routes/trick.js:35-61 | an escaped string followed by its closing quote reads back as itself |
| Json.ParseEncodedItems | routes/trick.js:35-61 | the items of an encoded non-empty list read back as the list |
| Json.DecodeEncode | routes/trick.js:35-61 | `JSON.parse(JSON.stringify(xs))` is xs for every list of strings |
| Json.ReadWrittenColumn | routes/profile.js:191-199 | a column written by the server reads back as the list written |
| Sorting.Insert | routes/trick.js:29 | insertion keeps the order and adds exactly one element |
| Sorting.SortDesc | routes/trick.js:29 | the result is sorted largest key first and is a permutation of the input |
| Sorting.PermutationOfDistinct | src/components/Profile.jsx:70-74 | a permutation of a repetition-free sequence has no repetitions |
| Sorting.Max | routes/admin.js:79 | the maximum of a non-empty id set is in it and bounds it |
| Sorting.Descending | routes/admin.js:79 | `ORDER BY id DESC` lists each id once, strictly decreasing |
| Common.Split | middleware/auth.js:16 | the parts of a split contain no separator |
| Common.JoinSplit | src/components/Forum.jsx:64-67 | joining the parts of a split gives back the text |
| Common.SplitJoin | src/components/Forum.jsx:64-67 | splitting the join of separator-free parts gives back the parts |
| Common.TrimIsTrimmed | src/components/Forum.jsx:64-67 | trimming leaves no leading or trailing JavaScript white space or line terminator |
| Common.TrimOfTrimmed | src/components/Forum.jsx:64-67 | trimmed text is its own trim |
| Common.ToLowerIdempotent | src/components/Forum.jsx:92-96 | lowering twice is lowering once |
| Common.IncludesIff | src/components/Forum.jsx:92-96 | `includes` holds iff the needle occurs at some position |
| Common.ReplaceCharConcat | routes/profile.js:150 | replacing a character distributes over concatenation |
| Common.ReplaceCharAbsent | routes/profile.js:150 | replacing a character that does not occur leaves the text unchanged |
| Storage.Lookup | src/components/Profile.jsx:43 | a key reads a value iff it is a key of the object, and the value is stored under it |
| Storage.Put | src/components/Profile.jsx:68 | assignment adds the key, keeps the order of existing keys, and appends a new key last |
| Storage.PutLookup | src/components/Profile.jsx:68 | after `o[k] = v`, k reads v and every other key reads as before |
| Storage.PutEntries | src/components/Profile.jsx:68 | after assignment every entry is the new one or an old one |
| Storage.PutUnique | src/components/Profile.jsx:68 | assignment never duplicates a key |
| Storage.LocalStore.constructor | src/components/Register.jsx:23 | the store holds the users, profiles and signed-in user as read |
| ProfilePage.RidingLevelMonotone | src/components/Profile.jsx:27-32 | more points never mean a lower tier |
| ProfilePage.Rating | src/components/Profile.jsx:90 | the rating is at most 5, is 5 iff points are 50 or more, and below that is the tens digit |
| ProfilePage.RatingRange | src/components/Profile.jsx:90 | a non-negative score rates 0 to 5 and the rating never drops as points grow |
| ProfilePage.Loaded | src/components/Profile.jsx:42-53 | the page shows the stored entry's fields, or the defaults when there is none |
| ProfilePage.Edited | src/components/Profile.jsx:80-84 | the edit sets the form's three fields and keeps every other field |
| ProfilePage.WithPoints | src/components/Profile.jsx:86-93 | points grow by the delta and only points and rating change |
| ProfilePage.AddPointsRating | src/components/Profile.jsx:86-93 | after adding points the rating is 0 to 5 and matches the total |
| ProfilePage.WithAvatar | src/components/Profile.jsx:100-109 | only the avatar changes, to the uploaded data |
| ProfilePage.WithVideo | src/components/Profile.jsx:111-120 | the video goes last and nothing else changes |
| ProfilePage.Ranking | src/components/Profile.jsx:70 | the leaderboard lists every stored profile once, by points, largest first |
| ProfilePage.Placed | src/components/Profile.jsx:67-68 | each stored key is paired with the place of its object |
| ProfilePage.PlaceOf | src/components/Profile.jsx:67-68 | a key has a place iff it is stored, and that place holds the key |
| ProfilePage.PlaceOfKey | src/components/Profile.jsx:67-68 | with distinct keys, a key names exactly its own place |
| ProfilePage.LastFiled | src/components/Profile.jsx:71-74 | the object found was filed under the key by the `forEach` so far |
| ProfilePage.LastFiledIsLatest | src/components/Profile.jsx:71-74 | of the objects filed under one key, the one the key keeps is ranked last |
| ProfilePage.HolderAfter | src/components/Profile.jsx:71-74 | a key refers to one of the stored objects |
| ProfilePage.Rank | src/components/Profile.jsx:70-73 | each object's position is between 1 and the number of objects |
| ProfilePage.UserRank | src/components/Profile.jsx:68-73 | the position given to the user's own object is between 1 and the number of objects |
| ProfilePage.Renumber | src/components/Profile.jsx:71-74 | the m-th ranked profile gets position m + 1, and each key then refers to the last object filed under it, or else to its own object |
| ProfilePage.RenumberStep | src/components/Profile.jsx:71-74 | one iteration of the `forEach` keeps the renumbering invariant |
| ProfilePage.HolderStep | src/components/Profile.jsx:73 | filing one object points its filing key at it and leaves every other key as it was |
| ProfilePage.SavedKeys | src/components/Profile.jsx:71-76 | after the `forEach`, every key reads the object it refers to with that object's position |
| ProfilePage.LookupResolve | src/components/Profile.jsx:73-76 | reading a key of the saved object gives the object the key refers to, with that object's position |
| ProfilePage.RankedPositions | src/components/Profile.jsx:70-74 | positions run from 1 to n, are distinct, and more points give a smaller position |
| ProfilePage.ResolvedPositions | src/components/Profile.jsx:70-76 | read back through the keys, the saved profiles form a leaderboard |
| ProfilePage.Saved | src/components/Profile.jsx:66-76 | ranking and renumbering give what `saveProfile` promises, key by key |
| ProfilePage.SaveProfile | src/components/Profile.jsx:66-76 | the keys are the old ones, the email and every filing key; each key holds the object it refers to with that object's position; the positions form a leaderboard; the rank returned is the user's object's position |
| ProfilePage.LatestFilerHolds | src/components/Profile.jsx:71-74 | an object's filing key holds an object with that filing key ranked no earlier |
| ProfilePage.OnlyFilerHolds | src/components/Profile.jsx:71-74 | an object alone under its filing key is saved there with its position |
| ProfilePage.KeptUnderOwnKey | src/components/Profile.jsx:67-74 | an object whose key nothing files under keeps that key, with its position |
| ProfilePage.SelfFiledKeepsEveryone | src/components/Profile.jsx:67-74 | when every profile files under its own key, no key is added and every profile is kept with its position |
| ProfilePage.UserPlace | src/components/Profile.jsx:67-68 | the email names the place of the update among the objects being ranked |
| ProfilePage.SavedUserEntry | src/components/Profile.jsx:67-77 | unless another profile files under the email, the email holds the update with the position it was given, which is what the page shows |
| ProfilePage.Page.constructor | src/components/Profile.jsx:34-60 | the page shows the loaded profile of the signed-in user |
| ProfilePage.Page.Save | src/components/Profile.jsx:66-78 | the shown profile becomes the update with the position written into it, and storage holds what `saveProfile` promises |
| ProfilePage.Page.HandleSave | src/components/Profile.jsx:80-84 | the shown profile becomes the edit with its new position, and the edit is saved |
| ProfilePage.Page.AddPoints | src/components/Profile.jsx:86-93 | the shown profile gains the points and its new position, and is saved |
| ProfilePage.Page.UploadAvatar | src/components/Profile.jsx:100-109 | no file, no change; otherwise the avatar is set, saved and shown with its new position |
| ProfilePage.Page.UploadVideo | src/components/Profile.jsx:111-120 | no file, no change; otherwise the video is appended, saved and shown with its new position |
| AdminPage.AdminGate | src/components/Admin.jsx:23-56 | the dashboard opens iff both keys are present, the user text parses, and the parsed user is an admin |
| AdminPage.RiderLevel | src/components/Admin.jsx:168-173 | the dashboard's tier agrees with the profile page's for every score, a missing score counting as 0 |
| AdminPage.WithBanned | src/components/Admin.jsx:108-112 | rows with the id show the new flag and keep every other field; other rows are unchanged |
| AdminPage.FlipRollback | src/components/Admin.jsx:106-131 | the rollback after a failed request restores the list |
| AdminPage.FlipShows | src/components/Admin.jsx:108-112 | after the flip the target rows show the new value |
| AdminPage.Removed | src/components/Admin.jsx:91 | the filter keeps exactly the posts with another id, and is the identity when none matches |
| AdminPage.RemovedConcat | src/components/Admin.jsx:91 | the filter works post by post, so it keeps the order and repeats of the posts it keeps |
| AdminPage.RemovedIdempotent | src/components/Admin.jsx:91 | removing a post twice is removing it once |
| AdminPage.Dashboard.constructor | src/components/Admin.jsx:23-56 | the dashboard holds the admin and both lists |
| AdminPage.Dashboard.ToggleBanUser | src/components/Admin.jsx:106-131 | never on oneself; the flip is kept on success and rolled back on failure |
| AdminPage.Dashboard.DeletePost | src/components/Admin.jsx:88-103 | nothing unless confirmed; the post leaves at once, and on failure the list is fetched again |
| AuthContext.Stringified | src/context/AuthContext.jsx:48-49 | storing an object drops exactly its undefined keys |
| AuthContext.Normalized | src/context/AuthContext.jsx:20-23 | `banned` becomes a boolean of the same truth and other fields stay |
| AuthContext.FullUser | src/context/AuthContext.jsx:36-53 | the login object has six keys, a truthy role, non-undefined name and avatar, and a boolean `banned` |
| AuthContext.RestoredSession | src/context/AuthContext.jsx:11-33 | a session is restored iff both keys are present and the user text parses, always with a boolean `banned` |
| AuthContext.LoginThenRestore | src/context/AuthContext.jsx:11-53 | what login stores is restored on the next visit, minus undefined fields |
| AuthContext.AuthSession.constructor | src/context/AuthContext.jsx:5-8 | the provider starts with no session and not ready |
| AuthContext.AuthSession.ClearAuth | src/context/AuthContext.jsx:100-105 | both keys and both state values are cleared |
| AuthContext.AuthSession.Logout | src/context/AuthContext.jsx:56-65 | logging out clears the session as `clearAuth` does |
| AuthContext.AuthSession.Restore | src/context/AuthContext.jsx:11-33 | the provider is ready, holding the restored session or nothing at all |
| AuthContext.AuthSession.Login | src/context/AuthContext.jsx:36-53 | without both arguments nothing changes; otherwise the full user is stored and becomes the session |
| AuthContext.AuthSession.OnAuthUpdated | src/context/AuthContext.jsx:67-75 | a stored user that parses becomes the session's user; nothing else changes |
| AuthContext.AuthSession.UpdateUser | src/context/AuthContext.jsx:76-86 | null changes nothing; otherwise the normalised user is the session's and stored |
| AuthContext.AuthSession.UpdateBanStatus | src/context/AuthContext.jsx:89-97 | only the user's `banned` changes, to the given truth, in state and storage |
| ForumPage.TrimmedTags | src/components/Forum.jsx:64-67 | the kept tags are trimmed and non-empty |
| ForumPage.TrimmedTagsOfPart | src/components/Forum.jsx:64-67 | one part gives its trim, or nothing when the trim is empty |
| ForumPage.TrimmedTagsConcat | src/components/Forum.jsx:64-67 | the parts are handled one by one in order, so the tags are the non-empty trims of the parts, in order |
| ForumPage.ParseTags | src/components/Forum.jsx:64-67 | parsed tags are trimmed, non-empty and comma-free |
| ForumPage.ParseTagsOfParts | src/components/Forum.jsx:64-67 | parsing comma-joined comma-free parts gives their non-empty trims in order, so "a, b" gives "a" and "b" |
| ForumPage.ParseTagsOfJoined | src/components/Forum.jsx:64-67 | trimmed, non-empty, comma-free tags survive joining with commas and parsing |
| ForumPage.NormalizeHashtags | src/components/Forum.jsx:86-90 | missing or empty gives [], an array is kept, a string is parsed |
| ForumPage.FilteredTricks | src/components/Forum.jsx:92-96 | the feed shows exactly the tricks with a hashtag containing the search, ignoring case |
| ForumPage.FilteredTricksConcat | src/components/Forum.jsx:92-96 | the filter works trick by trick, so the shown tricks keep feed order and repeats |
| ForumPage.NoTagsNeverShown | src/components/Forum.jsx:92-96 | a trick without hashtags is never shown |
| ForumPage.EmptySearchShowsTagged | src/components/Forum.jsx:92-96 | an empty search shows every tagged trick |
| ForumPage.SearchIgnoresCase | src/components/Forum.jsx:92-96 | the search ignores the case of what is typed |
| ForumPage.PieceOfTagShows | src/components/Forum.jsx:92-96 | any piece of a hashtag, in any case, finds the trick |
| ForumPage.Feed.constructor | src/components/Forum.jsx:15-28 | the feed starts with the fetched tricks, an empty form and the form hidden |
| ForumPage.Feed.HandleSubmit | src/components/Forum.jsx:51-84 | banned users are refused and signed-out users sent to log in, both with no change; otherwise the form is sent with its hashtags parsed and the reply goes first in the feed |
| RegisterPage.FindByEmail | src/components/Register.jsx:26 | the user found has that email, and none is found iff no user has it |
| RegisterPage.NewProfile | src/components/Register.jsx:43-57 | the fresh profile has zero points, rating and position, no videos, and role "user" |
| RegisterPage.HandleRegister | src/components/Register.jsx:12-61 | mismatched passwords and taken emails change nothing; otherwise one user is appended and its profile stored, emails staying distinct |
| RegisterPage.RegisteredProfile | src/components/Register.jsx:43-57 | after registering, the email reads the fresh profile and other emails read as before |
| LoginPage.FindUser | src/components/Login.jsx:15-18 | a match has that email and password, and none is found iff no user has both |
| LoginPage.FoundIsByEmail | src/components/Login.jsx:15-18 | with distinct emails a match is the one user with that email |
| LoginPage.RegisteredCanSignIn | src/components/Login.jsx:15-18 | a newly registered account signs in with its credentials |
| LoginPage.HandleLogin | src/components/Login.jsx:11-32 | no match or a banned account is an error with no sign-in; otherwise the match becomes the signed-in user |

## Left out

- JSON: only the escapes `\"` and `\\` are modelled, which covers what `JSON.stringify` writes for strings without control characters. Json.Decode reads only the exact form Json.Encode writes: no white space, only string items, and no other escapes. Valid JSON written by anything but the server therefore reads as malformed, so GET /me then shows no videos and the trick listing answers 500.
- Common.ToLower: maps ASCII letters only, with no Unicode case mapping.
- ProfileRoutes.UploadPathShape: `path.join` normalisation (`..`, repeated separators) is not modelled. The file name is taken as given.
- Ids in route parameters are integers. A non-numeric `:id` (NaN in `Number(...)`) is not modelled.
- Request bodies are typed. Non-string `role`, `hashtags` that are not an array, and fractional `points` are not modelled.
- A NULL `users.role` is not modelled: a role is always a string.
- TrickRoutes.ListTricksNewestFirst: rows with equal `created_at` come back in some order. SQLite leaves their order unspecified. `SortDesc` is stable and keeps table order for ties, but no contract relies on that order.
- The `admin_content` table (db.js:98-109) and routes/tickets.js are not part of this model. No core operation uses them.
- server.js, App.jsx, Admin_Login.jsx, the pages' rendering, navigation and alerts, and the "routes(for future backend)" copies are not part of this model.
- AdminRoutes.PutBan: the two UPDATEs run one after the other, with no other request between them. The model has no interleaving of requests.
- Uploads: moving the file to disk and `FileReader` are not modelled. A picked file is its name, or its data URL on the client.
- ProfilePage.Rating: a score is an integer. Fractional points from the client are not modelled.
- ProfilePage.SaveProfile: `Object.values` lists keys in insertion order, with no special placement for integer-like keys. The contract says what each key holds, not the order of keys that `saveProfile` appends.
- ProfilePage.Loaded: a stored profile entry is assumed to have all eight fields. The per-field defaults (`|| ''`, `|| 0`, `|| []`) for entries missing some fields are not modelled; on a complete entry they change nothing.
- `JSON.parse` of stored user text is an oracle that returns an object or fails. Text that parses to a non-object is treated as a failure.
- AuthContext.AuthSession.OnAuthUpdated: like the source, it does not normalise `banned`, so `Valid` is not claimed after it.
- The Admin and Forum pages are modelled sequentially. Overlapping requests and late replies are not modelled.
- The Admin page's own profile editor (`saveProfile`, Admin.jsx:133-166) and the fetch helpers that fill the users and posts lists are not modelled. The dashboard is built from the fetched lists.
- The forum's `video_file` form field, `fetchTricks`, the level filter on the client, and like toggling are not modelled.
- Each client page is modelled over its own view of localStorage: the profile page over "profiles", the registration and login pages over `LocalStore`, and the session over "token" and "user".
