/** The profile page of src/components/Profile.jsx. Its state is the signed-in user's
    profile, and every change is written through `saveProfile` to the `profiles` object
    in localStorage, which also renumbers the leaderboard positions of every stored
    profile. */
module ProfilePage {
  import opened Common
  import opened Storage
  import Sorting

  datatype Tier = Beginner | Intermediate | Advanced | Professional

  function TierRank(t: Tier): nat {
    match t
    case Beginner => 0
    case Intermediate => 1
    case Advanced => 2
    case Professional => 3
  }

  /** `getRidingLevel`: thresholds 20, 50 and 100 points. */
  function RidingLevel(points: int): Tier {
    if points >= 100 then Professional
    else if points >= 50 then Advanced
    else if points >= 20 then Intermediate
    else Beginner
  }

  /** More points never mean a lower tier. */
  lemma RidingLevelMonotone(p: int, q: int)
    requires p <= q
    ensures TierRank(RidingLevel(p)) <= TierRank(RidingLevel(q))
  {
  }

  /** `Math.min(5, Math.floor(points / 10))`. Dafny's `/` by a positive divisor rounds
      down, as `Math.floor` does, negative points included. */
  function Rating(points: int): (r: int)
    ensures r <= 5
    ensures r == 5 <==> points >= 50
    ensures r < 5 ==> 10 * r <= points < 10 * r + 10
  {
    var tens := points / 10;
    if tens < 5 then tens else 5
  }

  /** The rating of a non-negative score is 0 to 5 stars, and never drops as points grow. */
  lemma RatingRange(p: int, q: int)
    requires 0 <= p <= q
    ensures 0 <= Rating(p) <= Rating(q) <= 5
  {
  }

  // ---------------------------------------------------------------------------
  // The page's profile state

  /** The editable fields (`formData`). */
  datatype ProfileForm = ProfileForm(name: string, bio: string, favoriteTricks: string)

  /** The initial state, and what a user without a stored profile sees. */
  const Blank := ProfileEntry("", "", "", 0, 0, 0, "", [], None, None, None)

  /** The state after mount: the eight fields of the user's stored entry, or the defaults
      when there is none. The entry's `email`, `banned` and `role` are not carried over. */
  function Loaded(stored: Assoc<ProfileEntry>, email: string): (r: ProfileEntry)
    ensures r.email.None? && r.banned.None? && r.role.None?
    ensures email !in Keys(stored) ==> r == Blank
    ensures email in Keys(stored) ==>
      r.(email := Lookup(stored, email).value.email, banned := Lookup(stored, email).value.banned,
         role := Lookup(stored, email).value.role) == Lookup(stored, email).value
  {
    match Lookup(stored, email)
    case None => Blank
    case Some(e) => e.(email := None, banned := None, role := None)
  }

  function FormOf(p: ProfileEntry): ProfileForm {
    ProfileForm(p.name, p.bio, p.favoriteTricks)
  }

  /** `{ ...profile, ...formData }`: only name, bio and favourite tricks change. */
  function Edited(p: ProfileEntry, form: ProfileForm): (r: ProfileEntry)
    ensures FormOf(r) == form
    ensures r.(name := p.name, bio := p.bio, favoriteTricks := p.favoriteTricks) == p
  {
    p.(name := form.name, bio := form.bio, favoriteTricks := form.favoriteTricks)
  }

  /** `addPoints`: the points grow by the delta and the rating follows the new total. */
  function WithPoints(p: ProfileEntry, delta: int): (r: ProfileEntry)
    ensures r.points - p.points == delta
    ensures r.(points := p.points, rating := p.rating) == p
  {
    var total := p.points + delta;
    p.(points := total, rating := Rating(total))
  }

  /** Adding points to a non-negative score gives a rating of 0 to 5 that matches the
      score's tens, and saving unchanged points keeps the rating consistent. */
  lemma AddPointsRating(p: ProfileEntry, delta: int)
    requires p.points >= 0 && delta >= 0
    ensures 0 <= WithPoints(p, delta).rating <= 5
    ensures WithPoints(p, delta).rating == Rating(WithPoints(p, delta).points)
    ensures WithPoints(WithPoints(p, delta), 0) == WithPoints(p, delta)
  {
  }

  function WithAvatar(p: ProfileEntry, url: string): (r: ProfileEntry)
    ensures r.avatarUrl == url && r.(avatarUrl := p.avatarUrl) == p
  {
    p.(avatarUrl := url)
  }

  /** `[...profile.trick_videos, reader.result]`: appended at the end. */
  function WithVideo(p: ProfileEntry, video: string): (r: ProfileEntry)
    ensures |r.trickVideos| == |p.trickVideos| + 1
    ensures r.trickVideos[..|p.trickVideos|] == p.trickVideos && r.trickVideos[|p.trickVideos|] == video
    ensures r.(trickVideos := p.trickVideos) == p
  {
    p.(trickVideos := p.trickVideos + [video])
  }

  // ---------------------------------------------------------------------------
  // saveProfile

  /** `p.email || p.name`: the key each profile is filed under again. */
  function FilingKey(e: ProfileEntry): string {
    OrElse(e.email, e.name)
  }

  /** Each stored object paired with its place in key order. */
  function Indexed(start: Assoc<ProfileEntry>): (r: seq<(int, ProfileEntry)>)
    ensures |r| == |start| && forall j :: 0 <= j < |start| ==> r[j] == (j, start[j].1)
  {
    seq(|start|, j requires 0 <= j < |start| => (j, start[j].1))
  }

  /** `b.points - a.points`: the sort key. */
  function PointsOf(p: (int, ProfileEntry)): int {
    p.1.points
  }

  /** The place of x in s. */
  function IndexOf(s: seq<int>, x: int): (r: nat)
    requires x in s
    ensures r < |s| && s[r] == x
  {
    if s[0] == x then 0 else 1 + IndexOf(s[1..], x)
  }

  /** `order` lists every place of `start` once, by points, largest first. */
  ghost predicate IsRanking(start: Assoc<ProfileEntry>, order: seq<int>) {
    && Places(start, order)
    && (forall j :: 0 <= j < |start| ==> j in order)
    && (forall m1, m2 :: 0 <= m1 < m2 < |order| ==> start[order[m1]].1.points >= start[order[m2]].1.points)
  }

  /** The leaderboard order of the stored objects: their places in key order, sorted
      by points, largest first, ties kept in key order (the sort is stable). */
  function Ranking(start: Assoc<ProfileEntry>): (order: seq<int>)
    ensures IsRanking(start, order)
  {
    var sorted := Sorting.SortDesc(Indexed(start), PointsOf);
    SortedIsPermutation(start, sorted);
    var order := seq(|sorted|, m requires 0 <= m < |sorted| => sorted[m].0);
    RankingCovers(start, sorted, order);
    order
  }

  lemma SortedIsPermutation(start: Assoc<ProfileEntry>, sorted: seq<(int, ProfileEntry)>)
    requires multiset(sorted) == multiset(Indexed(start))
    ensures |sorted| == |start|
    ensures forall m :: 0 <= m < |sorted| ==> 0 <= sorted[m].0 < |start| && sorted[m].1 == start[sorted[m].0].1
    ensures forall m1, m2 :: 0 <= m1 < m2 < |sorted| ==> sorted[m1].0 != sorted[m2].0
    ensures forall j :: 0 <= j < |start| ==> (j, start[j].1) in sorted
  {
    var indexed := Indexed(start);
    assert |sorted| == |multiset(sorted)| == |multiset(indexed)| == |indexed|;
    assert Sorting.Distinct(indexed);
    Sorting.PermutationOfDistinct(sorted, indexed);
    forall m | 0 <= m < |sorted|
      ensures 0 <= sorted[m].0 < |start| && sorted[m].1 == start[sorted[m].0].1
    {
      assert sorted[m] in multiset(indexed);
    }
    forall j | 0 <= j < |start| ensures (j, start[j].1) in sorted {
      assert indexed[j] in multiset(sorted);
    }
  }

  /** Every stored object has a place in the ranking. */
  lemma RankingCovers(start: Assoc<ProfileEntry>, sorted: seq<(int, ProfileEntry)>, order: seq<int>)
    requires |order| == |sorted| && forall m :: 0 <= m < |sorted| ==> order[m] == sorted[m].0
    requires forall j :: 0 <= j < |start| ==> (j, start[j].1) in sorted
    ensures forall j :: 0 <= j < |start| ==> j in order
  {
    forall j | 0 <= j < |start| ensures j in order {
      var m :| 0 <= m < |sorted| && sorted[m] == (j, start[j].1);
      assert order[m] == j;
    }
  }

  /** The keys every stored object is filed under again. */
  function FilingKeys(start: Assoc<ProfileEntry>): set<string> {
    set j | 0 <= j < |start| :: FilingKey(start[j].1)
  }

  /** The keys the first i objects of the ranking are filed under. */
  function FiledKeys(start: Assoc<ProfileEntry>, order: seq<int>, i: nat): set<string>
    requires i <= |order| && forall m :: 0 <= m < |order| ==> 0 <= order[m] < |start|
  {
    if i == 0 then {} else FiledKeys(start, order, i - 1) + {FilingKey(start[order[i - 1]].1)}
  }

  lemma {:induction false} FiledKeysWithin(start: Assoc<ProfileEntry>, order: seq<int>, i: nat)
    requires i <= |order| && forall m :: 0 <= m < |order| ==> 0 <= order[m] < |start|
    ensures FiledKeys(start, order, i) <= FilingKeys(start)
  {
    if i > 0 {
      FiledKeysWithin(start, order, i - 1);
    }
  }

  lemma {:induction false} FiledKeysHas(start: Assoc<ProfileEntry>, order: seq<int>, i: nat, m: nat)
    requires i <= |order| && forall m :: 0 <= m < |order| ==> 0 <= order[m] < |start|
    requires m < i
    ensures FilingKey(start[order[m]].1) in FiledKeys(start, order, i)
  {
    if m < i - 1 {
      FiledKeysHas(start, order, i - 1, m);
    }
  }

  /** Once the whole ranking is filed, every object's filing key is in use. */
  lemma AllFiled(start: Assoc<ProfileEntry>, order: seq<int>)
    requires IsRanking(start, order)
    ensures FiledKeys(start, order, |order|) == FilingKeys(start)
  {
    FiledKeysWithin(start, order, |order|);
    forall k | k in FilingKeys(start) ensures k in FiledKeys(start, order, |order|) {
      var j :| 0 <= j < |start| && FilingKey(start[j].1) == k;
      FiledKeysHas(start, order, |order|, IndexOf(order, j));
    }
  }

  /** The j-th stored profile object. `saveProfile` writes only the `position` field of
      these objects, so the heap of objects is given by `start` and one position each. */
  function ObjectAt(start: Assoc<ProfileEntry>, positions: seq<int>, j: int): ProfileEntry
    requires |positions| == |start| && 0 <= j < |start|
  {
    start[j].1.(position := positions[j])
  }

  /** The object each key refers to, read back as a JSON object of profiles. */
  function Resolve(start: Assoc<ProfileEntry>, positions: seq<int>, refs: Assoc<int>): (r: Assoc<ProfileEntry>)
    requires |positions| == |start|
    requires forall i :: 0 <= i < |refs| ==> 0 <= refs[i].1 < |start|
    ensures |r| == |refs| && forall i :: 0 <= i < |r| ==> r[i] == (refs[i].0, ObjectAt(start, positions, refs[i].1))
  {
    seq(|refs|, i requires 0 <= i < |refs| => (refs[i].0, ObjectAt(start, positions, refs[i].1)))
  }

  /** A profile with its position cleared. */
  function Unranked(e: ProfileEntry): ProfileEntry {
    e.(position := 0)
  }

  /** The stored profiles, positions aside. */
  function Entries(start: Assoc<ProfileEntry>): set<ProfileEntry> {
    set j | 0 <= j < |start| :: Unranked(start[j].1)
  }

  /** The profiles saved from the objects in `start`: each is one of them with a position
      from 1 to n, more points mean a better (smaller) position, and a position names
      one profile. */
  ghost predicate Leaderboard(start: Assoc<ProfileEntry>, saved: Assoc<ProfileEntry>) {
    && (forall i :: 0 <= i < |saved| ==>
          && 1 <= saved[i].1.position <= |start|
          && Unranked(saved[i].1) in Entries(start))
    && (forall i1, i2 :: 0 <= i1 < |saved| && 0 <= i2 < |saved| ==>
          (saved[i1].1.points > saved[i2].1.points ==> saved[i1].1.position < saved[i2].1.position))
    && (forall i1, i2 :: 0 <= i1 < |saved| && 0 <= i2 < |saved| ==>
          (saved[i1].1.position == saved[i2].1.position ==> saved[i1].1 == saved[i2].1))
  }

  /** Each key of `start` paired with the place of its object. */
  function Placed(start: Assoc<ProfileEntry>): (r: Assoc<int>)
    ensures |r| == |start| && forall j :: 0 <= j < |start| ==> r[j] == (start[j].0, j)
  {
    seq(|start|, j requires 0 <= j < |start| => (start[j].0, j))
  }

  /** The place of the object stored under k, if any. */
  lemma PlaceOf(start: Assoc<ProfileEntry>, k: string)
    ensures Lookup(Placed(start), k).Some? <==> k in Keys(start)
    ensures Lookup(Placed(start), k).Some? ==>
      var j := Lookup(Placed(start), k).value; 0 <= j < |start| && start[j].0 == k
  {
    SameKeys(start, Placed(start));
    if Lookup(Placed(start), k).Some? {
      var i :| 0 <= i < |start| && Placed(start)[i] == (k, Lookup(Placed(start), k).value);
    }
  }

  /** With distinct keys, key `start[j].0` names place j. */
  lemma PlaceOfKey(start: Assoc<ProfileEntry>, j: int)
    requires UniqueKeys(start) && 0 <= j < |start|
    ensures Lookup(Placed(start), start[j].0) == Some(j)
  {
    PlaceOf(start, start[j].0);
    assert start[j].0 in Keys(start);
  }

  /** The place of the last of the first i ranked objects whose filing key is k. */
  function LastFiled(start: Assoc<ProfileEntry>, order: seq<int>, k: string, i: nat): (r: Option<int>)
    requires i <= |order| && forall m :: 0 <= m < |order| ==> 0 <= order[m] < |start|
    ensures r.Some? ==> 0 <= r.value < |start| && FilingKey(start[r.value].1) == k && r.value in order
  {
    if i == 0 then None
    else if FilingKey(start[order[i - 1]].1) == k then Some(order[i - 1])
    else LastFiled(start, order, k, i - 1)
  }

  /** The place of the object key k refers to once the first i ranked objects were filed
      again: the last of them filed under k, otherwise the object stored under k. */
  function HolderAfter(start: Assoc<ProfileEntry>, order: seq<int>, k: string, i: nat): (r: Option<int>)
    requires i <= |order| && forall m :: 0 <= m < |order| ==> 0 <= order[m] < |start|
    ensures r.Some? ==> 0 <= r.value < |start|
  {
    PlaceOf(start, k);
    if LastFiled(start, order, k, i).Some? then LastFiled(start, order, k, i)
    else Lookup(Placed(start), k)
  }

  /** The leaderboard position `saveProfile` gives the object at place j. */
  function Rank(start: Assoc<ProfileEntry>, j: int): (r: int)
    requires 0 <= j < |start|
    ensures 1 <= r <= |start|
  {
    IndexOf(Ranking(start), j) + 1
  }

  /** What key k reads once `saveProfile` has run on the objects of `start`: the object it
      refers to, with that object's leaderboard position. */
  function SavedAt(start: Assoc<ProfileEntry>, k: string): Option<ProfileEntry> {
    match HolderAfter(start, Ranking(start), k, |start|)
    case None => None
    case Some(j) => Some(start[j].1.(position := Rank(start, j)))
  }

  /** The position the user's own object gets. */
  function UserRank(stored: Assoc<ProfileEntry>, email: string, updated: ProfileEntry): (rank: int)
    ensures 1 <= rank <= |Put(stored, email, updated)|
  {
    var start := Put(stored, email, updated);
    PlaceOf(start, email);
    Rank(start, Lookup(Placed(start), email).value)
  }

  /** What `saveProfile` leaves in localStorage: a JSON object whose keys are the old
      ones, the user's email and every filing key; each key holds the object it refers to
      with that object's position, and together they form a leaderboard. */
  ghost predicate SavedFrom(stored: Assoc<ProfileEntry>, email: string, updated: ProfileEntry, saved: Assoc<ProfileEntry>) {
    var start := Put(stored, email, updated);
    && UniqueKeys(saved)
    && Keys(saved) == Keys(start) + FilingKeys(start)
    && email in Keys(saved) && FilingKey(updated) in Keys(saved)
    && (forall k :: Lookup(saved, k) == SavedAt(start, k))
    && Leaderboard(start, saved)
  }

  /** `saveProfile`: the user's entry is replaced by `updated`, every stored profile
      object gets `position` = its place in the points ranking, and is then filed again
      under `email || name`. The objects are shared, so a profile filed under a second
      key appears there too, and a later profile can take over an earlier one's key.
      `rank` is the position written into the user's own object, which the page then
      shows. `positions` holds the objects' positions and `refs` maps each key to one
      of them. */
  method SaveProfile(stored: Assoc<ProfileEntry>, email: string, updated: ProfileEntry)
      returns (saved: Assoc<ProfileEntry>, rank: int)
    requires UniqueKeys(stored)
    ensures SavedFrom(stored, email, updated, saved)
    ensures rank == UserRank(stored, email, updated)
  {
    var start := Put(stored, email, updated);
    PutUnique(stored, email, updated);
    var order := Ranking(start);
    var positions, refs := Renumber(start, order);
    saved := Resolve(start, positions, refs);
    Saved(stored, email, updated, order, positions, refs);
    PlaceOf(start, email);
    var u := Lookup(Placed(start), email).value;
    rank := positions[u];
    assert positions[order[IndexOf(order, u)]] == IndexOf(order, u) + 1;
  }

  /** The last of the first i ranked objects filed under k is ranked no earlier than any
      other of them filed under k. */
  lemma {:induction false} LastFiledIsLatest(start: Assoc<ProfileEntry>, order: seq<int>, k: string, i: nat, m: nat)
    requires Places(start, order) && i <= |order|
    requires m < i && FilingKey(start[order[m]].1) == k
    ensures LastFiled(start, order, k, i).Some?
    ensures m <= IndexOf(order, LastFiled(start, order, k, i).value)
  {
    if FilingKey(start[order[i - 1]].1) == k {
      assert order[IndexOf(order, order[i - 1])] == order[i - 1];
    } else {
      LastFiledIsLatest(start, order, k, i - 1, m);
    }
  }

  /** Each object's filing key ends up holding an object filed under that same key and
      ranked no earlier: the last of the ranking to be filed there. */
  lemma LatestFilerHolds(start: Assoc<ProfileEntry>, j: int)
    requires 0 <= j < |start|
    ensures var k := FilingKey(start[j].1);
      && SavedAt(start, k).Some?
      && FilingKey(SavedAt(start, k).value) == k
      && SavedAt(start, k).value.position >= Rank(start, j)
  {
    var order := Ranking(start);
    var m := IndexOf(order, j);
    LastFiledIsLatest(start, order, FilingKey(start[j].1), |order|, m);
  }

  /** An object that alone files under its key is saved there, with its position. */
  lemma OnlyFilerHolds(start: Assoc<ProfileEntry>, j: int)
    requires 0 <= j < |start|
    requires forall i :: 0 <= i < |start| && FilingKey(start[i].1) == FilingKey(start[j].1) ==> i == j
    ensures SavedAt(start, FilingKey(start[j].1)) == Some(start[j].1.(position := Rank(start, j)))
  {
    var order := Ranking(start);
    LastFiledIsLatest(start, order, FilingKey(start[j].1), |order|, IndexOf(order, j));
  }

  /** An object whose own key no object files under keeps that key, with its position. */
  lemma KeptUnderOwnKey(start: Assoc<ProfileEntry>, j: int)
    requires UniqueKeys(start) && 0 <= j < |start|
    requires forall i :: 0 <= i < |start| && FilingKey(start[i].1) == start[j].0 ==> i == j
    ensures SavedAt(start, start[j].0) == Some(start[j].1.(position := Rank(start, j)))
  {
    PlaceOfKey(start, j);
  }

  /** When every stored profile is filed under its own key (as entries written by the
      registration page are, their `email` being their key), saving adds no key and
      every profile is kept under its key, with its position. */
  lemma SelfFiledKeepsEveryone(start: Assoc<ProfileEntry>)
    requires UniqueKeys(start)
    requires forall j :: 0 <= j < |start| ==> FilingKey(start[j].1) == start[j].0
    ensures FilingKeys(start) <= Keys(start)
    ensures forall j :: 0 <= j < |start| ==> SavedAt(start, start[j].0) == Some(start[j].1.(position := Rank(start, j)))
  {
    forall k | k in FilingKeys(start) ensures k in Keys(start) {
      var j :| 0 <= j < |start| && FilingKey(start[j].1) == k;
      assert start[j].0 == k;
    }
    forall j | 0 <= j < |start|
      ensures SavedAt(start, start[j].0) == Some(start[j].1.(position := Rank(start, j)))
    {
      KeptUnderOwnKey(start, j);
    }
  }

  /** The user's email names the place of `updated` among the objects being saved. */
  lemma UserPlace(stored: Assoc<ProfileEntry>, email: string, updated: ProfileEntry)
    requires UniqueKeys(stored)
    ensures var start := Put(stored, email, updated);
      && UniqueKeys(start)
      && Lookup(Placed(start), email).Some?
      && 0 <= Lookup(Placed(start), email).value < |start|
      && start[Lookup(Placed(start), email).value] == (email, updated)
  {
    var start := Put(stored, email, updated);
    PutUnique(stored, email, updated);
    PutLookup(stored, email, updated, email);
    PlaceOf(start, email);
    var u := Lookup(Placed(start), email).value;
    var i :| 0 <= i < |start| && start[i] == (email, updated);
    assert start[i].0 == start[u].0;
  }

  /** Unless another stored profile files under the user's email, the email holds the
      user's update with the position it was given, which is what the page shows. */
  lemma SavedUserEntry(stored: Assoc<ProfileEntry>, email: string, updated: ProfileEntry)
    requires UniqueKeys(stored)
    requires forall i :: 0 <= i < |stored| && stored[i].0 != email ==> FilingKey(stored[i].1) != email
    ensures SavedAt(Put(stored, email, updated), email) == Some(updated.(position := UserRank(stored, email, updated)))
  {
    var start := Put(stored, email, updated);
    UserPlace(stored, email, updated);
    PutEntries(stored, email, updated);
    var u := Lookup(Placed(start), email).value;
    forall j | 0 <= j < |start| && j != u ensures FilingKey(start[j].1) != start[u].0 {
      assert start[j].0 != email;
      assert start[j] in start;
      var h :| 0 <= h < |stored| && stored[h] == start[j];
    }
    KeptUnderOwnKey(start, u);
  }

  /** `order` lists every place of `start` exactly once. */
  ghost predicate Places(start: Assoc<ProfileEntry>, order: seq<int>) {
    && |order| == |start|
    && Sorting.Distinct(order)
    && (forall m :: 0 <= m < |order| ==> 0 <= order[m] < |start|)
  }

  /** The state of the objects and the keys after the first i ranked objects were
      renumbered and filed again. */
  ghost predicate Renumbered(start: Assoc<ProfileEntry>, order: seq<int>, positions: seq<int>, refs: Assoc<int>, i: nat) {
    && Places(start, order) && i <= |order|
    && |positions| == |start|
    && (forall m :: 0 <= m < i ==> positions[order[m]] == m + 1)
    && UniqueKeys(refs)
    && (forall r :: 0 <= r < |refs| ==> 0 <= refs[r].1 < |start|)
    && Keys(refs) == Keys(start) + FiledKeys(start, order, i)
    && (forall k :: Lookup(refs, k) == HolderAfter(start, order, k, i))
  }

  /** The `forEach` over the ranking: the m-th object gets position m + 1 and is filed
      under its `email || name` (which its position does not affect). */
  method Renumber(start: Assoc<ProfileEntry>, order: seq<int>) returns (positions: seq<int>, refs: Assoc<int>)
    requires UniqueKeys(start) && Places(start, order)
    ensures Renumbered(start, order, positions, refs, |order|)
  {
    var n := |start|;
    positions := seq(n, j requires 0 <= j < n => start[j].1.position);
    refs := Placed(start);
    SameKeys(start, refs);
    for i := 0 to n
      invariant Renumbered(start, order, positions, refs, i)
    {
      var j := order[i];
      RenumberStep(start, order, positions, refs, i);
      positions := positions[j := i + 1];
      refs := Put(refs, FilingKey(start[j].1), j);
    }
  }

  /** Renumbering and filing the i-th ranked object. */
  lemma RenumberStep(start: Assoc<ProfileEntry>, order: seq<int>, positions: seq<int>, refs: Assoc<int>, i: nat)
    requires Renumbered(start, order, positions, refs, i) && i < |order|
    ensures Renumbered(start, order, positions[order[i] := i + 1],
                       Put(refs, FilingKey(start[order[i]].1), order[i]), i + 1)
  {
    var j, key := order[i], FilingKey(start[order[i]].1);
    var next := Put(refs, key, j);
    forall m | 0 <= m < i ensures order[m] != j {
    }
    PutUnique(refs, key, j);
    PutEntries(refs, key, j);
    forall r | 0 <= r < |next| ensures 0 <= next[r].1 < |start| {
      assert next[r] in next;
    }
    HolderStep(start, order, refs, i);
  }

  /** Filing the i-th ranked object redirects its filing key to it and no other key. */
  lemma HolderStep(start: Assoc<ProfileEntry>, order: seq<int>, refs: Assoc<int>, i: nat)
    requires Places(start, order) && i < |order|
    requires forall k :: Lookup(refs, k) == HolderAfter(start, order, k, i)
    ensures forall k :: Lookup(Put(refs, FilingKey(start[order[i]].1), order[i]), k) == HolderAfter(start, order, k, i + 1)
  {
    forall k ensures Lookup(Put(refs, FilingKey(start[order[i]].1), order[i]), k) == HolderAfter(start, order, k, i + 1) {
      PutLookup(refs, FilingKey(start[order[i]].1), order[i], k);
    }
  }

  /** The facts `SaveProfile` promises, from those of the ranking and the renumbering. */
  lemma Saved(stored: Assoc<ProfileEntry>, email: string, updated: ProfileEntry,
              order: seq<int>, positions: seq<int>, refs: Assoc<int>)
    requires order == Ranking(Put(stored, email, updated))
    requires Renumbered(Put(stored, email, updated), order, positions, refs, |order|)
    ensures SavedFrom(stored, email, updated, Resolve(Put(stored, email, updated), positions, refs))
  {
    var start := Put(stored, email, updated);
    var saved := Resolve(start, positions, refs);
    SameKeys(refs, saved);
    SavedKeys(start, order, positions, refs);
    AllFiled(start, order);
    RankedPositions(start, order, positions);
    ResolvedPositions(start, positions, refs);
    PutLookup(stored, email, updated, email);
    EntryFiled(start, email, updated);
  }

  /** Once the whole ranking is filed, each key reads what `SavedAt` says. */
  lemma SavedKeys(start: Assoc<ProfileEntry>, order: seq<int>, positions: seq<int>, refs: Assoc<int>)
    requires order == Ranking(start)
    requires Renumbered(start, order, positions, refs, |order|)
    ensures forall k :: Lookup(Resolve(start, positions, refs), k) == SavedAt(start, k)
  {
    forall k ensures Lookup(Resolve(start, positions, refs), k) == SavedAt(start, k) {
      LookupResolve(start, positions, refs, k);
      if Lookup(refs, k).Some? {
        var j := Lookup(refs, k).value;
        assert positions[order[IndexOf(order, j)]] == IndexOf(order, j) + 1;
      }
    }
  }

  /** Reading a key of the resolved object reads the object its reference names. */
  lemma {:induction false} LookupResolve(start: Assoc<ProfileEntry>, positions: seq<int>, refs: Assoc<int>, k: string)
    requires |positions| == |start|
    requires forall r :: 0 <= r < |refs| ==> 0 <= refs[r].1 < |start|
    ensures Lookup(refs, k).None? ==> Lookup(Resolve(start, positions, refs), k).None?
    ensures Lookup(refs, k).Some? ==>
      Lookup(Resolve(start, positions, refs), k) == Some(ObjectAt(start, positions, Lookup(refs, k).value))
    decreases |refs|
  {
    if refs != [] && refs[0].0 != k {
      assert Resolve(start, positions, refs)[1..] == Resolve(start, positions, refs[1..]);
      LookupResolve(start, positions, refs[1..], k);
    }
  }

  lemma EntryFiled(start: Assoc<ProfileEntry>, k: string, e: ProfileEntry)
    requires (k, e) in start
    ensures k in Keys(start) && FilingKey(e) in FilingKeys(start)
  {
    var u :| 0 <= u < |start| && start[u] == (k, e);
    assert start[u].0 == k;
  }

  /** Once every ranked object has its place as position, positions run from 1 to n,
      follow the points, and tell the objects apart. */
  lemma RankedPositions(start: Assoc<ProfileEntry>, order: seq<int>, positions: seq<int>)
    requires IsRanking(start, order) && |positions| == |start|
    requires forall m :: 0 <= m < |order| ==> positions[order[m]] == m + 1
    ensures forall j :: 0 <= j < |start| ==> 1 <= positions[j] <= |start|
    ensures forall a, b :: 0 <= a < |start| && 0 <= b < |start| && start[a].1.points > start[b].1.points ==>
      positions[a] < positions[b]
    ensures forall a, b :: 0 <= a < |start| && 0 <= b < |start| && positions[a] == positions[b] ==> a == b
  {
    forall j | 0 <= j < |start| ensures 1 <= positions[j] <= |start| {
      var m := IndexOf(order, j);
    }
    forall a, b | 0 <= a < |start| && 0 <= b < |start| && start[a].1.points > start[b].1.points
      ensures positions[a] < positions[b]
    {
      var ma := IndexOf(order, a);
      var mb := IndexOf(order, b);
    }
    forall a, b | 0 <= a < |start| && 0 <= b < |start| && positions[a] == positions[b]
      ensures a == b
    {
      var ma := IndexOf(order, a);
      var mb := IndexOf(order, b);
    }
  }

  /** What the renumbered objects satisfy, read back through the keys. */
  lemma ResolvedPositions(start: Assoc<ProfileEntry>, positions: seq<int>, refs: Assoc<int>)
    requires |positions| == |start|
    requires forall r :: 0 <= r < |refs| ==> 0 <= refs[r].1 < |start|
    requires forall j :: 0 <= j < |start| ==> 1 <= positions[j] <= |start|
    requires forall a, b :: 0 <= a < |start| && 0 <= b < |start| && start[a].1.points > start[b].1.points ==>
      positions[a] < positions[b]
    requires forall a, b :: 0 <= a < |start| && 0 <= b < |start| && positions[a] == positions[b] ==> a == b
    ensures Leaderboard(start, Resolve(start, positions, refs))
  {
    var saved := Resolve(start, positions, refs);
    forall i | 0 <= i < |saved| ensures Unranked(saved[i].1) in Entries(start) {
      var j := refs[i].1;
      assert Unranked(saved[i].1) == Unranked(start[j].1);
    }
    forall i1, i2 | 0 <= i1 < |saved| && 0 <= i2 < |saved|
      ensures saved[i1].1.points > saved[i2].1.points ==> saved[i1].1.position < saved[i2].1.position
      ensures saved[i1].1.position == saved[i2].1.position ==> saved[i1].1 == saved[i2].1
    {
      var a, b := refs[i1].1, refs[i2].1;
      assert saved[i1].1 == ObjectAt(start, positions, a) && saved[i2].1 == ObjectAt(start, positions, b);
    }
  }

  // ---------------------------------------------------------------------------
  // The page

  /** The page after mount for a signed-in user: the user's email, the profile shown,
      and the `profiles` object in localStorage. */
  class Page {
    var email: string
    var profile: ProfileEntry
    var stored: Assoc<ProfileEntry>

    ghost predicate Valid()
      reads this
    {
      UniqueKeys(stored)
    }

    /** The mount effect, once the stored user is known. */
    constructor (email: string, stored: Assoc<ProfileEntry>)
      requires UniqueKeys(stored)
      ensures Valid()
      ensures this.email == email && this.stored == stored && profile == Loaded(stored, email)
    {
      this.email := email;
      this.stored := stored;
      profile := Loaded(stored, email);
    }

    /** `saveProfile(updated)`. */
    method Save(updated: ProfileEntry)
      requires Valid()
      modifies this
      ensures Valid()
      ensures email == old(email) && profile == updated.(position := UserRank(old(stored), email, updated))
      ensures SavedFrom(old(stored), email, updated, stored)
    {
      var saved, rank := SaveProfile(stored, email, updated);
      stored, profile := saved, updated.(position := rank);
    }

    /** `handleSave`. */
    method HandleSave(form: ProfileForm)
      requires Valid()
      modifies this
      ensures Valid()
      ensures email == old(email)
      ensures var edited := Edited(old(profile), form);
        profile == edited.(position := UserRank(old(stored), email, edited))
        && SavedFrom(old(stored), email, edited, stored)
    {
      Save(Edited(profile, form));
    }

    /** `addPoints(delta)`. */
    method AddPoints(delta: int)
      requires Valid()
      modifies this
      ensures Valid()
      ensures email == old(email)
      ensures var raised := WithPoints(old(profile), delta);
        profile == raised.(position := UserRank(old(stored), email, raised))
        && SavedFrom(old(stored), email, raised, stored)
    {
      Save(WithPoints(profile, delta));
    }

    /** `handleAvatarUpload`: no file, no change; otherwise the file's data URL. */
    method UploadAvatar(file: Option<string>)
      requires Valid()
      modifies this
      ensures Valid()
      ensures file.None? ==> unchanged(this)
      ensures file.Some? ==> email == old(email)
      ensures file.Some? ==> var changed := WithAvatar(old(profile), file.value);
        profile == changed.(position := UserRank(old(stored), email, changed))
        && SavedFrom(old(stored), email, changed, stored)
    {
      if file.Some? {
        Save(WithAvatar(profile, file.value));
      }
    }

    /** `handleVideoUpload`: no file, no change; otherwise its data URL goes last. */
    method UploadVideo(file: Option<string>)
      requires Valid()
      modifies this
      ensures Valid()
      ensures file.None? ==> unchanged(this)
      ensures file.Some? ==> email == old(email)
      ensures file.Some? ==> var changed := WithVideo(old(profile), file.value);
        profile == changed.(position := UserRank(old(stored), email, changed))
        && SavedFrom(old(stored), email, changed, stored)
    {
      if file.Some? {
        Save(WithVideo(profile, file.value));
      }
    }
  }
}
