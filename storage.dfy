/** The browser's localStorage as the client pages use it. A stored JSON object keeps
    its keys in insertion order, so it is an association list: assigning an existing
    key replaces the value in place, a new key goes last. */
module Storage {
  import opened Common

  /** A stored profile: the eight fields the profile page writes, plus the `email`,
      `banned` and `role` fields registration adds (absent on entries the profile page
      wrote). */
  datatype ProfileEntry = ProfileEntry(
    name: string, bio: string, favoriteTricks: string, points: int, rating: int, position: int,
    avatarUrl: string, trickVideos: seq<string>,
    email: Option<string>, banned: Option<bool>, role: Option<string>)

  /** An entry of the stored `users` array written by the registration page. */
  datatype LocalUser = LocalUser(id: int, email: string, password: string, banned: bool, role: string)

  /** A JSON object with string keys, in key order. */
  type Assoc<V> = seq<(string, V)>

  function Keys<V>(s: Assoc<V>): set<string> {
    set i | 0 <= i < |s| :: s[i].0
  }

  lemma KeysCons<V>(h: (string, V), t: Assoc<V>)
    ensures Keys([h] + t) == {h.0} + Keys(t)
  {
    var r := [h] + t;
    forall k | k in Keys(r) ensures k in {h.0} + Keys(t) {
      var i :| 0 <= i < |r| && r[i].0 == k;
      if i > 0 {
        assert t[i - 1].0 == k;
      }
    }
    forall k | k in Keys(t) ensures k in Keys(r) {
      var i :| 0 <= i < |t| && t[i].0 == k;
      assert r[i + 1].0 == k;
    }
    assert r[0].0 == h.0;
  }

  ghost predicate UniqueKeys<V>(s: Assoc<V>) {
    forall i, j :: 0 <= i < j < |s| ==> s[i].0 != s[j].0
  }

  /** Two objects with the same keys in the same order. */
  lemma SameKeys<V, W>(a: Assoc<V>, b: Assoc<W>)
    requires |a| == |b| && forall i :: 0 <= i < |a| ==> a[i].0 == b[i].0
    ensures Keys(a) == Keys(b)
    ensures UniqueKeys(a) ==> UniqueKeys(b)
  {
    forall k | k in Keys(a) ensures k in Keys(b) {
      var i :| 0 <= i < |a| && a[i].0 == k;
      assert b[i].0 == k;
    }
    forall k | k in Keys(b) ensures k in Keys(a) {
      var i :| 0 <= i < |b| && b[i].0 == k;
      assert a[i].0 == k;
    }
  }

  /** `o[k]`: the value of the first entry with key k. */
  function Lookup<V>(s: Assoc<V>, k: string): (r: Option<V>)
    ensures r.Some? <==> k in Keys(s)
    ensures r.Some? ==> (k, r.value) in s
    decreases |s|
  {
    if s == [] then None
    else
      assert [s[0]] + s[1..] == s;
      KeysCons(s[0], s[1..]);
      if s[0].0 == k then Some(s[0].1)
      else Lookup(s[1..], k)
  }

  /** `o[k] = v`. */
  function Put<V>(s: Assoc<V>, k: string, v: V): (r: Assoc<V>)
    ensures Keys(r) == Keys(s) + {k}
    ensures k in Keys(s) ==> |r| == |s| && forall i :: 0 <= i < |s| ==> r[i].0 == s[i].0
    ensures k !in Keys(s) ==> r == s + [(k, v)]
    decreases |s|
  {
    if s == [] then
      assert Keys([(k, v)]) == {k} by { KeysCons((k, v), []); }
      [(k, v)]
    else
      assert [s[0]] + s[1..] == s;
      KeysCons(s[0], s[1..]);
      if s[0].0 == k then
        KeysCons((k, v), s[1..]);
        [(k, v)] + s[1..]
      else
        var rest := Put(s[1..], k, v);
        KeysCons(s[0], rest);
        [s[0]] + rest
  }

  /** After `o[k] = v`, k reads v and every other key reads what it read before. */
  lemma {:induction false} PutLookup<V>(s: Assoc<V>, k: string, v: V, other: string)
    ensures Lookup(Put(s, k, v), k) == Some(v)
    ensures other != k ==> Lookup(Put(s, k, v), other) == Lookup(s, other)
    decreases |s|
  {
    if s != [] && s[0].0 != k {
      PutLookup(s[1..], k, v, other);
      assert Put(s, k, v)[1..] == Put(s[1..], k, v);
    }
  }

  /** After `o[k] = v` every entry is the new one or an old one. */
  lemma {:induction false} PutEntries<V>(s: Assoc<V>, k: string, v: V)
    ensures forall p :: p in Put(s, k, v) ==> p == (k, v) || p in s
    decreases |s|
  {
    if s != [] && s[0].0 != k {
      PutEntries(s[1..], k, v);
      assert Put(s, k, v) == [s[0]] + Put(s[1..], k, v);
      assert forall p :: p in s[1..] ==> p in s;
    }
  }

  /** A key not among the tail's keys can go in front. */
  lemma UniqueCons<V>(h: (string, V), t: Assoc<V>)
    requires UniqueKeys(t) && h.0 !in Keys(t)
    ensures UniqueKeys([h] + t)
  {
    var r := [h] + t;
    forall i, j | 0 <= i < j < |r| ensures r[i].0 != r[j].0 {
      assert r[j] == t[j - 1];
      if i > 0 {
        assert r[i] == t[i - 1];
      } else {
        assert t[j - 1].0 in Keys(t);
      }
    }
  }

  /** Assignment never duplicates a key. */
  lemma {:induction false} PutUnique<V>(s: Assoc<V>, k: string, v: V)
    requires UniqueKeys(s)
    ensures UniqueKeys(Put(s, k, v))
    decreases |s|
  {
    if s != [] {
      var r := Put(s, k, v);
      if s[0].0 == k {
        SameKeys(s, r);
      } else {
        var t := s[1..];
        assert UniqueKeys(t) by {
          forall i, j | 0 <= i < j < |t| ensures t[i].0 != t[j].0 {
            assert t[i] == s[i + 1] && t[j] == s[j + 1];
          }
        }
        PutUnique(t, k, v);
        assert s[0].0 !in Keys(t) by {
          forall i | 0 <= i < |t| ensures t[i].0 != s[0].0 {
            assert t[i] == s[i + 1];
          }
        }
        UniqueCons(s[0], Put(t, k, v));
      }
    }
  }

  /** No two stored users share an email. */
  ghost predicate DistinctEmails(users: seq<LocalUser>) {
    forall i, j :: 0 <= i < j < |users| ==> users[i].email != users[j].email
  }

  /** The localStorage keys the registration and login pages use: "users", "profiles"
      and "user" (the signed-in user). */
  class LocalStore {
    var users: seq<LocalUser>
    var profiles: Assoc<ProfileEntry>
    var user: Option<LocalUser>

    ghost predicate Valid()
      reads this
    {
      DistinctEmails(users) && UniqueKeys(profiles)
    }

    /** The keys as first read: absent "users" and "profiles" read as empty. */
    constructor (users: seq<LocalUser>, profiles: Assoc<ProfileEntry>, user: Option<LocalUser>)
      ensures this.users == users && this.profiles == profiles && this.user == user
    {
      this.users, this.profiles, this.user := users, profiles, user;
    }
  }
}
