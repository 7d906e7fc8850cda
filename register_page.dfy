/** The local registration page (`Register`): it keeps its accounts in localStorage. */
module RegisterPage {
  import opened Common
  import opened Storage

  const PasswordsDiffer := "Passwords do not match"
  const EmailTaken := "Email already registered"

  /** `storedUsers.find(u => u.email === email)`: the first user with that email. */
  function FindByEmail(users: seq<LocalUser>, email: string): (r: Option<LocalUser>)
    ensures r.Some? ==> r.value in users && r.value.email == email
    ensures r.None? <==> forall i :: 0 <= i < |users| ==> users[i].email != email
    decreases |users|
  {
    if users == [] then None
    else if users[0].email == email then Some(users[0])
    else
      var rest := FindByEmail(users[1..], email);
      assert forall i :: 1 <= i < |users| ==> users[i] == users[1..][i - 1];
      rest
  }

  /** The profile a registration creates. */
  function NewProfile(email: string): (p: ProfileEntry)
    ensures p.points == 0 && p.rating == 0 && p.position == 0 && p.trickVideos == []
    ensures p.email == Some(email) && p.banned == Some(false) && p.role == Some("user")
  {
    ProfileEntry("", "", "", 0, 0, 0, "", [], Some(email), Some(false), Some("user"))
  }

  /** `handleRegister`: the passwords must match and the email be new; then the user
      (id `now`, not banned, role "user") goes last in "users" and a fresh profile is
      stored under the email. The error shown, if any, is returned. */
  method HandleRegister(store: LocalStore, email: string, password: string, confirm: string, now: int)
      returns (error: Option<string>)
    requires store.Valid()
    modifies store
    ensures store.Valid()
    ensures password != confirm ==> error == Some(PasswordsDiffer) && unchanged(store)
    ensures password == confirm && FindByEmail(old(store.users), email).Some? ==>
      error == Some(EmailTaken) && unchanged(store)
    ensures password == confirm && FindByEmail(old(store.users), email).None? ==>
      && error.None?
      && store.users == old(store.users) + [LocalUser(now, email, password, false, "user")]
      && store.profiles == Put(old(store.profiles), email, NewProfile(email))
      && store.user == old(store.user)
  {
    if password != confirm {
      return Some(PasswordsDiffer);
    }
    if FindByEmail(store.users, email).Some? {
      return Some(EmailTaken);
    }
    var users := store.users + [LocalUser(now, email, password, false, "user")];
    PutUnique(store.profiles, email, NewProfile(email));
    store.users := users;
    store.profiles := Put(store.profiles, email, NewProfile(email));
    error := None;
  }

  /** After a registration the email's profile is the fresh one and every other
      stored profile reads as before. */
  lemma RegisteredProfile(profiles: Assoc<ProfileEntry>, email: string, other: string)
    ensures Lookup(Put(profiles, email, NewProfile(email)), email) == Some(NewProfile(email))
    ensures other != email ==>
      Lookup(Put(profiles, email, NewProfile(email)), other) == Lookup(profiles, other)
  {
    PutLookup(profiles, email, NewProfile(email), other);
  }
}
