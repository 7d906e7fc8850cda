/** The local login page (`Login`): it checks the accounts the registration page
    keeps in localStorage. */
module LoginPage {
  import opened Common
  import opened Storage
  import RegisterPage

  const InvalidCredentials := "Invalid email or password"
  const AccountBanned := "This account is banned"

  /** `storedUsers.find(u => u.email === email && u.password === password)`. */
  function FindUser(users: seq<LocalUser>, email: string, password: string): (r: Option<LocalUser>)
    ensures r.Some? ==> r.value in users && r.value.email == email && r.value.password == password
    ensures r.None? <==> forall i :: 0 <= i < |users| ==> users[i].email != email || users[i].password != password
    decreases |users|
  {
    if users == [] then None
    else if users[0].email == email && users[0].password == password then Some(users[0])
    else
      var rest := FindUser(users[1..], email, password);
      assert forall i :: 1 <= i < |users| ==> users[i] == users[1..][i - 1];
      rest
  }

  /** With distinct emails a match is the one user with that email. */
  lemma FoundIsByEmail(users: seq<LocalUser>, email: string, password: string)
    requires DistinctEmails(users)
    requires FindUser(users, email, password).Some?
    ensures FindUser(users, email, password) == RegisterPage.FindByEmail(users, email)
  {
    var u := FindUser(users, email, password).value;
    var f := RegisterPage.FindByEmail(users, email);
    var i :| 0 <= i < |users| && users[i] == u;
    var j :| 0 <= j < |users| && users[j] == f.value;
    if i != j {
      assert false;
    }
  }

  /** A freshly registered account signs in with its email and password. */
  lemma {:induction false} RegisteredCanSignIn(users: seq<LocalUser>, now: int, email: string, password: string)
    requires RegisterPage.FindByEmail(users, email).None?
    ensures FindUser(users + [LocalUser(now, email, password, false, "user")], email, password)
      == Some(LocalUser(now, email, password, false, "user"))
    decreases |users|
  {
    var all := users + [LocalUser(now, email, password, false, "user")];
    if users != [] {
      assert users[0].email != email;
      RegisteredCanSignIn(users[1..], now, email, password);
      assert all[1..] == users[1..] + [LocalUser(now, email, password, false, "user")];
    }
  }

  /** `handleLogin`: no match, or a banned account, is an error and signs no one in;
      otherwise the matched user is stored as the signed-in user. */
  method HandleLogin(store: LocalStore, email: string, password: string) returns (error: Option<string>)
    modifies store
    ensures store.users == old(store.users) && store.profiles == old(store.profiles)
    ensures var found := FindUser(old(store.users), email, password);
      && (found.None? ==> error == Some(InvalidCredentials) && store.user == old(store.user))
      && (found.Some? && found.value.banned ==> error == Some(AccountBanned) && store.user == old(store.user))
      && (found.Some? && !found.value.banned ==> error.None? && store.user == found)
  {
    var found := FindUser(store.users, email, password);
    if found.None? {
      return Some(InvalidCredentials);
    }
    if found.value.banned {
      return Some(AccountBanned);
    }
    store.user := found;
    error := None;
  }
}
