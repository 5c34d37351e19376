/** Signing in and out against the built-in account list
    (src/contexts/AuthContext.tsx). */
module Auth {
  import opened Wrappers

  /** A built-in account, password included. */
  datatype Account = Account(id: string, username: string, email: string, password: string)

  /** The signed-in user as stored: an account without its password. */
  datatype User = User(id: string, username: string, email: string)

  const MockUsers: seq<Account> := [
    Account("1", "admin", "admin@example.com", "password123"),
    Account("2", "user", "user@example.com", "password123")
  ]

  datatype Session = Session(user: Option<User>, isLoading: bool)

  predicate Matches(a: Account, email: string, password: string) {
    a.email == email && a.password == password
  }

  /** `accounts.find(...)`: the index of the first account whose email and
      password both match exactly. */
  function FindAccount(accounts: seq<Account>, email: string, password: string): (r: Option<nat>)
    ensures r.Some? ==> r.value < |accounts| && Matches(accounts[r.value], email, password)
    ensures r.Some? ==> forall j | 0 <= j < r.value :: !Matches(accounts[j], email, password)
    ensures r.None? <==> forall j | 0 <= j < |accounts| :: !Matches(accounts[j], email, password)
    decreases |accounts|
  {
    if |accounts| == 0 then None
    else if Matches(accounts[0], email, password) then Some(0)
    else match FindAccount(accounts[1..], email, password)
      case None => None
      case Some(k) => Some(k + 1)
  }

  /** The account as stored after sign-in: every field but the password. */
  function WithoutPassword(a: Account): (u: User)
    ensures u.id == a.id && u.username == a.username && u.email == a.email
  {
    User(a.id, a.username, a.email)
  }

  /** `login`: on a match the account, without its password, becomes the
      user and the result is true; otherwise the user stays as it was and the
      result is false (the source's "Login failed" notification).  Loading
      is over either way, so unlike the form handlers a failed sign-in is not
      an `Err`. */
  function Login(s: Session, email: string, password: string): (r: (Session, bool))
    ensures r.1 <==> exists k | 0 <= k < |MockUsers| :: Matches(MockUsers[k], email, password)
    ensures r.1 ==> exists k | 0 <= k < |MockUsers| ::
                      Matches(MockUsers[k], email, password) && r.0.user == Some(WithoutPassword(MockUsers[k]))
    ensures !r.1 ==> r.0.user == s.user
    ensures !r.0.isLoading
  {
    match FindAccount(MockUsers, email, password)
    case Some(k) => (Session(Some(WithoutPassword(MockUsers[k])), false), true)
    case None => (s.(isLoading := false), false)
  }

  /** `logout`: nobody is signed in afterwards. */
  function Logout(s: Session): (r: Session)
    ensures r.user.None?
    ensures r.isLoading == s.isLoading
  {
    s.(user := None)
  }

  /** The built-in emails are distinct, so a sign-in matches one account at
      most and the stored user is determined by the email alone. */
  lemma MatchUnique(email: string, password: string, i: nat, j: nat)
    requires i < |MockUsers| && j < |MockUsers|
    requires Matches(MockUsers[i], email, password) && Matches(MockUsers[j], email, password)
    ensures i == j
  {
    assert MockUsers[0].email[0] != MockUsers[1].email[0];
  }

  /** The two built-in sign-ins and what they store. */
  lemma KnownAccounts(s: Session)
    ensures Login(s, "admin@example.com", "password123") == (Session(Some(User("1", "admin", "admin@example.com")), false), true)
    ensures Login(s, "user@example.com", "password123") == (Session(Some(User("2", "user", "user@example.com")), false), true)
  {
    assert Matches(MockUsers[0], "admin@example.com", "password123");
    assert !Matches(MockUsers[0], "user@example.com", "password123") by {
      assert MockUsers[0].email[0] != "user@example.com"[0];
    }
    assert Matches(MockUsers[1], "user@example.com", "password123");
  }

  /** A wrong password is refused even for a known email. */
  lemma WrongPasswordRefused(s: Session, email: string, password: string)
    requires password != "password123"
    ensures !Login(s, email, password).1
    ensures Login(s, email, password).0.user == s.user
  {
  }

  /** Signing out undoes any sign-in. */
  lemma LogoutAfterLogin(s: Session, email: string, password: string)
    ensures Logout(Login(s, email, password).0).user.None?
    ensures Logout(Login(s, email, password).0) == Logout(s).(isLoading := false)
  {
  }
}
