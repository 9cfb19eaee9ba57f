/** The authentication provider: a list of registered accounts and the
    signed-in session, both kept in the browser's key-value storage. The two
    storage keys are fields here: `users` for 'hridaymitra_users' (an absent
    key reads as the empty list) and `storedUser` for 'hridaymitra_user'. */
module AuthContext {
  import opened Wrappers

  /** The session user: never carries a password. */
  datatype User = User(id: string, name: string, email: string, avatar: Option<string>)

  /** A registered account as stored in the account list. */
  datatype UserRow = UserRow(id: string, name: string, email: string, password: string, avatar: Option<string>)

  datatype AuthError = UserNotFound | InvalidPassword | UserExists

  /** What an operation that can throw ends with. */
  datatype Outcome = Done | Failed(error: AuthError)

  /** The message each thrown error carries. */
  function ErrorMessage(e: AuthError): string {
    match e
    case UserNotFound => "User not found. Please sign up first."
    case InvalidPassword => "Invalid password."
    case UserExists => "User already exists. Please login instead."
  }

  const GoogleUserName := "Google User"
  const GoogleUserEmail := "user@gmail.com"
  const GoogleUserAvatar := "https://images.unsplash.com/photo-1472099645785-5658abf4ff4e?w=100&h=100&fit=crop&crop=face"

  /** `users.find(u => u.email === email)`, as the position of the first
      account with that email. */
  function FindByEmail(users: seq<UserRow>, email: string): (i: Option<nat>)
    ensures i.Some? ==> i.value < |users| && users[i.value].email == email
    ensures i.Some? ==> forall j :: 0 <= j < i.value ==> users[j].email != email
    ensures i.None? <==> forall j :: 0 <= j < |users| ==> users[j].email != email
  {
    if users == [] then None
    else if users[0].email == email then Some(0)
    else match FindByEmail(users[1..], email)
      case None => None
      case Some(k) => Some(k + 1)
  }

  /** The session built from an account: everything but the password. */
  function SessionOf(row: UserRow): User {
    User(row.id, row.name, row.email, row.avatar)
  }

  /** No two accounts share an email. */
  ghost predicate EmailsDistinct(users: seq<UserRow>) {
    forall i, j :: 0 <= i < j < |users| ==> users[i].email != users[j].email
  }

  /** The account list after `updateAvatar`: accounts with the given id get
      the new avatar; nothing else in the list changes. */
  function WithAvatar(users: seq<UserRow>, id: string, url: string): (r: seq<UserRow>)
    ensures |r| == |users|
    ensures forall i :: 0 <= i < |users| ==> r[i].(avatar := users[i].avatar) == users[i]
    ensures forall i :: 0 <= i < |users| ==>
              r[i].avatar == (if users[i].id == id then Some(url) else users[i].avatar)
  {
    if users == [] then []
    else
      var head := if users[0].id == id then users[0].(avatar := Some(url)) else users[0];
      [head] + WithAvatar(users[1..], id, url)
  }

  /** A sign-up only appends an account whose email is new, so emails stay
      distinct. */
  lemma SignupKeepsEmailsDistinct(users: seq<UserRow>, row: UserRow)
    requires EmailsDistinct(users)
    requires FindByEmail(users, row.email).None?
    ensures EmailsDistinct(users + [row])
  {
    var all := users + [row];
    forall i, j | 0 <= i < j < |all| ensures all[i].email != all[j].email {
      if j == |users| {
        assert users[i].email != row.email;
      }
    }
  }

  /** After appending an account with a new email, looking that email up
      finds the new account, and every other email is found where it was. */
  lemma {:induction false} FindAfterAppend(users: seq<UserRow>, row: UserRow, email: string)
    requires FindByEmail(users, row.email).None?
    ensures FindByEmail(users + [row], email) ==
              (if email == row.email then Some(|users|) else FindByEmail(users, email))
  {
    if users != [] {
      assert (users + [row])[1..] == users[1..] + [row];
      if users[0].email != email {
        FindAfterAppend(users[1..], row, email);
      }
    }
  }

  /** Changing avatars leaves every email lookup where it was, and the
      account it finds keeps its password. */
  lemma {:induction false} WithAvatarKeepsLogin(users: seq<UserRow>, id: string, url: string, email: string)
    ensures FindByEmail(WithAvatar(users, id, url), email) == FindByEmail(users, email)
    ensures FindByEmail(users, email).Some? ==>
              WithAvatar(users, id, url)[FindByEmail(users, email).value].password
                == users[FindByEmail(users, email).value].password
  {
    if users != [] {
      var r := WithAvatar(users, id, url);
      assert r[0].email == users[0].email;
      if users[0].email != email {
        assert r[1..] == WithAvatar(users[1..], id, url);
        WithAvatarKeepsLogin(users[1..], id, url, email);
      }
    }
  }

  /** Setting the same avatar twice is setting it once. */
  lemma WithAvatarIdempotent(users: seq<UserRow>, id: string, url: string)
    ensures WithAvatar(WithAvatar(users, id, url), id, url) == WithAvatar(users, id, url)
  {
    var once := WithAvatar(users, id, url);
    var twice := WithAvatar(once, id, url);
    forall i | 0 <= i < |users| ensures twice[i] == once[i] {
      assert once[i].(avatar := users[i].avatar) == users[i];
    }
  }

  class AuthProvider {
    var users: seq<UserRow>
    var storedUser: Option<User>
    var user: Option<User>
    var isLoading: bool

    /** The session state and its stored copy always agree. */
    ghost predicate Valid()
      reads this
    {
      user == storedUser
    }

    /** The provider as mounted: the session is restored from storage and
        loading ends. */
    constructor (storedUsers: seq<UserRow>, storedSession: Option<User>)
      ensures Valid() && users == storedUsers && user == storedSession && !isLoading
    {
      users := storedUsers;
      storedUser := storedSession;
      user := storedSession;
      isLoading := false;
    }

    /** `login`: find the first account with the email and check the
        password. A failure throws before loading is reset, so `isLoading`
        stays true; the account list is never changed. */
    method Login(email: string, password: string) returns (outcome: Outcome)
      requires Valid()
      modifies this
      ensures Valid() && users == old(users)
      ensures outcome != Failed(UserExists)
      ensures outcome == Failed(UserNotFound) <==> FindByEmail(users, email).None?
      ensures outcome == Failed(InvalidPassword) <==>
                FindByEmail(users, email).Some? && users[FindByEmail(users, email).value].password != password
      ensures outcome.Failed? ==> user == old(user) && isLoading
      ensures outcome.Done? ==>
                user == Some(SessionOf(users[FindByEmail(users, email).value])) && !isLoading
    {
      isLoading := true;
      var found := FindByEmail(users, email);
      if found.None? {
        return Failed(UserNotFound);
      }
      var existing := users[found.value];
      if existing.password != password {
        return Failed(InvalidPassword);
      }
      user := Some(SessionOf(existing));
      storedUser := user;
      isLoading := false;
      outcome := Done;
    }

    /** `signup`: an email already registered is refused (loading is reset
        first); otherwise one account without an avatar is appended and
        becomes the session. `newId` is the fresh identifier the browser
        generates. */
    method Signup(name: string, email: string, password: string, newId: string) returns (outcome: Outcome)
      requires Valid()
      modifies this
      ensures Valid() && !isLoading
      ensures outcome == Done || outcome == Failed(UserExists)
      ensures outcome == Failed(UserExists) <==> FindByEmail(old(users), email).Some?
      ensures outcome.Failed? ==> users == old(users) && user == old(user)
      ensures outcome.Done? ==>
                && users == old(users) + [UserRow(newId, name, email, password, None)]
                && user == Some(User(newId, name, email, None))
    {
      isLoading := true;
      if FindByEmail(users, email).Some? {
        isLoading := false;
        return Failed(UserExists);
      }
      users := users + [UserRow(newId, name, email, password, None)];
      user := Some(User(newId, name, email, None));
      storedUser := user;
      isLoading := false;
      outcome := Done;
    }

    /** `loginWithGoogle`: a fixed demo identity with a fresh id; the account
        list is not touched. */
    method LoginWithGoogle(newId: string)
      requires Valid()
      modifies this
      ensures Valid() && users == old(users) && !isLoading
      ensures user == Some(User(newId, GoogleUserName, GoogleUserEmail, Some(GoogleUserAvatar)))
    {
      isLoading := true;
      user := Some(User(newId, GoogleUserName, GoogleUserEmail, Some(GoogleUserAvatar)));
      storedUser := user;
      isLoading := false;
    }

    /** `logout`: the session and its stored copy are cleared; accounts and
        the loading flag stay as they are. */
    method Logout()
      requires Valid()
      modifies this
      ensures Valid() && user == None
      ensures users == old(users) && isLoading == old(isLoading)
    {
      user := None;
      storedUser := None;
    }

    /** `updateAvatar`: with no session nothing happens; otherwise the
        session and every account with the session's id get the new avatar. */
    method UpdateAvatar(url: string)
      requires Valid()
      modifies this
      ensures Valid() && isLoading == old(isLoading)
      ensures old(user).None? ==> user == old(user) && users == old(users)
      ensures old(user).Some? ==>
                && user == Some(old(user).value.(avatar := Some(url)))
                && users == WithAvatar(old(users), old(user).value.id, url)
    {
      if user.Some? {
        var updated := user.value.(avatar := Some(url));
        users := WithAvatar(users, user.value.id, url);
        user := Some(updated);
        storedUser := user;
      }
    }
  }
}
