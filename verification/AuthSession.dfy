/** The client's session signal (`AuthService` in src/app/services/auth.service.ts):
    the current user, login with its fallback temporary user, and logout. */
module AuthSession {
  import opened Basics
  import opened Strings

  /** The user object the client keeps for the session (`LoginResponse`). */
  datatype SessionUser = SessionUser(
    id: int,
    email: string,
    first_name: string,
    role: string,
    email_verified: bool)

  /** The body of a successful POST /api/users/login; only `user` is read. */
  datatype LoginReply = LoginReply(user: Option<SessionUser>)

  /** `Array.from(s).reduce((acc, ch) => acc + ch.charCodeAt(0), 0)`. */
  function CharCodeSum(s: string): nat
    decreases |s|
  {
    if s == [] then 0 else CharCodeSum(s[..|s| - 1]) + s[|s| - 1] as int
  }

  lemma {:induction false} CharCodeSumAppend(a: string, b: string)
    ensures CharCodeSum(a + b) == CharCodeSum(a) + CharCodeSum(b)
    decreases |b|
  {
    if b != [] {
      var b' := b[..|b| - 1];
      assert (a + b)[..|a + b| - 1] == a + b';
      CharCodeSumAppend(a, b');
    } else {
      assert a + b == a;
    }
  }

  /** The temporary id ignores character order, so two e-mails that are
      anagrams of each other get the same id. */
  lemma CharCodeSumSwap(a: string, x: char, y: char, b: string)
    ensures CharCodeSum(a + [x, y] + b) == CharCodeSum(a + [y, x] + b)
  {
    CharCodeSumAppend(a + [x, y], b);
    CharCodeSumAppend(a + [y, x], b);
    CharCodeSumAppend(a, [x, y]);
    CharCodeSumAppend(a, [y, x]);
    assert [x, y][..1] == [x];
    assert [y, x][..1] == [y];
  }

  /** The user that `login` publishes for a reply: the reply's own user when it
      has one, otherwise a temporary user derived from the e-mail. */
  function MapLoginReply(email: string, reply: LoginReply): (u: SessionUser)
    ensures reply.user.Some? ==> u == reply.user.value
    ensures reply.user.None? ==> u.id == CharCodeSum(email) && u.email == email
    ensures reply.user.None? ==> u.role == "user" && !u.email_verified
    ensures reply.user.None? ==>
      && StartsWith(email, u.first_name)
      && '@' !in u.first_name
      && (|u.first_name| < |email| ==> email[|u.first_name|] == '@')
  {
    if reply.user.Some? then reply.user.value
    else SessionUser(
      id := CharCodeSum(email),
      email := email,
      first_name := Split(email, '@')[0],
      role := "user",
      email_verified := false)
  }

  /** Holds the value of `currentUserSubject`. */
  class AuthService {
    var current: Option<SessionUser>

    /** The subject starts from the user stored in the browser, if any. */
    constructor (stored: Option<SessionUser>)
      ensures current == stored
    {
      current := stored;
    }

    function IsLoggedIn(): bool
      reads this
    {
      current.Some?
    }

    function GetCurrentUser(): Option<SessionUser>
      reads this
    {
      current
    }

    /** Completion of `login(email, password)` with the server's reply. */
    method Login(email: string, reply: LoginReply) returns (user: SessionUser)
      modifies this
      ensures user == MapLoginReply(email, reply)
      ensures GetCurrentUser() == Some(user) && IsLoggedIn()
    {
      user := MapLoginReply(email, reply);
      current := Some(user);
    }

    method Logout()
      modifies this
      ensures GetCurrentUser() == None && !IsLoggedIn()
    {
      current := None;
    }
  }
}
