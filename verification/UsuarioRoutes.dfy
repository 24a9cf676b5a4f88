/** The `usuarios` blueprint (routes/usuarios.py): registration with its
    required-field loop, the reset request that stores a plain token with a
    one-hour expiry, and the password reset that consumes it. */
module UsuarioRoutes {
  import opened Basics
  import opened Strings

  /** A row of this blueprint's `users` model. */
  datatype Usuario = Usuario(
    id: int,
    email: string,
    password_hash: string,
    first_name: string,
    last_name: string,
    role: string,
    email_verified: bool,
    reset_token: Option<string>,
    reset_token_expires: Option<int>)

  /** A JSON request body: the keys present and their text values. */
  type Body = map<string, string>

  const RequiredFields: seq<string> := ["email", "password", "first_name"]

  /** `timedelta(hours=1)` in seconds. */
  const ResetLifetime: int := 3600

  const ResetUrlPrefix: string := "http://localhost:4200/reset-password?token="

  /** The link returned by `solicitar_reset`; the token is its whole query value. */
  function ResetUrl(token: string): (url: string)
    ensures StartsWith(url, ResetUrlPrefix) && url[|ResetUrlPrefix|..] == token
  {
    ResetUrlPrefix + token
  }

  /** `data.get(key)` is truthy. */
  predicate HasText(data: Body, key: string) {
    key in data && data[key] != ""
  }

  predicate AllRequired(data: Body) {
    "email" in data && "password" in data && "first_name" in data
  }

  /** `field` is the first of the required fields that the body lacks. */
  predicate FirstMissing(data: Body, field: string) {
    exists k :: 0 <= k < |RequiredFields| && RequiredFields[k] == field
      && field !in data && (forall j :: 0 <= j < k ==> RequiredFields[j] in data)
  }

  /** The loop over `required_fields`: the first one missing from the body. */
  method FindMissingField(data: Body) returns (missing: Option<string>)
    ensures missing.None? <==> AllRequired(data)
    ensures missing.Some? ==> FirstMissing(data, missing.value)
  {
    var i := 0;
    while i < |RequiredFields|
      invariant 0 <= i <= |RequiredFields|
      invariant forall j :: 0 <= j < i ==> RequiredFields[j] in data
    {
      if RequiredFields[i] !in data {
        return Some(RequiredFields[i]);
      }
      i := i + 1;
    }
    assert RequiredFields[0] in data && RequiredFields[1] in data && RequiredFields[2] in data;
    return None;
  }

  function FindEmail(users: seq<Usuario>, email: string): (r: Option<nat>)
    ensures r.Some? ==> r.value < |users| && users[r.value].email == email
    ensures r.None? ==> forall j :: 0 <= j < |users| ==> users[j].email != email
  {
    var p := (u: Usuario) => u.email == email;
    var r := FirstIndex(users, p);
    assert r.Some? ==> p(users[r.value]);
    assert r.None? ==> forall j :: 0 <= j < |users| ==> !p(users[j]);
    r
  }

  /** `Usuario.query.filter_by(reset_token=token).first()`. */
  function FindResetToken(users: seq<Usuario>, token: string): (r: Option<nat>)
    ensures r.Some? ==> r.value < |users| && users[r.value].reset_token == Some(token)
    ensures r.None? ==> forall j :: 0 <= j < |users| ==> users[j].reset_token != Some(token)
  {
    var p := (u: Usuario) => u.reset_token == Some(token);
    var r := FirstIndex(users, p);
    assert r.Some? ==> p(users[r.value]);
    assert r.None? ==> forall j :: 0 <= j < |users| ==> !p(users[j]);
    r
  }

  /** The `unique=True` constraint on `reset_token`. */
  predicate UniqueResetTokens(users: seq<Usuario>) {
    forall i, j :: 0 <= i < j < |users| && users[i].reset_token.Some? ==> users[i].reset_token != users[j].reset_token
  }

  /** Another row than `i` already holds `token`. */
  predicate TokenHeldElsewhere(users: seq<Usuario>, i: nat, token: string) {
    exists j :: 0 <= j < |users| && j != i && users[j].reset_token == Some(token)
  }

  class UsuarioTable {
    /** `generate_password_hash`, as a given function. */
    const passwordHash: string -> string
    var users: seq<Usuario>
    var nextId: int

    constructor (passwordHash: string -> string)
      ensures this.passwordHash == passwordHash && users == [] && nextId == 1
    {
      this.passwordHash := passwordHash;
      users := [];
      nextId := 1;
    }

    /** POST /register. The email is compared as given, without normalisation. */
    method Register(data: Body) returns (status: int, missing: Option<string>)
      modifies this
      ensures missing.None? <==> AllRequired(data)
      ensures missing.Some? ==>
        status == 400 && FirstMissing(data, missing.value) && users == old(users) && nextId == old(nextId)
      ensures missing.None? && FindEmail(old(users), data["email"]).Some? ==>
        status == 400 && users == old(users) && nextId == old(nextId)
      ensures missing.None? && FindEmail(old(users), data["email"]).None? ==>
        status == 201 && nextId == old(nextId) + 1
        && users == old(users) + [Usuario(
             id := old(nextId),
             email := data["email"],
             password_hash := passwordHash(data["password"]),
             first_name := data["first_name"],
             last_name := if "last_name" in data then data["last_name"] else "",
             role := "user",
             email_verified := false,
             reset_token := None,
             reset_token_expires := None)]
      ensures old(UniqueResetTokens(users)) ==> UniqueResetTokens(users)
    {
      missing := FindMissingField(data);
      if missing.Some? {
        return 400, missing;
      }
      if FindEmail(users, data["email"]).Some? {
        return 400, None;
      }
      var nuevo := Usuario(
        id := nextId,
        email := data["email"],
        password_hash := passwordHash(data["password"]),
        first_name := data["first_name"],
        last_name := if "last_name" in data then data["last_name"] else "",
        role := "user",
        email_verified := false,
        reset_token := None,
        reset_token_expires := None);
      users := users + [nuevo];
      nextId := nextId + 1;
      status := 201;
    }

    /** POST /solicitar-reset. `token` is the `secrets.token_urlsafe(32)` value.
        A token already held by another row fails the unique constraint, and
        the rollback leaves every row as it was. */
    method SolicitarReset(data: Body, token: string, now: int) returns (status: int, resetUrl: Option<string>)
      modifies this`users
      ensures !HasText(data, "email") ==> status == 400 && resetUrl.None? && users == old(users)
      ensures HasText(data, "email") && FindEmail(old(users), data["email"]).None? ==>
        status == 200 && resetUrl.None? && users == old(users)
      ensures HasText(data, "email") && FindEmail(old(users), data["email"]).Some? ==>
        var i := FindEmail(old(users), data["email"]).value;
        if TokenHeldElsewhere(old(users), i, token)
        then status == 500 && resetUrl.None? && users == old(users)
        else (status == 200 && resetUrl == Some(ResetUrl(token))
          && users == old(users)[i := old(users)[i].(reset_token := Some(token), reset_token_expires := Some(now + ResetLifetime))])
      ensures old(UniqueResetTokens(users)) ==> UniqueResetTokens(users)
    {
      if !HasText(data, "email") {
        return 400, None;
      }
      var found := FindEmail(users, data["email"]);
      if found.None? {
        return 200, None;
      }
      var i := found.value;
      if TokenHeldElsewhere(users, i, token) {
        return 500, None;
      }
      users := users[i := users[i].(reset_token := Some(token), reset_token_expires := Some(now + ResetLifetime))];
      status, resetUrl := 200, Some(ResetUrl(token));
    }

    /** POST /reset-password. An expiry equal to `now` is still accepted. */
    method ResetPassword(data: Body, now: int) returns (status: int)
      modifies this`users
      ensures !HasText(data, "token") || !HasText(data, "password") ==> status == 400 && users == old(users)
      ensures HasText(data, "token") && HasText(data, "password") ==>
        match FindResetToken(old(users), data["token"])
        case None => status == 400 && users == old(users)
        case Some(i) =>
          if old(users)[i].reset_token_expires.None? || old(users)[i].reset_token_expires.value < now
          then status == 400 && users == old(users)
          else (status == 200
            && users == old(users)[i := old(users)[i].(password_hash := passwordHash(data["password"]),
                                                       reset_token := None, reset_token_expires := None)])
      ensures old(UniqueResetTokens(users)) ==> UniqueResetTokens(users)
      ensures old(UniqueResetTokens(users)) && status == 200 ==> FindResetToken(users, data["token"]).None?
    {
      if !HasText(data, "token") || !HasText(data, "password") {
        return 400;
      }
      var found := FindResetToken(users, data["token"]);
      if found.None? {
        return 400;
      }
      var i := found.value;
      if users[i].reset_token_expires.None? || users[i].reset_token_expires.value < now {
        return 400;
      }
      users := users[i := users[i].(password_hash := passwordHash(data["password"]),
                                    reset_token := None, reset_token_expires := None)];
      status := 200;
    }
  }
}
