/** The account and catalogue rules of the Flask application (app.py): the
    `User` token methods, registration, e-mail verification, the two login
    handlers, the password-reset pair, and the validation of new products and
    orders. Hashing is a parameter and time is an integer clock in seconds. */
module AppServer {
  import opened Basics
  import opened Strings
  import opened Api

  /** `timedelta(hours=1)`, the lifetime of a reset token. */
  const ResetTokenLifetime: int := 3600
  /** `timedelta(minutes=15)`, the length of a lockout. */
  const LockoutSeconds: int := 900
  /** The failed-attempt count at which `login` locks the account. */
  const MaxFailedAttempts: int := 5

  /** `make_token_hash` (SHA-256 of the token) and the password hash, as given functions. */
  datatype Hashing = Hashing(token: string -> string, password: string -> string)

  /** A row of the `users` table, reduced to the columns the handlers read or write. */
  datatype User = User(
    id: int,
    email: string,
    password_hash: string,
    first_name: Option<string>,
    last_name: Option<string>,
    email_verified: bool,
    email_verification_hash: Option<string>,
    password_reset_hash: Option<string>,
    password_reset_expires: Option<int>,
    role: string,
    is_active: bool,
    last_login_at: Option<int>,
    failed_login_attempts: int,
    locked_until: Option<int>)

  predicate CheckPassword(h: Hashing, u: User, password: string) {
    h.password(password) == u.password_hash
  }

  /** No stored hash means no token is accepted; otherwise the token must hash to it. */
  function CheckEmailVerificationToken(h: Hashing, u: User, token: string): (ok: bool)
    ensures ok ==> u.email_verification_hash == Some(h.token(token))
    ensures u.email_verification_hash == Some(h.token(token)) && h.token(token) != "" ==> ok
  {
    if !Truthy(u.email_verification_hash) then false
    else u.email_verification_hash.value == h.token(token)
  }

  function SetEmailVerificationToken(h: Hashing, u: User, token: string): User {
    u.(email_verification_hash := Some(h.token(token)))
  }

  function SetPasswordResetToken(h: Hashing, u: User, token: string, now: int): User {
    u.(password_reset_hash := Some(h.token(token)), password_reset_expires := Some(now + ResetTokenLifetime))
  }

  /** A reset token is accepted while `now` has not passed the expiry, and only
      if it hashes to the stored hash. */
  function CheckPasswordResetToken(h: Hashing, u: User, token: string, now: int): (ok: bool)
    ensures ok ==>
      u.password_reset_hash == Some(h.token(token))
      && u.password_reset_expires.Some? && now <= u.password_reset_expires.value
    ensures (u.password_reset_hash == Some(h.token(token)) && h.token(token) != ""
      && u.password_reset_expires.Some? && now <= u.password_reset_expires.value) ==> ok
  {
    if !Truthy(u.password_reset_hash) || u.password_reset_expires.None? then false
    else if now > u.password_reset_expires.value then false
    else u.password_reset_hash.value == h.token(token)
  }

  /** A freshly set reset token is accepted exactly up to one hour later,
      the expiry instant included. */
  lemma ResetTokenWindow(h: Hashing, u: User, token: string, now: int, t: int)
    requires h.token(token) != ""
    ensures CheckPasswordResetToken(h, SetPasswordResetToken(h, u, token, now), token, t)
      <==> t <= now + ResetTokenLifetime
  {
  }

  /** `(data.get('email') or '').strip().lower()`. */
  function NormalizeEmail(raw: Option<string>): string {
    Lower(Trim(raw.GetOr("")))
  }

  lemma LowerLower(s: string)
    ensures Lower(Lower(s)) == Lower(s)
  {
  }

  /** Normalising an address that is already normalised changes nothing. */
  lemma NormalizeEmailIdempotent(raw: Option<string>)
    ensures NormalizeEmail(Some(NormalizeEmail(raw))) == NormalizeEmail(raw)
  {
    var t := Trim(raw.GetOr(""));
    TrimmedEnds(raw.GetOr(""));
    if t != [] {
      LowerCharSpace(t[0]);
      LowerCharSpace(t[|t| - 1]);
    }
    TrimUnchanged(Lower(t));
    LowerLower(t);
  }

  /** The checks `login` makes once the account is found: password, active
      flag, an unexpired lock, then the failed-attempt count. */
  datatype LoginOutcome = LoginOutcome(status: int, user: User)

  predicate LockedAt(u: User, now: int) {
    u.locked_until.Some? && u.locked_until.value > now
  }

  /** The account with the three login-bookkeeping columns taken from `from`. */
  function WithLoginFields(u: User, from: User): User {
    u.(failed_login_attempts := from.failed_login_attempts,
       last_login_at := from.last_login_at,
       locked_until := from.locked_until)
  }

  function LoginChecks(h: Hashing, u: User, password: string, now: int): (o: LoginOutcome)
    ensures o.status == 200 <==>
      CheckPassword(h, u, password) && u.is_active && !LockedAt(u, now)
      && u.failed_login_attempts < MaxFailedAttempts
    ensures o.status != 200 ==> o.status == 401
    ensures WithLoginFields(o.user, u) == u
    ensures o.user.failed_login_attempts == if o.status == 200 then 0 else u.failed_login_attempts
    ensures o.user.last_login_at == if o.status == 200 then Some(now) else u.last_login_at
    ensures o.user.locked_until ==
      if CheckPassword(h, u, password) && u.is_active && !LockedAt(u, now)
         && u.failed_login_attempts >= MaxFailedAttempts
      then Some(now + LockoutSeconds) else u.locked_until
  {
    if !CheckPassword(h, u, password) then LoginOutcome(401, u)
    else if !u.is_active then LoginOutcome(401, u)
    else if LockedAt(u, now) then LoginOutcome(401, u)
    else if u.failed_login_attempts >= MaxFailedAttempts then
      LoginOutcome(401, u.(locked_until := Some(now + LockoutSeconds)))
    else LoginOutcome(200, u.(failed_login_attempts := 0, last_login_at := Some(now)))
  }

  /** The checks `login_user` makes once the account is found: only the
      password, counting a wrong one. */
  function LoginUserChecks(h: Hashing, u: User, password: string, now: int): (o: LoginOutcome)
    ensures o.status == 200 <==> CheckPassword(h, u, password)
    ensures o.status != 200 ==> o.status == 401
    ensures WithLoginFields(o.user, u) == u
    ensures o.user.locked_until == u.locked_until
    ensures o.user.failed_login_attempts ==
      if o.status == 200 then 0 else u.failed_login_attempts + 1
  {
    if !CheckPassword(h, u, password) then
      LoginOutcome(401, u.(failed_login_attempts := u.failed_login_attempts + 1))
    else LoginOutcome(200, u.(last_login_at := Some(now), failed_login_attempts := 0))
  }

  /** The account after a run of `login` attempts, each a (password, clock) pair. */
  function AfterLogins(h: Hashing, u: User, attempts: seq<(string, int)>): User
    decreases |attempts|
  {
    if attempts == [] then u
    else AfterLogins(h, LoginChecks(h, u, attempts[0].0, attempts[0].1).user, attempts[1..])
  }

  /** `login` never lowers the counter except on success, and success needs it
      below the limit, so an account with five or more recorded failures never
      logs in through `login` again, whatever passwords and times follow. */
  lemma {:induction false} LoginLockoutIsPermanent(h: Hashing, u: User, attempts: seq<(string, int)>, password: string, now: int)
    requires u.failed_login_attempts >= MaxFailedAttempts
    ensures AfterLogins(h, u, attempts).failed_login_attempts == u.failed_login_attempts
    ensures LoginChecks(h, AfterLogins(h, u, attempts), password, now).status == 401
    decreases |attempts|
  {
    if attempts != [] {
      var next := LoginChecks(h, u, attempts[0].0, attempts[0].1).user;
      LoginLockoutIsPermanent(h, next, attempts[1..], password, now);
    }
  }

  /** A lock set at `now` refuses every `login` until it runs out, correct password or not. */
  lemma LockHolds(h: Hashing, u: User, password: string, now: int, password2: string, t: int)
    requires LoginChecks(h, u, password, now).user.locked_until == Some(now + LockoutSeconds)
    requires now <= t < now + LockoutSeconds
    ensures LoginChecks(h, LoginChecks(h, u, password, now).user, password2, t).status == 401
  {
  }

  /** `filter_by(email=...).first()` over the users table. */
  function FindEmail(users: seq<User>, email: string): (r: Option<nat>)
    ensures r.Some? ==> r.value < |users| && users[r.value].email == email
    ensures r.Some? ==> forall j :: 0 <= j < r.value ==> users[j].email != email
    ensures r.None? ==> forall j :: 0 <= j < |users| ==> users[j].email != email
  {
    var p := (u: User) => u.email == email;
    var r := FirstIndex(users, p);
    assert r.Some? ==> p(users[r.value]);
    assert r.Some? ==> forall j :: 0 <= j < r.value ==> !p(users[j]);
    assert r.None? ==> forall j :: 0 <= j < |users| ==> !p(users[j]);
    r
  }

  predicate UniqueEmails(users: seq<User>) {
    forall i, j :: 0 <= i < j < |users| ==> users[i].email != users[j].email
  }

  /** Appending an account whose address is not yet taken keeps addresses distinct. */
  lemma AppendKeepsEmailsUnique(users: seq<User>, u: User)
    requires UniqueEmails(users)
    requires forall j :: 0 <= j < |users| ==> users[j].email != u.email
    ensures UniqueEmails(users + [u])
  {
    var r := users + [u];
    forall i, j | 0 <= i < j < |r|
      ensures r[i].email != r[j].email
    {
      if j == |users| {
        assert r[i] == users[i];
      } else {
        assert r[i] == users[i] && r[j] == users[j];
      }
    }
  }

  /** The row `register_user` inserts, with the column defaults of the model. */
  function NewUser(h: Hashing, id: int, email: string, password: string, firstName: Option<string>, token: string): User {
    User(
      id := id,
      email := email,
      password_hash := h.password(password),
      first_name := firstName,
      last_name := None,
      email_verified := false,
      email_verification_hash := Some(h.token(token)),
      password_reset_hash := None,
      password_reset_expires := None,
      role := "user",
      is_active := true,
      last_login_at := None,
      failed_login_attempts := 0,
      locked_until := None)
  }

  /** A new account can log in with its password and be verified with its token. */
  lemma NewUserUsable(h: Hashing, id: int, email: string, password: string, firstName: Option<string>, token: string, now: int)
    requires h.token(token) != ""
    ensures LoginChecks(h, NewUser(h, id, email, password, firstName, token), password, now).status == 200
    ensures CheckEmailVerificationToken(h, NewUser(h, id, email, password, firstName, token), token)
    ensures !NewUser(h, id, email, password, firstName, token).email_verified
  {
  }

  /** `verify_email` / `verify_user` on success. */
  function MarkVerified(u: User): User {
    u.(email_verified := true, email_verification_hash := None)
  }

  /** `complete_password_reset` on success. */
  function ApplyPasswordReset(h: Hashing, u: User, password: string): User {
    u.(password_hash := h.password(password), password_reset_hash := None, password_reset_expires := None)
  }

  /** What `agregar_producto` and `crear_pedido` answer: a status and the inserted row. */
  datatype Reply<T> = Reply(status: int, created: Option<T>)

  /** POST /api/productos: a falsy `nombre` or `precio` (absent, empty, 0) is refused. */
  function AgregarProducto(newId: int, nombre: Option<string>, descripcion: Option<string>,
                           precio: Option<int>, imagen_url: Option<string>): (r: Reply<Product>)
    ensures r.status == 201 <==> Truthy(nombre) && precio.Some? && precio.value != 0
    ensures r.status != 201 ==> r.status == 400 && r.created.None?
    ensures r.status == 201 ==> r.created == Some(Product(newId, nombre.value, descripcion, precio.value, imagen_url))
  {
    if !Truthy(nombre) || precio.None? || precio.value == 0 then Reply(400, None)
    else Reply(201, Some(Product(newId, nombre.value, descripcion, precio.value, imagen_url)))
  }

  /** A row of the `pedidos` table; the delivery date is a day number. */
  datatype Pedido = Pedido(
    id: int,
    nombre: string,
    email: string,
    producto: string,
    cantidad: int,
    fecha_entrega: Option<int>,
    nota: Option<string>)

  /** POST /api/pedidos. `parseDate` is `datetime.fromisoformat(...).date()`,
      `None` where it raises. */
  function CrearPedido(newId: int, nombre: Option<string>, email: Option<string>, producto: Option<string>,
                       cantidad: Option<int>, fecha: Option<string>, nota: Option<string>,
                       parseDate: string -> Option<int>): (r: Reply<Pedido>)
    ensures r.status == 201 <==> Truthy(nombre) && Truthy(email) && Truthy(producto)
    ensures r.status != 201 ==> r.status == 400 && r.created.None?
    ensures r.status == 201 ==> r.created.Some? && r.created.value.cantidad != 0
    ensures r.status == 201 ==>
      r.created.value.id == newId && nombre == Some(r.created.value.nombre) && email == Some(r.created.value.email)
      && producto == Some(r.created.value.producto) && r.created.value.nota == nota
    ensures r.status == 201 && cantidad.Some? && cantidad.value != 0 ==> r.created.value.cantidad == cantidad.value
    ensures r.status == 201 && (cantidad.None? || cantidad.value == 0) ==> r.created.value.cantidad == 1
    ensures r.status == 201 && Truthy(fecha) ==> r.created.value.fecha_entrega == parseDate(fecha.value)
    ensures r.status == 201 && !Truthy(fecha) ==> r.created.value.fecha_entrega.None?
  {
    if !Truthy(nombre) || !Truthy(email) || !Truthy(producto) then Reply(400, None)
    else
      var fechaObj := if Truthy(fecha) then parseDate(fecha.value) else None;
      var qty := if cantidad.Some? && cantidad.value != 0 then cantidad.value else 1;
      Reply(201, Some(Pedido(newId, nombre.value, email.value, producto.value, qty, fechaObj, nota)))
  }

  /** The `users` table and the handlers that read and update it. */
  class AccountStore {
    const hashing: Hashing
    var users: seq<User>
    /** The id the database assigns to the next insert. */
    var nextId: int

    constructor (hashing: Hashing)
      ensures this.hashing == hashing && users == [] && nextId == 1
    {
      this.hashing := hashing;
      users := [];
      nextId := 1;
    }

    /** POST /api/users/register. `token` is the `secrets.token_urlsafe(32)` value. */
    method RegisterUser(email: Option<string>, password: Option<string>, firstName: Option<string>, token: string)
      returns (status: int, verificationToken: Option<string>)
      modifies this
      ensures NormalizeEmail(email) == "" || !Truthy(password) ==>
        status == 400 && verificationToken.None? && users == old(users) && nextId == old(nextId)
      ensures NormalizeEmail(email) != "" && Truthy(password) && FindEmail(old(users), NormalizeEmail(email)).Some? ==>
        status == 400 && verificationToken.None? && users == old(users) && nextId == old(nextId)
      ensures NormalizeEmail(email) != "" && Truthy(password) && FindEmail(old(users), NormalizeEmail(email)).None? ==>
        status == 201 && verificationToken == Some(token)
        && users == old(users) + [NewUser(hashing, old(nextId), NormalizeEmail(email), password.value, firstName, token)]
        && nextId == old(nextId) + 1
      ensures old(UniqueEmails(users)) ==> UniqueEmails(users)
    {
      var e := NormalizeEmail(email);
      if e == "" || !Truthy(password) {
        return 400, None;
      }
      if FindEmail(users, e).Some? {
        return 400, None;
      }
      var nuevo := NewUser(hashing, nextId, e, password.value, firstName, token);
      if UniqueEmails(users) {
        AppendKeepsEmailsUnique(users, nuevo);
      }
      users := users + [nuevo];
      nextId := nextId + 1;
      status, verificationToken := 201, Some(token);
    }

    /** GET /api/users/verify_email; GET /api/users/verify runs the same steps. */
    method VerifyEmail(token: Option<string>, email: Option<string>) returns (status: int)
      modifies this`users
      ensures !Truthy(token) || NormalizeEmail(email) == "" ==> status == 400 && users == old(users)
      ensures Truthy(token) && NormalizeEmail(email) != "" && FindEmail(old(users), NormalizeEmail(email)).None? ==>
        status == 404 && users == old(users)
      ensures Truthy(token) && NormalizeEmail(email) != "" && FindEmail(old(users), NormalizeEmail(email)).Some? ==>
        var i := FindEmail(old(users), NormalizeEmail(email)).value;
        if CheckEmailVerificationToken(hashing, old(users)[i], token.value)
        then status == 200 && users == old(users)[i := MarkVerified(old(users)[i])]
          && forall t :: !CheckEmailVerificationToken(hashing, users[i], t)
        else status == 400 && users == old(users)
    {
      var e := NormalizeEmail(email);
      if !Truthy(token) || e == "" {
        return 400;
      }
      var found := FindEmail(users, e);
      if found.None? {
        return 404;
      }
      var i := found.value;
      if CheckEmailVerificationToken(hashing, users[i], token.value) {
        users := users[i := MarkVerified(users[i])];
        return 200;
      }
      return 400;
    }

    /** The first POST /api/users/login handler (`login`). */
    method Login(email: Option<string>, password: Option<string>, now: int) returns (status: int, account: Option<User>)
      modifies this`users
      ensures NormalizeEmail(email) == "" || !Truthy(password) ==> status == 400 && account.None? && users == old(users)
      ensures NormalizeEmail(email) != "" && Truthy(password) && FindEmail(old(users), NormalizeEmail(email)).None? ==>
        status == 401 && account.None? && users == old(users)
      ensures NormalizeEmail(email) != "" && Truthy(password) && FindEmail(old(users), NormalizeEmail(email)).Some? ==>
        var i := FindEmail(old(users), NormalizeEmail(email)).value;
        var o := LoginChecks(hashing, old(users)[i], password.value, now);
        status == o.status && users == old(users)[i := o.user]
        && account == (if o.status == 200 then Some(o.user) else None)
    {
      var e := NormalizeEmail(email);
      if e == "" || !Truthy(password) {
        return 400, None;
      }
      var found := FindEmail(users, e);
      if found.None? {
        return 401, None;
      }
      var i := found.value;
      var o := LoginChecks(hashing, users[i], password.value, now);
      users := users[i := o.user];
      status := o.status;
      account := if o.status == 200 then Some(o.user) else None;
    }

    /** The second POST /api/users/login handler (`login_user`). */
    method LoginUser(email: Option<string>, password: Option<string>, now: int) returns (status: int, account: Option<User>)
      modifies this`users
      ensures NormalizeEmail(email) == "" || !Truthy(password) ==> status == 400 && account.None? && users == old(users)
      ensures NormalizeEmail(email) != "" && Truthy(password) && FindEmail(old(users), NormalizeEmail(email)).None? ==>
        status == 401 && account.None? && users == old(users)
      ensures NormalizeEmail(email) != "" && Truthy(password) && FindEmail(old(users), NormalizeEmail(email)).Some? ==>
        var i := FindEmail(old(users), NormalizeEmail(email)).value;
        var o := LoginUserChecks(hashing, old(users)[i], password.value, now);
        status == o.status && users == old(users)[i := o.user]
        && account == (if o.status == 200 then Some(o.user) else None)
    {
      var e := NormalizeEmail(email);
      if e == "" || !Truthy(password) {
        return 400, None;
      }
      var found := FindEmail(users, e);
      if found.None? {
        return 401, None;
      }
      var i := found.value;
      var o := LoginUserChecks(hashing, users[i], password.value, now);
      users := users[i := o.user];
      status := o.status;
      account := if o.status == 200 then Some(o.user) else None;
    }

    /** POST /api/users/reset-password. An unknown address gets the same 200
        as a known one, with no token and no change. */
    method RequestPasswordReset(email: Option<string>, token: string, now: int)
      returns (status: int, returnedToken: Option<string>)
      modifies this`users
      ensures NormalizeEmail(email) == "" ==> status == 400 && returnedToken.None? && users == old(users)
      ensures NormalizeEmail(email) != "" && FindEmail(old(users), NormalizeEmail(email)).None? ==>
        status == 200 && returnedToken.None? && users == old(users)
      ensures NormalizeEmail(email) != "" && FindEmail(old(users), NormalizeEmail(email)).Some? ==>
        var i := FindEmail(old(users), NormalizeEmail(email)).value;
        status == 200 && returnedToken == Some(token)
        && users == old(users)[i := SetPasswordResetToken(hashing, old(users)[i], token, now)]
    {
      var e := NormalizeEmail(email);
      if e == "" {
        return 400, None;
      }
      var found := FindEmail(users, e);
      if found.None? {
        return 200, None;
      }
      var i := found.value;
      users := users[i := SetPasswordResetToken(hashing, users[i], token, now)];
      status, returnedToken := 200, Some(token);
    }

    /** PUT /api/users/reset-password. Success installs the new password and
        clears the reset hash and expiry, so the token cannot be used again. */
    method CompletePasswordReset(token: Option<string>, password: Option<string>, email: Option<string>, now: int)
      returns (status: int)
      modifies this`users
      ensures !Truthy(token) || !Truthy(password) || NormalizeEmail(email) == "" ==> status == 400 && users == old(users)
      ensures (Truthy(token) && Truthy(password) && NormalizeEmail(email) != ""
        && FindEmail(old(users), NormalizeEmail(email)).None?) ==> status == 404 && users == old(users)
      ensures (Truthy(token) && Truthy(password) && NormalizeEmail(email) != ""
        && FindEmail(old(users), NormalizeEmail(email)).Some?) ==>
        var i := FindEmail(old(users), NormalizeEmail(email)).value;
        if CheckPasswordResetToken(hashing, old(users)[i], token.value, now)
        then status == 200 && users == old(users)[i := ApplyPasswordReset(hashing, old(users)[i], password.value)]
          && CheckPassword(hashing, users[i], password.value)
          && forall t, tm :: !CheckPasswordResetToken(hashing, users[i], t, tm)
        else status == 400 && users == old(users)
    {
      var e := NormalizeEmail(email);
      if !Truthy(token) || !Truthy(password) || e == "" {
        return 400;
      }
      var found := FindEmail(users, e);
      if found.None? {
        return 404;
      }
      var i := found.value;
      if !CheckPasswordResetToken(hashing, users[i], token.value, now) {
        return 400;
      }
      users := users[i := ApplyPasswordReset(hashing, users[i], password.value)];
      status := 200;
    }
  }
}
