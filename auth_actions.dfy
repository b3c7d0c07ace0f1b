/**
 * The `/auth` handlers: login, the three logouts, registration and removal. Each
 * reads its inputs (parsed body, headers, route argument), answers with a
 * status and a JSON object, and changes at most one table of the store.
 *
 * The library calls are parameters: `verify` is `password_verify`, `hash` is
 * `password_hash`, `random` is what `random_bytes(64)` returned, and `executes`
 * says whether the database accepted a statement whose result the handler checks.
 */
module AuthActions {
  import opened Wrappers
  import opened Php
  import opened Sql
  import opened Http
  import opened Schema
  import opened Policy
  import opened JwtCreator
  import Seqs

  /** The two credentials a successful login returns. */
  datatype Tokens = Tokens(access: Claims, refresh: string)

  const MissingCredentials := "Missing user_email or password"

  /** `$body[$key] ?? ''`. */
  function Input(body: Body, key: string): Value
  {
    Coalesce(body, key, Str(""))
  }

  /** The `usuarios` row an e-mail from the request selects. */
  function Account(db: seq<UserRow>, email: Value): Option<UserRow>
  {
    UserByEmail(db, Bind(email))
  }

  /** Whether the credentials name an account and the password matches its stored hash. */
  predicate Authenticates(users: seq<UserRow>, email: Value, password: Value, verify: (string, string) -> bool)
  {
    Account(users, email).Some? && verify(Text(password), Text(Fetched(Account(users, email).value.contrasena)))
  }

  /** `POST /auth/login`. */
  method Login(db: Store, body: Body, verify: (string, string) -> bool, random: seq<Byte>, now: int)
    returns (res: Response<Tokens>)
    requires |random| == RefreshBytes
    modifies db`refreshTokens
    ensures Falsy(Input(body, "user_email")) || Falsy(Input(body, "password")) ==>
      res == Error(BAD_REQUEST, MissingCredentials) && db.refreshTokens == old(db.refreshTokens)
    // An unknown e-mail and a wrong password are answered alike.
    ensures !Falsy(Input(body, "user_email")) && !Falsy(Input(body, "password")) &&
            !Authenticates(db.usuarios, Input(body, "user_email"), Input(body, "password"), verify) ==>
      res == Error(UNAUTHORIZED, "User not found or password incorrect") && db.refreshTokens == old(db.refreshTokens)
    // Success appends exactly one row and returns the value it stored.
    ensures !Falsy(Input(body, "user_email")) && !Falsy(Input(body, "password")) &&
            Authenticates(db.usuarios, Input(body, "user_email"), Input(body, "password"), verify) ==>
      var email := Input(body, "user_email");
      res == Response(OK, Data(Tokens(
               GenerateAccessToken(email, Fetched(Account(db.usuarios, email).value.tipo), now),
               GenerateRefreshToken(random)))) &&
      db.refreshTokens == old(db.refreshTokens) + [RefreshRow(Text(email), res.body.value.refresh, now + 604800)]
  {
    var userEmail := Input(body, "user_email");
    var password := Input(body, "password");
    if Falsy(userEmail) || Falsy(password) {
      return Error(BAD_REQUEST, MissingCredentials);
    }
    var user := Account(db.usuarios, userEmail);
    if user.None? || !verify(Text(password), Text(Fetched(user.value.contrasena))) {
      return Error(UNAUTHORIZED, "User not found or password incorrect");
    }
    var accessToken := GenerateAccessToken(userEmail, Fetched(user.value.tipo), now);
    var refreshToken := GenerateRefreshToken(random);
    db.refreshTokens := db.refreshTokens + [RefreshRow(Text(userEmail), refreshToken, now + RefreshValidity)];
    res := Response(OK, Data(Tokens(accessToken, refreshToken)));
  }

  /** `POST /auth/logout`: delete the presented refresh value. */
  method Logout(db: Store, headers: Headers) returns (res: Reply)
    modifies db`refreshTokens
    ensures FalsyText(Header(headers, "refresh_token")) ==>
      res == Error(BAD_REQUEST, "Missing refresh token for logout") && db.refreshTokens == old(db.refreshTokens)
    // Success is reported whether or not the value was stored.
    ensures !FalsyText(Header(headers, "refresh_token")) ==>
      res == Message("Loged out successfully") &&
      db.refreshTokens == WithoutToken(old(db.refreshTokens), Header(headers, "refresh_token"))
  {
    var refreshToken := Header(headers, "refresh_token");
    if FalsyText(refreshToken) {
      return Error(BAD_REQUEST, "Missing refresh token for logout");
    }
    db.refreshTokens := WithoutToken(db.refreshTokens, refreshToken);
    res := Message("Loged out successfully");
  }

  /** `POST /auth/logout/{user_email}`: revoke every refresh value of one account. */
  method LogoutAnother(db: Store, headers: Headers, routeEmail: string) returns (res: Reply)
    modifies db`refreshTokens
    ensures var v := SelfOrRole(routeEmail, Header(headers, "user_email"), Header(headers, "tipo"), Administrador);
      (v == BadRoute ==> res == Error(BAD_GATEWAY, "Bad route: enter a email")) &&
      (v == Denied ==> res == AccountDenied("Unauthorized to force logout this user, you need higher privileges",
                                           Header(headers, "user_email"), routeEmail)) &&
      (v != Allowed ==> db.refreshTokens == old(db.refreshTokens)) &&
      (v == Allowed ==> res == Message("Forced logout successfully") &&
                        db.refreshTokens == WithoutOwner(old(db.refreshTokens), routeEmail))
  {
    var headerEmail := Header(headers, "user_email");
    var headerTipo := Header(headers, "tipo");
    if FalsyText(routeEmail) {
      return Error(BAD_GATEWAY, "Bad route: enter a email");
    } else if headerEmail != routeEmail {
      if headerTipo != Administrador {
        return AccountDenied("Unauthorized to force logout this user, you need higher privileges", headerEmail, routeEmail);
      }
    }
    db.refreshTokens := WithoutOwner(db.refreshTokens, routeEmail);
    res := Message("Forced logout successfully");
  }

  /** `POST /auth/logoutAll/`: clear the refresh table. */
  method LogoutAll(db: Store, headers: Headers) returns (res: Reply)
    modifies db`refreshTokens
    ensures Header(headers, "tipo") != Administrador ==>
      res == Error(UNAUTHORIZED, "Unauthorized to force logout all, you need higher privileges") &&
      db.refreshTokens == old(db.refreshTokens)
    ensures Header(headers, "tipo") == Administrador ==>
      res == Message("Forced logout successfully") && db.refreshTokens == []
  {
    if Header(headers, "tipo") != Administrador {
      return Error(UNAUTHORIZED, "Unauthorized to force logout all, you need higher privileges");
    }
    db.refreshTokens := [];
    res := Message("Forced logout successfully");
  }

  /** The row registration inserts: the e-mail, the hashed password and the fixed role. */
  function NewAccount(email: Value, passwordHash: string): (u: UserRow)
  {
    UserRow(Bind(email), Some(passwordHash), Some(Usuario), None, None, None, None, None, None)
  }

  /** `POST /auth/register`. */
  method Register(db: Store, body: Body, hash: string -> string, executes: bool) returns (res: Reply)
    modifies db`usuarios
    ensures Falsy(Input(body, "user_email")) || Falsy(Input(body, "password")) ==>
      res == Error(BAD_REQUEST, MissingCredentials) && db.usuarios == old(db.usuarios)
    ensures !Falsy(Input(body, "user_email")) && !Falsy(Input(body, "password")) ==>
      var email := Input(body, "user_email");
      (EmailTaken(old(db.usuarios), Bind(email)) ==>
         res == Error(CONFLICT, "User email already exists") && db.usuarios == old(db.usuarios)) &&
      (!EmailTaken(old(db.usuarios), Bind(email)) && !executes ==>
         res == Error(INTERNAL_SERVER_ERROR, "Error registering new user") && db.usuarios == old(db.usuarios)) &&
      (!EmailTaken(old(db.usuarios), Bind(email)) && executes ==>
         res == Message("User registered successfully") &&
         db.usuarios == old(db.usuarios) + [NewAccount(email, hash(Text(body["password"])))])
  {
    var userEmail := Input(body, "user_email");
    var password := Input(body, "password");
    if Falsy(userEmail) || Falsy(password) {
      return Error(BAD_REQUEST, MissingCredentials);
    }
    if EmailTaken(db.usuarios, Bind(userEmail)) {
      return Error(CONFLICT, "User email already exists");
    }
    var passwordHash := hash(Text(body["password"]));
    if !executes {
      return Error(INTERNAL_SERVER_ERROR, "Error registering new user");
    }
    db.usuarios := db.usuarios + [NewAccount(userEmail, passwordHash)];
    res := Message("User registered successfully");
  }

  /** Appending an account whose e-mail is not taken keeps e-mails unique. */
  lemma {:induction false} RegisterKeepsEmailsUnique(users: seq<UserRow>, row: UserRow)
    requires UniqueEmails(users)
    requires row.email.Some? && !EmailTaken(users, row.email)
    ensures UniqueEmails(users + [row])
  {
    var all := users + [row];
    forall i, j | 0 <= i < j < |all| && all[i].email.Some?
      ensures all[i].email != all[j].email
    {
      if j == |users| {
        assert !SqlEq(users[i].email, row.email);
      }
    }
  }

  /** A new account gets the role "usuario" and never the password as given. */
  lemma NewAccountShape(email: Value, password: string, hash: string -> string)
    ensures NewAccount(email, hash(password)).tipo == Some(Usuario)
    ensures NewAccount(email, hash(password)).contrasena == Some(hash(password))
    ensures NewAccount(email, hash(password)).tipo != Some(Administrador)
    ensures NewAccount(email, hash(password)).tipo != Some(AdministradorLowercase)
  {
  }

  /** `DELETE FROM usuarios WHERE email = :user_email`. */
  function WithoutAccount(users: seq<UserRow>, email: string): seq<UserRow>
  {
    Seqs.Filter(users, (u: UserRow) => !SqlEq(u.email, Some(email)))
  }

  /** Removal deletes every row of that e-mail and keeps every other row in order. */
  lemma WithoutAccountSpec(users: seq<UserRow>, email: string)
    ensures forall u :: u in WithoutAccount(users, email) <==> u in users && u.email != Some(email)
    ensures !EmailTaken(WithoutAccount(users, email), Some(email))
    ensures Seqs.IsSubsequence(WithoutAccount(users, email), users)
  {
    var p := (u: UserRow) => !SqlEq(u.email, Some(email));
    Seqs.FilterIsSubsequence(users, p);
    var r := WithoutAccount(users, email);
    assert forall k :: 0 <= k < |r| ==> p(r[k]);
  }

  /** `DELETE /auth/remove/{user_email}`. The role compared is the lowercase spelling. */
  method Remove(db: Store, headers: Headers, routeEmail: string, executes: bool) returns (res: Reply)
    modifies db`usuarios
    ensures var v := SelfOrRole(routeEmail, Header(headers, "user_email"), Header(headers, "tipo"), AdministradorLowercase);
      (v == BadRoute ==> res == Error(BAD_GATEWAY, "Bad route: enter a email")) &&
      (v == Denied ==> res == AccountDenied("Unauthorized to remove this user, you need higher privileges",
                                           Header(headers, "user_email"), routeEmail)) &&
      (v == Allowed && !EmailTaken(old(db.usuarios), Some(routeEmail)) ==>
         res == Error(NOT_FOUND, "User email does not exist")) &&
      (v == Allowed && EmailTaken(old(db.usuarios), Some(routeEmail)) && !executes ==>
         res == Error(INTERNAL_SERVER_ERROR, "Error removing the user")) &&
      (v == Allowed && EmailTaken(old(db.usuarios), Some(routeEmail)) && executes ==>
         res == Message("User removed successfully") &&
         db.usuarios == WithoutAccount(old(db.usuarios), routeEmail)) &&
      (!(v == Allowed && EmailTaken(old(db.usuarios), Some(routeEmail)) && executes) ==>
         db.usuarios == old(db.usuarios))
  {
    var headerEmail := Header(headers, "user_email");
    var headerTipo := Header(headers, "tipo");
    if FalsyText(routeEmail) {
      return Error(BAD_GATEWAY, "Bad route: enter a email");
    } else if headerEmail != routeEmail {
      if headerTipo != AdministradorLowercase {
        return AccountDenied("Unauthorized to remove this user, you need higher privileges", headerEmail, routeEmail);
      }
    }
    if !EmailTaken(db.usuarios, Some(routeEmail)) {
      return Error(NOT_FOUND, "User email does not exist");
    }
    if !executes {
      return Error(INTERNAL_SERVER_ERROR, "Error removing the user");
    }
    db.usuarios := WithoutAccount(db.usuarios, routeEmail);
    res := Message("User removed successfully");
  }
}
