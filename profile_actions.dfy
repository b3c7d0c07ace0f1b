/**
 * The `/profile/{user_email}` handlers: reading one's own profile, and modifying a
 * profile (one's own, or anyone's as "Administrador").
 */
module ProfileActions {
  import opened Wrappers
  import opened Php
  import opened Sql
  import opened Http
  import opened Schema
  import opened Policy
  import opened UsuarioDomain
  import JwtHandler

  /** The six columns the profile query selects: never the password hash, never the e-mail. */
  datatype ProfileView = ProfileView(
    tipo: Cell, nombre: Cell, fechaNacimiento: Cell, sexo: Cell, corrOcular: Cell, fechaRevOcular: Cell)

  function View(u: UserRow): ProfileView
  {
    ProfileView(u.tipo, u.nombre, u.fechaNacimiento, u.sexo, u.corrOcular, u.fechaRevOcular)
  }

  /** `GET /profile/{user_email}`: only the account itself may read it; there is no administrator override. */
  function Profile(users: seq<UserRow>, headers: Headers, routeEmail: string): (res: Response<ProfileView>)
    ensures FalsyText(routeEmail) ==> res == Error(BAD_GATEWAY, "Bad route: enter a email")
    ensures !FalsyText(routeEmail) && Header(headers, "user_email") != routeEmail ==>
      res == AccountDenied("Unauthorized to check this user", Header(headers, "user_email"), routeEmail)
    ensures res.status == OK <==>
      SelfOnly(routeEmail, Header(headers, "user_email")) == Allowed && UserByEmail(users, Some(routeEmail)).Some?
    ensures res.status == OK ==>
      exists k :: 0 <= k < |users| && users[k].email == Some(routeEmail) && res.body == Data(View(users[k]))
    ensures SelfOnly(routeEmail, Header(headers, "user_email")) == Allowed && UserByEmail(users, Some(routeEmail)).None? ==>
      res == Error(NOT_FOUND, "No user with that email was found")
  {
    var headerEmail := Header(headers, "user_email");
    if FalsyText(routeEmail) then Error(BAD_GATEWAY, "Bad route: enter a email")
    else if headerEmail != routeEmail then AccountDenied("Unauthorized to check this user", headerEmail, routeEmail)
    else match UserByEmail(users, Some(routeEmail))
      case None => Error(NOT_FOUND, "No user with that email was found")
      case Some(u) =>
        assert u in users;
        Response(OK, Data(View(u)))
  }

  /** Reading a profile never lets a different e-mail through, whatever the role header says. */
  lemma ProfileIsSelfOnly(users: seq<UserRow>, headers: Headers, routeEmail: string, tipo: string)
    requires Header(headers, "user_email") != routeEmail
    ensures Profile(users, headers, routeEmail).status != OK
    ensures Profile(users, headers["tipo" := [tipo]], routeEmail) == Profile(users, headers, routeEmail)
  {
  }

  /**
   * `GET /profile/{user_email}` runs behind the token gate, but the gate adds the
   * token's subject AFTER any `user_email` header the client sent, and the
   * self-only check reads the first value. Whoever holds a token the gate
   * forwards, and sends the route's e-mail as that header, reads that account's
   * profile, whatever the token's subject.
   */
  lemma GatedProfileTrustsClientEmail(users: seq<UserRow>, request: Headers, decode: string -> JwtHandler.Decoded,
                                      refreshTokens: seq<RefreshRow>, now: int, routeEmail: string)
    requires JwtHandler.Process(request, decode, refreshTokens, now).Forward?
    requires !FalsyText(routeEmail) && Header(request, "user_email") == routeEmail
    ensures Profile(users, JwtHandler.Process(request, decode, refreshTokens, now).headers, routeEmail).status == OK <==>
      UserByEmail(users, Some(routeEmail)).Some?
  {
    assert Sent(request, "user_email");
  }

  // ---------------------------------------------------------------------------
  // Modifying a profile.

  /** Whether the body's password change, if any, is authorised by the old password. */
  predicate PasswordAccepted(r: UserRecord, body: Body, verify: (string, string) -> bool)
  {
    !IsSet(body, "contrasena") || verify(Text(Field(body, "contrasena_vieja")), Text(r.contrasena))
  }

  /** Whether the administrator asks for an e-mail that another row already holds. */
  predicate EmailConflict(r: UserRecord, body: Body, headerTipo: string, users: seq<UserRow>)
  {
    headerTipo == Administrador && IsSet(body, "email") && body["email"] != r.email &&
    EmailTaken(users, Bind(body["email"]))
  }

  /** The record after the password step: the hash of the new password when one is given. */
  function WithPassword(r: UserRecord, body: Body, hash: string -> string): UserRecord
  {
    r.(contrasena := if IsSet(body, "contrasena") then Str(hash(Text(body["contrasena"]))) else r.contrasena)
  }

  /**
   * The record after the remaining assignments: role, name and e-mail for an
   * administrator only, the four personal fields and the avatar when present.
   * `avatar` is what `cropAndZoomImage` returned.
   */
  function Merged(r: UserRecord, body: Body, headerTipo: string, avatar: Value): UserRecord
  {
    var admin := headerTipo == Administrador;
    r.(tipo := if admin then Coalesce(body, "tipo", r.tipo) else r.tipo,
       nombre := if admin then Coalesce(body, "nombre", r.nombre) else r.nombre,
       email := if admin && IsSet(body, "email") && body["email"] != r.email then body["email"] else r.email,
       fechaNacimiento := Coalesce(body, "fecha_nacimiento", r.fechaNacimiento),
       sexo := Coalesce(body, "sexo", r.sexo),
       corrOcular := Coalesce(body, "corr_ocular", r.corrOcular),
       fechaRevOcular := Coalesce(body, "fecha_rev_ocular", r.fechaRevOcular),
       avatarUrl := if IsSet(body, "avatar_url") then avatar else r.avatarUrl)
  }

  /** The loaded record after every assignment the handler makes before `save()`. */
  function Edited(r: UserRecord, body: Body, headerTipo: string, hash: string -> string, avatar: Value): UserRecord
  {
    Merged(WithPassword(r, body, hash), body, headerTipo, avatar)
  }

  /** Role, name and e-mail are silently kept for a caller that is not "Administrador". */
  lemma NonAdminKeepsPrivilegedFields(r: UserRecord, body: Body, headerTipo: string, hash: string -> string, avatar: Value)
    requires headerTipo != Administrador
    ensures Edited(r, body, headerTipo, hash, avatar).tipo == r.tipo
    ensures Edited(r, body, headerTipo, hash, avatar).nombre == r.nombre
    ensures Edited(r, body, headerTipo, hash, avatar).email == r.email
  {
  }

  /** A personal field absent or null in the body keeps its value; a present one takes the body's. */
  lemma PersonalFieldsMerge(r: UserRecord, body: Body, headerTipo: string, hash: string -> string, avatar: Value)
    ensures var e := Edited(r, body, headerTipo, hash, avatar);
      && e.fechaNacimiento == (if IsSet(body, "fecha_nacimiento") then body["fecha_nacimiento"] else r.fechaNacimiento)
      && e.sexo == (if IsSet(body, "sexo") then body["sexo"] else r.sexo)
      && e.corrOcular == (if IsSet(body, "corr_ocular") then body["corr_ocular"] else r.corrOcular)
      && e.fechaRevOcular == (if IsSet(body, "fecha_rev_ocular") then body["fecha_rev_ocular"] else r.fechaRevOcular)
  {
  }

  /** The stored password changes only when a new one is given, and then to its hash. */
  lemma PasswordOnlyWhenGiven(r: UserRecord, body: Body, headerTipo: string, hash: string -> string, avatar: Value)
    ensures !IsSet(body, "contrasena") ==> Edited(r, body, headerTipo, hash, avatar).contrasena == r.contrasena
    ensures IsSet(body, "contrasena") ==> Edited(r, body, headerTipo, hash, avatar).contrasena == Str(hash(Text(body["contrasena"])))
  {
  }

  /**
   * An administrator's e-mail change that passes the conflict check is lost: the
   * UPDATE then looks the row up by the NEW e-mail, which no row holds, and writes
   * nothing, while the handler answers success.
   */
  lemma AdminEmailChangeIsLost(users: seq<UserRow>, r: UserRecord, body: Body, hash: string -> string, avatar: Value)
    requires IsSet(body, "email") && body["email"] != r.email
    requires !EmailConflict(r, body, Administrador, users)
    ensures SavedUsers(users, Edited(r, body, Administrador, hash, avatar)) == users
  {
    ChangedEmailSavesNothing(users, Edited(r, body, Administrador, hash, avatar));
  }

  /** `LogoutAction::logoutInterno($user_email)`: revoke every refresh value of the account. */
  method LogoutInterno(db: Store, owner: string)
    modifies db`refreshTokens
    ensures db.refreshTokens == WithoutOwner(old(db.refreshTokens), owner)
  {
    db.refreshTokens := WithoutOwner(db.refreshTokens, owner);
  }

  /**
   * The password step of the handler: with a new password and a matching old one,
   * store the new hash and revoke the account's refresh values; with a new password
   * and a wrong old one, change nothing and report it.
   */
  method ChangePassword(db: Store, usuario: Usuario, routeEmail: string, body: Body,
                        verify: (string, string) -> bool, hash: string -> string) returns (accepted: bool)
    modifies usuario, db`refreshTokens
    ensures accepted == PasswordAccepted(old(usuario.Record()), body, verify)
    ensures accepted ==> usuario.Record() == WithPassword(old(usuario.Record()), body, hash)
    ensures db.refreshTokens == (if IsSet(body, "contrasena") && accepted
                                 then WithoutOwner(old(db.refreshTokens), routeEmail) else old(db.refreshTokens))
  {
    accepted := true;
    if IsSet(body, "contrasena") {
      if verify(Text(Field(body, "contrasena_vieja")), Text(usuario.contrasena)) {
        usuario.contrasena := Str(hash(Text(body["contrasena"])));
        LogoutInterno(db, routeEmail);
      } else {
        accepted := false;
      }
    }
  }

  /**
   * The remaining assignments of the handler, up to the e-mail conflict check,
   * which answers whether the administrator's new e-mail is already taken.
   */
  method MergeFields(users: seq<UserRow>, usuario: Usuario, body: Body, headerTipo: string, avatar: Value)
    returns (conflict: bool)
    modifies usuario
    ensures conflict == EmailConflict(old(usuario.Record()), body, headerTipo, users)
    ensures !conflict ==> usuario.Record() == Merged(old(usuario.Record()), body, headerTipo, avatar)
  {
    if headerTipo == Administrador {
      usuario.tipo := Coalesce(body, "tipo", usuario.tipo);
      usuario.nombre := Coalesce(body, "nombre", usuario.nombre);
      if IsSet(body, "email") && body["email"] != usuario.email {
        if EmailTaken(users, Bind(body["email"])) {
          return true;
        } else {
          usuario.email := body["email"];
        }
      }
    }
    usuario.fechaNacimiento := Coalesce(body, "fecha_nacimiento", usuario.fechaNacimiento);
    usuario.sexo := Coalesce(body, "sexo", usuario.sexo);
    usuario.corrOcular := Coalesce(body, "corr_ocular", usuario.corrOcular);
    usuario.fechaRevOcular := Coalesce(body, "fecha_rev_ocular", usuario.fechaRevOcular);
    if IsSet(body, "avatar_url") {
      usuario.avatarUrl := avatar;
    }
    conflict := false;
  }

  /** The message `load` reports for an account it did not load. */
  function LoadError(users: seq<UserRow>, routeEmail: string, loadExec: Execution): string
  {
    if loadExec.Fails? then loadExec.message else "User not found"
  }

  /** Whether `load($user_email)` finds the account. */
  predicate Loads(users: seq<UserRow>, routeEmail: string, loadExec: Execution)
  {
    loadExec.Executes? && UserByEmail(users, Some(routeEmail)).Some?
  }

  /**
   * The part of `POST /profile/{user_email}` after the access check: load the
   * account, change the password, merge the body into the record, save it.
   */
  method EditAccount(db: Store, routeEmail: string, headerTipo: string, body: Body,
                     verify: (string, string) -> bool, hash: string -> string, avatar: Value,
                     loadExec: Execution, saveExec: Execution) returns (res: Reply)
    modifies db`usuarios, db`refreshTokens
    ensures !Loads(old(db.usuarios), routeEmail, loadExec) ==>
      res == Error(NOT_FOUND, "Error loading user:" + LoadError(old(db.usuarios), routeEmail, loadExec)) &&
      db.usuarios == old(db.usuarios) && db.refreshTokens == old(db.refreshTokens)
    ensures Loads(old(db.usuarios), routeEmail, loadExec) ==>
      var r := Loaded(UserByEmail(old(db.usuarios), Some(routeEmail)).value);
      var e := Edited(r, body, headerTipo, hash, avatar);
      (!PasswordAccepted(r, body, verify) ==>
         res == Error(UNAUTHORIZED, "Old password does not match") &&
         db.usuarios == old(db.usuarios) && db.refreshTokens == old(db.refreshTokens)) &&
      (PasswordAccepted(r, body, verify) ==>
         // the revocation stays in force whatever happens afterwards
         db.refreshTokens == (if IsSet(body, "contrasena") then WithoutOwner(old(db.refreshTokens), routeEmail)
                              else old(db.refreshTokens)) &&
         (EmailConflict(r, body, headerTipo, old(db.usuarios)) ==>
            res == Error(CONFLICT, "Email ya asociado a otro usuario") && db.usuarios == old(db.usuarios)) &&
         (!EmailConflict(r, body, headerTipo, old(db.usuarios)) && SaveResult(e, saveExec).Failure? ==>
            res == Error(INTERNAL_SERVER_ERROR, "Error updating user:" + SaveResult(e, saveExec).error) &&
            db.usuarios == old(db.usuarios)) &&
         (!EmailConflict(r, body, headerTipo, old(db.usuarios)) && SaveResult(e, saveExec).Success? ==>
            res == Message("User data updated successfully") &&
            db.usuarios == SavedUsers(old(db.usuarios), e)))
  {
    var usuario := new Usuario();
    var loaded := usuario.Load(db, Str(routeEmail), loadExec);
    if loaded.Failure? {
      return Error(NOT_FOUND, "Error loading user:" + loaded.error);
    }
    ghost var r := usuario.Record();
    var accepted := ChangePassword(db, usuario, routeEmail, body, verify, hash);
    if !accepted {
      return Error(UNAUTHORIZED, "Old password does not match");
    }
    ghost var p := usuario.Record();
    assert p.email == r.email;
    var conflict := MergeFields(db.usuarios, usuario, body, headerTipo, avatar);
    if conflict {
      return Error(CONFLICT, "Email ya asociado a otro usuario");
    }
    assert usuario.Record() == Edited(r, body, headerTipo, hash, avatar);
    var saved := usuario.Save(db, saveExec);
    if saved.Failure? {
      return Error(INTERNAL_SERVER_ERROR, "Error updating user:" + saved.error);
    }
    res := Message("User data updated successfully");
  }

  /**
   * `POST /profile/{user_email}`. `verify` and `hash` are `password_verify` and
   * `password_hash`, `avatar` is what `cropAndZoomImage` returned, `loadExec` and
   * `saveExec` are the database's verdicts on the two statements.
   */
  method ProfileModify(db: Store, headers: Headers, routeEmail: string, body: Body,
                       verify: (string, string) -> bool, hash: string -> string, avatar: Value,
                       loadExec: Execution, saveExec: Execution) returns (res: Reply)
    modifies db`usuarios, db`refreshTokens
    // Guard: the account itself or "Administrador".
    ensures var v := SelfOrRole(routeEmail, Header(headers, "user_email"), Header(headers, "tipo"), Administrador);
      (v == BadRoute ==> res == Error(BAD_GATEWAY, "Bad route: enter a email")) &&
      (v == Denied ==> res == AccountDenied("Unauthorized to modify this user profile, you need higher privileges",
                                             Header(headers, "user_email"), routeEmail)) &&
      (v != Allowed ==> db.usuarios == old(db.usuarios) && db.refreshTokens == old(db.refreshTokens))
    // An account that does not load: 404, nothing changes.
    ensures SelfOrRole(routeEmail, Header(headers, "user_email"), Header(headers, "tipo"), Administrador) == Allowed &&
            !Loads(old(db.usuarios), routeEmail, loadExec) ==>
      res == Error(NOT_FOUND, "Error loading user:" + LoadError(old(db.usuarios), routeEmail, loadExec)) &&
      db.usuarios == old(db.usuarios) && db.refreshTokens == old(db.refreshTokens)
    // From the loaded record on.
    ensures SelfOrRole(routeEmail, Header(headers, "user_email"), Header(headers, "tipo"), Administrador) == Allowed &&
            Loads(old(db.usuarios), routeEmail, loadExec) ==>
      var r := Loaded(UserByEmail(old(db.usuarios), Some(routeEmail)).value);
      var e := Edited(r, body, Header(headers, "tipo"), hash, avatar);
      (!PasswordAccepted(r, body, verify) ==>
         res == Error(UNAUTHORIZED, "Old password does not match") &&
         db.usuarios == old(db.usuarios) && db.refreshTokens == old(db.refreshTokens)) &&
      (PasswordAccepted(r, body, verify) ==>
         db.refreshTokens == (if IsSet(body, "contrasena") then WithoutOwner(old(db.refreshTokens), routeEmail)
                              else old(db.refreshTokens)) &&
         (EmailConflict(r, body, Header(headers, "tipo"), old(db.usuarios)) ==>
            res == Error(CONFLICT, "Email ya asociado a otro usuario") && db.usuarios == old(db.usuarios)) &&
         (!EmailConflict(r, body, Header(headers, "tipo"), old(db.usuarios)) && SaveResult(e, saveExec).Failure? ==>
            res == Error(INTERNAL_SERVER_ERROR, "Error updating user:" + SaveResult(e, saveExec).error) &&
            db.usuarios == old(db.usuarios)) &&
         (!EmailConflict(r, body, Header(headers, "tipo"), old(db.usuarios)) && SaveResult(e, saveExec).Success? ==>
            res == Message("User data updated successfully") &&
            db.usuarios == SavedUsers(old(db.usuarios), e)))
  {
    var headerEmail := Header(headers, "user_email");
    var headerTipo := Header(headers, "tipo");
    if FalsyText(routeEmail) {
      return Error(BAD_GATEWAY, "Bad route: enter a email");
    } else if headerEmail != routeEmail {
      if headerTipo != Administrador {
        return AccountDenied("Unauthorized to modify this user profile, you need higher privileges", headerEmail, routeEmail);
      }
    }
    res := EditAccount(db, routeEmail, headerTipo, body, verify, hash, avatar, loadExec, saveExec);
  }
}
