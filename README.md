# visionhelper backend: a verified model

visionhelper is a PHP (Slim) REST backend for a laboratory quality-testing
workflow. It manages accounts, products (`productos`), lots (`lotes`), tests on
lots, sampling types (`tipos_muestreo`) and inspected sampling units
(`unidades`). This project models the request handlers of that backend in Dafny,
together with the session machinery they depend on. That machinery has three
parts:

- short-lived access tokens, signed as JWTs;
- long-lived refresh values stored in the `refresh_tokens` table;
- the access-token gate that runs in front of protected routes.

The project then proves properties of the model.

The whole database is one object, `Schema.Store`. Each table is a `seq` of row
values that the handlers reassign: an INSERT appends, and an UPDATE or DELETE
rewrites or filters the rows its WHERE clause selects. Columns are `Option<string>`
cells, because PDO binds every parameter as text and NULL stays NULL. Request
bodies are PHP values (`Php.Value`: null, booleans, integers, strings and
arrays). Over those values the model follows PHP's `empty()`, `!$x`, `== null`,
`??`, strict `===` and the loose `in_array`. Floats and the `TypeError`s PHP
raises on arrays are not covered (see "Left out").

Request headers are kept as PSR-7 keeps them: each name with the list of its
values. A handler reads the first value (`getHeaders()[$name][0]`), and
`withAddedHeader` appends after the values already present.

Each handler that writes is a method. It returns the status and JSON body it
answers with, and its postcondition states the new contents of every table it
may write. The read-only handlers (`ProfileActions.Profile`,
`TestActions.TestsConcretoGet`, `UnidadActions.UnidadesGetTest`) are functions
of the tables.

## Oracles

Every library call the handlers make is passed in as a parameter. They are:

- `JWT::decode`, as `decode`. An access token is represented by its claims.
- `password_verify` and `password_hash`, as `verify` and `hash`.
- `random_bytes(64)`, as `random`.
- `json_encode`, as `encode`.
- `cropAndZoomImage`, as `avatar`.
- `time()` and the database's `NOW()`, as one instant `now`.
- Whether the database accepts a statement whose result the handler checks, as
  `executes` or an `Execution` value.

## Defects modelled as written

The code has defects. The model keeps each one as the code has it and states it
in a lemma:

- **Identity headers are appended, not set.** The gate adds `user_email` and
  `tipo` with `withAddedHeader` (src/Middleware/JWTHandlerMiddleware.php:111-112).
  The handlers read the first value. A client that sends its own `user_email`
  header is therefore taken at its word, behind a valid token for any account.
  - `JwtHandler.ClientHeadersComeFirst`: the client's header is the one read.
  - `JwtHandler.ForgedIdentityHeader`: an example request where that happens.
  - `ProfileActions.GatedProfileTrustsClientEmail`: on the gated profile route,
    the self-only check then admits any account the client names.
- **The expiry branch of the gate is unreachable as configured.** `JWT::decode`
  throws once `exp` is reached (its default leeway is 0, and nothing in the
  repository's code changes it). The `catch` answers that with 401 "Token not valid". So the 400
  "Missing refresh token", the refresh lookup and the rotation run only with a
  decoder that returns expired tokens.
  - `JwtHandler.ExpiryBranchUnreachable`: with a decoder that checks expiry, the
    gate never answers 400 and never rotates.
  - `JwtHandler.LibraryTokenWindow`: an issued token is forwarded strictly
    before `iat + 900` and refused as "Token not valid" from then on.
- **Refresh lookup direction.** The comment at
  src/Middleware/JWTHandlerMiddleware.php:73 says a new token is generated "if
  the refresh token is still valid". The query at line 92 instead accepts only
  rows whose `expires_at` has already PASSED. The model follows the query.
  - `JwtHandler.FreshRefreshCannotRotate`: a refresh value cannot be redeemed
    during its own seven-day lifetime.
  - `JwtHandler.StaleRefreshRotates`: it can be redeemed after that lifetime ends.
- **No owner check on rotation.** The owner of the refresh row is never compared
  with the subject of the expired token. `JwtHandler.RotationIgnoresOwner` shows
  one account's refresh value minting a token for its owner while the request
  goes on as another account.
- **Role spelling in removal.** `RemoveAction` compares the role with
  "administrador" (lowercase), while the gate issues "Administrador". See
  `Policy.SpellingsDisagree`.
- **Role given at registration.** Registration stores the role "usuario", which
  is neither administrator spelling. See `AuthActions.NewAccountShape`.
- **E-mail change through `Usuario::save`.** `save` binds `:email` once, in both
  the SET list and the WHERE clause. When an administrator changes an account's
  e-mail, the UPDATE looks the row up by the NEW address and writes nothing, and
  the handler still answers success. See `UsuarioDomain.ChangedEmailSavesNothing`
  and `ProfileActions.AdminEmailChangeIsLost`.
- **Boolean `true` as a state.** `in_array` and `==` are loose. So the boolean
  `true` passes the state check as every state at once, and is stored as "1".
  See `TestActions.TrueIsEveryState`.
- **A NULL reservation.** A sampling type whose `exclusivo_de` is NULL is
  hidden from every role except "Administrador", because the check is a strict
  comparison with `""`. See `TestActions.NullReservationHides`.
- **Administrator rights from the body.** In `POST /tests/{id}`, administrator
  rights come from the request body. See `TestActions.BodyClaimGrantsAdmin`.

## Model

| member | source | states |
|---|---|---|
| Php.LooselyNullIsFalsyExceptZeroText | src/Action/Tests/TestGenerarAction.php:41 | `$x == null` holds exactly for the values `empty()` accepts, except the string "0" |
| Php.TextOfTruthyIsNonEmpty | src/Action/Unidades/UnidadRegisterAction.php:53-67 | a value that passes `empty()` is bound as non-empty text |
| Sql.Bind | src/Domain/Usuario.php:62 | a bound parameter is NULL exactly when the PHP value is null |
| Sql.Fetched | src/Domain/Usuario.php:108-117 | a fetched column, bound again, is the same cell (fetch and bind are inverse) |
| Sql.OrderByDesc | src/Action/Unidades/UnidadesGetTest.php:47 | `ORDER BY ... DESC` returns a permutation of the selected rows, sorted descending by the key |
| Sql.PlaceholdersShape | src/Action/Productos/ProductosGetAction.php:48 | `implode(',', array_fill(0, n, '?'))` is `?` and `,` alternating, 2n-1 characters |
| Sql.PlaceholdersCount | src/Action/Productos/ProductosGetAction.php:48 | the placeholder string holds exactly n question marks |
| Sql.BuildSetList | src/Domain/Usuario.php:46-51 | the SET-list loop emits "p = :p" for exactly the set properties, in declaration order, binds each to its value, and is empty iff no property is set |
| Sql.BuildInsertLists | src/Domain/Test.php:48-54 | the INSERT loop emits aligned column and ":column" lists for exactly the set properties not excluded, binds each, and is empty iff none is set |
| Sql.Assign | src/Domain/Usuario.php:60-62 | a column named in the bindings is overwritten with its bound value |
| Sql.Statement.BindValue | src/Action/Productos/ProductosGetAction.php:54 | `bindValue(i, v)` binds position i to v and leaves every other position bound as before |
| Http.AddedHeader | src/Middleware/JWTHandlerMiddleware.php:111-112 | `withAddedHeader` puts the value last; the first value read afterwards is the old first value when the header was sent, else the new one; other headers keep their values |
| Schema.WithoutTokenSpec | src/Action/Auth/LogoutAction.php:45-46 | `DELETE ... WHERE token = :token` keeps exactly the rows of other values, in order |
| Schema.WithoutOwnerSpec | src/Action/Auth/LogoutAnotherAction.php:57-58 | `DELETE ... WHERE user_email = :user_email` keeps exactly the rows of other owners, in order |
| Schema.WithoutTokenIdempotent | src/Action/Auth/LogoutAction.php:45-46 | logging out the same refresh value twice is logging it out once |
| Schema.WithoutOwnerIdempotent | src/Action/Auth/LogoutAnotherAction.php:57-58 | revoking an owner's refresh values twice is revoking them once |
| Policy.SelfOrRole | src/Action/Auth/LogoutAnotherAction.php:36-53 | bad route iff the route e-mail is falsy; allowed iff caller is the account itself or holds the given role; denied otherwise |
| Policy.SelfOnly | src/Action/Profile/ProfileAction.php:35-49 | bad route iff the route e-mail is falsy; allowed iff the caller is the account itself |
| Policy.SelfOnlyIsStricter | src/Action/Profile/ProfileAction.php:41-49 | the self-only rule never admits a caller that self-or-administrator refuses |
| Policy.SpellingsDisagree | src/Action/Auth/RemoveAction.php:44 | a caller with role "Administrador" acting on another account is refused by the lowercase guard and admitted by the capitalised one |
| JwtCreator.AccessTokenClaims | src/Domain/JWTCreator.php:12-28 | the issued claims carry the given subject and role, are issued now and expire 900 s after issue |
| JwtCreator.Bin2Hex | src/Domain/JWTCreator.php:41 | `bin2hex` output is twice as long as its input and all lowercase base16 digits |
| JwtCreator.Bin2HexAt | src/Domain/JWTCreator.php:41 | byte i is written as its high nibble at 2i and its low nibble at 2i+1 |
| JwtCreator.Bin2HexRoundTrip | src/Domain/JWTCreator.php:41 | decoding the base16 text gives back the bytes |
| JwtCreator.GenerateRefreshToken | src/Domain/JWTCreator.php:40-42 | a refresh value is 128 lowercase base16 characters from which the 64 random bytes are recovered |
| JwtHandler.Process | src/Middleware/JWTHandlerMiddleware.php:48-116 | the gate answers only 401 or 400; it forwards only a present, decodable token, with that token's claims ADDED after the request's own identity headers; it rotates only an expired token against a redeemable row, keeping the role |
| JwtHandler.Identified | src/Middleware/JWTHandlerMiddleware.php:111-112 | the claims end each identity header's list; the first value a handler reads is the client's own when it sent one, else the claim; other headers are untouched |
| JwtHandler.ClientHeadersComeFirst | src/Middleware/JWTHandlerMiddleware.php:111-115 | on every forwarded request a client-sent `user_email` or `tipo` is the value the handler reads; without one it reads the token's subject |
| JwtHandler.ForgedIdentityHeader | src/Middleware/JWTHandlerMiddleware.php:111-115 | a valid token for one account plus a client header naming another is forwarded with the other account first |
| JwtHandler.LibraryDecode | src/Middleware/JWTHandlerMiddleware.php:62-71 | `JWT::decode` with leeway 0 returns only tokens whose `exp` has not been reached |
| JwtHandler.ExpiryBranchUnreachable | src/Middleware/JWTHandlerMiddleware.php:62-108 | with a decoder that refuses expired tokens the gate never answers 400 and never rotates |
| JwtHandler.LibraryTokenWindow | src/Middleware/JWTHandlerMiddleware.php:62-115 | under the library's check an issued token is forwarded strictly before iat+900 and answered 401 "Token not valid" from then on |
| JwtHandler.MissingTokenRejected | src/Middleware/JWTHandlerMiddleware.php:50-60 | an absent or falsy access token is answered 401 "Token not found" |
| JwtHandler.UndecodableRejected | src/Middleware/JWTHandlerMiddleware.php:62-71 | a token the library refuses is answered 401 "Token not valid" |
| JwtHandler.UnexpiredForwarded | src/Middleware/JWTHandlerMiddleware.php:74-115 | a token not yet expired is forwarded with its own claims added and no rotation |
| JwtHandler.MissingRefreshRejected | src/Middleware/JWTHandlerMiddleware.php:79-88 | an expired token without refresh value is answered 400 with both messages, without consulting the table |
| JwtHandler.UnredeemableRejected | src/Middleware/JWTHandlerMiddleware.php:92-103 | an expired token whose refresh value matches no redeemable row is answered 401 with both messages |
| JwtHandler.RedeemableRotates | src/Middleware/JWTHandlerMiddleware.php:92-112 | an expired token with a redeemable refresh value is forwarded with the OLD token's claims added and a new token expiring 900 s from now |
| JwtHandler.RotationIgnoresOwner | src/Middleware/JWTHandlerMiddleware.php:92-105 | one account's refresh value mints a token for its owner while the request goes on as another account |
| JwtHandler.FreshRefreshCannotRotate | src/Middleware/JWTHandlerMiddleware.php:92-103 | a refresh value stored at login is refused at every instant up to its own expiry |
| JwtHandler.StaleRefreshRotates | src/Middleware/JWTHandlerMiddleware.php:92-107 | the same stored value is accepted once its expiry has passed |
| JwtHandler.IssuedTokenWindow | src/Middleware/JWTHandlerMiddleware.php:74-112 | the test `exp < time()` alone forwards an issued token as is up to iat+900 and afterwards only through the expiry branch |
| AuthActions.Login | src/Action/Auth/LoginAction.php:36-81 | 400 for missing credentials, 401 alike for unknown e-mail and wrong password, else exactly one refresh row appended expiring at now+604800, and the stored values returned |
| AuthActions.Logout | src/Action/Auth/LogoutAction.php:31-52 | 400 without a refresh value, else that value's rows deleted and success reported whether or not any existed |
| AuthActions.LogoutAnother | src/Action/Auth/LogoutAnotherAction.php:31-64 | the self-or-"Administrador" guard decides; refused requests change nothing; allowed ones delete all of the account's refresh rows |
| AuthActions.LogoutAll | src/Action/Auth/LogoutAllAction.php:31-51 | only "Administrador" empties the refresh table; anyone else gets 401 and no change |
| AuthActions.Register | src/Action/Auth/RegisterAction.php:31-75 | 400 for missing credentials, 409 for a taken e-mail, 500 on a failed insert, else exactly one row appended with the hashed password and role "usuario" |
| AuthActions.RegisterKeepsEmailsUnique | src/Action/Auth/RegisterAction.php:49-62 | appending an account whose e-mail is not taken keeps e-mails unique |
| AuthActions.NewAccountShape | src/Action/Auth/RegisterAction.php:60-61 | a new account stores the hash, never the password, and the role "usuario", which is neither administrator spelling |
| AuthActions.WithoutAccountSpec | src/Action/Auth/RemoveAction.php:70-71 | `DELETE FROM usuarios WHERE email = ...` removes every row of that e-mail and keeps the others in order |
| AuthActions.Remove | src/Action/Auth/RemoveAction.php:30-84 | the self-or-"administrador" guard decides; 404 for an unknown e-mail, 500 on a failed delete, else the account's rows deleted; nothing changes on any error |
| UsuarioDomain.RecordProps | src/Domain/Usuario.php:15-23 | the nine properties, with distinct column names |
| UsuarioDomain.WrittenLoaded | src/Domain/Usuario.php:108-117 | saving the values just loaded leaves the row unchanged |
| UsuarioDomain.ChangedEmailSavesNothing | src/Domain/Usuario.php:60-62 | a record whose e-mail no row holds updates nothing |
| UsuarioDomain.SaveTouchesOnlyItsEmail | src/Domain/Usuario.php:60-62 | rows of other e-mails are never touched by `save` |
| UsuarioDomain.RecordBindings | src/Domain/Usuario.php:46-51 | the SET-list loop binds each set property to its value and binds no unset one |
| UsuarioDomain.SetColumnsIsWritten | src/Domain/Usuario.php:60-62 | the UPDATE with those bindings overwrites exactly the set columns of a matched row |
| UsuarioDomain.RecordNoneAssigned | src/Domain/Usuario.php:46-58 | the SET list is empty exactly when no property is set |
| UsuarioDomain.SaveStatementEffect | src/Domain/Usuario.php:60-62 | running the prepared UPDATE is `SavedUsers` of the record |
| UsuarioDomain.SaveLists | src/Domain/Usuario.php:43-58 | the loop yields an empty SET list iff nothing is set, and binds the record |
| UsuarioDomain.RunUpdate | src/Domain/Usuario.php:60-62 | the executed UPDATE leaves the table as `SavedUsers` |
| UsuarioDomain.Usuario.constructor | src/Domain/Usuario.php:15-34 | a new `Usuario` has every property unset |
| UsuarioDomain.Usuario.Save | src/Domain/Usuario.php:40-83 | "No fields to update" when nothing is set; an unbound `:email` or a database error is reported and changes nothing; success rewrites exactly the rows of the current e-mail |
| UsuarioDomain.Usuario.Load | src/Domain/Usuario.php:91-134 | a database error or a missing row leaves the object as it was; success copies the nine columns of the row |
| ProfileActions.Profile | src/Action/Profile/ProfileAction.php:31-66 | 502 for a falsy route e-mail, 401 for any other account, 404 for an unknown one; 200 iff self and existing, carrying the six profile columns of that row |
| ProfileActions.ProfileIsSelfOnly | src/Action/Profile/ProfileAction.php:41-49 | no role header lets a caller read another account's profile |
| ProfileActions.GatedProfileTrustsClientEmail | src/Action/Profile/ProfileAction.php:33-49 | behind the gate, a client-sent `user_email` equal to the route e-mail passes the self-only check whatever the token's subject; 200 iff the account exists |
| ProfileActions.NonAdminKeepsPrivilegedFields | src/Action/Profile/ProfileModifyAction.php:101-118 | role, name and e-mail stay unchanged for a caller that is not "Administrador" |
| ProfileActions.PersonalFieldsMerge | src/Action/Profile/ProfileModifyAction.php:119-122 | each personal field takes the body's value when present and not null, else keeps its own |
| ProfileActions.PasswordOnlyWhenGiven | src/Action/Profile/ProfileModifyAction.php:88-99 | the stored password changes only when a new one is given, and then to its hash |
| ProfileActions.AdminEmailChangeIsLost | src/Action/Profile/ProfileModifyAction.php:105-129 | an administrator's accepted e-mail change makes `save` write nothing |
| ProfileActions.LogoutInterno | src/Action/Profile/ProfileModifyAction.php:91 | the refresh rows of the account are deleted, no other |
| ProfileActions.ChangePassword | src/Action/Profile/ProfileModifyAction.php:88-99 | accepted iff no new password or the old one verifies; then the hash is stored and the account's refresh rows revoked |
| ProfileActions.MergeFields | src/Action/Profile/ProfileModifyAction.php:100-126 | reports the e-mail conflict exactly; otherwise leaves the record as `Merged` |
| ProfileActions.EditAccount | src/Action/Profile/ProfileModifyAction.php:73-141 | 404 when the account does not load, 401 on a wrong old password, 409 on a taken e-mail, 500 on a failed save, else the rows of the edited record's e-mail rewritten; a password revocation persists past later errors |
| ProfileActions.ProfileModify | src/Action/Profile/ProfileModifyAction.php:47-142 | the self-or-"Administrador" guard comes first and refused requests change nothing; then every outcome of `EditAccount` |
| TestDomain.TestProps | src/Domain/Test.php:15-24 | the ten properties, with distinct column names |
| TestDomain.InsertBindings | src/Domain/Test.php:48-54 | the INSERT loop never binds `id` and binds each set property to its value |
| TestDomain.InsertColumnsIsInserted | src/Domain/Test.php:63-65 | the INSERT with those bindings stores the record's set columns, NULL elsewhere, under the new id |
| TestDomain.InsertNoneAssigned | src/Domain/Test.php:48-61 | the column list is empty exactly when no property other than `id` is set |
| TestDomain.InsertLists | src/Domain/Test.php:44-54 | aligned column and ":column" lists without `id`, empty iff nothing to insert, binding the record |
| TestDomain.InsertKeepsKeysUnique | src/Domain/Test.php:63-76 | inserting under the next auto-increment id keeps ids unique and below the counter |
| TestDomain.WrittenLoaded | src/Domain/Test.php:164-174 | saving the values just loaded leaves the row unchanged |
| TestDomain.SaveTouchesOnlyItsId | src/Domain/Test.php:116-118 | rows of other ids are never touched by `save` |
| TestDomain.RecordBindings | src/Domain/Test.php:102-107 | the SET-list loop binds each set property, `id` included |
| TestDomain.RecordNoneAssigned | src/Domain/Test.php:102-114 | the SET list is empty exactly when every property is unset |
| TestDomain.SaveStatementEffect | src/Domain/Test.php:116-118 | running the prepared UPDATE is `SavedTests` of the record |
| TestDomain.SaveLists | src/Domain/Test.php:99-114 | empty SET list iff every property is unset; the bindings match the record |
| TestDomain.RunUpdate | src/Domain/Test.php:116-118 | the executed UPDATE leaves the table as `SavedTests` |
| TestDomain.RunInsert | src/Domain/Test.php:63-76 | the INSERT appends exactly the inserted row under the next id and advances the counter |
| TestDomain.Test.constructor | src/Domain/Test.php:15-34 | a new `Test` has every property unset |
| TestDomain.Test.Create | src/Domain/Test.php:41-89 | "No fields to insert" or a database error changes nothing; success appends one row, returns `lastInsertId` and stores it in `id` |
| TestDomain.Test.Save | src/Domain/Test.php:96-139 | "No fields to update" when nothing is set; an unbound `:id` or database error changes nothing; success rewrites exactly the rows of the record's id |
| TestDomain.Test.Load | src/Domain/Test.php:147-191 | a database error or a missing row (reported as "User not found") leaves the object as it was; success copies the ten columns |
| TestDomain.CreateInputColumns | src/Domain/TestService.php:23-38 | the four required fields are copied, the five optional ones default to NULL, and `id` is never given |
| TestDomain.CreateTest | src/Domain/TestService.php:23-38 | creates exactly the row built from the copied fields, or changes nothing on failure |
| TestDomain.GetTestById | src/Domain/TestService.php:46-53 | null iff no row has the id; otherwise a row of the table with that id |
| TestActions.RequiredFieldsInsert | src/Action/Tests/TestGenerarAction.php:41-47 | a body that passes the required-field check always gives `create` a column to insert |
| TestActions.TestGenerar | src/Action/Tests/TestGenerarAction.php:34-77 | 400 for a loosely null required field before the "Administrador" check (401); a failed create is answered 404; success appends exactly one test |
| TestActions.StringStateIsListed | src/Action/Tests/TestCambiarEstadoAction.php:49 | a string passes the membership check iff it is one of the seven states, spelled exactly |
| TestActions.PrivilegedStatesNeedAdmin | src/Action/Tests/TestCambiarEstadoAction.php:55-60 | moving to Nuevo or Bloqueado passes the checks iff the caller is "Administrador" |
| TestActions.ClosingNeedsEndDate | src/Action/Tests/TestCambiarEstadoAction.php:61-66 | moving to Aceptado or Rechazado passes the checks iff an end date is given |
| TestActions.TrueIsEveryState | src/Action/Tests/TestCambiarEstadoAction.php:49-72 | boolean `true` passes as every state and is stored as "1" |
| TestActions.WithEstadoTouchesOnlyItsTest | src/Action/Tests/TestCambiarEstadoAction.php:71-72 | only the addressed test changes, and only in state, last user and end date |
| TestActions.TestCambiarEstado | src/Action/Tests/TestCambiarEstadoAction.php:32-85 | the first failing check answers and nothing changes; a failed update is 500; success writes the three columns of the addressed test |
| TestActions.TypeNamed | src/Action/Tests/TestsGetAction.php:74-80 | the matched sampling type belongs to the table and has the test's name |
| TestActions.TypeNamedAt | src/Action/Tests/TestsGetAction.php:74-80 | the first sampling type with the name is the one matched |
| TestActions.TypeNamedNone | src/Action/Tests/TestsGetAction.php:74-80 | no match when no sampling type has the name |
| TestActions.VisibleIsFilter | src/Action/Tests/TestsGetAction.php:73-82 | the nested loop is a filter by "first matching type unreserved or reserved to the role" |
| TestActions.ListedForRole | src/Action/Tests/TestsGetAction.php:45-83 | a non-administrator is listed exactly the open tests offered to its role, in table order |
| TestActions.NullReservationHides | src/Action/Tests/TestsGetAction.php:76 | a test whose sampling type's reservation is NULL is listed to no non-administrator |
| TestActions.OfferIfMatched | src/Action/Tests/TestsGetAction.php:74-81 | the inner loop appends the test iff it is offered to the role |
| TestActions.TestsGet | src/Action/Tests/TestsGetAction.php:31-86 | 502 for a falsy role, 404 without sampling types, else exactly the listed tests |
| TestActions.ShownTests | src/Action/Tests/TestsConcretoGetAction.php:51-58 | the test query returns exactly the rows the caller may see, and nothing iff none qualifies |
| TestActions.ShownTypes | src/Action/Tests/TestsConcretoGetAction.php:71-78 | a sampling type is selected iff it has the name and is visible to the caller |
| TestActions.LotesWithId | src/Action/Tests/TestsConcretoGetAction.php:90-92 | a lot is selected iff its id equals the test's `lote` |
| TestActions.ProductosWithId | src/Action/Tests/TestsConcretoGetAction.php:104-106 | a product is selected iff its id equals the lot's `codigo_producto` |
| TestActions.Related | src/Action/Tests/TestsConcretoGetAction.php:69-114 | 404 with its own message for the first empty of sampling types, lots, products (product looked up by the first lot), else 200 with the three selections |
| TestActions.TestsConcretoGet | src/Action/Tests/TestsConcretoGetAction.php:32-126 | 502 iff both body fields are falsy; then 404 for the first empty of test, sampling type, lot, product, each with its message; 200 with the four selections iff none is empty |
| TestActions.ConcreteTestMissing | src/Action/Tests/TestsConcretoGetAction.php:51-66 | the test-not-found 404 is answered iff no row qualifies |
| TestActions.ConcreteShows | src/Action/Tests/TestsConcretoGetAction.php:51-125 | a 200 carries exactly the rows each of the four queries selects, none empty |
| TestActions.BodyClaimGrantsAdmin | src/Action/Tests/TestsConcretoGetAction.php:36-53 | a body claiming "Administrador" gets past the test query for any existing id |
| TestActions.ClosedHiddenWithoutClaim | src/Action/Tests/TestsConcretoGetAction.php:55 | without the claim, a closed test is never shown |
| TestActions.WithStructureTouchesOneColumn | src/Action/Tests/MuestreoRegistrarAction.php:49-50 | only the addressed test changes, and only in `estructura_muestreo` |
| TestActions.WithStructureUnknownId | src/Action/Tests/MuestreoRegistrarAction.php:49-62 | an id that names no test leaves the table unchanged |
| TestActions.MuestreoRegistrar | src/Action/Tests/MuestreoRegistrarAction.php:32-63 | 400 for falsy `bandejas`, 500 on a failed update, else the encoded body stored in the addressed test |
| UnidadActions.DefaultUnitId | src/Action/Unidades/UnidadRegisterAction.php:36 | a body without `id` keys the unit by its `id_test` and `id_en_muestreo`, joined by a vertical bar between two spaces |
| UnidadActions.NullIfEmpty | src/Action/Unidades/UnidadRegisterAction.php:67 | an optional column is NULL exactly when its value is `empty()` |
| UnidadActions.RegisteredUnitShape | src/Action/Unidades/UnidadRegisterAction.php:46-67 | the stored row always has a key, `tiene_particula` as 0 or 1, and NULL for empty optional columns |
| UnidadActions.ReplaceSpec | src/Action/Unidades/UnidadRegisterAction.php:65-67 | after a REPLACE the key is held only by the new row, and the rows of every other key stay |
| UnidadActions.ReplaceIdempotent | src/Action/Unidades/UnidadRegisterAction.php:65-67 | registering the same unit twice is registering it once |
| UnidadActions.UnidadRegister | src/Action/Unidades/UnidadRegisterAction.php:31-80 | 400 without `tiene_particula` or with a missing required field, 500 on a failed REPLACE, else the unit upserted |
| UnidadActions.OfTest | src/Action/Unidades/UnidadesGetTest.php:47 | `WHERE id_test = ...` selects exactly the units of the test |
| UnidadActions.UnidadesGetTest | src/Action/Unidades/UnidadesGetTest.php:31-59 | 400 for a falsy id, 500 on a failed query, else the test's units as a permutation sorted descending by `id_en_muestreo` |
| UnidadActions.UnidadesOfTest | src/Action/Unidades/UnidadesGetTest.php:47-58 | every returned unit belongs to the test and every unit of the test is returned |
| CatalogActions.BoundSelectsListed | src/Action/Productos/ProductosGetAction.php:48-57 | with the ids bound in order, `IN (?,...,?)` selects exactly the listed ids |
| CatalogActions.PrepareIdQuery | src/Action/Productos/ProductosGetAction.php:48-55 | the statement has one placeholder per id and position i+1 bound to id i, no other position |
| CatalogActions.IdQueryShape | src/Action/Productos/ProductosGetAction.php:48-50 | the statement text carries one `?` per id |
| CatalogActions.WithIds | src/Action/Productos/ProductosGetAction.php:50-58 | the fetched rows are exactly those whose id is listed |
| CatalogActions.FetchIsWithIds | src/Action/Productos/ProductosGetAction.php:50-58 | executing the prepared statement fetches each listed row once, in table order, whatever the duplicates |
| CatalogActions.ProductosGet | src/Action/Productos/ProductosGetAction.php:31-61 | 400 unless the body gives a non-empty list, else exactly the listed products |
| CatalogActions.LotesGet | src/Action/Lotes/LotesGetAction.php:31-61 | 400 unless the body gives a non-empty list, else exactly the listed lots |

## Left out

- `cropAndZoomImage` (src/Action/Profile/ProfileModifyAction.php:155-244) decodes, resizes and writes an image file. It is an oracle, `avatar`, whose result is stored.
- `Conexion` (database connection), the CORS middleware and the route and middleware wiring are I/O and framework plumbing. The handlers read `user_email` and `tipo` headers as plain inputs, because only two routes pass through the gate.
- JWT signing and decoding, bcrypt, `random_bytes`, `json_encode` and date formatting are library calls. They are oracle parameters, and an access token is represented by its claims.
- `LogoutAction::logoutInterno` is called by the profile handler but not defined in `LogoutAction`. `ProfileActions.LogoutInterno` models it as "delete every refresh row of the account". The call's exact behaviour is not part of this model.
- The key of `unidades` is not defined in the repository. `UnidadActions.Replace` assumes that REPLACE conflicts on the `id` column only.
- `ORDER BY id_en_muestreo DESC` compares the column as text. The column's SQL type is not defined in the repository, so numeric ordering is not modelled.
- The rows of a table are kept in insertion order. Where the code fetches "the first row", the model takes the first matching row in that order. SQL itself guarantees no order without `ORDER BY`.
- A JSON object in a request body is modelled as a list of its values. For `/productos` and `/lotes` this loses the keys: `bindValue($index + 1, $id)` (src/Action/Productos/ProductosGetAction.php:53-54, src/Action/Lotes/LotesGetAction.php:53-54) uses each key as a bind position. An object whose keys are not 0..n-1, such as `{"5": "a"}` or `{"a": 1}`, makes these two handlers fail (a position out of range, or a string key in `$index + 1`). `CatalogActions.ProductosGet` and `CatalogActions.LotesGet` answer 200 with the listed rows instead; the model does not capture this failure.
- Every SQL comparison (`=`, `!=`, `IN` and `ORDER BY`) is modelled as binary: case-sensitive and sensitive to trailing spaces. The tables' collations are not defined in the repository; under a case-insensitive MySQL collation (`_ci`), `Schema.UserByEmail`, `Schema.EmailTaken`, `AuthActions.Register`'s 409 check, `TestActions.TestShown`, `TestActions.TypeShown` and `UnidadActions.OfTest` would also match rows that differ in case or trailing spaces (`Register` with "A@x.com" answers 409 when "a@x.com" exists, where the model appends a second account).
- The model does not distinguish PDO exceptions from `execute()` returning false. Both are one failure verdict with a message (`Execution`) or a boolean (`executes`).
- The result of `execute()` is not checked at these sites, and there the model assumes the statement runs and takes no execution verdict: Login, the three logouts, Profile, TestsGet and Productos/Lotes; the e-mail lookup behind `AuthActions.Register`'s 409 (src/Action/Auth/RegisterAction.php:50); the existence check of `AuthActions.Remove` (src/Action/Auth/RemoveAction.php:60); the e-mail conflict check of `ProfileActions.MergeFields` (src/Action/Profile/ProfileModifyAction.php:107); all four queries of `TestActions.TestsConcretoGet` (src/Action/Tests/TestsConcretoGetAction.php:53, 56, 73, 76, 91 and 105); `TestDomain.GetTestById` (src/Domain/TestService.php:49); and the refresh lookup of `JwtHandler.Process` (src/Middleware/JWTHandlerMiddleware.php:93).
- Columns an INSERT does not list are modelled as NULL. The table defaults are not defined in the repository.
- MySQL compares an integer id with a string parameter numerically. `Schema.TestIdIs` compares the id's decimal text with the parameter, so "007" does not match id 7 in the model.
- The `code` field of `save`, `create` and `load` error results is not modelled. Only `success` and `error` are used by the handlers.
- JwtHandler.Process: the two `time()` readings and the database's `NOW()` are taken as the same instant.
- AuthActions.Login: a collision between a new refresh value and a stored one is not modelled. The 64 random bytes are an input.
- Concurrency between requests is not modelled. Each handler runs alone against the store.
- The key of `refresh_tokens` is not defined in the repository. The table is a sequence: login appends a row, and the gate takes the first qualifying row.
- Floats are not part of `Php.Value`. A JSON decimal (such as `tiempo_invertido`) or an integer too large for 64 bits, which `json_decode` turns into a float, cannot be given to the model; PHP's float-to-text conversion is not modelled.
- PHP `TypeError`s are not modelled. An array `password` makes `password_verify` and `password_hash` throw, and the framework answers 500; the model binds the array's text "Array" instead.
- JwtHandler.Process: `decode` may return a token whose `exp` has passed, which `JWT::decode` with its default leeway of 0 never does. The rotation lemmas therefore describe the code under a decoder that accepts expired tokens (a positive `JWT::$leeway`). `LibraryDecode` states the configured behaviour. The library's `iat` and `nbf` checks are not modelled.
- JwtHandler.Identified: header names are compared exactly; PSR-7 compares them case-insensitively. A non-string `sub` or `tipo` claim is added as its PHP text; how the PSR-7 implementation treats a non-string header value is not part of this model.
