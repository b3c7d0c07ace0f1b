/**
 * The access-token gate that runs in front of the protected routes. It reads the
 * `access_token` header, has the JWT library decode it, and either rejects the
 * request or forwards it after ADDING `user_email` and `tipo` headers built from
 * the decoded claims. Added values go after any the client already sent, and the
 * handlers read the first value. The code also has a branch that exchanges an
 * expired access token for a new one through the `refresh_token` header and the
 * `refresh_tokens` table; that branch is reached only if the decoder hands back an
 * expired token, which the library as configured does not do. The gate only reads
 * the table.
 */
module JwtHandler {
  import opened Wrappers
  import opened Php
  import opened Http
  import opened Schema
  import opened JwtCreator

  /** What `JWT::decode` makes of a header value: its claims, or an exception. */
  datatype Decoded = Valid(claims: Claims) | Invalid

  /**
   * The gate either answers the request itself, or hands the request on with the
   * identity headers added and, after a rotation, the claims of the new access
   * token attached as a request attribute.
   */
  datatype GateOutcome =
    | Reject(response: Reply)
    | Forward(headers: Headers, rotated: Option<Claims>)

  /**
   * `withAddedHeader('user_email', $decoded->sub)` then `withAddedHeader('tipo',
   * $decoded->tipo)`. A handler reading the first value sees the claim only when
   * the client did not send that header itself.
   */
  function Identified(request: Headers, claims: Claims): (h: Headers)
    ensures Header(h, "user_email") == if Sent(request, "user_email") then Header(request, "user_email") else Text(claims.sub)
    ensures Header(h, "tipo") == if Sent(request, "tipo") then Header(request, "tipo") else Text(claims.tipo)
    ensures Sent(h, "user_email") && Sent(h, "tipo")
    ensures h["user_email"][|h["user_email"]| - 1] == Text(claims.sub) && h["tipo"][|h["tipo"]| - 1] == Text(claims.tipo)
    ensures forall name :: name != "user_email" && name != "tipo" ==> Header(h, name) == Header(request, name)
  {
    AddedHeader(AddedHeader(request, "user_email", Text(claims.sub)), "tipo", Text(claims.tipo))
  }

  /** The row the refresh lookup accepts: the presented value, expiry already passed. */
  predicate Redeemable(r: RefreshRow, token: string, now: int)
  {
    r.token == token && r.expiresAt < now
  }

  /**
   * `JwtHandlerMiddleware::process`. The signature check and decoding are the
   * `decode` parameter; `time()` and the database's `NOW()` are the same instant `now`.
   */
  function Process(request: Headers, decode: string -> Decoded,
                   refreshTokens: seq<RefreshRow>, now: int): (r: GateOutcome)
    // Only the three statuses of the gate are ever answered.
    ensures r.Reject? ==> r.response.status == UNAUTHORIZED || r.response.status == BAD_REQUEST
    // Forwarding needs a present token that decodes; its claims are added after the request's own headers.
    ensures r.Forward? ==>
      !FalsyText(Header(request, "access_token")) &&
      decode(Header(request, "access_token")).Valid? &&
      r.headers == Identified(request, decode(Header(request, "access_token")).claims)
    // A rotation happens only for an expired token, against a redeemable row, and
    // the new token keeps the old role.
    ensures r.Forward? && r.rotated.Some? ==>
      decode(Header(request, "access_token")).claims.exp < now &&
      (exists k :: 0 <= k < |refreshTokens| &&
         Redeemable(refreshTokens[k], Header(request, "refresh_token"), now) &&
         r.rotated.value == GenerateAccessToken(Str(refreshTokens[k].userEmail),
                                                decode(Header(request, "access_token")).claims.tipo, now))
  {
    var accessToken := Header(request, "access_token");
    if FalsyText(accessToken) then
      Reject(Error(UNAUTHORIZED, "Token not found"))
    else
      match decode(accessToken)
      case Invalid => Reject(Error(UNAUTHORIZED, "Token not valid"))
      case Valid(claims) =>
        if claims.exp < now then
          var refreshToken := Header(request, "refresh_token");
          if FalsyText(refreshToken) then
            Reject(Response(BAD_REQUEST, Fields(map["error1" := "Access token expired", "error2" := "Missing refresh token"])))
          else
            match PastExpiryRow(refreshTokens, refreshToken, now)
            case None =>
              Reject(Response(UNAUTHORIZED, Fields(map["error1" := "Access token expired", "error2" := "Invalid or expired refresh token"])))
            case Some(row) =>
              assert row in refreshTokens && Redeemable(row, refreshToken, now);
              Forward(Identified(request, claims), Some(GenerateAccessToken(Str(row.userEmail), claims.tipo, now)))
        else
          Forward(Identified(request, claims), None)
  }

  /**
   * The identity a handler reads is the client's own header whenever the client
   * sent one: the decoded claims only come after it.
   */
  lemma ClientHeadersComeFirst(request: Headers, decode: string -> Decoded, refreshTokens: seq<RefreshRow>, now: int)
    requires Process(request, decode, refreshTokens, now).Forward?
    ensures Sent(request, "user_email") ==>
      Header(Process(request, decode, refreshTokens, now).headers, "user_email") == Header(request, "user_email")
    ensures Sent(request, "tipo") ==>
      Header(Process(request, decode, refreshTokens, now).headers, "tipo") == Header(request, "tipo")
    ensures !Sent(request, "user_email") ==>
      Header(Process(request, decode, refreshTokens, now).headers, "user_email") ==
      Text(decode(Header(request, "access_token")).claims.sub)
  {
  }

  /**
   * A client holding a valid token for one account and sending a `user_email`
   * header naming another is forwarded with the other account as the identity
   * the handlers read.
   */
  lemma ForgedIdentityHeader()
    ensures
      var claims := Claims(1000, 1900, Str("attacker@example.com"), Str("usuario"));
      var request := map["access_token" := ["a"], "user_email" := ["victim@example.com"]];
      var r := Process(request, (t: string) => Valid(claims), [], 1500);
      r.Forward? && r.rotated.None? && Header(r.headers, "user_email") == "victim@example.com" &&
      r.headers["user_email"] == ["victim@example.com", "attacker@example.com"]
  {
    var claims := Claims(1000, 1900, Str("attacker@example.com"), Str("usuario"));
    var request := map["access_token" := ["a"], "user_email" := ["victim@example.com"]];
    assert Header(request, "access_token") == "a";
    assert !FalsyText("a");
    assert Text(claims.sub) == "attacker@example.com";
  }

  /**
   * `JWT::decode` with its default leeway of 0 throws `ExpiredException` once `now`
   * reaches `exp`: every token it returns is still unexpired.
   */
  ghost predicate LibraryChecksExpiry(decode: string -> Decoded, now: int)
  {
    forall s :: decode(s).Valid? ==> now < decode(s).claims.exp
  }

  /**
   * `JWT::decode` as configured: `signed` gives the claims of a correctly signed
   * token; one whose `exp` has come is refused like a forged one.
   */
  function LibraryDecode(signed: string -> Option<Claims>, now: int): (decode: string -> Decoded)
    ensures LibraryChecksExpiry(decode, now)
  {
    (s: string) => if signed(s).Some? && now < signed(s).value.exp then Valid(signed(s).value) else Invalid
  }

  /**
   * With a decoder that refuses expired tokens, the expiry branch of the gate is
   * dead: it never answers 400 and never rotates.
   */
  lemma ExpiryBranchUnreachable(request: Headers, decode: string -> Decoded, refreshTokens: seq<RefreshRow>, now: int)
    requires LibraryChecksExpiry(decode, now)
    ensures Process(request, decode, refreshTokens, now).Reject? ==>
      Process(request, decode, refreshTokens, now).response.status == UNAUTHORIZED
    ensures Process(request, decode, refreshTokens, now).Forward? ==>
      Process(request, decode, refreshTokens, now).rotated.None?
  {
    var a := Header(request, "access_token");
    if decode(a).Valid? {
      assert now < decode(a).claims.exp;
    }
  }

  /**
   * The lifetime of an issued access token under the library's own check: it is
   * forwarded as is strictly before `iat + 900` and answered 401 "Token not
   * valid" from then on.
   */
  lemma {:induction false} LibraryTokenWindow(request: Headers, signed: string -> Option<Claims>,
                                              refreshTokens: seq<RefreshRow>, userId: Value, tipo: Value,
                                              issued: int, now: int)
    requires !FalsyText(Header(request, "access_token"))
    requires signed(Header(request, "access_token")) == Some(GenerateAccessToken(userId, tipo, issued))
    ensures now < issued + AccessValidity ==>
      Process(request, LibraryDecode(signed, now), refreshTokens, now) ==
      Forward(Identified(request, GenerateAccessToken(userId, tipo, issued)), None)
    ensures now >= issued + AccessValidity ==>
      Process(request, LibraryDecode(signed, now), refreshTokens, now) == Reject(Error(UNAUTHORIZED, "Token not valid"))
  {
    var decode := LibraryDecode(signed, now);
    var a := Header(request, "access_token");
    assert decode(a) == if now < issued + AccessValidity then Valid(GenerateAccessToken(userId, tipo, issued)) else Invalid;
  }

  // The lemmas below describe the expiry branch as written, for a decoder that may
  // hand back an expired token (as `JWT::decode` does with a positive leeway).

  /** No `access_token` header, or an empty or "0" one: 401 "Token not found". */
  lemma MissingTokenRejected(request: Headers, decode: string -> Decoded,
                             refreshTokens: seq<RefreshRow>, now: int)
    requires FalsyText(Header(request, "access_token"))
    ensures Process(request, decode, refreshTokens, now) == Reject(Error(UNAUTHORIZED, "Token not found"))
  {
  }

  /** A token the library refuses: 401 "Token not valid", whatever the refresh state. */
  lemma UndecodableRejected(request: Headers, decode: string -> Decoded,
                            refreshTokens: seq<RefreshRow>, now: int)
    requires !FalsyText(Header(request, "access_token"))
    requires decode(Header(request, "access_token")).Invalid?
    ensures Process(request, decode, refreshTokens, now) == Reject(Error(UNAUTHORIZED, "Token not valid"))
  {
  }

  /** An unexpired token (expiry not before now) is forwarded with its own claims and no rotation. */
  lemma UnexpiredForwarded(request: Headers, decode: string -> Decoded,
                           refreshTokens: seq<RefreshRow>, now: int)
    requires !FalsyText(Header(request, "access_token"))
    requires decode(Header(request, "access_token")).Valid?
    requires decode(Header(request, "access_token")).claims.exp >= now
    ensures Process(request, decode, refreshTokens, now) ==
      Forward(Identified(request, decode(Header(request, "access_token")).claims), None)
  {
  }

  /** An expired token without a refresh value: 400 with both messages, and the table is not consulted. */
  lemma MissingRefreshRejected(request: Headers, decode: string -> Decoded,
                               refreshTokens: seq<RefreshRow>, otherTokens: seq<RefreshRow>, now: int)
    requires !FalsyText(Header(request, "access_token"))
    requires decode(Header(request, "access_token")).Valid?
    requires decode(Header(request, "access_token")).claims.exp < now
    requires FalsyText(Header(request, "refresh_token"))
    ensures Process(request, decode, refreshTokens, now) ==
      Reject(Response(BAD_REQUEST, Fields(map["error1" := "Access token expired", "error2" := "Missing refresh token"])))
    ensures Process(request, decode, refreshTokens, now) == Process(request, decode, otherTokens, now)
  {
  }

  /** An expired token whose refresh value matches no redeemable row: 401 with both messages. */
  lemma UnredeemableRejected(request: Headers, decode: string -> Decoded,
                             refreshTokens: seq<RefreshRow>, now: int)
    requires !FalsyText(Header(request, "access_token"))
    requires decode(Header(request, "access_token")).Valid?
    requires decode(Header(request, "access_token")).claims.exp < now
    requires !FalsyText(Header(request, "refresh_token"))
    requires forall k :: 0 <= k < |refreshTokens| ==> !Redeemable(refreshTokens[k], Header(request, "refresh_token"), now)
    ensures Process(request, decode, refreshTokens, now) ==
      Reject(Response(UNAUTHORIZED, Fields(map["error1" := "Access token expired", "error2" := "Invalid or expired refresh token"])))
  {
  }

  /**
   * An expired token with a redeemable refresh value is forwarded. The identity
   * headers added are still the expired token's subject and role; the new token's
   * subject is the refresh row's owner, which is never compared with that subject.
   */
  lemma RedeemableRotates(request: Headers, decode: string -> Decoded,
                          refreshTokens: seq<RefreshRow>, now: int, k: nat)
    requires !FalsyText(Header(request, "access_token"))
    requires decode(Header(request, "access_token")).Valid?
    requires decode(Header(request, "access_token")).claims.exp < now
    requires !FalsyText(Header(request, "refresh_token"))
    requires k < |refreshTokens| && Redeemable(refreshTokens[k], Header(request, "refresh_token"), now)
    ensures Process(request, decode, refreshTokens, now).Forward?
    ensures Process(request, decode, refreshTokens, now).headers == Identified(request, decode(Header(request, "access_token")).claims)
    ensures Process(request, decode, refreshTokens, now).rotated.Some?
    ensures Process(request, decode, refreshTokens, now).rotated.value.exp == now + AccessValidity
  {
  }

  /**
   * The owner check that the rotation lacks: a refresh value owned by one account,
   * presented with another account's expired token, yields a new token for the
   * refresh owner while the request itself goes on as the token's subject.
   */
  lemma RotationIgnoresOwner()
    ensures
      var claims := Claims(0, 900, Str("alice@example.com"), Str("usuario"));
      var request := map["access_token" := ["a"], "refresh_token" := ["r"]];
      var rows := [RefreshRow("mallory@example.com", "r", 500)];
      var r := Process(request, (t: string) => Valid(claims), rows, 1000);
      r == Forward(Identified(request, claims), Some(Claims(1000, 1900, Str("mallory@example.com"), Str("usuario")))) &&
      Header(r.headers, "user_email") == "alice@example.com"
  {
    var claims := Claims(0, 900, Str("alice@example.com"), Str("usuario"));
    var request := map["access_token" := ["a"], "refresh_token" := ["r"]];
    assert Header(request, "access_token") == "a" && Header(request, "refresh_token") == "r";
    assert !Sent(request, "user_email");
    var rows := [RefreshRow("mallory@example.com", "r", 500)];
    var p := (r: RefreshRow) => r.token == "r" && r.expiresAt < 1000;
    assert Seqs.FirstIndex(rows, p) == Some(0);
  }

  /**
   * The lookup accepts only rows whose expiry has PASSED. A refresh value issued at
   * login time `t` (expiring at `t + RefreshValidity`) is therefore refused at every
   * instant up to its own expiry, when no other row shares the value.
   */
  lemma {:induction false} FreshRefreshCannotRotate(request: Headers, decode: string -> Decoded,
                                                    before: seq<RefreshRow>, owner: string, t: int, now: int)
    requires !FalsyText(Header(request, "access_token"))
    requires decode(Header(request, "access_token")).Valid?
    requires decode(Header(request, "access_token")).claims.exp < now
    requires !FalsyText(Header(request, "refresh_token"))
    requires forall k :: 0 <= k < |before| ==> before[k].token != Header(request, "refresh_token")
    requires now <= t + RefreshValidity
    ensures Process(request, decode, before + [RefreshRow(owner, Header(request, "refresh_token"), t + RefreshValidity)], now).Reject?
    ensures Process(request, decode, before + [RefreshRow(owner, Header(request, "refresh_token"), t + RefreshValidity)], now).response.status == UNAUTHORIZED
  {
    var rows := before + [RefreshRow(owner, Header(request, "refresh_token"), t + RefreshValidity)];
    forall k | 0 <= k < |rows|
      ensures !Redeemable(rows[k], Header(request, "refresh_token"), now)
    {
      if k < |before| {
        assert rows[k] == before[k];
      }
    }
    UnredeemableRejected(request, decode, rows, now);
  }

  /** The same stored value is accepted once its expiry has passed. */
  lemma {:induction false} StaleRefreshRotates(request: Headers, decode: string -> Decoded,
                                               before: seq<RefreshRow>, owner: string, t: int, now: int)
    requires !FalsyText(Header(request, "access_token"))
    requires decode(Header(request, "access_token")).Valid?
    requires decode(Header(request, "access_token")).claims.exp < now
    requires !FalsyText(Header(request, "refresh_token"))
    requires now > t + RefreshValidity
    ensures Process(request, decode, before + [RefreshRow(owner, Header(request, "refresh_token"), t + RefreshValidity)], now).Forward?
  {
    var rows := before + [RefreshRow(owner, Header(request, "refresh_token"), t + RefreshValidity)];
    RedeemableRotates(request, decode, rows, now, |before|);
  }

  /**
   * The test `exp < time()` on its own: a token whose claims the decoder hands
   * back is forwarded as is up to and including `iat + 900`, and after that only
   * through the expiry branch (reject or rotate). Under the library's own check
   * (`LibraryTokenWindow`) it is refused from `iat + 900` on.
   */
  lemma IssuedTokenWindow(request: Headers, decode: string -> Decoded,
                          refreshTokens: seq<RefreshRow>, userId: Value, tipo: Value, issued: int, now: int)
    requires !FalsyText(Header(request, "access_token"))
    requires decode(Header(request, "access_token")) == Valid(GenerateAccessToken(userId, tipo, issued))
    ensures now <= issued + AccessValidity ==>
      Process(request, decode, refreshTokens, now) == Forward(Identified(request, GenerateAccessToken(userId, tipo, issued)), None)
    ensures now > issued + AccessValidity ==>
      Process(request, decode, refreshTokens, now).Reject? || Process(request, decode, refreshTokens, now).rotated.Some?
  {
  }
}
