/**
 * Issuing credentials: the claims of a short-lived access token (issued-at,
 * expiration and subject claims, sections 4.1.6, 4.1.4 and 4.1.2 of RFC 7519,
 * plus the role claim `tipo`) and the long-lived refresh value, 64 random bytes in
 * lowercase base16 (section 8 of RFC 4648). Signing is the JWT library's business:
 * an access token is modelled by its claims.
 */
module JwtCreator {
  import opened Php

  /** Lifetime of an access token in seconds: 15 minutes. */
  const AccessValidity: int := 60 * 15
  /** Lifetime of a refresh value in seconds: 7 days. */
  const RefreshValidity: int := 60 * 60 * 24 * 7

  /** Number of random bytes behind a refresh value. */
  const RefreshBytes: nat := 64

  datatype Claims = Claims(iat: int, exp: int, sub: Value, tipo: Value)

  /**
   * `generateAccessToken($userId, $tipo, ...)`: the payload signed into the token.
   * Both `time()` readings are taken as the same instant `now`.
   */
  function GenerateAccessToken(userId: Value, tipo: Value, now: int): (c: Claims)
  {
    Claims(now, now + AccessValidity, userId, tipo)
  }

  /** The issued claims carry the given subject and role unchanged and expire 900 s after issue. */
  lemma AccessTokenClaims(userId: Value, tipo: Value, now: int)
    ensures GenerateAccessToken(userId, tipo, now).iat == now
    ensures GenerateAccessToken(userId, tipo, now).exp == GenerateAccessToken(userId, tipo, now).iat + 900
    ensures GenerateAccessToken(userId, tipo, now).sub == userId
    ensures GenerateAccessToken(userId, tipo, now).tipo == tipo
  {
  }

  type Byte = x: int | 0 <= x < 256

  function HexDigit(d: int): char
    requires 0 <= d < 16
  {
    "0123456789abcdef"[d]
  }

  predicate IsLowerHex(c: char)
  {
    '0' <= c <= '9' || 'a' <= c <= 'f'
  }

  /** `bin2hex($bytes)`: every byte becomes two lowercase base16 digits. */
  function Bin2Hex(bytes: seq<Byte>): (s: string)
    ensures |s| == 2 * |bytes|
    ensures forall k :: 0 <= k < |s| ==> IsLowerHex(s[k])
  {
    if bytes == [] then ""
    else [HexDigit(bytes[0] / 16), HexDigit(bytes[0] % 16)] + Bin2Hex(bytes[1..])
  }

  /** Byte i is written at characters 2i (high nibble) and 2i+1 (low nibble). */
  lemma {:induction false} Bin2HexAt(bytes: seq<Byte>, i: nat)
    requires i < |bytes|
    ensures Bin2Hex(bytes)[2 * i] == HexDigit(bytes[i] / 16)
    ensures Bin2Hex(bytes)[2 * i + 1] == HexDigit(bytes[i] % 16)
  {
    if i > 0 {
      Bin2HexAt(bytes[1..], i - 1);
      assert Bin2Hex(bytes) == [HexDigit(bytes[0] / 16), HexDigit(bytes[0] % 16)] + Bin2Hex(bytes[1..]);
    }
  }

  /** The value of a lowercase base16 digit. */
  function HexValue(c: char): int
    requires IsLowerHex(c)
  {
    if '0' <= c <= '9' then c as int - '0' as int else c as int - 'a' as int + 10
  }

  lemma HexValueOfDigit(d: int)
    requires 0 <= d < 16
    ensures IsLowerHex(HexDigit(d)) && HexValue(HexDigit(d)) == d
  {
  }

  /** `hex2bin($s)` on lowercase base16 text of even length. */
  function Hex2Bin(s: string): seq<int>
    requires |s| % 2 == 0
    requires forall k :: 0 <= k < |s| ==> IsLowerHex(s[k])
  {
    if s == [] then [] else [16 * HexValue(s[0]) + HexValue(s[1])] + Hex2Bin(s[2..])
  }

  /** Encoding loses nothing: the random bytes are recovered from the refresh value. */
  lemma {:induction false} Bin2HexRoundTrip(bytes: seq<Byte>)
    ensures Hex2Bin(Bin2Hex(bytes)) == bytes
  {
    if bytes != [] {
      var b := bytes[0];
      HexValueOfDigit(b / 16);
      HexValueOfDigit(b % 16);
      Bin2HexRoundTrip(bytes[1..]);
      assert Bin2Hex(bytes)[2..] == Bin2Hex(bytes[1..]);
    }
  }

  /** `generateRefreshToken()`: `bin2hex(random_bytes(64))`, the random bytes given as input. */
  function GenerateRefreshToken(random: seq<Byte>): (token: string)
    requires |random| == RefreshBytes
    ensures |token| == 128
    ensures forall k :: 0 <= k < |token| ==> IsLowerHex(token[k])
    ensures Hex2Bin(token) == random
  {
    Bin2HexRoundTrip(random);
    Bin2Hex(random)
  }
}
