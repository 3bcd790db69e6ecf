/** The text the client renders on its own: the hex correlation id minted by
    `RandomId` (client.go:77-81) and the handshake credential built in
    `connect` (client.go:115-129).

    HMAC-SHA256 (RFC 2104 over FIPS 180-4) and standard base64 (section 4 of
    RFC 4648) are not computed here: they are the two function-valued fields
    of `Primitives`, left uninterpreted, so that only the text fed to them and
    where their result goes are modelled. */
module Codec {
  import opened Envelope

  // ---------------------------------------------------------------------
  // RandomId: `fmt.Sprintf("%x", b)` of 8 random bytes
  // ---------------------------------------------------------------------

  predicate IsLowerHex(c: char) {
    '0' <= c <= '9' || 'a' <= c <= 'f'
  }

  /** Text made of whole lowercase hex byte pairs. */
  predicate IsHexText(s: string) {
    |s| % 2 == 0 && forall i :: 0 <= i < |s| ==> IsLowerHex(s[i])
  }

  function HexDigit(v: nat): (c: char)
    requires v < 16
    ensures IsLowerHex(c)
  {
    if v < 10 then ('0' as int + v) as char else ('a' as int + v - 10) as char
  }

  function HexValue(c: char): (v: nat)
    requires IsLowerHex(c)
    ensures v < 16 && HexDigit(v) == c
  {
    if c <= '9' then c as int - '0' as int else c as int - 'a' as int + 10
  }

  /** Two lowercase hex digits per byte, high nibble first. */
  function Hex(bs: seq<byte>): (s: string)
    ensures |s| == 2 * |bs|
    ensures IsHexText(s)
  {
    if bs == [] then []
    else [HexDigit(bs[0] as int / 16), HexDigit(bs[0] as int % 16)] + Hex(bs[1..])
  }

  /** Reads hex text back into bytes: the inverse of `Hex`. */
  function Unhex(s: string): (bs: seq<byte>)
    requires IsHexText(s)
    ensures 2 * |bs| == |s|
  {
    if s == [] then []
    else
      assert IsLowerHex(s[0]) && IsLowerHex(s[1]);
      assert IsHexText(s[2..]) by {
        forall i | 0 <= i < |s[2..]| ensures IsLowerHex(s[2..][i]) {
          assert s[2..][i] == s[i + 2];
        }
      }
      [(16 * HexValue(s[0]) + HexValue(s[1])) as byte] + Unhex(s[2..])
  }

  lemma {:induction false} UnhexHex(bs: seq<byte>)
    ensures Unhex(Hex(bs)) == bs
  {
    if bs != [] {
      var s := Hex(bs);
      assert s[2..] == Hex(bs[1..]);
      UnhexHex(bs[1..]);
    }
  }

  lemma {:induction false} HexUnhex(s: string)
    requires IsHexText(s)
    ensures Hex(Unhex(s)) == s
  {
    if s != [] {
      var bs := Unhex(s);
      var b := (16 * HexValue(s[0]) + HexValue(s[1])) as byte;
      assert bs[0] == b && bs[1..] == Unhex(s[2..]);
      assert b as int / 16 == HexValue(s[0]) && b as int % 16 == HexValue(s[1]);
      HexUnhex(s[2..]);
      assert s == [s[0], s[1]] + s[2..];
    }
  }

  /** The correlation id minted from the 8 random bytes `mint`. */
  function RandomId(mint: Bytes8): (id: string)
    ensures |id| == 16 && IsHexText(id)
  {
    Hex(mint)
  }

  /** Distinct draws give distinct ids, and every 16-character lowercase hex
      string is the id of exactly one draw. */
  lemma RandomIdIsBijective(a: Bytes8, b: Bytes8, id: string)
    ensures RandomId(a) == RandomId(b) ==> a == b
    ensures |id| == 16 && IsHexText(id) ==> |Unhex(id)| == 8 && RandomId(Unhex(id)) == id
  {
    UnhexHex(a);
    UnhexHex(b);
    if |id| == 16 && IsHexText(id) {
      HexUnhex(id);
    }
  }

  // ---------------------------------------------------------------------
  // Decimal rendering: `fmt.Sprintf("%d", timestamp)`
  // ---------------------------------------------------------------------

  predicate IsDigit(c: char) {
    '0' <= c <= '9'
  }

  predicate IsDigitText(s: string) {
    |s| >= 1 && forall i :: 0 <= i < |s| ==> IsDigit(s[i])
  }

  function DigitChar(d: nat): (c: char)
    requires d < 10
    ensures IsDigit(c)
  {
    ('0' as int + d) as char
  }

  function DigitValue(c: char): (d: nat)
    requires IsDigit(c)
    ensures d < 10 && DigitChar(d) == c
  {
    c as int - '0' as int
  }

  /** The digits of `n`, most significant first, without leading zeros. */
  function Digits(n: nat): (s: string)
    ensures IsDigitText(s)
    ensures s[0] == '0' <==> n == 0
  {
    if n < 10 then [DigitChar(n)] else Digits(n / 10) + [DigitChar(n % 10)]
  }

  /** `%d` of a Go integer: a minus sign before the digits of a negative
      value, and no leading zeros. The text reads back to the integer. */
  function Decimal(n: int): (d: string)
    ensures IsDecimalText(d) && ParseDecimal(d) == n
    ensures d[0] == '-' <==> n < 0
    ensures d[if n < 0 then 1 else 0] == '0' <==> n == 0
  {
    if n < 0 then
      DigitsRoundTrip(-n);
      assert (['-'] + Digits(-n))[1..] == Digits(-n);
      ['-'] + Digits(-n)
    else
      DigitsRoundTrip(n);
      Digits(n)
  }

  function ParseDigits(s: string): nat
    requires IsDigitText(s)
  {
    if |s| == 1 then DigitValue(s[0])
    else
      var init := s[..|s| - 1];
      assert IsDigitText(init) by {
        forall i | 0 <= i < |init| ensures IsDigit(init[i]) {
          assert init[i] == s[i];
        }
      }
      10 * ParseDigits(init) + DigitValue(s[|s| - 1])
  }

  predicate IsDecimalText(s: string) {
    IsDigitText(s) || (|s| >= 2 && s[0] == '-' && IsDigitText(s[1..]))
  }

  /** Reads `%d` text back: the inverse of `Decimal`. */
  function ParseDecimal(s: string): int
    requires IsDecimalText(s)
  {
    if s[0] == '-' then -(ParseDigits(s[1..]) as int) else ParseDigits(s)
  }

  lemma {:induction false} DigitsRoundTrip(n: nat)
    ensures ParseDigits(Digits(n)) == n
  {
    if n >= 10 {
      var s := Digits(n);
      assert s[..|s| - 1] == Digits(n / 10);
      DigitsRoundTrip(n / 10);
    }
  }

  // ---------------------------------------------------------------------
  // The handshake credential
  // ---------------------------------------------------------------------

  /** HMAC-SHA256 (key, message) and standard base64, left uninterpreted. */
  datatype Primitives = Primitives(hmacSha256: (string, string) -> seq<byte>, base64: seq<byte> -> string)

  /** The text the HMAC is computed over (client.go:116): the decimal
      timestamp, the source id and the secret, with no separators. The front
      is exactly the `%d` text of the timestamp, which reads back to it, and
      the source id and the secret follow it unchanged. */
  function AuthMessage(now: int64, sourceId: string, secret: string): (m: string)
    ensures var k := |m| - |sourceId| - |secret|;
      0 < k && m[..k] == Decimal(now as int) && ParseDecimal(m[..k]) == now as int
      && m[k..] == sourceId + secret
  {
    var d := Decimal(now as int);
    assert (d + sourceId + secret)[..|d|] == d && (d + sourceId + secret)[|d|..] == sourceId + secret;
    d + sourceId + secret
  }

  /** The `data` of the engage command (client.go:118-129): base64 of the
      HMAC-SHA256 of the auth message, keyed with the secret. An empty secret
      does not switch the credential off: the MAC is still computed, with an
      empty key, over the timestamp and the source id. */
  function Credential(p: Primitives, secret: string, sourceId: string, now: int64): (c: string)
    ensures secret == "" ==> c == p.base64(p.hmacSha256("", Decimal(now as int) + sourceId))
  {
    assert secret == "" ==> Decimal(now as int) + sourceId + secret == Decimal(now as int) + sourceId;
    p.base64(p.hmacSha256(secret, AuthMessage(now, sourceId, secret)))
  }

  /** Two handshakes that differ in only one of timestamp, source id or
      secret hash different messages. */
  lemma AuthMessageSeparatesInputs(t1: int64, t2: int64, id1: string, id2: string, s1: string, s2: string)
    ensures AuthMessage(t1, id1, s1) == AuthMessage(t2, id1, s1) ==> t1 == t2
    ensures AuthMessage(t1, id1, s1) == AuthMessage(t1, id2, s1) ==> id1 == id2
    ensures AuthMessage(t1, id1, s1) == AuthMessage(t1, id1, s2) ==> s1 == s2
  {
    var d1, d2 := Decimal(t1 as int), Decimal(t2 as int);
    if AuthMessage(t1, id1, s1) == AuthMessage(t2, id1, s1) {
      var m := AuthMessage(t1, id1, s1);
      assert |d1| == |d2|;
      assert d1 == m[..|d1|] == d2;
    }
    if AuthMessage(t1, id1, s1) == AuthMessage(t1, id2, s1) {
      var m := AuthMessage(t1, id1, s1);
      assert |id1| == |id2|;
      assert id1 == m[|d1|..|d1| + |id1|] == id2;
    }
    if AuthMessage(t1, id1, s1) == AuthMessage(t1, id1, s2) {
      var m := AuthMessage(t1, id1, s1);
      assert s1 == m[|d1| + |id1|..] == s2;
    }
  }
}
