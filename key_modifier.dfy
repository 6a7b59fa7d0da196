/** Storage key derivation (services/common/key_modifier.go).

    A modifier maps a logical name to a storage key. The meta modifier
    prefixes "meta\x00"; the username modifier hashes "username\x00key" with
    SHAKE256 into 64 bytes and prints them in the URL-safe base64 alphabet of
    section 5 of RFC 4648, with '=' padding. The digest itself is a parameter:
    any function from strings to 64-byte values. */
module KeyModifier {
  import opened Basics

  /** common.ModifierFunc */
  type Modifier = string -> string

  const MetaPrefix: string := "meta\0"

  /** MetaModifier()(key) */
  function MetaModifier(key: string): (r: string)
    ensures HasPrefix(r, MetaPrefix)
    ensures r[|MetaPrefix|..] == key
  {
    MetaPrefix + key
  }

  /** Two names get the same meta name only if they are the same name. */
  lemma MetaModifierInjective(a: string, b: string)
    requires MetaModifier(a) == MetaModifier(b)
    ensures a == b
  {
    assert a == MetaModifier(a)[|MetaPrefix|..];
  }

  // ---------------------------------------------------------------------
  // Base64 with the URL and filename safe alphabet (section 5 of RFC 4648)
  // ---------------------------------------------------------------------

  /** The character for a 6-bit value: A-Z, a-z, 0-9, '-', '_'. */
  function Sextet(v: nat): (c: char)
    requires v < 64
  {
    if v < 26 then ('A' as int + v) as char
    else if v < 52 then ('a' as int + (v - 26)) as char
    else if v < 62 then ('0' as int + (v - 52)) as char
    else if v == 62 then '-'
    else '_'
  }

  predicate IsUrlSafe(c: char) {
    ('A' <= c <= 'Z') || ('a' <= c <= 'z') || ('0' <= c <= '9') || c == '-' || c == '_'
  }

  /** The 6-bit value of an alphabet character; None for anything else,
      including the pad character. */
  function SextetValue(c: char): Option<nat> {
    if 'A' <= c <= 'Z' then Some(c as int - 'A' as int)
    else if 'a' <= c <= 'z' then Some(c as int - 'a' as int + 26)
    else if '0' <= c <= '9' then Some(c as int - '0' as int + 52)
    else if c == '-' then Some(62)
    else if c == '_' then Some(63)
    else None
  }

  lemma SextetRoundTrip(v: nat)
    requires v < 64
    ensures IsUrlSafe(Sextet(v)) && SextetValue(Sextet(v)) == Some(v)
  {
  }

  const Pad: char := '='

  /** base64.URLEncoding.EncodeToString: every three bytes become four
      characters; a final one or two bytes are padded with "==" or "=". */
  function Base64Url(data: seq<Byte>): (r: string)
    decreases |data|
  {
    if |data| == 0 then ""
    else if |data| == 1 then
      [Sextet(data[0] / 4), Sextet((data[0] % 4) * 16), Pad, Pad]
    else if |data| == 2 then
      [Sextet(data[0] / 4), Sextet((data[0] % 4) * 16 + data[1] / 16), Sextet((data[1] % 16) * 4), Pad]
    else
      [Sextet(data[0] / 4), Sextet((data[0] % 4) * 16 + data[1] / 16),
       Sextet((data[1] % 16) * 4 + data[2] / 64), Sextet(data[2] % 64)]
      + Base64Url(data[3..])
  }

  /** The independent decoder: four characters at a time back to bytes. */
  function Base64UrlDecode(s: string): Option<seq<Byte>>
    decreases |s|
  {
    if |s| == 0 then Some([])
    else if |s| < 4 then None
    else
      var v0, v1 := SextetValue(s[0]), SextetValue(s[1]);
      if v0.None? || v1.None? then None
      else if |s| == 4 && s[2] == Pad && s[3] == Pad then
        Some([v0.value * 4 + v1.value / 16])
      else
        var v2 := SextetValue(s[2]);
        if v2.None? then None
        else if |s| == 4 && s[3] == Pad then
          Some([v0.value * 4 + v1.value / 16, (v1.value % 16) * 16 + v2.value / 4])
        else
          var v3 := SextetValue(s[3]);
          if v3.None? then None
          else
            var rest := Base64UrlDecode(s[4..]);
            if rest.None? || v0.value >= 64 || v1.value >= 64 || v2.value >= 64 || v3.value >= 64 then None
            else Some(Ungroup(v0.value, v1.value, v2.value, v3.value) + rest.value)
  }

  /** Four 6-bit values back to the three bytes they were cut from. */
  function Ungroup(c0: nat, c1: nat, c2: nat, c3: nat): seq<Byte>
    requires c0 < 64 && c1 < 64 && c2 < 64 && c3 < 64
  {
    [c0 * 4 + c1 / 16, (c1 % 16) * 16 + c2 / 4, (c2 % 4) * 64 + c3]
  }

  /** The arithmetic of one group: the 6-bit fields put back together give
      the three bytes they were cut from. */
  lemma GroupArithmetic(b0: Byte, b1: Byte, b2: Byte)
    ensures (b0 / 4) * 4 + ((b0 % 4) * 16 + b1 / 16) / 16 == b0
    ensures (((b0 % 4) * 16 + b1 / 16) % 16) * 16 + ((b1 % 16) * 4 + b2 / 64) / 4 == b1
    ensures (((b1 % 16) * 4 + b2 / 64) % 4) * 64 + b2 % 64 == b2
  {
  }

  lemma UngroupInverse(b0: Byte, b1: Byte, b2: Byte)
    ensures Ungroup(b0 / 4, (b0 % 4) * 16 + b1 / 16, (b1 % 16) * 4 + b2 / 64, b2 % 64) == [b0, b1, b2]
  {
    GroupArithmetic(b0, b1, b2);
  }

  /** Four characters per started group of three bytes. */
  lemma {:induction false} Base64UrlLength(data: seq<Byte>)
    ensures |Base64Url(data)| == 4 * ((|data| + 2) / 3)
    decreases |data|
  {
    if |data| > 2 {
      var rest := data[3..];
      Base64UrlLength(rest);
      assert |rest| + 3 == |data|;
      assert (|data| + 2) / 3 == (|rest| + 2) / 3 + 1;
    }
  }

  /** The first group of the encoding: characters standing for data are
      from the URL-safe alphabet, the others are padding. */
  lemma FirstGroup(data: seq<Byte>)
    requires |data| > 0
    ensures var r := Base64Url(data);
            |r| >= 4 && IsUrlSafe(r[0]) && IsUrlSafe(r[1])
            && (if |data| == 1 then r[2] == Pad else IsUrlSafe(r[2]))
            && (if |data| <= 2 then r[3] == Pad else IsUrlSafe(r[3]))
  {
    var b0 := data[0];
    SextetRoundTrip(b0 / 4);
    if |data| == 1 {
      SextetRoundTrip((b0 % 4) * 16);
    } else {
      var b1 := data[1];
      SextetRoundTrip((b0 % 4) * 16 + b1 / 16);
      if |data| == 2 {
        SextetRoundTrip((b1 % 16) * 4);
      } else {
        var b2 := data[2];
        SextetRoundTrip((b1 % 16) * 4 + b2 / 64);
        SextetRoundTrip(b2 % 64);
      }
    }
  }

  /** How many pad characters end the encoding of n bytes. */
  function PadCount(n: nat): nat {
    (3 - n % 3) % 3
  }

  lemma PadCountShift(n: nat)
    requires n >= 3
    ensures PadCount(n) == PadCount(n - 3)
  {
  }

  /** Character i of the encoding is from the URL-safe alphabet, except in
      the one or two final positions a short last group leaves free, which
      hold the pad character. */
  lemma {:induction false} Base64UrlAt(data: seq<Byte>, i: nat)
    requires i < |Base64Url(data)|
    ensures var r := Base64Url(data);
            (i < |r| - PadCount(|data|) ==> IsUrlSafe(r[i])) && (i >= |r| - PadCount(|data|) ==> r[i] == Pad)
    decreases |data|
  {
    var r := Base64Url(data);
    Base64UrlLength(data);
    if i < 4 {
      FirstGroup(data);
      if |data| == 1 {
        assert |r| == 4 && PadCount(1) == 2;
      } else if |data| == 2 {
        assert |r| == 4 && PadCount(2) == 1;
      } else if |data| == 3 {
        assert |r| == 4 && PadCount(3) == 0;
      } else {
        assert |r| >= 8 && PadCount(|data|) <= 2;
      }
    } else {
      assert |data| > 2;
      var rest := data[3..];
      Base64UrlLength(rest);
      Base64UrlAt(rest, i - 4);
      PadCountShift(|data|);
      assert |rest| == |data| - 3;
      assert r[i] == Base64Url(rest)[i - 4];
    }
  }

  /** Decoding a full group of four alphabet characters followed by more text. */
  lemma DecodeGroup(c0: nat, c1: nat, c2: nat, c3: nat, tail: string)
    requires c0 < 64 && c1 < 64 && c2 < 64 && c3 < 64
    ensures var rest := Base64UrlDecode(tail);
            Base64UrlDecode([Sextet(c0), Sextet(c1), Sextet(c2), Sextet(c3)] + tail)
            == if rest.None? then None else Some(Ungroup(c0, c1, c2, c3) + rest.value)
  {
    SextetRoundTrip(c0);
    SextetRoundTrip(c1);
    SextetRoundTrip(c2);
    SextetRoundTrip(c3);
    var s := [Sextet(c0), Sextet(c1), Sextet(c2), Sextet(c3)] + tail;
    assert s[4..] == tail;
  }

  /** A final group of one byte, padded with "==", decodes to that byte. */
  lemma DecodeOneByte(b0: Byte)
    ensures Base64UrlDecode(Base64Url([b0])) == Some([b0])
  {
    var c0, c1 := b0 / 4, (b0 % 4) * 16;
    SextetRoundTrip(c0);
    SextetRoundTrip(c1);
    var s := [Sextet(c0), Sextet(c1), Pad, Pad];
    assert Base64Url([b0]) == s;
    assert c0 * 4 + c1 / 16 == b0;
  }

  /** A final group of two bytes, padded with "=", decodes to those bytes. */
  lemma DecodeTwoBytes(b0: Byte, b1: Byte)
    ensures Base64UrlDecode(Base64Url([b0, b1])) == Some([b0, b1])
  {
    var c0, c1, c2 := b0 / 4, (b0 % 4) * 16 + b1 / 16, (b1 % 16) * 4;
    SextetRoundTrip(c0);
    SextetRoundTrip(c1);
    SextetRoundTrip(c2);
    var s := [Sextet(c0), Sextet(c1), Sextet(c2), Pad];
    assert Base64Url([b0, b1]) == s;
    GroupArithmetic(b0, b1, 0);
    assert c0 * 4 + c1 / 16 == b0;
    assert (c1 % 16) * 16 + c2 / 4 == b1;
  }

  /** One full group decodes to its three bytes, ahead of whatever the rest decodes to. */
  lemma DecodeFullGroup(b0: Byte, b1: Byte, b2: Byte, rest: seq<Byte>)
    requires Base64UrlDecode(Base64Url(rest)) == Some(rest)
    ensures Base64UrlDecode(Base64Url([b0, b1, b2] + rest)) == Some([b0, b1, b2] + rest)
  {
    var data := [b0, b1, b2] + rest;
    var c0, c1, c2, c3 := b0 / 4, (b0 % 4) * 16 + b1 / 16, (b1 % 16) * 4 + b2 / 64, b2 % 64;
    assert data[3..] == rest;
    var tail := Base64Url(rest);
    assert Base64Url(data) == [Sextet(c0), Sextet(c1), Sextet(c2), Sextet(c3)] + tail;
    DecodeGroup(c0, c1, c2, c3, tail);
    UngroupInverse(b0, b1, b2);
  }

  /** Decoding the encoding gives the bytes back, so the encoding is injective. */
  lemma {:induction false} Base64UrlRoundTrip(data: seq<Byte>)
    ensures Base64UrlDecode(Base64Url(data)) == Some(data)
    decreases |data|
  {
    if |data| == 0 {
      assert Base64Url(data) == [];
    } else if |data| == 1 {
      assert data == [data[0]];
      DecodeOneByte(data[0]);
    } else if |data| == 2 {
      assert data == [data[0], data[1]];
      DecodeTwoBytes(data[0], data[1]);
    } else {
      var rest := data[3..];
      assert data == [data[0], data[1], data[2]] + rest;
      Base64UrlRoundTrip(rest);
      DecodeFullGroup(data[0], data[1], data[2], rest);
    }
  }

  lemma Base64UrlInjective(a: seq<Byte>, b: seq<Byte>)
    requires Base64Url(a) == Base64Url(b)
    ensures a == b
  {
    Base64UrlRoundTrip(a);
    Base64UrlRoundTrip(b);
  }

  // ---------------------------------------------------------------------
  // The username modifier
  // ---------------------------------------------------------------------

  /** The 64 bytes read from the SHAKE256 sponge. */
  type Digest = s: seq<Byte> | |s| == 64 witness seq(64, i => 0)

  /** sha3.ShakeSum256 with a 64-byte output, over the bytes of a string. */
  type Shake256 = string -> Digest

  /** The pre-hash framing "username\x00key". */
  function Frame(username: string, key: string): string {
    username + "\0" + key
  }

  /** UsernameModifier(username)(key) */
  function UsernameModifier(shake: Shake256, username: string): Modifier {
    key => Base64Url(shake(Frame(username, key)))
  }

  /** Every derived key is 88 characters: 86 from the URL-safe alphabet and
      two '=' (64 bytes leave a final group of one byte). Decoding it gives
      the digest of the framed pair back. */
  lemma UsernameModifierShape(shake: Shake256, username: string, key: string)
    ensures var k := UsernameModifier(shake, username)(key);
            && |k| == 88
            && (forall i :: 0 <= i < 86 ==> IsUrlSafe(k[i]))
            && k[86] == Pad && k[87] == Pad
            && Base64UrlDecode(k) == Some(shake(Frame(username, key)))
  {
    var d := shake(Frame(username, key));
    var k := Base64Url(d);
    assert UsernameModifier(shake, username)(key) == k;
    Base64UrlLength(d);
    assert |k| == 88 && PadCount(|d|) == 2;
    forall i | 0 <= i < 88
      ensures (i < 86 ==> IsUrlSafe(k[i])) && (i >= 86 ==> k[i] == Pad)
    {
      Base64UrlAt(d, i);
    }
    Base64UrlRoundTrip(d);
  }

  predicate NoNul(s: string) {
    forall i :: 0 <= i < |s| ==> s[i] != '\0'
  }

  /** The framing is injective over pairs whose username has no NUL byte:
      the first NUL of the frame marks where the username ends. */
  lemma FrameInjective(u1: string, k1: string, u2: string, k2: string)
    requires NoNul(u1) && NoNul(u2)
    requires Frame(u1, k1) == Frame(u2, k2)
    ensures u1 == u2 && k1 == k2
  {
    var f := Frame(u1, k1);
    assert f[|u1|] == '\0' && f[|u2|] == '\0';
    assert |u1| == |u2|;
    assert u1 == f[..|u1|] == u2;
    assert k1 == f[|u1| + 1..] == k2;
  }

  /** With a NUL in the username the framing is ambiguous: user "a\x00" with
      key "b" and user "a" with key "\x00b" hash the same string. */
  lemma FrameCollision()
    ensures Frame("a\0", "b") == Frame("a", "\0b")
    ensures ("a\0", "b") != ("a", "\0b")
  {
  }

  /** Two distinct (username, name) pairs with NUL-free usernames receive the
      same storage key only when SHAKE256 collides on two distinct inputs. */
  lemma KeyCollisionIsDigestCollision(shake: Shake256, u1: string, k1: string, u2: string, k2: string)
    requires NoNul(u1) && NoNul(u2)
    requires (u1, k1) != (u2, k2)
    requires UsernameModifier(shake, u1)(k1) == UsernameModifier(shake, u2)(k2)
    ensures Frame(u1, k1) != Frame(u2, k2)
    ensures shake(Frame(u1, k1)) == shake(Frame(u2, k2))
  {
    Base64UrlInjective(shake(Frame(u1, k1)), shake(Frame(u2, k2)));
    if Frame(u1, k1) == Frame(u2, k2) {
      FrameInjective(u1, k1, u2, k2);
    }
  }
}
