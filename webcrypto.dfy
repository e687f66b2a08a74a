/**
 * Stand-ins for the browser primitives the encryption code calls: btoa/atob
 * (base64 as in section 4 of RFC 4648), TextEncoder/TextDecoder, and the Web
 * Crypto operations (AES-GCM, JWK import and export, ECDH agreement, PBKDF2).
 *
 * The cryptographic functions are not the real algorithms. Each has a body
 * chosen only so that the facts the client relies on are provable: an AES-GCM
 * ciphertext is the plaintext plus a 16-byte tag and opens back to the
 * plaintext under the same key and IV, an ECDH agreement gives both parties the
 * same key, and PBKDF2 is deterministic in its inputs.
 */
module WebCrypto {
  import opened Common

  /** An octet of an ArrayBuffer or Uint8Array. */
  type Byte = b: int | 0 <= b < 256

  // ================================================================ base64

  /** A 6-bit value: one character of base64. */
  type Sextet = v: int | 0 <= v < 64

  /** The base64 alphabet of RFC 4648, section 4. */
  function SextetChar(v: Sextet): char
  {
    if v < 26 then ('A' as int + v) as char
    else if v < 52 then ('a' as int + (v - 26)) as char
    else if v < 62 then ('0' as int + (v - 52)) as char
    else if v == 62 then '+'
    else '/'
  }

  /** The value of an alphabet character; None for any other character (including '='). */
  function SextetValue(c: char): Option<Sextet>
  {
    if 'A' <= c <= 'Z' then Some(c as int - 'A' as int)
    else if 'a' <= c <= 'z' then Some(c as int - 'a' as int + 26)
    else if '0' <= c <= '9' then Some(c as int - '0' as int + 52)
    else if c == '+' then Some(62)
    else if c == '/' then Some(63)
    else None
  }

  lemma SextetRoundTrip(v: Sextet)
    ensures SextetValue(SextetChar(v)) == Some(v)
    ensures SextetChar(v) != '='
  {
  }

  /** The four sextets of three bytes: 8+8+8 bits regrouped as 6+6+6+6. */
  function Sextets(b0: Byte, b1: Byte, b2: Byte): (c: (Sextet, Sextet, Sextet, Sextet))
  {
    (b0 / 4, (b0 % 4) * 16 + b1 / 16, (b1 % 16) * 4 + b2 / 64, b2 % 64)
  }

  /** The three bytes four sextets spell. */
  function Octets(c0: Sextet, c1: Sextet, c2: Sextet, c3: Sextet): (seq<Byte>)
  {
    [c0 * 4 + c1 / 16, (c1 % 16) * 16 + c2 / 4, (c2 % 4) * 64 + c3]
  }

  /** Regrouping the bits and grouping them back gives the bytes. */
  lemma OctetsOfSextets(b0: Byte, b1: Byte, b2: Byte)
    ensures var (c0, c1, c2, c3) := Sextets(b0, b1, b2); Octets(c0, c1, c2, c3) == [b0, b1, b2]
  {
    var (c0, c1, c2, c3) := Sextets(b0, b1, b2);
    assert c1 / 16 == b0 % 4 && c1 % 16 == b1 / 16;
    assert c2 / 4 == b1 % 16 && c2 % 4 == b2 / 64;
  }

  function EncodeQuad(b0: Byte, b1: Byte, b2: Byte): (q: string)
    ensures |q| == 4
  {
    var (c0, c1, c2, c3) := Sextets(b0, b1, b2);
    [SextetChar(c0), SextetChar(c1), SextetChar(c2), SextetChar(c3)]
  }

  /** btoa's base64 encoding of a byte sequence, the last group padded with '='. */
  function Base64Encode(b: seq<Byte>): (s: string)
    decreases |b|
    ensures |s| % 4 == 0
    ensures |s| == 0 <==> |b| == 0
  {
    if |b| == 0 then ""
    else if |b| == 1 then EncodeQuad(b[0], 0, 0)[..2] + "=="
    else if |b| == 2 then EncodeQuad(b[0], b[1], 0)[..3] + "="
    else EncodeQuad(b[0], b[1], b[2]) + Base64Encode(b[3..])
  }

  /** Four characters without padding as three bytes. */
  function DecodeFullQuad(q: string): Option<seq<Byte>>
    requires |q| == 4
  {
    var v0, v1, v2, v3 := SextetValue(q[0]), SextetValue(q[1]), SextetValue(q[2]), SextetValue(q[3]);
    if v0.None? || v1.None? || v2.None? || v3.None? then None
    else Some(Octets(v0.value, v1.value, v2.value, v3.value))
  }

  /** The final group, which may end in "==" (one byte) or "=" (two bytes). */
  function DecodeLastQuad(q: string): Option<seq<Byte>>
    requires |q| == 4
  {
    var v0, v1, v2 := SextetValue(q[0]), SextetValue(q[1]), SextetValue(q[2]);
    if q[2] == '=' && q[3] == '=' then
      if v0.None? || v1.None? then None else Some(Octets(v0.value, v1.value, 0, 0)[..1])
    else if q[3] == '=' then
      if v0.None? || v1.None? || v2.None? then None else Some(Octets(v0.value, v1.value, v2.value, 0)[..2])
    else DecodeFullQuad(q)
  }

  /** Strict decoding of a padded base64 string; None where it fails (unpadded input and whitespace included). */
  function Base64Decode(s: string): Option<seq<Byte>>
    decreases |s|
  {
    if |s| == 0 then Some([])
    else if |s| < 4 then None
    else if |s| == 4 then DecodeLastQuad(s)
    else
      match (DecodeFullQuad(s[..4]), Base64Decode(s[4..]))
      case (Some(head), Some(tail)) => Some(head + tail)
      case _ => None
  }

  /** Each character of an encoded group decodes to its sextet. */
  lemma QuadChars(b0: Byte, b1: Byte, b2: Byte)
    ensures var q := EncodeQuad(b0, b1, b2); var (c0, c1, c2, c3) := Sextets(b0, b1, b2);
      SextetValue(q[0]) == Some(c0) && SextetValue(q[1]) == Some(c1) &&
      SextetValue(q[2]) == Some(c2) && SextetValue(q[3]) == Some(c3) && q[2] != '=' && q[3] != '='
  {
    var (c0, c1, c2, c3) := Sextets(b0, b1, b2);
    SextetRoundTrip(c0);
    SextetRoundTrip(c1);
    SextetRoundTrip(c2);
    SextetRoundTrip(c3);
  }

  lemma QuadRoundTrip(b0: Byte, b1: Byte, b2: Byte)
    ensures DecodeFullQuad(EncodeQuad(b0, b1, b2)) == Some([b0, b1, b2])
    ensures DecodeLastQuad(EncodeQuad(b0, b1, b2)) == Some([b0, b1, b2])
  {
    QuadChars(b0, b1, b2);
    OctetsOfSextets(b0, b1, b2);
  }

  lemma PairRoundTrip(b0: Byte, b1: Byte)
    ensures DecodeLastQuad(EncodeQuad(b0, b1, 0)[..3] + "=") == Some([b0, b1])
  {
    QuadChars(b0, b1, 0);
    OctetsOfSextets(b0, b1, 0);
    var e := EncodeQuad(b0, b1, 0);
    var q := e[..3] + "=";
    assert q[0] == e[0] && q[1] == e[1] && q[2] == e[2] && q[2] != '=' && q[3] == '=';
    var (c0, c1, c2, c3) := Sextets(b0, b1, 0);
    assert c3 == 0;
    assert Octets(c0, c1, c2, 0)[..2] == [b0, b1];
  }

  lemma SingleRoundTrip(b0: Byte)
    ensures DecodeLastQuad(EncodeQuad(b0, 0, 0)[..2] + "==") == Some([b0])
  {
    QuadChars(b0, 0, 0);
    OctetsOfSextets(b0, 0, 0);
    var e := EncodeQuad(b0, 0, 0);
    var q := e[..2] + "==";
    assert q[0] == e[0] && q[1] == e[1] && q[2] == '=' && q[3] == '=';
    var (c0, c1, c2, c3) := Sextets(b0, 0, 0);
    assert c2 == 0 && c3 == 0;
    assert Octets(c0, c1, 0, 0)[..1] == [b0];
  }

  /** A full group followed by a decodable rest decodes to the concatenation. */
  lemma DecodeCons(q: string, rest: string, head: seq<Byte>, tail: seq<Byte>)
    requires |q| == 4 && |rest| > 0
    requires DecodeFullQuad(q) == Some(head) && Base64Decode(rest) == Some(tail)
    ensures Base64Decode(q + rest) == Some(head + tail)
  {
    var s := q + rest;
    assert s[..4] == q && s[4..] == rest;
  }

  lemma ShortRoundTrip(b: seq<Byte>)
    requires |b| < 3
    ensures Base64Decode(Base64Encode(b)) == Some(b)
  {
    if |b| == 1 {
      SingleRoundTrip(b[0]);
      assert Base64Encode(b) == EncodeQuad(b[0], 0, 0)[..2] + "==";
      assert b == [b[0]];
    } else if |b| == 2 {
      PairRoundTrip(b[0], b[1]);
      assert Base64Encode(b) == EncodeQuad(b[0], b[1], 0)[..3] + "=";
      assert b == [b[0], b[1]];
    }
  }

  lemma TripleRoundTrip(b: seq<Byte>)
    requires |b| == 3
    ensures Base64Decode(Base64Encode(b)) == Some(b)
  {
    var q := EncodeQuad(b[0], b[1], b[2]);
    QuadRoundTrip(b[0], b[1], b[2]);
    assert b[3..] == [];
    assert Base64Encode(b) == q + "" == q;
    assert b == [b[0], b[1], b[2]];
  }

  /** Decoding what btoa produced gives the bytes back. */
  lemma {:induction false} Base64RoundTrip(b: seq<Byte>)
    ensures Base64Decode(Base64Encode(b)) == Some(b)
    decreases |b|
  {
    if |b| < 3 {
      ShortRoundTrip(b);
    } else if |b| == 3 {
      TripleRoundTrip(b);
    } else {
      var q, rest := EncodeQuad(b[0], b[1], b[2]), Base64Encode(b[3..]);
      assert Base64Encode(b) == q + rest;
      QuadRoundTrip(b[0], b[1], b[2]);
      Base64RoundTrip(b[3..]);
      DecodeCons(q, rest, [b[0], b[1], b[2]], b[3..]);
      assert b == [b[0], b[1], b[2]] + b[3..];
    }
  }

  /** A "binary string": every character code is below 256, one character per byte. */
  predicate IsBinaryString(s: string)
  {
    forall i :: 0 <= i < |s| ==> s[i] as int < 256
  }

  function BytesToBinary(b: seq<Byte>): (s: string)
    ensures |s| == |b| && IsBinaryString(s)
    ensures forall i :: 0 <= i < |b| ==> s[i] as int == b[i]
  {
    seq(|b|, i requires 0 <= i < |b| => b[i] as char)
  }

  function BinaryToBytes(s: string): (b: seq<Byte>)
    requires IsBinaryString(s)
    ensures |b| == |s|
    ensures forall i :: 0 <= i < |s| ==> b[i] == s[i] as int
  {
    seq(|s|, i requires 0 <= i < |s| => s[i] as int)
  }

  /** btoa: base64 of a binary string; None (InvalidCharacterError) if a code is 256 or more. */
  function Btoa(s: string): (r: Option<string>)
    ensures r.Some? <==> IsBinaryString(s)
  {
    if IsBinaryString(s) then Some(Base64Encode(BinaryToBytes(s))) else None
  }

  /** atob: the binary string a base64 string stands for; None where strict decoding fails. */
  function Atob(s: string): (r: Option<string>)
    ensures r.Some? ==> IsBinaryString(r.value)
  {
    match Base64Decode(s)
    case Some(b) => Some(BytesToBinary(b))
    case None => None
  }

  /** atob inverts btoa on binary strings. */
  lemma AtobBtoa(s: string)
    requires IsBinaryString(s)
    ensures Atob(Btoa(s).value) == Some(s)
  {
    var b := BinaryToBytes(s);
    Base64RoundTrip(b);
    assert BytesToBinary(b) == s;
  }

  // ================================================================ text

  /**
   * TextEncoder/TextDecoder. UTF-8 is not modelled: each character is written
   * as three bytes holding its code point, and undecodable input becomes
   * U+FFFD, as TextDecoder does. Only the round trip is relied upon.
   */
  function EncodeChar(c: char): (b: seq<Byte>)
    ensures |b| == 3
  {
    var cp := c as int;
    [(cp / 256) / 256, (cp / 256) % 256, cp % 256]
  }

  function TextEncode(s: string): (b: seq<Byte>)
    ensures |b| == 3 * |s|
  {
    if |s| == 0 then [] else EncodeChar(s[0]) + TextEncode(s[1..])
  }

  function CodePoint(b0: Byte, b1: Byte, b2: Byte): nat
  {
    (b0 * 256 + b1) * 256 + b2
  }

  function DecodeTriple(b0: Byte, b1: Byte, b2: Byte): char
  {
    var cp := CodePoint(b0, b1, b2);
    if cp < 0xD800 || (0xE000 <= cp < 0x11_0000) then cp as char else '\U{FFFD}'
  }

  function TextDecode(b: seq<Byte>): string
    decreases |b|
  {
    if |b| == 0 then ""
    else if |b| < 3 then "\U{FFFD}"
    else [DecodeTriple(b[0], b[1], b[2])] + TextDecode(b[3..])
  }

  lemma CodePointOfChar(c: char)
    ensures CodePoint(EncodeChar(c)[0], EncodeChar(c)[1], EncodeChar(c)[2]) == c as int
  {
    var cp := c as int;
    var q := cp / 256;
    assert q / 256 * 256 + q % 256 == q;
    assert q * 256 + cp % 256 == cp;
  }

  lemma CharRoundTrip(c: char)
    ensures DecodeTriple(EncodeChar(c)[0], EncodeChar(c)[1], EncodeChar(c)[2]) == c
  {
    CodePointOfChar(c);
  }

  lemma {:induction false} TextRoundTrip(s: string)
    ensures TextDecode(TextEncode(s)) == s
  {
    if |s| > 0 {
      TextRoundTrip(s[1..]);
      CharRoundTrip(s[0]);
      var b := TextEncode(s);
      assert b[..3] == EncodeChar(s[0]) && b[3..] == TextEncode(s[1..]);
    }
  }

  // ================================================================ AES-GCM

  /** AES-GCM's authentication tag is 128 bits. */
  const TAG_LENGTH: nat := 16

  /** An imported AES key; `material` is the JWK text it was imported from. */
  datatype AesKey = AesKey(material: string)

  /** A JWK text importKey accepts: modelled as any JSON object text. */
  predicate IsJwkObject(s: string)
  {
    |s| >= 2 && s[0] == '{' && s[|s| - 1] == '}'
  }

  /** JSON.parse followed by importKey('jwk', …, AES-GCM); None where either throws. */
  function ImportAesJwk(s: string): (r: Option<AesKey>)
    ensures r.Some? <==> IsJwkObject(s)
  {
    if IsJwkObject(s) then Some(AesKey(s)) else None
  }

  /** generateKey(AES-GCM, 256) followed by exportKey('jwk') and JSON.stringify; the key bytes come from the caller. */
  function ExportAesJwk(keyBytes: seq<Byte>): (s: string)
    ensures IsJwkObject(s)
  {
    "{\"kty\":\"oct\",\"alg\":\"A256GCM\",\"k\":\"" + Base64Encode(keyBytes) + "\"}"
  }

  function KeystreamByte(k: AesKey, iv: seq<Byte>, i: nat): Byte
  {
    var m := if |k.material| == 0 then 0 else (k.material[i % |k.material|] as int) % 256;
    var v := if |iv| == 0 then 0 else iv[i % |iv|];
    (m + v) % 256
  }

  /** Adds (encrypt) or subtracts (decrypt) the keystream byte by byte, modulo 256. */
  function Keystream(k: AesKey, iv: seq<Byte>, data: seq<Byte>, decrypt: bool): (r: seq<Byte>)
    ensures |r| == |data|
  {
    seq(|data|, i requires 0 <= i < |data| =>
      if decrypt then (data[i] - KeystreamByte(k, iv, i)) % 256 else (data[i] + KeystreamByte(k, iv, i)) % 256)
  }

  function Tag(k: AesKey, iv: seq<Byte>, p: seq<Byte>): (t: seq<Byte>)
    ensures |t| == TAG_LENGTH
  {
    seq(TAG_LENGTH, j requires 0 <= j < TAG_LENGTH => (KeystreamByte(k, iv, |p| + j) + (if j < |p| then p[j] else 0)) % 256)
  }

  /** crypto.subtle.encrypt with AES-GCM: ciphertext followed by the 16-byte tag. */
  function Seal(k: AesKey, iv: seq<Byte>, p: seq<Byte>): (c: seq<Byte>)
    ensures |c| == |p| + TAG_LENGTH
  {
    Keystream(k, iv, p, false) + Tag(k, iv, p)
  }

  /** crypto.subtle.decrypt with AES-GCM; None (OperationError) on an empty IV, a short input or a tag mismatch. */
  function Open(k: AesKey, iv: seq<Byte>, c: seq<Byte>): Option<seq<Byte>>
  {
    if |iv| == 0 || |c| < TAG_LENGTH then None
    else
      var p := Keystream(k, iv, c[..|c| - TAG_LENGTH], true);
      if c[|c| - TAG_LENGTH..] == Tag(k, iv, p) then Some(p) else None
  }

  /** Decryption under the key and IV used for encryption gives the plaintext back. */
  lemma OpenSeal(k: AesKey, iv: seq<Byte>, p: seq<Byte>)
    requires |iv| > 0
    ensures Open(k, iv, Seal(k, iv, p)) == Some(p)
  {
    var c := Seal(k, iv, p);
    assert c[..|c| - TAG_LENGTH] == Keystream(k, iv, p, false);
    assert Keystream(k, iv, Keystream(k, iv, p, false), true) == p;
  }

  // ================================================================ ECDH

  /** An exported ECDH P-256 key pair as the two JWK texts. */
  datatype KeyPair = KeyPair(publicKey: string, privateKey: string)

  const PUBLIC_PREFIX: string := "{\"kty\":\"EC\",\"crv\":\"P-256\",\"x\":\""
  const PRIVATE_PREFIX: string := "{\"kty\":\"EC\",\"crv\":\"P-256\",\"d\":\""
  const JWK_SUFFIX: string := "\"}"

  /** exportKey('jwk') of the public half of the ECDH P-256 pair made from a secret. */
  function PublicJwk(secret: string): string
  {
    PUBLIC_PREFIX + secret + JWK_SUFFIX
  }

  /** exportKey('jwk') of the private half of the ECDH P-256 pair made from a secret. */
  function PrivateJwk(secret: string): string
  {
    PRIVATE_PREFIX + secret + JWK_SUFFIX
  }

  /** The text between a prefix and the JWK suffix; None where JSON.parse or importKey would throw. */
  function Unwrap(s: string, prefix: string): Option<string>
  {
    if |s| >= |prefix| + |JWK_SUFFIX| && s[..|prefix|] == prefix && s[|s| - |JWK_SUFFIX|..] == JWK_SUFFIX
    then Some(s[|prefix|..|s| - |JWK_SUFFIX|])
    else None
  }

  lemma UnwrapWrap(prefix: string, m: string)
    ensures Unwrap(prefix + m + JWK_SUFFIX, prefix) == Some(m)
  {
    var s := prefix + m + JWK_SUFFIX;
    assert s[..|prefix|] == prefix;
    assert s[|s| - |JWK_SUFFIX|..] == JWK_SUFFIX;
    assert s[|prefix|..|s| - |JWK_SUFFIX|] == m;
  }

  /** deriveKey(ECDH) from one party's private key and the other's public key. */
  function DeriveSharedKey(privateKey: string, publicKey: string): Option<AesKey>
  {
    match (Unwrap(privateKey, PRIVATE_PREFIX), Unwrap(publicKey, PUBLIC_PREFIX))
    case (Some(mine), Some(theirs)) =>
      Some(AesKey(if StrLess(theirs, mine) then theirs + "|" + mine else mine + "|" + theirs))
    case _ => None
  }

  /** Both parties of an exchange derive the same key. */
  lemma SharedKeyAgrees(a: string, b: string)
    ensures DeriveSharedKey(PrivateJwk(a), PublicJwk(b)).Some?
    ensures DeriveSharedKey(PrivateJwk(a), PublicJwk(b)) == DeriveSharedKey(PrivateJwk(b), PublicJwk(a))
  {
    UnwrapWrap(PRIVATE_PREFIX, a);
    UnwrapWrap(PUBLIC_PREFIX, b);
    UnwrapWrap(PRIVATE_PREFIX, b);
    UnwrapWrap(PUBLIC_PREFIX, a);
    StrLessTotal(a, b);
  }

  // ================================================================ PBKDF2

  /** deriveKey(PBKDF2) into a 256-bit AES-GCM key. */
  function Pbkdf2(password: string, salt: seq<Byte>, iterations: nat, hash: string): AesKey
  {
    AesKey(password + "|" + BytesToBinary(salt) + "|" + NatToString(iterations) + "|" + hash)
  }
}
