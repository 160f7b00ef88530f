/**
 Reference tokens (`drip/link_attribution.py`): 16 random bytes in base64url without padding (sections 3.5
 and 5 of RFC 4648). The last of the 22 characters carries only two data bits, so the accepted form pins
 its four padding bits to zero.
 */
module ReferenceTokens {
  import opened Outcomes

  const REFERENCE_PREFIX := "oo_"
  const REFERENCE_TOKEN_LENGTH := 22
  // 16 bytes are five groups of three and one more.
  const GROUPS := 5

  type Byte = x: int | 0 <= x < 256

  type Sextet = x: int | 0 <= x < 64

  // ------------------------------------------------------------------ the alphabet

  function CharOf(x: Sextet): char {
    if x < 26 then 'A' + x as char
    else if x < 52 then 'a' + (x - 26) as char
    else if x < 62 then '0' + (x - 52) as char
    else if x == 62 then '-' else '_'
  }

  function SextetOf(c: char): Option<Sextet> {
    if 'A' <= c <= 'Z' then Some(c as int - 'A' as int)
    else if 'a' <= c <= 'z' then Some(c as int - 'a' as int + 26)
    else if '0' <= c <= '9' then Some(c as int - '0' as int + 52)
    else if c == '-' then Some(62) else if c == '_' then Some(63) else None
  }

  lemma CharsRoundTrip(x: Sextet, c: char)
    ensures SextetOf(CharOf(x)) == Some(x)
    ensures SextetOf(c).Some? ==> CharOf(SextetOf(c).value) == c
  {
  }

  // ------------------------------------------------------------------- the groups

  // Three bytes are four sextets of the same 24 bits.
  function Pack(a: Byte, b: Byte, c: Byte): (Sextet, Sextet, Sextet, Sextet) {
    (a as int / 4, a as int % 4 * 16 + b as int / 16, b as int % 16 * 4 + c as int / 64, c as int % 64)
  }

  function Unpack(w: Sextet, x: Sextet, y: Sextet, z: Sextet): (Byte, Byte, Byte) {
    (w as int * 4 + x as int / 16, x as int % 16 * 16 + y as int / 4, y as int % 4 * 64 + z as int)
  }

  lemma PackUnpack(a: Byte, b: Byte, c: Byte, w: Sextet, x: Sextet, y: Sextet, z: Sextet)
    ensures var (p, q, r, t) := Pack(a, b, c); Unpack(p, q, r, t) == (a, b, c)
    ensures var (d, e, f) := Unpack(w, x, y, z); Pack(d, e, f) == (w, x, y, z)
  {
    hide Pack, Unpack;
    UnpackPack(w, x, y, z);
    BytesBack(a, b, c);
  }

  lemma BytesBack(a: Byte, b: Byte, c: Byte)
    ensures var (p, q, r, t) := Pack(a, b, c); Unpack(p, q, r, t) == (a, b, c)
  {
    Join16(a as int % 4, b as int / 16);
    Join4(b as int % 16, c as int / 64);
  }

  lemma UnpackPack(w: Sextet, x: Sextet, y: Sextet, z: Sextet)
    ensures var (d, e, f) := Unpack(w, x, y, z); Pack(d, e, f) == (w, x, y, z)
  {
    Join4(w as int, x as int / 16);
    Join16(x as int % 16, y as int / 4);
    Join64(y as int % 4, z as int);
  }

  // A quotient and a remainder put together and taken apart again.
  lemma Join4(q: int, r: int)
    requires 0 <= r < 4
    ensures (q * 4 + r) / 4 == q && (q * 4 + r) % 4 == r
  {
  }

  lemma Join16(q: int, r: int)
    requires 0 <= r < 16
    ensures (q * 16 + r) / 16 == q && (q * 16 + r) % 16 == r
  {
  }

  lemma Join64(q: int, r: int)
    requires 0 <= r < 64
    ensures (q * 64 + r) / 64 == q && (q * 64 + r) % 64 == r
  {
  }

  // A last byte alone takes two sextets, the second with four bits of padding.
  function PackLast(a: Byte): (Sextet, Sextet) {
    (a as int / 4, a as int % 4 * 16)
  }

  // Reading drops the padding, whatever it is.
  function UnpackLast(w: Sextet, x: Sextet): Byte {
    w as int * 4 + x as int / 16
  }

  lemma PackUnpackLast(a: Byte, w: Sextet, x: Sextet)
    ensures UnpackLast(PackLast(a).0, PackLast(a).1) == a && PackLast(a).1 % 16 == 0
    ensures PackLast(UnpackLast(w, x)) == (w, x as int / 16 * 16)
  {
    hide PackLast, UnpackLast;
    LastByteBack(a);
    LastSextetsBack(w, x);
  }

  lemma LastByteBack(a: Byte)
    ensures UnpackLast(PackLast(a).0, PackLast(a).1) == a && PackLast(a).1 % 16 == 0
  {
    Join16(a as int % 4, 0);
    assert PackLast(a).1 as int / 16 == a as int % 4;
  }

  lemma LastSextetsBack(w: Sextet, x: Sextet)
    ensures PackLast(UnpackLast(w, x)) == (w, x as int / 16 * 16)
  {
    Join4(w as int, x as int / 16);
    assert UnpackLast(w, x) as int / 4 == w as int && UnpackLast(w, x) as int % 4 == x as int / 16;
  }

  // `n` full groups and one more byte.
  function EncodeBytes(b: seq<Byte>, n: nat): (t: seq<Sextet>)
    requires |b| == 3 * n + 1
    ensures |t| == 4 * n + 2
    decreases n
  {
    if n == 0 then
      var (w, x) := PackLast(b[0]);
      [w, x]
    else
      var (w, x, y, z) := Pack(b[0], b[1], b[2]);
      [w, x, y, z] + EncodeBytes(b[3..], n - 1)
  }

  function DecodeSextets(t: seq<Sextet>, n: nat): (b: seq<Byte>)
    requires |t| == 4 * n + 2
    ensures |b| == 3 * n + 1
    decreases n
  {
    if n == 0 then [UnpackLast(t[0], t[1])]
    else
      var (a, b, c) := Unpack(t[0], t[1], t[2], t[3]);
      [a, b, c] + DecodeSextets(t[4..], n - 1)
  }

  predicate Padded(t: seq<Sextet>) {
    t != [] && t[|t| - 1] % 16 == 0
  }

  lemma Four<T>(w: T, x: T, y: T, z: T, rest: seq<T>)
    ensures var t := [w, x, y, z] + rest; t[0] == w && t[1] == x && t[2] == y && t[3] == z && t[4..] == rest
  {
  }

  lemma Three<T>(a: T, b: T, c: T, rest: seq<T>)
    ensures var t := [a, b, c] + rest; t[0] == a && t[1] == b && t[2] == c && t[3..] == rest
  {
  }

  lemma FirstThree<T>(b: seq<T>)
    requires |b| >= 3
    ensures [b[0], b[1], b[2]] + b[3..] == b
  {
  }

  lemma DecodeLast(w: Sextet, x: Sextet)
    ensures DecodeSextets([w, x], 0) == [UnpackLast(w, x)]
    ensures Padded([w, x]) <==> x % 16 == 0
  {
    hide Unpack, UnpackLast;
  }

  lemma {:induction false} LastByte(b: seq<Byte>)
    requires |b| == 1
    ensures Padded(EncodeBytes(b, 0)) && DecodeSextets(EncodeBytes(b, 0), 0) == b
  {
    hide Pack, Unpack, PackLast, UnpackLast, EncodeBytes, DecodeSextets, Padded;
    PackUnpackLast(b[0], 0, 0);
    EncodeLast(b[0]);
    DecodeLast(PackLast(b[0]).0, PackLast(b[0]).1);
    assert b == [b[0]];
  }

  lemma EncodeLast(a: Byte)
    ensures EncodeBytes([a], 0) == [PackLast(a).0, PackLast(a).1]
  {
    hide Pack, PackLast;
  }

  lemma ClearedLast(t: seq<Sextet>)
    requires |t| == 2
    ensures Cleared(t) == [t[0], t[1] as int / 16 * 16]
  {
  }

  lemma {:induction false} LastSextets(t: seq<Sextet>)
    requires |t| == 2
    ensures EncodeBytes(DecodeSextets(t, 0), 0) == Cleared(t)
  {
    hide Pack, Unpack, PackLast, UnpackLast, EncodeBytes, Cleared;
    PackUnpackLast(0, t[0], t[1]);
    EncodeLast(UnpackLast(t[0], t[1]));
    ClearedLast(t);
  }

  lemma StillPadded(a: seq<Sextet>, b: seq<Sextet>)
    requires Padded(b)
    ensures Padded(a + b)
  {
  }

  lemma EncodeStep(b: seq<Byte>, n: nat)
    requires |b| == 3 * n + 1 && n > 0
    ensures var p := Pack(b[0], b[1], b[2]); EncodeBytes(b, n) == [p.0, p.1, p.2, p.3] + EncodeBytes(b[3..], n - 1)
  {
    hide Pack;
  }

  lemma DecodeStep(t: seq<Sextet>, n: nat)
    requires |t| == 4 * n + 2 && n > 0
    ensures var u := Unpack(t[0], t[1], t[2], t[3]); DecodeSextets(t, n) == [u.0, u.1, u.2] + DecodeSextets(t[4..], n - 1)
  {
    hide Unpack;
  }

  lemma {:induction false} DecodeEncoded(b: seq<Byte>, n: nat)
    requires |b| == 3 * n + 1
    ensures Padded(EncodeBytes(b, n)) && DecodeSextets(EncodeBytes(b, n), n) == b
  {
    hide Pack, Unpack, EncodeBytes, DecodeSextets, Padded;
    if n == 0 {
      LastByte(b);
    } else {
      PackUnpack(b[0], b[1], b[2], 0, 0, 0, 0);
      var p, rest, t := Pack(b[0], b[1], b[2]), EncodeBytes(b[3..], n - 1), EncodeBytes(b, n);
      EncodeStep(b, n);
      Four(p.0, p.1, p.2, p.3, rest);
      DecodeStep(t, n);
      DecodeEncoded(b[3..], n - 1);
      StillPadded([p.0, p.1, p.2, p.3], rest);
      FirstThree(b);
    }
  }

  // A token with its padding bits cleared.
  function Cleared(t: seq<Sextet>): seq<Sextet>
    requires t != []
  {
    t[|t| - 1 := t[|t| - 1] as int / 16 * 16]
  }

  lemma ClearedRest(t: seq<Sextet>)
    requires |t| > 4
    ensures Cleared(t) == [t[0], t[1], t[2], t[3]] + Cleared(t[4..])
  {
  }

  lemma {:induction false} EncodeDecoded(t: seq<Sextet>, n: nat)
    requires |t| == 4 * n + 2
    ensures EncodeBytes(DecodeSextets(t, n), n) == Cleared(t)
  {
    hide Pack, Unpack, EncodeBytes, DecodeSextets, Cleared;
    if n == 0 {
      LastSextets(t);
    } else {
      PackUnpack(0, 0, 0, t[0], t[1], t[2], t[3]);
      var u, rest, b := Unpack(t[0], t[1], t[2], t[3]), DecodeSextets(t[4..], n - 1), DecodeSextets(t, n);
      DecodeStep(t, n);
      Three(u.0, u.1, u.2, rest);
      EncodeStep(b, n);
      EncodeDecoded(t[4..], n - 1);
      ClearedRest(t);
    }
  }

  // -------------------------------------------------------------------- the tokens

  function Chars(t: seq<Sextet>): (s: string)
    ensures |s| == |t| && forall i | 0 <= i < |t| :: s[i] == CharOf(t[i])
  {
    if t == [] then "" else [CharOf(t[0])] + Chars(t[1..])
  }

  predicate InAlphabet(s: string) {
    forall i | 0 <= i < |s| :: SextetOf(s[i]).Some?
  }

  function Sextets(s: string): (t: seq<Sextet>)
    requires InAlphabet(s)
    ensures |t| == |s| && forall i | 0 <= i < |s| :: Some(t[i]) == SextetOf(s[i])
  {
    if s == "" then [] else [SextetOf(s[0]).value] + Sextets(s[1..])
  }

  // secrets.token_urlsafe(16)
  function TokenOf(value: seq<Byte>): string
    requires |value| == 16
  {
    Chars(EncodeBytes(value, GROUPS))
  }

  predicate WellFormed(token: string) {
    |token| == REFERENCE_TOKEN_LENGTH && InAlphabet(token)
  }

  // The regular expression: 21 characters of the alphabet and one of A, Q, g, w.
  predicate ValidToken(token: string) {
    WellFormed(token) && token[21] in {'A', 'Q', 'g', 'w'}
  }

  function ValueOf(token: string): (value: seq<Byte>)
    requires WellFormed(token)
    ensures |value| == 16
  {
    DecodeSextets(Sextets(token), GROUPS)
  }

  predicate ValidReference(reference: string) {
    |reference| == 3 + REFERENCE_TOKEN_LENGTH && reference[..3] == REFERENCE_PREFIX && ValidToken(reference[3..])
  }

  function GenerateReference(value: seq<Byte>): string
    requires |value| == 16
  {
    REFERENCE_PREFIX + TokenOf(value)
  }

  lemma PaddedChar(x: Sextet)
    ensures x % 16 == 0 <==> CharOf(x) in {'A', 'Q', 'g', 'w'}
  {
    assert x % 16 == 0 ==> x == 0 || x == 16 || x == 32 || x == 48;
  }

  lemma {:induction false} SextetsOfChars(t: seq<Sextet>)
    ensures InAlphabet(Chars(t)) && Sextets(Chars(t)) == t
  {
    forall i | 0 <= i < |t| ensures SextetOf(Chars(t)[i]) == Some(t[i]) { CharsRoundTrip(t[i], 'A'); }
    assert InAlphabet(Chars(t));
    forall i | 0 <= i < |t| ensures Sextets(Chars(t))[i] == t[i] {}
  }

  lemma {:induction false} CharsOfSextets(s: string)
    requires InAlphabet(s)
    ensures Chars(Sextets(s)) == s
  {
    forall i | 0 <= i < |s| ensures Chars(Sextets(s))[i] == s[i] { CharsRoundTrip(0, s[i]); }
  }

  // Every generated reference is accepted, and gives its value back.
  lemma GeneratedIsValid(value: seq<Byte>)
    requires |value| == 16
    ensures ValidReference(GenerateReference(value)) && ValueOf(GenerateReference(value)[3..]) == value
  {
    DecodeEncoded(value, GROUPS);
    var t := EncodeBytes(value, GROUPS);
    SextetsOfChars(t);
    PaddedChar(t[21]);
    assert GenerateReference(value)[3..] == TokenOf(value);
  }

  // Accepted tokens and 16-byte values correspond one to one: a token is what its value encodes to.
  lemma ValidIsGenerated(token: string)
    requires ValidToken(token)
    ensures TokenOf(ValueOf(token)) == token
  {
    var t := Sextets(token);
    hide EncodeBytes, DecodeSextets, Chars, Sextets, CharOf, SextetOf, ValidToken;
    EncodeDecoded(t, GROUPS);
    CharsOfSextets(token);
    LastPadded(token);
    AlreadyClear(t);
  }

  lemma AlreadyClear(t: seq<Sextet>)
    requires t != [] && t[|t| - 1] % 16 == 0
    ensures Cleared(t) == t
  {
  }

  lemma {:induction false} LastPadded(token: string)
    requires WellFormed(token)
    ensures ValidToken(token) <==> Sextets(token)[21] % 16 == 0
  {
    CharsRoundTrip(0, token[21]);
    PaddedChar(Sextets(token)[21]);
  }

  // The accepted references are exactly the generated ones.
  lemma ReferencesExactly(reference: string)
    ensures ValidReference(reference) <==> exists value: seq<Byte> | |value| == 16 :: reference == "oo_" + TokenOf(value)
  {
    if ValidReference(reference) {
      var token := reference[3..];
      ValidIsGenerated(token);
      assert reference == reference[..3] + token;
      assert reference == "oo_" + TokenOf(ValueOf(token));
    }
    if value: seq<Byte> :| |value| == 16 && reference == "oo_" + TokenOf(value) {
      GeneratedIsValid(value);
    }
    hide TokenOf, ValidToken, ValueOf;
  }

  // No two accepted tokens denote the same value.
  lemma NoAliases(one: string, two: string)
    ensures ValidToken(one) && ValidToken(two) && ValueOf(one) == ValueOf(two) ==> one == two
  {
    if ValidToken(one) && ValidToken(two) {
      ValidIsGenerated(one);
      ValidIsGenerated(two);
    }
  }

  // Why the last character is pinned: reading is lenient, so every well-formed string denotes the value of
  // exactly one accepted token, and it differs from that token at most in its last character.
  lemma OneCanonicalForm(token: string)
    requires WellFormed(token)
    ensures var canonical := TokenOf(ValueOf(token));
            && ValidToken(canonical) && ValueOf(canonical) == ValueOf(token)
            && canonical[..21] == token[..21] && (canonical == token <==> ValidToken(token))
  {
    hide EncodeBytes, DecodeSextets, TokenOf, ValueOf, ValidToken, WellFormed;
    TokenIsValid(ValueOf(token));
    SamePrefix(token);
    if ValidToken(token) { ValidIsGenerated(token); }
  }

  lemma TokenIsValid(value: seq<Byte>)
    requires |value| == 16
    ensures ValidToken(TokenOf(value)) && ValueOf(TokenOf(value)) == value
  {
    hide EncodeBytes, DecodeSextets;
    GeneratedIsValid(value);
    assert GenerateReference(value)[3..] == TokenOf(value);
  }

  // Reading a string and writing its value leaves all characters but the last.
  lemma SamePrefix(token: string)
    requires WellFormed(token)
    ensures |TokenOf(ValueOf(token))| == 22 && TokenOf(ValueOf(token))[..21] == token[..21]
  {
    hide EncodeBytes, DecodeSextets, CharOf, SextetOf;
    var value, t := ValueOf(token), Sextets(token);
    EncodeDecoded(t, GROUPS);
    forall i | 0 <= i < 21 ensures TokenOf(value)[i] == token[i] {
      assert EncodeBytes(value, GROUPS)[i] == t[i];
      CharsRoundTrip(0, token[i]);
    }
  }
}
