/**
 Base64 as section 4 of RFC 4648 defines it, in three layers: bytes become 6-bit values, the values become
 alphabet symbols, and padding completes the last quantum.

 `Decode` ignores the unused low bits of the last value, as the JavaScript decoders do; `TrailingBitsZero`
 is the extra condition of section 3.5 that strict decoders check.
 */
module Base64 {
  import opened Bytes

  type sextet = x: int | 0 <= x < 64

  // ----- Bytes and 6-bit values -----

  // The four values that three bytes make, and the three bytes that four values make.
  function Pack0(a: byte): sextet { a as int / 4 }
  function Pack1(a: byte, b: byte): sextet { a as int % 4 * 16 + b as int / 16 }
  function Pack2(b: byte, c: byte): sextet { b as int % 16 * 4 + c as int / 64 }
  function Pack3(c: byte): sextet { c as int % 64 }
  function Byte0(p: sextet, q: sextet): byte { p as int * 4 + q as int / 16 }
  function Byte1(q: sextet, r: sextet): byte { q as int % 16 * 16 + r as int / 4 }
  function Byte2(r: sextet, t: sextet): byte { r as int % 4 * 64 + t as int }

  function Pack(bytes: seq<byte>): (values: seq<sextet>)
  {
    if |bytes| == 0 then []
    else if |bytes| == 1 then [Pack0(bytes[0]), Pack1(bytes[0], 0)]
    else if |bytes| == 2 then [Pack0(bytes[0]), Pack1(bytes[0], bytes[1]), Pack2(bytes[1], 0)]
    else [Pack0(bytes[0]), Pack1(bytes[0], bytes[1]), Pack2(bytes[1], bytes[2]), Pack3(bytes[2])] + Pack(bytes[3..])
  }

  function Unpack(v: seq<sextet>): (bytes: seq<byte>) {
    if |v| <= 1 then []
    else if |v| == 2 then [Byte0(v[0], v[1])]
    else if |v| == 3 then [Byte0(v[0], v[1]), Byte1(v[1], v[2])]
    else [Byte0(v[0], v[1]), Byte1(v[1], v[2]), Byte2(v[2], v[3])] + Unpack(v[4..])
  }

  /** The values are a whole number of bytes, and the bits of the last value that no byte uses are zero. */
  predicate TrailingBitsZero(v: seq<sextet>) {
    if |v| >= 4 then TrailingBitsZero(v[4..])
    else |v| != 1 && (|v| == 2 ==> v[1] % 16 == 0) && (|v| == 3 ==> v[2] % 4 == 0)
  }

  lemma {:induction false} PackIsCanonical(bytes: seq<byte>)
    ensures TrailingBitsZero(Pack(bytes))
  {
    if |bytes| >= 3 {
      PackIsCanonical(bytes[3..]);
    }
  }

  lemma {:induction false} PackLength(bytes: seq<byte>)
    ensures |Pack(bytes)| == (4 * |bytes| + 2) / 3
  {
    if |bytes| >= 3 {
      PackLength(bytes[3..]);
    }
  }

  lemma {:induction false} UnpackPack(bytes: seq<byte>, v: seq<sextet>)
    requires v == Pack(bytes)
    ensures Unpack(v) == bytes
  {
    if |bytes| >= 3 {
      assert v[4..] == Pack(bytes[3..]);
      UnpackPack(bytes[3..], v[4..]);
      assert Unpack(v) == [bytes[0], bytes[1], bytes[2]] + bytes[3..];
    }
  }

  lemma {:induction false} PackOfBytes(p: sextet, q: sextet, r: sextet, t: sextet)
    ensures Pack0(Byte0(p, q)) == p
    ensures Pack1(Byte0(p, q), Byte1(q, r)) == q
    ensures Pack2(Byte1(q, r), Byte2(r, t)) == r
    ensures Pack3(Byte2(r, t)) == t
    ensures Pack1(Byte0(p, q), 0) == q <==> q % 16 == 0
    ensures Pack2(Byte1(q, r), 0) == r <==> r % 4 == 0
  {
  }


  lemma {:induction false} PackUnpackShort(v: seq<sextet>, bytes: seq<byte>)
    requires |v| < 4 && bytes == Unpack(v)
    ensures Pack(bytes) == v <==> TrailingBitsZero(v)
  {
    if |v| == 3 {
      PackOfBytes(v[0], v[1], v[2], 0);
      assert Pack(bytes) == [v[0], v[1], Pack2(bytes[1], 0)];
    } else if |v| == 2 {
      PackOfBytes(v[0], v[1], 0, 0);
      assert Pack(bytes) == [v[0], Pack1(bytes[0], 0)];
    }
  }

  /** Packing undoes unpacking exactly on the values whose trailing bits are zero. */
  lemma {:induction false} PackUnpack(v: seq<sextet>, bytes: seq<byte>)
    requires bytes == Unpack(v)
    ensures Pack(bytes) == v <==> TrailingBitsZero(v)
  {
    if |v| >= 4 {
      PackUnpack(v[4..], bytes[3..]);
      PackOfBytes(v[0], v[1], v[2], v[3]);
      assert Pack(bytes) == [v[0], v[1], v[2], v[3]] + Pack(bytes[3..]);
      assert Pack(bytes)[4..] == Pack(bytes[3..]);
      assert v == [v[0], v[1], v[2], v[3]] + v[4..];
    } else {
      PackUnpackShort(v, bytes);
    }
  }

  // ----- The alphabet -----

  function Symbol(v: sextet): char {
    if v < 26 then ('A' as int + v) as char
    else if v < 52 then ('a' as int + v - 26) as char
    else if v < 62 then ('0' as int + v - 52) as char
    else if v == 62 then '+' else '/'
  }

  predicate IsSymbol(c: char) {
    'A' <= c <= 'Z' || 'a' <= c <= 'z' || '0' <= c <= '9' || c == '+' || c == '/'
  }

  function Value(c: char): sextet
    requires IsSymbol(c)
  {
    if 'A' <= c <= 'Z' then c as int - 'A' as int
    else if 'a' <= c <= 'z' then c as int - 'a' as int + 26
    else if '0' <= c <= '9' then c as int - '0' as int + 52
    else if c == '+' then 62 else 63
  }

  predicate AllSymbols(s: string) {
    forall i :: 0 <= i < |s| ==> IsSymbol(s[i])
  }

  function Symbols(v: seq<sextet>): (s: string)
    ensures AllSymbols(s)
  {
    seq(|v|, i requires 0 <= i < |v| => Symbol(v[i]))
  }

  function Values(s: string): (v: seq<sextet>)
    requires AllSymbols(s)
    ensures |v| == |s|
  {
    seq(|s|, i requires 0 <= i < |s| => Value(s[i]))
  }

  lemma {:induction false} ValuesSymbols(v: seq<sextet>)
    ensures Values(Symbols(v)) == v
  {
  }

  lemma {:induction false} SymbolsValues(s: string)
    requires AllSymbols(s)
    ensures Symbols(Values(s)) == s
  {
  }

  // ----- Whole encodings -----

  function Padding(n: nat): string {
    seq(n, _ => '=')
  }

  /** How many '=' complete a body of `n` symbols; 3 marks a length no encoding has. */
  function RequiredPadding(n: nat): nat {
    (4 - n % 4) % 4
  }

  /** Where the first '=' stands, or the length when there is none. */
  function BodyLength(s: string): (n: nat)
    ensures n <= |s| && '=' !in s[..n] && (n < |s| ==> s[n] == '=')
  {
    if |s| == 0 || s[0] == '=' then 0
    else
      var n := 1 + BodyLength(s[1..]);
      assert s[..n] == [s[0]] + s[1..][..n - 1];
      n
  }

  function Body(s: string): string { s[..BodyLength(s)] }

  function Pad(s: string): string { s[BodyLength(s)..] }

  /** The unpadded standard encoding. */
  function EncodeBody(bytes: seq<byte>): (s: string)
    ensures AllSymbols(s)
  {
    Symbols(Pack(bytes))
  }

  /** The padded standard encoding. */
  function Encode(bytes: seq<byte>): string {
    EncodeBody(bytes) + Padding(RequiredPadding(|EncodeBody(bytes)|))
  }

  /** Decodes an unpadded body, ignoring unused low bits. */
  function DecodeBody(s: string): seq<byte>
    requires AllSymbols(s)
  {
    Unpack(Values(s))
  }

  predicate Canonical(s: string)
    requires AllSymbols(s)
  {
    TrailingBitsZero(Values(s))
  }

  /** Decoding undoes encoding, on every byte sequence. */
  lemma {:induction false} DecodeEncode(bytes: seq<byte>)
    ensures DecodeBody(EncodeBody(bytes)) == bytes
    ensures Canonical(EncodeBody(bytes))
    ensures |EncodeBody(bytes)| == (4 * |bytes| + 2) / 3
  {
    ValuesSymbols(Pack(bytes));
    UnpackPack(bytes, Pack(bytes));
    PackIsCanonical(bytes);
    PackLength(bytes);
  }

  /** Encoding undoes decoding exactly on the canonical bodies. */
  lemma {:induction false} EncodeDecode(s: string)
    requires AllSymbols(s)
    ensures EncodeBody(DecodeBody(s)) == s <==> Canonical(s)
  {
    SymbolsValues(s);
    PackUnpack(Values(s), Unpack(Values(s)));
    ValuesSymbols(Pack(Unpack(Values(s))));
  }

  lemma {:induction false} BodyLengthIs(s: string, n: nat)
    requires n <= |s| && '=' !in s[..n] && (n < |s| ==> s[n] == '=')
    ensures BodyLength(s) == n
  {
    if n > 0 {
      assert s[0] in s[..n];
      assert s[1..][..n - 1] == s[1..n];
      BodyLengthIs(s[1..], n - 1);
    }
  }

  lemma {:induction false} BodyOfPadded(body: string, n: nat)
    requires '=' !in body
    ensures Body(body + Padding(n)) == body && Pad(body + Padding(n)) == Padding(n)
  {
    assert (body + Padding(n))[..|body|] == body;
    BodyLengthIs(body + Padding(n), |body|);
  }

  lemma {:induction false} NoPaddingInSymbols(s: string)
    requires AllSymbols(s)
    ensures '=' !in s
  {
  }

  /** What padded text carries: its body is encoded, with exactly the padding it needs. */
  predicate IsPadded(s: string) {
    AllSymbols(Body(s)) && RequiredPadding(|Body(s)|) != 3 && Pad(s) == Padding(RequiredPadding(|Body(s)|))
  }

  lemma {:induction false} PaddingOfEncoding(n: nat)
    ensures var m := (4 * n + 2) / 3; RequiredPadding(m) != 3 && (n > 0 ==> m + RequiredPadding(m) >= 4)
  {
    var q, r := n / 3, n % 3;
    assert n == 3 * q + r;
    assert (4 * n + 2) / 3 == 4 * q + (4 * r + 2) / 3;
  }

  lemma {:induction false} PaddedBody(body: string, p: nat)
    requires AllSymbols(body) && p == RequiredPadding(|body|) && p != 3
    ensures IsPadded(body + Padding(p)) && Body(body + Padding(p)) == body
  {
    NoPaddingInSymbols(body);
    BodyOfPadded(body, p);
  }

  lemma {:induction false} EncodeIsPadded(bytes: seq<byte>)
    ensures IsPadded(Encode(bytes)) && DecodeBody(Body(Encode(bytes))) == bytes
    ensures |Encode(bytes)| == (4 * |bytes| + 2) / 3 + RequiredPadding((4 * |bytes| + 2) / 3)
    ensures |bytes| > 0 ==> |Encode(bytes)| >= 4
  {
    DecodeEncode(bytes);
    PaddingOfEncoding(|bytes|);
    var body := EncodeBody(bytes);
    PaddedBody(body, RequiredPadding(|body|));
  }
}
