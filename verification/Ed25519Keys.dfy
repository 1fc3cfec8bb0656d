/**
 The two decoders of a 32-byte Ed25519 public key: the extension's (TypeScript) and the relay's (Rust).
 They read the string in different ways - one decodes leniently and re-encodes, the other tries a padded and
 then an unpadded strict decoder - and the routing of the whole system rests on their agreeing.
 */
module Ed25519Keys {
  import opened Bytes
  import opened Base64

  const KEY_BYTES := 32

  datatype KeyError = InvalidEncoding | MixedAlphabets | InvalidPadding | WrongLength(actual: nat) | TrailingBits

  datatype KeyResult<+T> = Key(value: T) | Rejected(error: KeyError)

  // ----- Strings of either alphabet -----

  predicate HasStandard(s: string) { '+' in s || '/' in s }

  predicate HasUrlSafe(s: string) { '-' in s || '_' in s }

  function ToStandardChar(c: char): char {
    if c == '-' then '+' else if c == '_' then '/' else c
  }

  function ToUrlChar(c: char): char {
    if c == '+' then '-' else if c == '/' then '_' else c
  }

  function ToStandard(s: string): string {
    seq(|s|, i requires 0 <= i < |s| => ToStandardChar(s[i]))
  }

  /** The URL-safe spelling of a standard encoding (section 5 of RFC 4648). */
  function ToUrlSafe(s: string): string {
    seq(|s|, i requires 0 <= i < |s| => ToUrlChar(s[i]))
  }

  // ----- The extension's decoder -----

  predicate UrlSafeSymbols(s: string) {
    forall i :: 0 <= i < |s| ==> s[i] != '+' && s[i] != '/' && IsSymbol(ToStandardChar(s[i]))
  }

  function DecodeEd25519PublicKey(raw: string): KeyResult<seq<byte>> {
    if raw == "" then Rejected(InvalidEncoding)
    else if HasStandard(raw) && HasUrlSafe(raw) then Rejected(MixedAlphabets)
    else
      var body, padding := Body(raw), Pad(raw);
      if body == "" || (if HasUrlSafe(raw) then !UrlSafeSymbols(body) else !AllSymbols(body))
         || padding !in {"", "=", "=="} then Rejected(InvalidEncoding)
      else if RequiredPadding(|body|) == 3 || (padding != "" && |padding| != RequiredPadding(|body|)) then
        Rejected(InvalidPadding)
      else
        var normalized := ToStandard(body);
        assert AllSymbols(normalized);
        var bytes := DecodeBody(normalized);
        if |bytes| != KEY_BYTES then Rejected(WrongLength(|bytes|))
        else if normalized + padding != Encode(bytes) && normalized + padding != EncodeBody(bytes) then
          Rejected(TrailingBits)
        else Key(bytes)
  }

  function CanonicalizeEd25519PublicKey(raw: string): KeyResult<string> {
    match DecodeEd25519PublicKey(raw)
    case Key(bytes) => Key(Encode(bytes))
    case Rejected(error) => Rejected(error)
  }

  // ----- The relay's decoder -----

  datatype RelayResult<+T> = Ok(value: T) | BadBase64 | BadLength(actual: nat)

  /** The strict padded engine: exact padding, zero trailing bits. */
  function StandardDecode(s: string): Option<seq<byte>> {
    if AllSymbols(Body(s)) && Canonical(Body(s)) && Pad(s) == Padding(RequiredPadding(|Body(s)|)) then
      Some(DecodeBody(Body(s)))
    else None
  }

  /** The strict unpadded engine: no padding at all, zero trailing bits. */
  function StandardNoPadDecode(s: string): Option<seq<byte>> {
    if AllSymbols(s) && Canonical(s) then Some(DecodeBody(s)) else None
  }

  function RelayDecode(encoded: string): RelayResult<seq<byte>> {
    if HasStandard(encoded) && HasUrlSafe(encoded) then BadBase64
    else
      var normalized := ToStandard(encoded);
      var decoded := match StandardDecode(normalized)
                     case Some(bytes) => Some(bytes)
                     case None => StandardNoPadDecode(normalized);
      match decoded
      case None => BadBase64
      case Some(bytes) => if |bytes| == KEY_BYTES then Ok(bytes) else BadLength(|bytes|)
  }

  function RelayCanonical(encoded: string): RelayResult<string> {
    match RelayDecode(encoded)
    case Ok(bytes) => Ok(Encode(bytes))
    case BadBase64 => BadBase64
    case BadLength(n) => BadLength(n)
  }

  // ----- What both accept -----

  /** The four spellings of a key: standard or URL-safe alphabet, padded or not, zero trailing bits. */
  predicate Spells(s: string, bytes: seq<byte>) {
    && |bytes| == KEY_BYTES
    && (s == Encode(bytes) || s == EncodeBody(bytes)
        || s == ToUrlSafe(Encode(bytes)) || s == ToUrlSafe(EncodeBody(bytes)))
  }

  lemma {:induction false} BodyOfStandard(s: string)
    ensures ToStandard(Body(s)) == Body(ToStandard(s)) && Pad(ToStandard(s)) == ToStandard(Pad(s))
  {
    BodyLengthIs(ToStandard(s), BodyLength(s));
  }

  /** A string of one alphabet is recovered from its standard spelling. */
  lemma {:induction false} SpellingFromStandard(s: string)
    requires !(HasStandard(s) && HasUrlSafe(s))
    ensures HasUrlSafe(s) ==> s == ToUrlSafe(ToStandard(s))
    ensures !HasUrlSafe(s) ==> s == ToStandard(s)
  {
  }

  /** The relay accepts a string, with some bytes, exactly when the string is a spelling of those bytes. */
  lemma {:induction false} RelayAcceptsSpellings(s: string, bytes: seq<byte>)
    ensures RelayDecode(s) == Ok(bytes) <==> Spells(s, bytes)
  {
    if RelayDecode(s) == Ok(bytes) {
      var normalized := ToStandard(s);
      SpellingFromStandard(s);
      if StandardDecode(normalized).Some? {
        EncodeDecode(Body(normalized));
      } else {
        EncodeDecode(normalized);
      }
      assert normalized == Encode(bytes) || normalized == EncodeBody(bytes);
    }
    if Spells(s, bytes) {
      StandardSpelling(s, bytes);
      EncodingsOfKey(bytes);
    }
  }

  lemma {:induction false} EncodingsOfKey(bytes: seq<byte>)
    requires |bytes| == KEY_BYTES
    ensures |EncodeBody(bytes)| == 43 && Encode(bytes) == EncodeBody(bytes) + "="
    ensures Body(Encode(bytes)) == EncodeBody(bytes) && Pad(Encode(bytes)) == "="
    ensures Body(EncodeBody(bytes)) == EncodeBody(bytes) && Pad(EncodeBody(bytes)) == ""
    ensures Canonical(EncodeBody(bytes)) && DecodeBody(EncodeBody(bytes)) == bytes
  {
    var body := EncodeBody(bytes);
    DecodeEncode(bytes);
    NoPaddingInSymbols(body);
    assert Padding(1) == "=" && body + Padding(0) == body;
    BodyOfPadded(body, 0);
    BodyOfPadded(body, 1);
  }

  lemma {:induction false} StandardOfUrlSafe(s: string)
    requires forall i :: 0 <= i < |s| ==> IsSymbol(s[i]) || s[i] == '='
    ensures ToStandard(s) == s && ToStandard(ToUrlSafe(s)) == s
    ensures !HasUrlSafe(s) && !HasStandard(ToUrlSafe(s))
  {
  }

  /** Every spelling has the same standard form up to padding, and never mixes alphabets. */
  lemma {:induction false} StandardSpelling(s: string, bytes: seq<byte>)
    requires Spells(s, bytes)
    ensures !(HasStandard(s) && HasUrlSafe(s))
    ensures ToStandard(s) == Encode(bytes) || ToStandard(s) == EncodeBody(bytes)
    ensures Body(ToStandard(s)) == EncodeBody(bytes) && Pad(ToStandard(s)) in {"=", ""}
  {
    EncodingsOfKey(bytes);
    StandardOfUrlSafe(Encode(bytes));
    StandardOfUrlSafe(EncodeBody(bytes));
  }

  lemma {:induction false} TypeScriptAcceptsOnlySpellings(s: string, bytes: seq<byte>)
    requires DecodeEd25519PublicKey(s) == Key(bytes)
    ensures Spells(s, bytes)
  {
    assert s == Body(s) + Pad(s);
    assert ToStandard(Pad(s)) == Pad(s);
    assert ToStandard(s) == ToStandard(Body(s)) + Pad(s);
    SpellingFromStandard(s);
  }

  lemma {:induction false} PartsOfSpelling(s: string, bytes: seq<byte>)
    requires Spells(s, bytes)
    ensures ToStandard(Body(s)) == EncodeBody(bytes)
    ensures Pad(s) == "=" || Pad(s) == ""
    ensures ToStandard(s) == ToStandard(Body(s)) + Pad(s)
  {
    EncodingsOfKey(bytes);
    StandardSpelling(s, bytes);
    BodyOfStandard(s);
    if |Pad(s)| == 1 {
      assert ToStandardChar(Pad(s)[0]) == ToStandard(Pad(s))[0] == '=';
      assert Pad(s) == "=";
    }
    assert s == Body(s) + Pad(s);
  }

  lemma {:induction false} SymbolsOfBody(s: string)
    requires AllSymbols(ToStandard(Body(s)))
    requires !(HasStandard(s) && HasUrlSafe(s))
    ensures if HasUrlSafe(s) then UrlSafeSymbols(Body(s)) else AllSymbols(Body(s))
  {
    forall i | 0 <= i < |Body(s)|
      ensures IsSymbol(ToStandardChar(Body(s)[i])) && Body(s)[i] in s
    {
      assert ToStandard(Body(s))[i] == ToStandardChar(Body(s)[i]);
    }
  }

  lemma {:induction false} TypeScriptAcceptsEverySpelling(s: string, bytes: seq<byte>)
    requires Spells(s, bytes)
    ensures DecodeEd25519PublicKey(s) == Key(bytes)
  {
    PartsOfSpelling(s, bytes);
    EncodingsOfKey(bytes);
    StandardSpelling(s, bytes);
    SymbolsOfBody(s);
  }

  /** The extension accepts a string, with some bytes, exactly when the string is a spelling of those bytes. */
  lemma {:induction false} TypeScriptAcceptsSpellings(s: string, bytes: seq<byte>)
    ensures DecodeEd25519PublicKey(s) == Key(bytes) <==> Spells(s, bytes)
  {
    if DecodeEd25519PublicKey(s) == Key(bytes) {
      TypeScriptAcceptsOnlySpellings(s, bytes);
    }
    if Spells(s, bytes) {
      TypeScriptAcceptsEverySpelling(s, bytes);
    }
  }

  /** The decoders accept the same strings and read the same bytes from them. */
  lemma {:induction false} DecodersAgree(s: string, bytes: seq<byte>)
    ensures DecodeEd25519PublicKey(s) == Key(bytes) <==> RelayDecode(s) == Ok(bytes)
  {
    TypeScriptAcceptsSpellings(s, bytes);
    RelayAcceptsSpellings(s, bytes);
  }

  /**
   Two strings name one identity exactly when they canonicalize alike; the canonical form is itself accepted
   and is its own canonical form, in both programs.
   */
  lemma {:induction false} CanonicalFormIsAnIdentity(s: string, t: string)
    requires CanonicalizeEd25519PublicKey(s).Key?
    ensures CanonicalizeEd25519PublicKey(s) == CanonicalizeEd25519PublicKey(t)
            <==> DecodeEd25519PublicKey(s) == DecodeEd25519PublicKey(t)
    ensures RelayCanonical(s) == Ok(CanonicalizeEd25519PublicKey(s).value)
    ensures var c := CanonicalizeEd25519PublicKey(s).value;
            CanonicalizeEd25519PublicKey(c) == Key(c) && RelayCanonical(c) == Ok(c)
  {
    var bytes := DecodeEd25519PublicKey(s).value;
    var c := Encode(bytes);
    TypeScriptAcceptsSpellings(s, bytes);
    DecodersAgree(s, bytes);
    TypeScriptAcceptsSpellings(c, bytes);
    DecodersAgree(c, bytes);
    if CanonicalizeEd25519PublicKey(t) == Key(c) {
      var other := DecodeEd25519PublicKey(t).value;
      TypeScriptAcceptsSpellings(t, other);
      TypeScriptAcceptsSpellings(c, other);
    }
  }
}
