/** Thought signatures in standard Base64 (section 4 of RFC 4648). */
module Base64Signature {
  import opened Common

  // ---------------------------------------------------------------- the encoding

  type Sextet = n: int | 0 <= n < 64

  function Symbol(n: Sextet): char {
    if n < 26 then ('A' as int + n) as char
    else if n < 52 then ('a' as int + n - 26) as char
    else if n < 62 then ('0' as int + n - 52) as char
    else if n == 62 then '+' else '/'
  }

  predicate InAlphabet(c: char) {
    'A' <= c <= 'Z' || 'a' <= c <= 'z' || '0' <= c <= '9' || c == '+' || c == '/'
  }

  function Value(c: char): (r: Sextet)
    requires InAlphabet(c)
    ensures Symbol(r) == c
  {
    if 'A' <= c <= 'Z' then c as int - 'A' as int
    else if 'a' <= c <= 'z' then c as int - 'a' as int + 26
    else if '0' <= c <= '9' then c as int - '0' as int + 52
    else if c == '+' then 62 else 63
  }

  lemma SymbolValue(n: Sextet)
    ensures InAlphabet(Symbol(n)) && Value(Symbol(n)) == n
  {
  }

  /** Three bytes make four symbols; what is left at the end is filled up with zero bits and '='. */
  function Encode(b: seq<Byte>): (r: string) {
    if b == [] then ""
    else if |b| == 1 then [Symbol(b[0] / 4), Symbol(b[0] % 4 * 16), '=', '=']
    else if |b| == 2 then [Symbol(b[0] / 4), Symbol(b[0] % 4 * 16 + b[1] / 16), Symbol(b[1] % 16 * 4), '=']
    else Quad(b[0], b[1], b[2]) + Encode(b[3..])
  }

  function Quad(x: Byte, y: Byte, z: Byte): string {
    [Symbol(x / 4), Symbol(x % 4 * 16 + y / 16), Symbol(y % 16 * 4 + z / 64), Symbol(z % 64)]
  }

  /** Decoding skips line breaks and does not look at the bits the padding leaves over. */
  function Decode(s: string): (r: Option<seq<Byte>>) {
    DecodeQuads(WithoutBreaks(s))
  }

  function WithoutBreaks(s: string): (r: string) {
    if s == "" then ""
    else if s[0] == '\r' || s[0] == '\n' then WithoutBreaks(s[1..])
    else [s[0]] + WithoutBreaks(s[1..])
  }

  predicate Four(s: string)
  {
    |s| >= 4 && InAlphabet(s[0]) && InAlphabet(s[1]) && InAlphabet(s[2]) && InAlphabet(s[3])
  }

  function DecodeQuads(s: string): (r: Option<seq<Byte>>) {
    if s == "" then Some([])
    else if |s| < 4 || !InAlphabet(s[0]) || !InAlphabet(s[1]) then None
    else if Four(s) then
      var rest := DecodeQuads(s[4..]);
      if rest.None? then None else Some(Triple(s) + rest.value)
    else if |s| != 4 || s[3] != '=' then None
    else if s[2] == '=' then Some([FirstByte(s)])
    else if InAlphabet(s[2]) then Some([FirstByte(s), SecondByte(s)])
    else None
  }

  function FirstByte(s: string): Byte
    requires |s| >= 4 && InAlphabet(s[0]) && InAlphabet(s[1])
  {
    Value(s[0]) * 4 + Value(s[1]) / 16
  }

  function SecondByte(s: string): Byte
    requires |s| >= 4 && InAlphabet(s[1]) && InAlphabet(s[2])
  {
    Value(s[1]) % 16 * 16 + Value(s[2]) / 4
  }

  function Triple(s: string): (r: seq<Byte>)
    requires Four(s)
    ensures |r| == 3
  {
    [FirstByte(s), SecondByte(s), Value(s[2]) % 4 * 64 + Value(s[3])]
  }

  // ---------------------------------------------------------------- canonical texts

  /** Whole quads of the alphabet; only the last may be padded, and its unused bits are zero (section
    * 3.5 of RFC 4648). */
  predicate Canonical(s: string) {
    if s == "" then true
    else if Four(s) then Canonical(s[4..])
    else
      && |s| == 4 && InAlphabet(s[0]) && InAlphabet(s[1]) && s[3] == '='
      && (if s[2] == '=' then Value(s[1]) % 16 == 0 else InAlphabet(s[2]) && Value(s[2]) % 4 == 0)
  }

  lemma TwoBits(a: int, b: int)
    requires 0 <= a && 0 <= b < 4
    ensures (a * 4 + b) / 4 == a && (a * 4 + b) % 4 == b
  {
  }

  lemma FourBits(a: int, b: int)
    requires 0 <= a && 0 <= b < 16
    ensures (a * 16 + b) / 16 == a && (a * 16 + b) % 16 == b
  {
  }

  lemma SixBits(a: int, b: int)
    requires 0 <= a && 0 <= b < 64
    ensures (a * 64 + b) / 64 == a && (a * 64 + b) % 64 == b
  {
  }

  lemma SplitBits(x: Byte, y: Byte, z: Byte)
    ensures var p, q, r, t := x / 4, x % 4 * 16 + y / 16, y % 16 * 4 + z / 64, z % 64;
            && p * 4 + q / 16 == x && q % 16 * 16 + r / 4 == y && r % 4 * 64 + t == z
            && (y == 0 ==> q % 16 == 0) && (z == 0 ==> r % 4 == 0)
  {
    FourBits(x % 4, y / 16);
    TwoBits(y % 16, z / 64);
  }

  lemma JoinBits(p: Sextet, q: Sextet, r: Sextet, t: Sextet)
    ensures var x, y, z := p * 4 + q / 16, q % 16 * 16 + r / 4, r % 4 * 64 + t;
            && x / 4 == p && x % 4 * 16 + y / 16 == q && y % 16 * 4 + z / 64 == r && z % 64 == t
            && (q % 16 == 0 ==> x % 4 * 16 == q) && (r % 4 == 0 ==> y % 16 * 4 == r)
  {
    TwoBits(p, q / 16);
    FourBits(q % 16, r / 4);
    SixBits(r % 4, t);
  }

  /** The symbols of a quad and what they stand for. */
  lemma QuadOf(p: Sextet, q: Sextet, r: Sextet, t: Sextet, rest: string)
    ensures var s := [Symbol(p), Symbol(q), Symbol(r), Symbol(t)] + rest;
            Four(s) && Value(s[0]) == p && Value(s[1]) == q && Value(s[2]) == r && Value(s[3]) == t && s[4..] == rest
  {
    SymbolValue(p);
    SymbolValue(q);
    SymbolValue(r);
    SymbolValue(t);
  }

  lemma NoFill(c: char)
    requires InAlphabet(c)
    ensures c != '='
  {
  }

  lemma {:induction false} EncodingIsCanonical(b: seq<Byte>)
    ensures Canonical(Encode(b)) && DecodeQuads(Encode(b)) == Some(b)
    decreases |b|
  {
    hide Symbol, Value, InAlphabet, Quad, Triple;
    if |b| == 1 {
      EncodeOne(b[0]);
      assert b == [b[0]];
    } else if |b| == 2 {
      EncodeTwo(b[0], b[1]);
      assert b == [b[0], b[1]];
    } else if |b| >= 3 {
      EncodingIsCanonical(b[3..]);
      EncodeThree(b[0], b[1], b[2], Encode(b[3..]));
      assert b == [b[0], b[1], b[2]] + b[3..];
    }
  }

  lemma NotFour(s: string)
    requires |s| == 4 && s[3] == '='
    ensures !Four(s)
  {
  }

  lemma EncodeOne(x: Byte)
    ensures Canonical(Encode([x])) && DecodeQuads(Encode([x])) == Some([x])
  {
    hide Symbol, Value, InAlphabet;
    var s := Encode([x]);
    assert s == [Symbol(x / 4), Symbol(x % 4 * 16), '=', '='];
    SplitBits(x, 0, 0);
    SymbolValue(x / 4);
    SymbolValue(x % 4 * 16);
    NotFour(s);
  }

  lemma EncodeTwo(x: Byte, y: Byte)
    ensures Canonical(Encode([x, y])) && DecodeQuads(Encode([x, y])) == Some([x, y])
  {
    hide Symbol, Value, InAlphabet;
    var s := Encode([x, y]);
    assert s == [Symbol(x / 4), Symbol(x % 4 * 16 + y / 16), Symbol(y % 16 * 4), '='];
    SplitBits(x, y, 0);
    SymbolValue(x / 4);
    SymbolValue(x % 4 * 16 + y / 16);
    SymbolValue(y % 16 * 4);
    NotFour(s);
    NoFill(s[2]);
  }

  lemma EncodeThree(x: Byte, y: Byte, z: Byte, rest: string)
    ensures var s := Quad(x, y, z) + rest;
            Four(s) && Triple(s) == [x, y, z] && s[4..] == rest
  {
    hide Symbol, Value, InAlphabet;
    SplitBits(x, y, z);
    QuadOf(x / 4, x % 4 * 16 + y / 16, y % 16 * 4 + z / 64, z % 64, rest);
  }

  lemma DecodeFour(s: string)
    requires Four(s)
    ensures var t := Triple(s); Quad(t[0], t[1], t[2]) == s[..4]
  {
    hide Symbol, Value, InAlphabet;
    JoinBits(Value(s[0]), Value(s[1]), Value(s[2]), Value(s[3]));
  }

  lemma {:induction false} CanonicalIsEncoding(s: string)
    requires Canonical(s)
    ensures DecodeQuads(s).Some? && Encode(DecodeQuads(s).value) == s
    decreases |s|
  {
    hide Symbol, Value, InAlphabet, Quad, Triple;
    if Four(s) {
      CanonicalIsEncoding(s[4..]);
      DecodeFour(s);
      EncodeQuad(Triple(s), DecodeQuads(s[4..]).value);
      assert s == s[..4] + s[4..];
    } else if s != "" {
      DecodePadded(s);
    }
  }

  lemma EncodeQuad(t: seq<Byte>, rest: seq<Byte>)
    requires |t| == 3
    ensures Encode(t + rest) == Quad(t[0], t[1], t[2]) + Encode(rest)
  {
    assert (t + rest)[3..] == rest;
  }

  lemma DecodePadded(s: string)
    requires Canonical(s) && s != "" && !Four(s)
    ensures DecodeQuads(s).Some? && Encode(DecodeQuads(s).value) == s
  {
    hide Symbol, Value, InAlphabet;
    if s[2] == '=' {
      JoinBits(Value(s[0]), Value(s[1]), 0, 0);
      assert Encode([FirstByte(s)]) == s;
    } else {
      JoinBits(Value(s[0]), Value(s[1]), Value(s[2]), 0);
      assert Encode([FirstByte(s), SecondByte(s)]) == s;
    }
  }

  /** A text is canonical exactly when it is the encoding of some bytes. */
  lemma CanonicalTexts(s: string)
    ensures Canonical(s) <==> exists b :: Encode(b) == s
  {
    if Canonical(s) {
      CanonicalIsEncoding(s);
    } else if exists b :: Encode(b) == s {
      var b :| Encode(b) == s;
      EncodingIsCanonical(b);
    }
  }

  predicate Plain(s: string) {
    forall i :: 0 <= i < |s| ==> InAlphabet(s[i]) || s[i] == '='
  }

  lemma {:induction false} CanonicalIsPlain(s: string)
    requires Canonical(s)
    ensures Plain(s) && |s| % 4 == 0
    decreases |s|
  {
    if Four(s) {
      CanonicalIsPlain(s[4..]);
      assert forall i :: 4 <= i < |s| ==> s[i] == s[4..][i - 4];
    }
  }

  lemma {:induction false} PlainHasNoBreaks(s: string)
    requires Plain(s)
    ensures WithoutBreaks(s) == s
    decreases |s|
  {
    if s != "" {
      assert InAlphabet(s[0]) || s[0] == '=';
      assert forall i :: 0 <= i < |s| - 1 ==> s[1..][i] == s[i + 1];
      PlainHasNoBreaks(s[1..]);
    }
  }

  /** The check of the normaliser: decoding and encoding again gives the text back exactly when it is
    * canonical. */
  lemma RoundTripMeansCanonical(s: string)
    ensures (Decode(s).Some? && Encode(Decode(s).value) == s) <==> Canonical(s)
    ensures Canonical(s) ==> Decode(s) == DecodeQuads(s)
  {
    if Canonical(s) {
      CanonicalIsPlain(s);
      PlainHasNoBreaks(s);
      CanonicalIsEncoding(s);
    } else if Decode(s).Some? {
      EncodingIsCanonical(Decode(s).value);
    }
  }

  // ---------------------------------------------------------------- text as bytes

  function Utf8Of(c: char): (r: seq<Byte>)
    ensures 1 <= |r| <= 4 && (c as int < 0x80 ==> r == [c as int])
  {
    Utf8Bytes(c as int)
  }

  /** The bytes of a text. */
  function Utf8(s: string): (r: seq<Byte>) {
    if s == "" then [] else Utf8Of(s[0]) + Utf8(s[1..])
  }

  lemma {:induction false} PlainLength(s: string)
    requires Plain(s)
    ensures |Utf8(s)| == |s|
    decreases |s|
  {
    if s != "" {
      assert InAlphabet(s[0]) || s[0] == '=';
      assert forall i :: 0 <= i < |s| - 1 ==> s[1..][i] == s[i + 1];
      PlainLength(s[1..]);
    }
  }

  // ---------------------------------------------------------------- normalising

  function CommaIndex(s: string): (r: nat)
    requires ',' in s
    ensures r < |s| && s[r] == ',' && ',' !in s[..r]
  {
    if s[0] == ',' then 0
    else
      assert s == [s[0]] + s[1..];
      var r := 1 + CommaIndex(s[1..]);
      assert s[..r] == [s[0]] + s[1..][..r - 1];
      r
  }

  function Replaced(s: string): (r: string)
    ensures |r| == |s|
    ensures forall i :: 0 <= i < |s| ==> r[i] == (if s[i] == '-' then '+' else if s[i] == '_' then '/' else s[i])
  {
    seq(|s|, i requires 0 <= i < |s| => if s[i] == '-' then '+' else if s[i] == '_' then '/' else s[i])
  }

  predicate IsDataUri(s: string) {
    ',' in s && |s| >= 5 && s[..5] == "data:"
  }

  /** Drops a data URI prefix, returns URL-safe symbols to the standard ones, and pads. */
  function NormalizeBase64(data: string): (r: string) {
    var trimmed := TrimSpace(data);
    var value := Replaced(if IsDataUri(trimmed) then trimmed[CommaIndex(trimmed) + 1..] else trimmed);
    var pad := |Utf8(value)| % 4;
    if pad == 0 then value else value + seq(4 - pad, _ => '=')
  }

  /** Every canonical text is left alone. */
  lemma CanonicalIsNormal(s: string)
    requires Canonical(s)
    ensures NormalizeBase64(s) == s
  {
    CanonicalIsPlain(s);
    PlainLength(s);
    if s != "" {
      assert !IsWhiteSpace(s[0]) && !IsWhiteSpace(s[|s| - 1]);
    }
    assert TrimSpace(s) == s;
    assert ',' !in s;
    assert Replaced(s) == s;
  }

  const SENTINEL: string := "skip_thought_signature_validator"

  function EnsureBase64Signature(signature: string): (r: string) {
    if signature == SENTINEL then Encode(Utf8(signature))
    else
      var normalized := NormalizeBase64(signature);
      var decoded := Decode(normalized);
      if decoded.Some? && Encode(decoded.value) == normalized then normalized else Encode(Utf8(signature))
  }

  /** A signature is kept, normalised, exactly when that makes it canonical; any other one, and the
    * sentinel, is encoded as it stands, so that decoding gives its bytes back. */
  lemma SignatureMeans(s: string)
    ensures var r := EnsureBase64Signature(s);
            && Canonical(r)
            && (if s != SENTINEL && Canonical(NormalizeBase64(s))
              then r == NormalizeBase64(s) else Decode(r) == Some(Utf8(s)))
  {
    hide NormalizeBase64, Canonical, Decode, Encode, Utf8;
    RoundTripMeansCanonical(NormalizeBase64(s));
    EncodingIsCanonical(Utf8(s));
    RoundTripMeansCanonical(Encode(Utf8(s)));
  }

  lemma SentinelIsNotCanonical()
    ensures !Canonical(SENTINEL)
  {
    hide Canonical;
    if Canonical(SENTINEL) {
      CanonicalIsPlain(SENTINEL);
      NotPlain(SENTINEL, 4);
    }
  }

  lemma NotPlain(s: string, i: nat)
    requires i < |s| && s[i] == '_'
    ensures !Plain(s)
  {
  }

  /** Doing it twice changes nothing more, and canonical signatures are not changed at all. */
  lemma SignatureIsStable(s: string)
    ensures Canonical(s) ==> EnsureBase64Signature(s) == s
    ensures EnsureBase64Signature(EnsureBase64Signature(s)) == EnsureBase64Signature(s)
  {
    hide NormalizeBase64, Canonical, EnsureBase64Signature, SENTINEL;
    SignatureMeans(s);
    CanonicalStays(EnsureBase64Signature(s));
    if Canonical(s) {
      CanonicalStays(s);
    }
  }

  lemma CanonicalStays(s: string)
    requires Canonical(s)
    ensures EnsureBase64Signature(s) == s
  {
    hide NormalizeBase64, Canonical, EnsureBase64Signature, SENTINEL;
    SentinelIsNotCanonical();
    CanonicalIsNormal(s);
    SignatureMeans(s);
  }
}
