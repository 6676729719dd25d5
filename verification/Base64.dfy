/**
 The standard base64 encoding (section 4 of RFC 4648) with required padding, and strict decoding: the
 decoder accepts exactly what the encoder makes.
 */
module Base64 {
  import opened Letters
  import opened Wrappers

  type Byte = b: nat | b < 256
  type Sextet = v: nat | v < 64

  const PAD := '='

  function Char64(v: Sextet): char {
    if v < 26 then 'A' + v as char
    else if v < 52 then 'a' + (v - 26) as char
    else if v < 62 then '0' + (v - 52) as char
    else if v == 62 then '+'
    else '/'
  }

  function Value64(c: char): Option<Sextet> {
    if 'A' <= c <= 'Z' then Some((c - 'A') as nat)
    else if 'a' <= c <= 'z' then Some((c - 'a') as nat + 26)
    else if '0' <= c <= '9' then Some((c - '0') as nat + 52)
    else if c == '+' then Some(62)
    else if c == '/' then Some(63)
    else None
  }

  lemma Char64RoundTrip(v: Sextet)
    ensures Value64(Char64(v)) == Some(v) && Char64(v) != PAD
  {
  }

  lemma Value64RoundTrip(c: char)
    ensures Value64(c).Some? ==> Char64(Value64(c).value) == c
    ensures Value64(PAD) == None
  {
  }

  // Three bytes are four sextets.
  function First(a: Byte): Sextet { a / 4 }

  function Second(a: Byte, b: Byte): Sextet { a % 4 * 16 + b / 16 }

  function Third(b: Byte, c: Byte): Sextet { b % 16 * 4 + c / 64 }

  function Fourth(c: Byte): Sextet { c % 64 }

  function Left(p: Sextet, q: Sextet): Byte { p * 4 + q / 16 }

  function Middle(q: Sextet, r: Sextet): Byte { q % 16 * 16 + r / 4 }

  function Right(r: Sextet, t: Sextet): Byte { r % 4 * 64 + t }

  lemma LeftAgain(a: Byte, b: Byte)
    ensures Left(First(a), Second(a, b)) == a && Second(a, 0) % 16 == 0
  {
    assert Second(a, b) / 16 == a % 4;
  }

  lemma MiddleAgain(a: Byte, b: Byte, c: Byte)
    ensures Middle(Second(a, b), Third(b, c)) == b && Third(b, 0) % 4 == 0
  {
    assert Second(a, b) % 16 == b / 16;
    assert Third(b, c) / 4 == b % 16;
  }

  lemma RightAgain(b: Byte, c: Byte)
    ensures Right(Third(b, c), Fourth(c)) == c
  {
    var x, y := b % 16, c / 64;
    assert (x * 4 + y) % 4 == y;
    assert c == y * 64 + c % 64;
  }

  lemma BytesAgain(a: Byte, b: Byte, c: Byte)
    ensures Left(First(a), Second(a, b)) == a
    ensures Middle(Second(a, b), Third(b, c)) == b
    ensures Right(Third(b, c), Fourth(c)) == c
    ensures Second(a, 0) % 16 == 0 && Third(b, 0) % 4 == 0
  {
    LeftAgain(a, b);
    MiddleAgain(a, b, c);
    RightAgain(b, c);
  }

  lemma SextetsAgain(p: Sextet, q: Sextet, r: Sextet, t: Sextet)
    ensures First(Left(p, q)) == p
    ensures Second(Left(p, q), Middle(q, r)) == q && (q % 16 == 0 ==> Second(Left(p, q), 0) == q)
    ensures Third(Middle(q, r), Right(r, t)) == r && (r % 4 == 0 ==> Third(Middle(q, r), 0) == r)
    ensures Fourth(Right(r, t)) == t
  {
  }

  function EncodeGroup(a: Byte, b: Byte, c: Byte): string {
    [Char64(First(a)), Char64(Second(a, b)), Char64(Third(b, c)), Char64(Fourth(c))]
  }

  function EncodeLast(bytes: seq<Byte>): string
    requires |bytes| < 3
  {
    if |bytes| == 0 then ""
    else if |bytes| == 1 then [Char64(First(bytes[0])), Char64(Second(bytes[0], 0)), PAD, PAD]
    else [Char64(First(bytes[0])), Char64(Second(bytes[0], bytes[1])), Char64(Third(bytes[1], 0)), PAD]
  }

  function Encode(bytes: seq<Byte>): string {
    if |bytes| < 3 then EncodeLast(bytes)
    else EncodeGroup(bytes[0], bytes[1], bytes[2]) + Encode(bytes[3..])
  }

  // ---------- The encoding by numbers ----------

  const ALPHABET := UPPER + LOWER + DIGITS + "+/"

  lemma CharIn(upper: string, lower: string, digits: string, v: Sextet)
    requires |upper| == 26 && |lower| == 26 && |digits| == 10
    requires forall k | 0 <= k < 26 :: upper[k] as int == 65 + k && lower[k] as int == 97 + k
    requires forall k | 0 <= k < 10 :: digits[k] as int == 48 + k
    ensures (upper + lower + digits + "+/")[v] == Char64(v)
  {
  }

  lemma AlphabetAt(v: Sextet)
    ensures |ALPHABET| == 64 && ALPHABET[v] == Char64(v)
  {
    Places();
    CharIn(UPPER, LOWER, DIGITS, v);
  }

  function Number(digits: seq<nat>, base: nat): nat {
    if digits == [] then 0 else Number(digits[..|digits| - 1], base) * base + digits[|digits| - 1]
  }

  lemma SextetNumber(p: nat, q: nat, r: nat, t: nat)
    ensures Number([p, q], 64) == p * 64 + q
    ensures Number([p, q, r], 64) == p * 4096 + q * 64 + r
    ensures Number([p, q, r, t], 64) == p * 262144 + q * 4096 + r * 64 + t
  {
    assert [p, q, r, t][..3] == [p, q, r] && [p, q, r][..2] == [p, q] && [p, q][..1] == [p] && [p][..0] == [];
    assert Number([p], 64) == p;
  }

  lemma ByteNumber(a: nat, b: nat, c: nat)
    ensures Number([a], 256) == a && Number([a, b], 256) == a * 256 + b
    ensures Number([a, b, c], 256) == a * 65536 + b * 256 + c
  {
    assert [a, b, c][..2] == [a, b] && [a, b][..1] == [a] && [a][..0] == [];
  }

  lemma SameNumber(a: Byte, b: Byte, c: Byte)
    ensures First(a) * 64 + Second(a, 0) == a * 16
    ensures First(a) * 4096 + Second(a, b) * 64 + Third(b, 0) == (a * 256 + b) * 4
    ensures First(a) * 262144 + Second(a, b) * 4096 + Third(b, c) * 64 + Fourth(c) == a * 65536 + b * 256 + c
  {
  }
  // The text is these digits, each below 64, in the alphabet.
  ghost predicate Spells(text: string, digits: seq<nat>) {
    |text| == |digits| && forall i | 0 <= i < |text| :: digits[i] < |ALPHABET| && text[i] == ALPHABET[digits[i]]
  }

  lemma CharsSpell(text: string, digits: seq<Sextet>)
    requires |text| == |digits| && forall i | 0 <= i < |text| :: text[i] == Char64(digits[i])
    ensures Spells(text, digits)
  {
    forall i | 0 <= i < |text| {
      AlphabetAt(digits[i]);
    }
  }

  lemma GroupSpells(a: Byte, b: Byte, c: Byte)
    ensures Spells(EncodeGroup(a, b, c), [First(a), Second(a, b), Third(b, c), Fourth(c)])
    ensures Number([First(a), Second(a, b), Third(b, c), Fourth(c)], 64) == Number([a, b, c], 256)
  {
    CharsSpell(EncodeGroup(a, b, c), [First(a), Second(a, b), Third(b, c), Fourth(c)]);
    SextetNumber(First(a), Second(a, b), Third(b, c), Fourth(c));
    ByteNumber(a, b, c);
    SameNumber(a, b, c);
  }

  lemma PairSpells(a: Byte, b: Byte) returns (text: string)
    ensures EncodeLast([a, b]) == text + "="
    ensures Spells(text, [First(a), Second(a, b), Third(b, 0)])
    ensures Number([First(a), Second(a, b), Third(b, 0)], 64) == Number([a, b], 256) * 4
  {
    text := [Char64(First(a)), Char64(Second(a, b)), Char64(Third(b, 0))];
    CharsSpell(text, [First(a), Second(a, b), Third(b, 0)]);
    SextetNumber(First(a), Second(a, b), Third(b, 0), 0);
    ByteNumber(a, b, 0);
    SameNumber(a, b, 0);
  }

  lemma OneSpells(a: Byte) returns (text: string)
    ensures EncodeLast([a]) == text + "=="
    ensures Spells(text, [First(a), Second(a, 0)])
    ensures Number([First(a), Second(a, 0)], 64) == Number([a], 256) * 16
  {
    text := [Char64(First(a)), Char64(Second(a, 0))];
    CharsSpell(text, [First(a), Second(a, 0)]);
    SextetNumber(First(a), Second(a, 0), 0, 0);
    ByteNumber(a, 0, 0);
    SameNumber(a, 0, 0);
  }

  // Three bytes read as one number are written as its four digits to base 64; one or two bytes left over
  // are filled up with zero bits, and the text with padding.
  lemma EncodedByNumber(bytes: seq<Byte>) returns (text: string, digits: seq<nat>)
    ensures Spells(text, digits)
    ensures bytes == [] ==> Encode(bytes) == ""
    ensures |bytes| == 1 ==>
              |digits| == 2 && Number(digits, 64) == Number(bytes, 256) * 16 && Encode(bytes) == text + "=="
    ensures |bytes| == 2 ==>
              |digits| == 3 && Number(digits, 64) == Number(bytes, 256) * 4 && Encode(bytes) == text + "="
    ensures |bytes| >= 3 ==>
              && |digits| == 4 && Number(digits, 64) == Number(bytes[..3], 256)
              && Encode(bytes) == text + Encode(bytes[3..])
  {
    text, digits := "", [];
    if |bytes| == 1 {
      assert bytes == [bytes[0]];
      text := OneSpells(bytes[0]);
      digits := [First(bytes[0]), Second(bytes[0], 0)];
    } else if |bytes| == 2 {
      assert bytes == [bytes[0], bytes[1]];
      text := PairSpells(bytes[0], bytes[1]);
      digits := [First(bytes[0]), Second(bytes[0], bytes[1]), Third(bytes[1], 0)];
    } else if |bytes| >= 3 {
      assert bytes[..3] == [bytes[0], bytes[1], bytes[2]];
      GroupSpells(bytes[0], bytes[1], bytes[2]);
      text := EncodeGroup(bytes[0], bytes[1], bytes[2]);
      digits := [First(bytes[0]), Second(bytes[0], bytes[1]), Third(bytes[1], bytes[2]), Fourth(bytes[2])];
    }
  }

  function DecodeGroup(s: string): Option<seq<Byte>>
    requires |s| == 4
  {
    match (Value64(s[0]), Value64(s[1]), Value64(s[2]), Value64(s[3]))
    case (Some(p), Some(q), Some(r), Some(t)) => Some([Left(p, q), Middle(q, r), Right(r, t)])
    case _ => None
  }

  // The last group may be padded; the bits that padding leaves over must be zero.
  function DecodeLast(s: string): Option<seq<Byte>>
    requires |s| == 4
  {
    if s[3] != PAD then DecodeGroup(s)
    else if s[2] == PAD then
      match (Value64(s[0]), Value64(s[1]))
      case (Some(p), Some(q)) => if q % 16 == 0 then Some([Left(p, q)]) else None
      case _ => None
    else
      match (Value64(s[0]), Value64(s[1]), Value64(s[2]))
      case (Some(p), Some(q), Some(r)) => if r % 4 == 0 then Some([Left(p, q), Middle(q, r)]) else None
      case _ => None
  }

  function Decode(s: string): Option<seq<Byte>> {
    if s == "" then Some([])
    else if |s| < 4 then None
    else if |s| == 4 then DecodeLast(s)
    else
      match (DecodeGroup(s[..4]), Decode(s[4..]))
      case (Some(first), Some(rest)) => Some(first + rest)
      case _ => None
  }

  lemma GroupRoundTrip(a: Byte, b: Byte, c: Byte)
    ensures DecodeGroup(EncodeGroup(a, b, c)) == Some([a, b, c])
    ensures EncodeGroup(a, b, c)[3] != PAD
  {
    BytesAgain(a, b, c);
    Char64RoundTrip(First(a));
    Char64RoundTrip(Second(a, b));
    Char64RoundTrip(Third(b, c));
    Char64RoundTrip(Fourth(c));
  }

  lemma DecodeOne(p: Sextet, q: Sextet)
    requires q % 16 == 0
    ensures DecodeLast([Char64(p), Char64(q), PAD, PAD]) == Some([Left(p, q)])
  {
    Char64RoundTrip(p);
    Char64RoundTrip(q);
  }

  lemma OneByteRoundTrip(a: Byte)
    ensures DecodeLast([Char64(First(a)), Char64(Second(a, 0)), PAD, PAD]) == Some([a])
  {
    BytesAgain(a, 0, 0);
    DecodeOne(First(a), Second(a, 0));
  }

  lemma DecodeTwo(p: Sextet, q: Sextet, r: Sextet)
    requires r % 4 == 0
    ensures DecodeLast([Char64(p), Char64(q), Char64(r), PAD]) == Some([Left(p, q), Middle(q, r)])
  {
    Char64RoundTrip(p);
    Char64RoundTrip(q);
    Char64RoundTrip(r);
  }

  lemma TwoBytesRoundTrip(a: Byte, b: Byte)
    ensures DecodeLast([Char64(First(a)), Char64(Second(a, b)), Char64(Third(b, 0)), PAD]) == Some([a, b])
  {
    BytesAgain(a, b, 0);
    DecodeTwo(First(a), Second(a, b), Third(b, 0));
  }

  lemma LastRoundTrip(bytes: seq<Byte>)
    requires 0 < |bytes| < 3
    ensures |EncodeLast(bytes)| == 4 && DecodeLast(EncodeLast(bytes)) == Some(bytes)
  {
    if |bytes| == 1 {
      OneByteRoundTrip(bytes[0]);
      assert bytes == [bytes[0]];
    } else {
      TwoBytesRoundTrip(bytes[0], bytes[1]);
      assert bytes == [bytes[0], bytes[1]];
    }
  }

  // What was encoded decodes to itself.
  lemma {:induction false} DecodeEncode(bytes: seq<Byte>)
    ensures Decode(Encode(bytes)) == Some(bytes)
  {
    if 0 < |bytes| < 3 {
      LastRoundTrip(bytes);
    } else if |bytes| >= 3 {
      var first, rest := EncodeGroup(bytes[0], bytes[1], bytes[2]), Encode(bytes[3..]);
      GroupRoundTrip(bytes[0], bytes[1], bytes[2]);
      DecodeEncode(bytes[3..]);
      assert bytes == [bytes[0], bytes[1], bytes[2]] + bytes[3..];
      DecodeFirst(first, rest, [bytes[0], bytes[1], bytes[2]], bytes[3..]);
    }
  }

  lemma DecodeFirst(first: string, rest: string, a: seq<Byte>, b: seq<Byte>)
    requires |first| == 4 && first[3] != PAD && DecodeGroup(first) == Some(a) && Decode(rest) == Some(b)
    ensures Decode(first + rest) == Some(a + b)
  {
    assert (first + rest)[..4] == first && (first + rest)[4..] == rest;
    if rest == "" {
      assert first + rest == first && a + b == a;
    }
  }

  lemma GroupIsCanonical(s: string)
    requires |s| == 4 && DecodeGroup(s).Some?
    ensures var d := DecodeGroup(s).value; |d| == 3 && EncodeGroup(d[0], d[1], d[2]) == s
  {
    Value64RoundTrip(s[0]);
    Value64RoundTrip(s[1]);
    Value64RoundTrip(s[2]);
    Value64RoundTrip(s[3]);
    SextetsAgain(Value64(s[0]).value, Value64(s[1]).value, Value64(s[2]).value, Value64(s[3]).value);
  }

  lemma OneByteIsCanonical(s: string)
    requires |s| == 4 && s[3] == PAD && s[2] == PAD && DecodeLast(s).Some?
    ensures |DecodeLast(s).value| == 1 && EncodeLast(DecodeLast(s).value) == s
  {
    var p, q := Value64(s[0]).value, Value64(s[1]).value;
    Value64RoundTrip(s[0]);
    Value64RoundTrip(s[1]);
    assert First(Left(p, q)) == p && Second(Left(p, q), 0) == q by {
      SextetsAgain(p, q, 0, 0);
    }
  }

  lemma TwoBytesAreCanonical(s: string)
    requires |s| == 4 && s[3] == PAD && s[2] != PAD && DecodeLast(s).Some?
    ensures |DecodeLast(s).value| == 2 && EncodeLast(DecodeLast(s).value) == s
  {
    var p, q, r := Value64(s[0]).value, Value64(s[1]).value, Value64(s[2]).value;
    Value64RoundTrip(s[0]);
    Value64RoundTrip(s[1]);
    Value64RoundTrip(s[2]);
    assert First(Left(p, q)) == p && Second(Left(p, q), Middle(q, r)) == q && Third(Middle(q, r), 0) == r by {
      SextetsAgain(p, q, r, 0);
    }
  }

  lemma LastIsCanonical(s: string)
    requires |s| == 4 && DecodeLast(s).Some?
    ensures Encode(DecodeLast(s).value) == s
  {
    Value64RoundTrip(s[3]);
    if s[3] == PAD && s[2] == PAD {
      OneByteIsCanonical(s);
    } else if s[3] == PAD {
      TwoBytesAreCanonical(s);
    } else {
      GroupIsCanonical(s);
      var d := DecodeLast(s).value;
      assert d[3..] == [] && EncodeLast(d[3..]) == "";
      assert EncodeGroup(d[0], d[1], d[2]) + "" == s;
    }
  }

  // What decodes was encoded: nothing else is accepted.
  lemma {:induction false} EncodeDecode(s: string)
    requires Decode(s).Some?
    ensures Encode(Decode(s).value) == s
  {
    if |s| == 4 {
      LastIsCanonical(s);
    } else if |s| > 4 {
      var first, rest := DecodeGroup(s[..4]).value, Decode(s[4..]).value;
      GroupIsCanonical(s[..4]);
      EncodeDecode(s[4..]);
      assert (first + rest)[3..] == rest && (first + rest)[..3] == first;
      assert s == s[..4] + s[4..];
    }
  }

  // So a text is accepted exactly if it is some bytes' encoding, and then it gives those bytes.
  lemma AcceptsEncodingsOnly(s: string, bytes: seq<Byte>)
    ensures Decode(s) == Some(bytes) <==> s == Encode(bytes)
  {
    DecodeEncode(bytes);
    if Decode(s).Some? {
      EncodeDecode(s);
    }
  }
}
