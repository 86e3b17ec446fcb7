/** generateRandomString in config/config.go: random bytes in the URL-safe base64 of section 5 of RFC 4648, cut. */
module RandomString {
  import opened Wrappers
  import opened Strings
  import opened Options

  type Sextet = n: int | 0 <= n < 64

  /** Table 2 of RFC 4648. */
  function Letter(n: Sextet): (c: char)
    ensures IsLetter(c)
  {
    if n < 26 then 'A' + n as char
    else if n < 52 then 'a' + (n - 26) as char
    else if n < 62 then '0' + (n - 52) as char
    else if n == 62 then '-' else '_'
  }

  predicate IsLetter(c: char) {
    'A' <= c <= 'Z' || 'a' <= c <= 'z' || '0' <= c <= '9' || c == '-' || c == '_'
  }

  function Number(c: char): (n: Sextet)
    requires IsLetter(c)
    ensures Letter(n) == c
  {
    if 'A' <= c <= 'Z' then c as int - 'A' as int
    else if 'a' <= c <= 'z' then c as int - 'a' as int + 26
    else if '0' <= c <= '9' then c as int - '0' as int + 52
    else if c == '-' then 62 else 63
  }

  /** base64.URLEncoding.EncodeToString: four letters for three bytes, the last group filled up with '='. */
  function Encode(bytes: seq<Byte>): string {
    if |bytes| == 0 then ""
    else if |bytes| == 1 then [Letter(bytes[0] / 4), Letter(bytes[0] % 4 * 16), '=', '=']
    else if |bytes| == 2 then
      [Letter(bytes[0] / 4), Letter(bytes[0] % 4 * 16 + bytes[1] / 16), Letter(bytes[1] % 16 * 4), '=']
    else
      [Letter(bytes[0] / 4), Letter(bytes[0] % 4 * 16 + bytes[1] / 16),
       Letter(bytes[1] % 16 * 4 + bytes[2] / 64), Letter(bytes[2] % 64)]
      + Encode(bytes[3..])
  }

  /** The bytes written in whole groups of letters. */
  function Decode(text: string): Option<seq<Byte>> {
    if text == "" then Some([])
    else if |text| < 4 || !IsLetter(text[0]) || !IsLetter(text[1]) then None
    else
      var b0 := Number(text[0]) * 4 + Number(text[1]) / 16;
      if text[2..] == "==" then Some([b0])
      else if !IsLetter(text[2]) then None
      else
        var b1 := Number(text[1]) % 16 * 16 + Number(text[2]) / 4;
        if text[3..] == "=" then Some([b0, b1])
        else if !IsLetter(text[3]) then None
        else
          match Decode(text[4..])
          case None => None
          case Some(rest) => Some([b0, b1, Number(text[2]) % 4 * 64 + Number(text[3])] + rest)
  }

  /** The letters that carry bits come first and there are ceil(8m/6) of them; the rest is padding. */
  lemma {:induction false} EncodeShape(bytes: seq<Byte>)
    ensures |Encode(bytes)| == (|bytes| + 2) / 3 * 4
    ensures forall i | 0 <= i < |Encode(bytes)| ::
              if i < (8 * |bytes| + 5) / 6 then IsLetter(Encode(bytes)[i]) else Encode(bytes)[i] == '='
  {
    PaddingIsNoLetter();
    hide Letter, IsLetter;
    if |bytes| >= 3 {
      var rest := Encode(bytes[3..]);
      EncodeShape(bytes[3..]);
      forall i | 4 <= i < |Encode(bytes)| ensures Encode(bytes)[i] == rest[i - 4] {
      }
    }
  }

  lemma NumberOfLetter(n: Sextet)
    ensures Number(Letter(n)) == n
  {
  }

  /** Four sextets carry three bytes. */
  lemma Regrouped(b0: Byte, b1: Byte, b2: Byte)
    ensures var (s0, s1) := (b0 / 4, b0 % 4 * 16 + b1 / 16);
            var (s2, s3) := (b1 % 16 * 4 + b2 / 64, b2 % 64);
            s0 * 4 + s1 / 16 == b0 && s1 % 16 * 16 + s2 / 4 == b1 && s2 % 4 * 64 + s3 == b2
  {
  }

  lemma DecodeOne(x: Byte)
    ensures Decode([Letter(x / 4), Letter(x % 4 * 16), '=', '=']) == Some([x])
  {
    hide Letter, Number, IsLetter;
    NumberOfLetter(x / 4);
    NumberOfLetter(x % 4 * 16);
    assert [Letter(x / 4), Letter(x % 4 * 16), '=', '='][2..] == "==";
  }

  lemma DecodeTwo(x: Byte, y: Byte)
    ensures Decode([Letter(x / 4), Letter(x % 4 * 16 + y / 16), Letter(y % 16 * 4), '=']) == Some([x, y])
  {
    hide Letter, Number, IsLetter;
    PaddingIsNoLetter();
    NumberOfLetter(x / 4);
    NumberOfLetter(x % 4 * 16 + y / 16);
    NumberOfLetter(y % 16 * 4);
    Regrouped(x, y, 0);
    var text := [Letter(x / 4), Letter(x % 4 * 16 + y / 16), Letter(y % 16 * 4), '='];
    assert text[2..][0] != '=' && text[3..] == "=";
  }

  lemma EncodeOne(x: Byte)
    ensures Encode([x]) == [Letter(x / 4), Letter(x % 4 * 16), '=', '=']
  {
    hide Letter;
  }

  lemma EncodeTwo(x: Byte, y: Byte)
    ensures Encode([x, y]) == [Letter(x / 4), Letter(x % 4 * 16 + y / 16), Letter(y % 16 * 4), '=']
  {
    hide Letter;
  }

  lemma NothingDecoded()
    ensures Decode(Encode([])) == Some([])
  {
  }

  lemma DecodeShort(bytes: seq<Byte>)
    requires |bytes| <= 2
    ensures Decode(Encode(bytes)) == Some(bytes)
  {
    hide Letter, Decode, Encode;
    if |bytes| == 0 {
      NothingDecoded();
    } else if |bytes| == 1 {
      EncodeOne(bytes[0]);
      DecodeOne(bytes[0]);
      assert bytes == [bytes[0]];
    } else {
      EncodeTwo(bytes[0], bytes[1]);
      DecodeTwo(bytes[0], bytes[1]);
      assert bytes == [bytes[0], bytes[1]];
    }
  }

  /** Encoding loses nothing. */
  lemma {:induction false} DecodeOfEncode(bytes: seq<Byte>)
    ensures Decode(Encode(bytes)) == Some(bytes)
  {
    hide Encode, Letter, Number, IsLetter;
    if |bytes| <= 2 {
      DecodeShort(bytes);
    } else {
      DecodeOfEncode(bytes[3..]);
      Regrouped(bytes[0], bytes[1], bytes[2]);
      GroupOfThree(bytes);
      assert bytes == [bytes[0], bytes[1], bytes[2]] + bytes[3..];
    }
  }

  lemma GroupOfThree(bytes: seq<Byte>)
    requires |bytes| > 2
    ensures var text := Encode(bytes);
            && |text| >= 4 && text[4..] == Encode(bytes[3..]) && (forall i | 0 <= i < 4 :: IsLetter(text[i]))
            && Number(text[0]) == bytes[0] / 4 && Number(text[1]) == bytes[0] % 4 * 16 + bytes[1] / 16
            && Number(text[2]) == bytes[1] % 16 * 4 + bytes[2] / 64 && Number(text[3]) == bytes[2] % 64
            && text[2..] != "==" && text[3..] != "="
  {
    var (s0, s1) := (bytes[0] / 4, bytes[0] % 4 * 16 + bytes[1] / 16);
    var (s2, s3) := (bytes[1] % 16 * 4 + bytes[2] / 64, bytes[2] % 64);
    var group := [Letter(s0), Letter(s1), Letter(s2), Letter(s3)];
    assert Encode(bytes) == group + Encode(bytes[3..]);
    hide Letter, Number, IsLetter, Encode;
    NumberOfLetter(s0);
    NumberOfLetter(s1);
    NumberOfLetter(s2);
    NumberOfLetter(s3);
    PaddingIsNoLetter();
    assert Encode(bytes)[2..][0] == group[2] && Encode(bytes)[3..][0] == group[3];
  }

  lemma PaddingIsNoLetter()
    ensures !IsLetter('=')
  {
  }

  function BytesNeeded(length: nat): nat {
    (length * 6 + 7) / 8
  }

  /** generateRandomString for the bytes drawn; the slice is in bounds and reaches no padding. */
  function GenerateRandomString(length: nat, bytes: seq<Byte>): (text: string)
    requires |bytes| == BytesNeeded(length)
    ensures |text| == length
    ensures forall c | c in text :: IsLetter(c)
  {
    EncodeShape(bytes);
    Encode(bytes)[..length]
  }

  /** Bit k of a byte, the highest one first. */
  function BitOf(x: Byte, k: nat): (bit: nat)
    requires k < 8
    ensures bit < 2
  {
    if k == 0 then x / 128 else if k == 1 then x / 64 % 2 else if k == 2 then x / 32 % 2 else if k == 3 then x / 16 % 2
    else if k == 4 then x / 8 % 2 else if k == 5 then x / 4 % 2 else if k == 6 then x / 2 % 2 else x % 2
  }

  /** Bit i of the bytes drawn. */
  function Bit(bytes: seq<Byte>, i: nat): (bit: nat)
    requires i < 8 * |bytes|
    ensures bit < 2
  {
    BitOf(bytes[i / 8], i % 8)
  }

  /** Six bits of the bytes, from bit i on. */
  function SextetAt(bytes: seq<Byte>, i: nat): Sextet
    requires i + 6 <= 8 * |bytes|
  {
    32 * Bit(bytes, i) + 16 * Bit(bytes, i + 1) + 8 * Bit(bytes, i + 2) + 4 * Bit(bytes, i + 3)
    + 2 * Bit(bytes, i + 4) + Bit(bytes, i + 5)
  }

  lemma HighBits(x: Byte)
    ensures x / 128 == BitOf(x, 0)
    ensures x / 64 == 2 * (x / 128) + BitOf(x, 1)
    ensures x / 32 == 2 * (x / 64) + BitOf(x, 2)
    ensures x / 16 == 2 * (x / 32) + BitOf(x, 3)
  {
  }

  lemma LowBits(x: Byte)
    ensures x / 8 == 2 * (x / 16) + BitOf(x, 4)
    ensures x / 4 == 2 * (x / 8) + BitOf(x, 5)
    ensures x / 2 == 2 * (x / 4) + BitOf(x, 6)
    ensures x == 2 * (x / 2) + BitOf(x, 7)
  {
  }

  lemma ByteIsBits(x: Byte)
    ensures x / 4 == 32 * BitOf(x, 0) + 16 * BitOf(x, 1) + 8 * BitOf(x, 2) + 4 * BitOf(x, 3) + 2 * BitOf(x, 4)
                     + BitOf(x, 5)
    ensures x % 4 == 2 * BitOf(x, 6) + BitOf(x, 7)
    ensures x / 16 == 8 * BitOf(x, 0) + 4 * BitOf(x, 1) + 2 * BitOf(x, 2) + BitOf(x, 3)
    ensures x % 16 == 8 * BitOf(x, 4) + 4 * BitOf(x, 5) + 2 * BitOf(x, 6) + BitOf(x, 7)
    ensures x / 64 == 2 * BitOf(x, 0) + BitOf(x, 1)
    ensures x % 64 == 32 * BitOf(x, 2) + 16 * BitOf(x, 3) + 8 * BitOf(x, 4) + 4 * BitOf(x, 5) + 2 * BitOf(x, 6)
                      + BitOf(x, 7)
  {
    hide BitOf;
    HighBits(x);
    LowBits(x);
    assert x % 4 == x - 4 * (x / 4) && x % 16 == x - 16 * (x / 16) && x % 64 == x - 64 * (x / 64);
  }

  /** The letters of the first three bytes, and where those of the others are. */
  lemma EncodeLetters(bytes: seq<Byte>)
    ensures var text := Encode(bytes);
            && |text| == (|bytes| + 2) / 3 * 4
            && (|bytes| > 0 ==> text[0] == Letter(bytes[0] / 4))
            && (|bytes| > 1 ==> text[1] == Letter(bytes[0] % 4 * 16 + bytes[1] / 16))
            && (|bytes| > 2 ==> text[2] == Letter(bytes[1] % 16 * 4 + bytes[2] / 64) && text[3] == Letter(bytes[2] % 64)
                                && text[4..] == Encode(bytes[3..]))
  {
    EncodeShape(bytes);
    hide Letter, IsLetter;
    if |bytes| > 2 {
      var (s0, s1) := (bytes[0] / 4, bytes[0] % 4 * 16 + bytes[1] / 16);
      var (s2, s3) := (bytes[1] % 16 * 4 + bytes[2] / 64, bytes[2] % 64);
      assert Encode(bytes) == [Letter(s0), Letter(s1), Letter(s2), Letter(s3)] + Encode(bytes[3..]);
    }
  }

  /** Letter p of an encoding writes bits 6p to 6p + 5 of the bytes. */
  lemma {:induction false} LetterAt(bytes: seq<Byte>, p: nat)
    requires 6 * p + 6 <= 8 * |bytes|
    ensures p < |Encode(bytes)| && Encode(bytes)[p] == Letter(SextetAt(bytes, 6 * p))
  {
    hide Encode, Letter, SextetAt, IsLetter;
    EncodeLetters(bytes);
    if p < 4 {
      FirstSextets(bytes);
      assert p == 0 || p == 1 || p == 2 || p == 3;
    } else {
      LetterAt(bytes[3..], p - 4);
      LaterBits(bytes, 6 * p);
      assert Encode(bytes)[p] == Encode(bytes)[4..][p - 4];
    }
  }

  lemma FirstSextets(bytes: seq<Byte>)
    ensures |bytes| > 0 ==> SextetAt(bytes, 0) == bytes[0] / 4
    ensures |bytes| > 1 ==> SextetAt(bytes, 6) == bytes[0] % 4 * 16 + bytes[1] / 16
    ensures |bytes| > 2 ==> SextetAt(bytes, 12) == bytes[1] % 16 * 4 + bytes[2] / 64
    ensures |bytes| > 2 ==> SextetAt(bytes, 18) == bytes[2] % 64
  {
    hide BitOf, Bit;
    if |bytes| > 0 {
      ByteIsBits(bytes[0]);
      FirstByteBits(bytes, 0);
    }
    if |bytes| > 1 {
      ByteIsBits(bytes[1]);
      FirstByteBits(bytes, 1);
    }
    if |bytes| > 2 {
      ByteIsBits(bytes[2]);
      FirstByteBits(bytes, 2);
    }
  }

  lemma FirstByteBits(bytes: seq<Byte>, i: nat)
    requires i < |bytes|
    ensures Bit(bytes, 8 * i) == BitOf(bytes[i], 0) && Bit(bytes, 8 * i + 1) == BitOf(bytes[i], 1)
    ensures Bit(bytes, 8 * i + 2) == BitOf(bytes[i], 2) && Bit(bytes, 8 * i + 3) == BitOf(bytes[i], 3)
    ensures Bit(bytes, 8 * i + 4) == BitOf(bytes[i], 4) && Bit(bytes, 8 * i + 5) == BitOf(bytes[i], 5)
    ensures Bit(bytes, 8 * i + 6) == BitOf(bytes[i], 6) && Bit(bytes, 8 * i + 7) == BitOf(bytes[i], 7)
  {
    hide BitOf;
  }

  lemma LaterBit(bytes: seq<Byte>, i: nat)
    requires 24 <= i < 8 * |bytes|
    ensures Bit(bytes, i) == Bit(bytes[3..], i - 24)
  {
    hide BitOf;
    assert (i - 24) / 8 == i / 8 - 3 && (i - 24) % 8 == i % 8;
  }

  lemma LaterBits(bytes: seq<Byte>, i: nat)
    requires 24 <= i && i + 6 <= 8 * |bytes|
    ensures SextetAt(bytes, i) == SextetAt(bytes[3..], i - 24)
  {
    hide Bit;
    LaterBit(bytes, i);
    LaterBit(bytes, i + 1);
    LaterBit(bytes, i + 2);
    LaterBit(bytes, i + 3);
    LaterBit(bytes, i + 4);
    LaterBit(bytes, i + 5);
  }

  /** A number is its bits. */
  lemma SameTopBit(x: nat, y: nat, size: nat, restX: nat, restY: nat)
    requires x < 2 && y < 2 && restX < size && restY < size
    requires size * x + restX == size * y + restY
    ensures x == y && restX == restY
  {
  }

  lemma SameSextetIff(a: seq<Byte>, b: seq<Byte>, i: nat)
    requires i + 6 <= 8 * |a| && |a| == |b|
    ensures SextetAt(a, i) == SextetAt(b, i) <==> forall k | i <= k < i + 6 :: Bit(a, k) == Bit(b, k)
  {
    hide Bit;
    if SextetAt(a, i) == SextetAt(b, i) {
      SameBits(a, b, i);
    }
  }

  lemma SameBits(a: seq<Byte>, b: seq<Byte>, i: nat)
    requires i + 6 <= 8 * |a| && |a| == |b| && SextetAt(a, i) == SextetAt(b, i)
    ensures forall k | i <= k < i + 6 :: Bit(a, k) == Bit(b, k)
  {
    hide Bit;
    var (x5, y5) := (Bit(a, i + 5), Bit(b, i + 5));
    var (x4, y4) := (2 * Bit(a, i + 4) + x5, 2 * Bit(b, i + 4) + y5);
    var (x3, y3) := (4 * Bit(a, i + 3) + x4, 4 * Bit(b, i + 3) + y4);
    var (x2, y2) := (8 * Bit(a, i + 2) + x3, 8 * Bit(b, i + 2) + y3);
    var (x1, y1) := (16 * Bit(a, i + 1) + x2, 16 * Bit(b, i + 1) + y2);
    SameTopBit(Bit(a, i), Bit(b, i), 32, x1, y1);
    SameTopBit(Bit(a, i + 1), Bit(b, i + 1), 16, x2, y2);
    SameTopBit(Bit(a, i + 2), Bit(b, i + 2), 8, x3, y3);
    SameTopBit(Bit(a, i + 3), Bit(b, i + 3), 4, x4, y4);
    SameTopBit(Bit(a, i + 4), Bit(b, i + 4), 2, x5, y5);
  }

  /** Two draws give the same text exactly when their first six bits per character are the same. */
  lemma SameTextIff(length: nat, a: seq<Byte>, b: seq<Byte>)
    requires |a| == |b| == BytesNeeded(length)
    ensures GenerateRandomString(length, a) == GenerateRandomString(length, b)
       <==> forall i | 0 <= i < 6 * length :: Bit(a, i) == Bit(b, i)
  {
    hide Bit, SextetAt, Encode, Letter;
    forall p: nat | p < length
      ensures GenerateRandomString(length, a)[p] == GenerateRandomString(length, b)[p]
         <==> forall i | 6 * p <= i < 6 * p + 6 :: Bit(a, i) == Bit(b, i)
    {
      LetterAt(a, p);
      LetterAt(b, p);
      NumberOfLetter(SextetAt(a, 6 * p));
      NumberOfLetter(SextetAt(b, 6 * p));
      SameSextetIff(a, b, 6 * p);
    }
    if GenerateRandomString(length, a) == GenerateRandomString(length, b) {
      forall i | 0 <= i < 6 * length ensures Bit(a, i) == Bit(b, i) {
        assert GenerateRandomString(length, a)[i / 6] == GenerateRandomString(length, b)[i / 6];
      }
    }
  }

  /** The lower-cased name patchWarp makes of it is a non-empty host name without separators. */
  lemma LoweredNameIsPlain(length: nat, bytes: seq<Byte>)
    requires |bytes| == BytesNeeded(length)
    ensures var name := ToLower(GenerateRandomString(length, bytes));
            |name| == length && ',' !in name && ToLower(name) == name
  {
    var text := GenerateRandomString(length, bytes);
    forall i | 0 <= i < |text| ensures ToLower(text)[i] != ',' && LowerChar(ToLower(text)[i]) == ToLower(text)[i] {
      assert text[i] in text;
    }
  }

  // ---------------------------------------------------------------- the alphabet and the number of bytes

  /** Table 2 of RFC 4648 by code points: capitals, small letters, digits, minus and underscore. */
  lemma LettersAre(n: Sextet)
    ensures Letter(n) as int
         == if n < 26 then 65 + n else if n < 52 then 97 + (n - 26) else if n < 62 then 48 + (n - 52)
            else if n == 62 then 45 else 95
  {
  }

  /** The bytes drawn are as many as the characters need bits for, and one byte less would be too few. */
  lemma BytesNeededIs(length: nat)
    ensures 8 * BytesNeeded(length) >= 6 * length
    ensures length > 0 ==> BytesNeeded(length) > 0 && 8 * (BytesNeeded(length) - 1) < 6 * length
  {
  }
}
