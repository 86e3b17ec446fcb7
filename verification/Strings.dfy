/** The string functions of Go's `strings` and `strconv` packages that the configuration code uses. */
module Strings {
  import opened Wrappers

  predicate HasPrefix(s: string, prefix: string) {
    prefix <= s
  }

  function TrimPrefix(s: string, prefix: string): string {
    if prefix <= s then s[|prefix|..] else s
  }

  predicate Contains(s: string, sub: string) {
    sub <= s || (s != "" && Contains(s[1..], sub))
  }

  /** ASCII part of unicode.ToLower. */
  function LowerChar(c: char): char {
    if 'A' <= c <= 'Z' then c - 'A' + 'a' else c
  }

  function ToLower(s: string): (r: string)
    ensures |r| == |s|
  {
    seq(|s|, i requires 0 <= i < |s| => LowerChar(s[i]))
  }

  function Split(s: string, sep: char): (parts: seq<string>)
    ensures |parts| >= 1
  {
    if s == "" then [""]
    else if s[0] == sep then [""] + Split(s[1..], sep)
    else var rest := Split(s[1..], sep); [[s[0]] + rest[0]] + rest[1..]
  }

  function Join(parts: seq<string>, sep: char): string {
    if |parts| == 0 then ""
    else if |parts| == 1 then parts[0]
    else parts[0] + [sep] + Join(parts[1..], sep)
  }

  predicate AllDigits(s: string) {
    s != "" && forall i | 0 <= i < |s| :: '0' <= s[i] <= '9'
  }

  /** What follows an optional sign. */
  function Unsigned(s: string): string {
    if HasPrefix(s, "-") || HasPrefix(s, "+") then s[1..] else s
  }

  /** strconv.Atoi on a 64-bit platform: an optional sign, at least one digit, the value in range. */
  function Atoi(s: string): Option<int> {
    var digits := Unsigned(s);
    if !AllDigits(digits) then None
    else
      var value := if HasPrefix(s, "-") then -DigitsValue(digits) else DigitsValue(digits);
      if -0x8000_0000_0000_0000 <= value < 0x8000_0000_0000_0000 then Some(value) else None
  }

  function DigitsValue(digits: string): int
    requires forall i | 0 <= i < |digits| :: '0' <= digits[i] <= '9'
  {
    if digits == "" then 0
    else DigitsValue(digits[..|digits| - 1]) * 10 + (digits[|digits| - 1] as int - '0' as int)
  }

  lemma {:induction false} JoinOfSplit(s: string, sep: char)
    ensures Join(Split(s, sep), sep) == s
    ensures forall part | part in Split(s, sep) :: sep !in part
  {
    if s != "" {
      JoinOfSplit(s[1..], sep);
      var rest := Split(s[1..], sep);
      if s[0] == sep {
        assert Split(s, sep)[1..] == rest;
      } else {
        assert Split(s, sep)[1..] == rest[1..];
        assert rest == [rest[0]] + rest[1..];
      }
    }
  }

  /** A separator between two texts is always a cut: nothing on one side can hide an item of the other. */
  lemma {:induction false} SplitAtSeparator(a: string, b: string, sep: char)
    ensures Split(a + [sep] + b, sep) == Split(a, sep) + Split(b, sep)
  {
    var whole := a + [sep] + b;
    if a == "" {
      assert whole[1..] == b;
    } else {
      assert whole[1..] == a[1..] + [sep] + b;
      SplitAtSeparator(a[1..], b, sep);
    }
  }

  lemma {:induction false} SplitWithoutSeparator(s: string, sep: char)
    requires sep !in s
    ensures Split(s, sep) == [s]
  {
    if s != "" {
      SplitWithoutSeparator(s[1..], sep);
      assert [s[0]] + s[1..] == s;
    }
  }

  /** A text without separators in front goes to the first part. */
  lemma {:induction false} SplitOfPrefixed(prefix: string, s: string, sep: char)
    requires sep !in prefix
    ensures Split(prefix + s, sep)[0] == prefix + Split(s, sep)[0]
  {
    if prefix == "" {
      assert prefix + s == s;
    } else {
      SplitOfPrefixed(prefix[1..], s, sep);
      assert (prefix + s)[1..] == prefix[1..] + s;
    }
  }

  /** Splitting a join gives the items of the parts and no others. */
  lemma {:induction false} SplitOfJoin(parts: seq<string>, item: string, sep: char)
    requires parts != []
    ensures item in Split(Join(parts, sep), sep) <==> exists part :: part in parts && item in Split(part, sep)
  {
    if |parts| > 1 {
      SplitAtSeparator(parts[0], Join(parts[1..], sep), sep);
      SplitOfJoin(parts[1..], item, sep);
      assert parts == [parts[0]] + parts[1..];
    }
  }

  function Index(s: string, sub: string): (i: Option<nat>)
    ensures i.Some? ==> i.value + |sub| <= |s| && s[i.value..i.value + |sub|] == sub
    ensures i.Some? <==> Contains(s, sub)
  {
    if sub <= s then Some(0)
    else if s == "" then None
    else match Index(s[1..], sub) case Some(i) => Some(i + 1) case None => None
  }

  /** strings.SplitAfter(s, sub)[1], for a text that contains sub. */
  function SecondAfter(s: string, sub: string): string
    requires Contains(s, sub)
  {
    var rest := s[Index(s, sub).value + |sub|..];
    match Index(rest, sub) case Some(i) => rest[..i + |sub|] case None => rest
  }

  lemma {:induction false} ContainsNeedsFirst(s: string, sub: string)
    requires sub != "" && Contains(s, sub)
    ensures sub[0] in s
  {
    if !(sub <= s) {
      ContainsNeedsFirst(s[1..], sub);
    }
  }

  /** Lower-casing changes capitals only, each into its small letter. */
  lemma LoweredLetters(s: string, i: nat)
    requires i < |s|
    ensures var (c, l) := (s[i], ToLower(s)[i]);
            if 'A' <= c <= 'Z' then 'a' <= l <= 'z' && l as int - c as int == 32 else l == c
  {
  }

  // ---------------------------------------------------------------- numbers

  /** The decimal digits of a number. */
  function Decimal(n: nat): (s: string)
    ensures s != "" && forall i | 0 <= i < |s| :: '0' <= s[i] <= '9'
  {
    if n < 10 then ["0123456789"[n]] else Decimal(n / 10) + ["0123456789"[n % 10]]
  }

  lemma DigitIs(d: nat)
    requires d < 10
    ensures "0123456789"[d] as int == '0' as int + d
  {
  }

  lemma {:induction false} DigitsOfDecimal(n: nat)
    ensures DigitsValue(Decimal(n)) == n
  {
    DigitIs(n % 10);
    var s := Decimal(n);
    if n < 10 {
      assert s[..0] == "";
    } else {
      DigitsOfDecimal(n / 10);
      assert s == Decimal(n / 10) + ["0123456789"[n % 10]];
      assert s[..|s| - 1] == Decimal(n / 10);
      hide Decimal;
    }
  }

  lemma AtoiOfDigits(s: string)
    requires AllDigits(s)
    ensures Atoi(s) == if DigitsValue(s) < 0x8000_0000_0000_0000 then Some(DigitsValue(s)) else None
    ensures DigitsValue(s) >= 0
  {
    DigitsAreNatural(s);
    assert s[0] != '-' && s[0] != '+';
    hide DigitsValue;
  }

  lemma {:induction false} DigitsAreNatural(s: string)
    requires forall i | 0 <= i < |s| :: '0' <= s[i] <= '9'
    ensures DigitsValue(s) >= 0
  {
    if s != "" {
      DigitsAreNatural(s[..|s| - 1]);
    }
  }

  lemma SignedParts(s: string)
    ensures var (plus, minus) := ("+" + s, "-" + s);
            && Unsigned(plus) == s && !HasPrefix(plus, "-") && Unsigned(minus) == s && HasPrefix(minus, "-")
  {
    var (plus, minus) := ("+" + s, "-" + s);
    assert plus[0] == '+' && plus[1..] == s && minus[0] == '-' && minus[1..] == s;
  }

  lemma AtoiOfParts(t: string, s: string)
    requires AllDigits(s) && Unsigned(t) == s && DigitsValue(s) >= 0
    ensures HasPrefix(t, "-") ==>
              Atoi(t) == if DigitsValue(s) <= 0x8000_0000_0000_0000 then Some(-DigitsValue(s)) else None
    ensures !HasPrefix(t, "-") ==>
              Atoi(t) == if DigitsValue(s) < 0x8000_0000_0000_0000 then Some(DigitsValue(s)) else None
  {
    hide DigitsValue, Unsigned, AllDigits, HasPrefix;
  }

  lemma AtoiOfSigned(s: string)
    requires AllDigits(s)
    ensures Atoi("+" + s) == Atoi(s)
    ensures Atoi("-" + s) == if DigitsValue(s) <= 0x8000_0000_0000_0000 then Some(-DigitsValue(s)) else None
  {
    hide DigitsValue, Unsigned, AllDigits, HasPrefix, Atoi;
    AtoiOfDigits(s);
    SignedParts(s);
    DigitsAreNaturalOf(s);
    AtoiOfParts("+" + s, s);
    AtoiOfParts("-" + s, s);
  }

  lemma DigitsAreNaturalOf(s: string)
    requires AllDigits(s)
    ensures DigitsValue(s) >= 0
  {
    DigitsAreNatural(s);
  }

  lemma DecimalIsDigits(n: nat)
    ensures AllDigits(Decimal(n))
  {
  }

  /** A number is read back from its decimal digits, with or without a sign, exactly when it fits 64 bits. */
  lemma AtoiOfDecimal(n: nat)
    ensures Atoi(Decimal(n)) == if n < 0x8000_0000_0000_0000 then Some(n) else None
    ensures Atoi("+" + Decimal(n)) == Atoi(Decimal(n))
    ensures Atoi("-" + Decimal(n)) == if n <= 0x8000_0000_0000_0000 then Some(-(n as int)) else None
  {
    DecimalIsDigits(n);
    hide Decimal, DigitsValue, Atoi, AllDigits;
    DigitsOfDecimal(n);
    AtoiOfDigits(Decimal(n));
    AtoiOfSigned(Decimal(n));
  }

  /** A text with any other character is no number, but for a sign in front; nor is one without digits. */
  lemma AtoiRefuses(s: string, i: nat)
    requires i < |s| && !('0' <= s[i] <= '9') && (i > 0 || (s[0] != '-' && s[0] != '+'))
    ensures Atoi(s) == None
  {
    var digits := Unsigned(s);
    assert digits[if |digits| < |s| then i - 1 else i] == s[i];
    assert !AllDigits(digits);
    hide AllDigits, DigitsValue;
  }

  lemma NoDigitsNoNumber()
    ensures Atoi("") == Atoi("-") == Atoi("+") == None
  {
    assert "-"[1..] == "" && "+"[1..] == "";
  }

  // ---------------------------------------------------------------- the text after a scheme

  /** The separator is found where it first stands. */
  lemma {:induction false} IndexAfterPrefix(a: string, rest: string)
    requires ':' !in a
    ensures Index(a + "://" + rest, "://") == Some(|a|)
  {
    var s := a + "://" + rest;
    if a == "" {
      assert s == "://" + rest;
    } else {
      assert s[1..] == a[1..] + "://" + rest;
      assert s[0] != ':';
      IndexAfterPrefix(a[1..], rest);
    }
  }

  /** What follows the scheme, up to and with the next separator if there is one. */
  lemma SecondAfterIs(scheme: string, rest: string)
    requires ':' !in scheme
    ensures Contains(scheme + "://" + rest, "://")
    ensures !Contains(rest, "://") ==> SecondAfter(scheme + "://" + rest, "://") == rest
    ensures forall a, b | rest == a + "://" + b && ':' !in a ::
              SecondAfter(scheme + "://" + rest, "://") == a + "://"
  {
    IndexAfterPrefix(scheme, rest);
    var s := scheme + "://" + rest;
    assert s[|scheme| + 3..] == rest;
    forall a, b | rest == a + "://" + b && ':' !in a ensures SecondAfter(s, "://") == a + "://" {
      IndexAfterPrefix(a, b);
      assert rest[..|a| + 3] == a + "://";
    }
  }

  /** A text contains another exactly when it is that text with something before and after it. */
  lemma {:induction false} OccursIff(s: string, sub: string)
    ensures Contains(s, sub) <==> exists a, b :: s == a + sub + b
  {
    if sub <= s {
      assert s == "" + sub + s[|sub|..];
    } else if s != "" {
      OccursIff(s[1..], sub);
      if a, b :| s[1..] == a + sub + b {
        assert s == [s[0]] + a + sub + b;
      }
      if a, b :| s == a + sub + b {
        assert a != "";
        assert s[1..] == a[1..] + sub + b;
      }
    }
  }
}
