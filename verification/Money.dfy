/** Exact money text: parsing decimal strings into 64-bit cents and printing cents back. */
module Money {
  import opened Results

  const MAX_INT64: int := 0x7FFF_FFFF_FFFF_FFFF
  const TWO_TO_THE_64: int := 0x1_0000_0000_0000_0000

  datatype MoneyError = InvalidFormat | WholeOutOfRange

  /** An amount in cents together with its normalised text. */
  datatype Parsed = Parsed(cents: int, canonical: string)

  predicate IsInt64(x: int) {
    -MAX_INT64 - 1 <= x <= MAX_INT64
  }

  /** Two's complement wrap-around of 64-bit signed arithmetic. */
  function Wrap64(x: int): (r: int)
    ensures IsInt64(r)
    ensures IsInt64(x) ==> r == x
    ensures (x - r) % TWO_TO_THE_64 == 0
  {
    var low := x % TWO_TO_THE_64;
    if low <= MAX_INT64 then low else low - TWO_TO_THE_64
  }

  // ----- Decimal digits -----

  predicate IsDigit(c: char) {
    '0' <= c <= '9'
  }

  predicate AllDigits(s: string) {
    forall i :: 0 <= i < |s| ==> IsDigit(s[i])
  }

  function DigitChar(d: nat): (c: char)
    requires d < 10
    ensures IsDigit(c)
  {
    '0' + d as char
  }

  function DigitsValue(s: string): nat
    requires AllDigits(s)
  {
    if s == [] then 0
    else DigitsValue(s[..|s| - 1]) * 10 + (s[|s| - 1] - '0') as nat
  }

  /** `%d` of a non-negative number. */
  function Digits(n: nat): (s: string)
    ensures |s| > 0 && AllDigits(s)
    ensures n > 0 ==> s[0] != '0'
  {
    if n < 10 then [DigitChar(n)] else Digits(n / 10) + [DigitChar(n % 10)]
  }

  /** `%02d` of a number below one hundred. */
  function TwoDigits(n: nat): (s: string)
    requires n < 100
    ensures |s| == 2 && AllDigits(s)
  {
    [DigitChar(n / 10), DigitChar(n % 10)]
  }

  lemma {:induction false} DigitsRoundTrip(n: nat)
    ensures DigitsValue(Digits(n)) == n
  {
    if n >= 10 {
      DigitsRoundTrip(n / 10);
      assert Digits(n)[..|Digits(n)| - 1] == Digits(n / 10);
    }
  }

  lemma TwoDigitsRoundTrip(n: nat)
    requires n < 100
    ensures DigitsValue(TwoDigits(n)) == n
  {
    TwoDigitsValue(TwoDigits(n));
  }

  lemma TwoDigitsValue(s: string)
    requires AllDigits(s) && |s| == 2
    ensures DigitsValue(s) == (s[0] - '0') as nat * 10 + (s[1] - '0') as nat < 100
  {
    var first := s[..1];
    assert first[..0] == [];
    assert DigitsValue(first) == (s[0] - '0') as nat;
  }

  // ----- Text handling -----

  /** White space as `strings.TrimSpace` understands it. */
  predicate IsSpace(c: char) {
    || '\U{0009}' <= c <= '\U{000D}'
    || c == ' ' || c == '\U{0085}' || c == '\U{00A0}' || c == '\U{1680}'
    || '\U{2000}' <= c <= '\U{200A}'
    || c == '\U{2028}' || c == '\U{2029}' || c == '\U{202F}' || c == '\U{205F}' || c == '\U{3000}'
  }

  function TrimLeft(s: string): string {
    if s != [] && IsSpace(s[0]) then TrimLeft(s[1..]) else s
  }

  function TrimRight(s: string): string {
    if s != [] && IsSpace(s[|s| - 1]) then TrimRight(s[..|s| - 1]) else s
  }

  function TrimSpace(s: string): string {
    TrimRight(TrimLeft(s))
  }

  /** Position of the first dot, or the length of the text when it has none. */
  function DotIndex(s: string): (i: nat)
    ensures i <= |s|
    ensures '.' !in s[..i]
    ensures i < |s| ==> s[i] == '.'
  {
    if s == [] || s[0] == '.' then 0
    else
      var rest := DotIndex(s[1..]);
      assert s[..1 + rest] == [s[0]] + s[1..][..rest];
      1 + rest
  }

  /** The pattern `^[0-9]+(\.[0-9]{1,2})?$`, decided at the first dot. */
  predicate MatchesMoney(s: string) {
    var dot := DotIndex(s);
    && dot > 0 && AllDigits(s[..dot])
    && (dot < |s| ==> |s| - dot - 1 in {1, 2} && AllDigits(s[dot + 1..]))
  }

  ghost predicate HasShape(s: string, whole: string, frac: string) {
    && whole != [] && AllDigits(whole) && AllDigits(frac) && |frac| <= 2
    && s == if frac == [] then whole else whole + "." + frac
  }

  /** Deciding the pattern at the first dot is the same as matching the regular expression. */
  lemma PatternMeansShape(s: string)
    ensures MatchesMoney(s) <==> exists whole, frac :: HasShape(s, whole, frac)
  {
    if MatchesMoney(s) {
      var dot := DotIndex(s);
      if dot == |s| {
        assert s[..dot] == s;
        assert HasShape(s, s, "");
      } else {
        assert s == s[..dot] + "." + s[dot + 1..];
        assert HasShape(s, s[..dot], s[dot + 1..]);
      }
    }
    if whole, frac :| HasShape(s, whole, frac) {
      ShapeSplits(s, whole, frac);
    }
  }

  lemma ShapeSplits(s: string, whole: string, frac: string)
    requires HasShape(s, whole, frac)
    ensures DotIndex(s) == |whole| && s[..|whole|] == whole
    ensures frac != [] ==> s[|whole| + 1..] == frac
    ensures MatchesMoney(s)
  {
    var dot := DotIndex(s);
    assert forall i :: 0 <= i < |whole| ==> s[i] == whole[i] && IsDigit(s[i]);
    assert frac != [] ==> s[|whole|] == '.';
    assert forall i :: 0 <= i < dot ==> s[..dot][i] == s[i] && s[i] != '.';
    assert s[..|whole|] == whole;
  }

  // ----- ParseMoney and FormatMoney -----

  /** Value of the digits before the dot. */
  function WholeValue(text: string): nat
    requires MatchesMoney(text)
  {
    DigitsValue(text[..DotIndex(text)])
  }

  /** Value of the digits after the dot in hundredths; one digit stands for tenths. */
  function FracValue(text: string): (f: nat)
    requires MatchesMoney(text)
    ensures f < 100
  {
    var dot := DotIndex(text);
    if dot == |text| then 0
    else
      var fracText := if |text| - dot - 1 == 1 then text[dot + 1..] + "0" else text[dot + 1..];
      TwoDigitsValue(fracText);
      DigitsValue(fracText)
  }

  function ParseMoney(s: string): Result<Parsed, MoneyError> {
    var text := TrimSpace(s);
    if !MatchesMoney(text) then Err(InvalidFormat)
    else
      var whole := WholeValue(text);
      if whole > MAX_INT64 then Err(WholeOutOfRange)
      else
        var frac := FracValue(text);
        Ok(Parsed(Wrap64(Wrap64(whole * 100) + frac), Digits(whole) + "." + TwoDigits(frac)))
  }

  /** `%d` of any 64-bit number. */
  function SignedDigits(x: int): string {
    if x < 0 then "-" + Digits(-x) else Digits(x)
  }

  /** `%02d` of a number strictly between -100 and 100. */
  function SignedTwoDigits(x: int): string
    requires -100 < x < 100
  {
    if x < 0 then "-" + Digits(-x) else TwoDigits(x)
  }

  /** Division and remainder that truncate toward zero. */
  function TruncDiv(x: int, d: nat): int
    requires d > 0
  {
    if x < 0 then -((-x) / d) else x / d
  }

  function TruncMod(x: int, d: nat): (r: int)
    requires d > 0
    ensures 0 - d < r < d
    ensures TruncDiv(x, d) * d + r == x
  {
    if x < 0 then -((-x) % d) else x % d
  }

  /** The negation of the smallest 64-bit number wraps onto itself, so `abs` may stay negative. */
  function FormatMoney(cents: int): string
    requires IsInt64(cents)
  {
    if cents < 0 then
      var abs := Wrap64(-cents);
      "-" + SignedDigits(TruncDiv(abs, 100)) + "." + SignedTwoDigits(TruncMod(abs, 100))
    else
      SignedDigits(TruncDiv(cents, 100)) + "." + SignedTwoDigits(TruncMod(cents, 100))
  }

  // ----- Round trips -----

  lemma FormatOfCents(cents: int)
    requires 0 <= cents <= MAX_INT64
    ensures FormatMoney(cents) == Digits(cents / 100) + "." + TwoDigits(cents % 100)
  {
  }

  lemma {:induction false} TrimIsIdentity(s: string)
    requires s != [] && !IsSpace(s[0]) && !IsSpace(s[|s| - 1])
    ensures TrimSpace(s) == s
  {
  }

  /** Canonical text is read back as exactly its two parts. */
  lemma CanonicalParts(whole: nat, frac: nat)
    requires frac < 100
    ensures var text := Digits(whole) + "." + TwoDigits(frac);
      TrimSpace(text) == text && MatchesMoney(text) && WholeValue(text) == whole && FracValue(text) == frac
  {
    var text := Digits(whole) + "." + TwoDigits(frac);
    TrimIsIdentity(text);
    ShapeSplits(text, Digits(whole), TwoDigits(frac));
    DigitsRoundTrip(whole);
    TwoDigitsRoundTrip(frac);
    assert text[|Digits(whole)| + 1..] == TwoDigits(frac);
  }

  /** An amount of this many whole units and cents is printed and read back as itself. */
  lemma PrintedParses(whole: nat, frac: nat, cents: int, text: string)
    requires frac < 100 && cents == whole * 100 + frac <= MAX_INT64 && text == FormatMoney(cents)
    ensures ParseMoney(text) == Ok(Parsed(cents, text))
  {
    FittingParts(whole, frac, cents);
    CanonicalParses(whole, frac);
  }

  /** Every non-negative 64-bit amount survives printing and parsing, and so does its text. */
  lemma MoneyRoundTrip(cents: int)
    requires 0 <= cents <= MAX_INT64
    ensures ParseMoney(FormatMoney(cents)) == Ok(Parsed(cents, FormatMoney(cents)))
  {
    PrintedParses(cents / 100, cents % 100, cents, FormatMoney(cents));
  }

  /** The cents of accepted text are the value it denotes, and its canonical form is what
      `FormatMoney` prints for them, exactly when that value fits in 64 bits. */
  lemma CanonicalTextExact(s: string)
    requires ParseMoney(s).Ok?
    ensures var p := ParseMoney(s).value;
      var text := TrimSpace(s);
      var exact := WholeValue(text) * 100 + FracValue(text);
      && (exact <= MAX_INT64 <==> p.canonical == FormatMoney(p.cents))
      && (exact <= MAX_INT64 <==> p.cents == exact)
      && (exact <= MAX_INT64 ==> ParseMoney(p.canonical) == Ok(p))
  {
    var text := TrimSpace(s);
    CanonicalPartsExact(WholeValue(text), FracValue(text), ParseMoney(s).value.cents);
  }

  lemma ParsesAs(s: string, text: string, whole: nat, frac: nat)
    requires TrimSpace(s) == text && MatchesMoney(text) && WholeValue(text) == whole && FracValue(text) == frac
    requires whole <= MAX_INT64
    ensures ParseMoney(s) == Ok(Parsed(Wrap64(Wrap64(whole * 100) + frac), Digits(whole) + "." + TwoDigits(frac)))
  {
  }

  /** Canonical text parses to its wrapped value and itself. */
  lemma CanonicalParses(whole: nat, frac: nat)
    requires whole <= MAX_INT64 && frac < 100
    ensures var text := Digits(whole) + "." + TwoDigits(frac);
      ParseMoney(text) == Ok(Parsed(Wrap64(Wrap64(whole * 100) + frac), text))
  {
    CanonicalParts(whole, frac);
    var text := Digits(whole) + "." + TwoDigits(frac);
    ParsesAs(text, text, whole, frac);
  }

  /** A value that fits is kept, and printed as the same text. */
  lemma FittingParts(whole: nat, frac: nat, cents: int)
    requires frac < 100 && cents == whole * 100 + frac <= MAX_INT64
    ensures Wrap64(Wrap64(whole * 100) + frac) == cents
    ensures FormatMoney(cents) == Digits(whole) + "." + TwoDigits(frac)
  {
    assert cents / 100 == whole && cents % 100 == frac;
    FormatOfCents(cents);
  }

  /** A value that does not fit wraps around to another amount, which prints as another text. */
  lemma WrappedParts(whole: nat, frac: nat, cents: int)
    requires whole <= MAX_INT64 && frac < 100 && whole * 100 + frac > MAX_INT64
    requires cents == Wrap64(Wrap64(whole * 100) + frac)
    ensures cents != whole * 100 + frac && Digits(whole) + "." + TwoDigits(frac) != FormatMoney(cents)
  {
    var text := Digits(whole) + "." + TwoDigits(frac);
    CanonicalParts(whole, frac);
    if cents >= 0 {
      FormatOfCents(cents);
      CanonicalParts(cents / 100, cents % 100);
    } else {
      NegativeTextStartsWithMinus(cents);
      assert text[0] == Digits(whole)[0] && IsDigit(text[0]);
    }
  }

  lemma CanonicalPartsExact(whole: nat, frac: nat, cents: int)
    requires whole <= MAX_INT64 && frac < 100
    requires cents == Wrap64(Wrap64(whole * 100) + frac)
    ensures var text := Digits(whole) + "." + TwoDigits(frac);
      && (whole * 100 + frac <= MAX_INT64 <==> text == FormatMoney(cents))
      && (whole * 100 + frac <= MAX_INT64 <==> cents == whole * 100 + frac)
      && (whole * 100 + frac <= MAX_INT64 ==> ParseMoney(text) == Ok(Parsed(cents, text)))
  {
    if whole * 100 + frac <= MAX_INT64 {
      FittingParts(whole, frac, whole * 100 + frac);
      CanonicalParses(whole, frac);
    } else {
      WrappedParts(whole, frac, cents);
    }
  }

  lemma NegativeTextStartsWithMinus(cents: int)
    requires IsInt64(cents) && cents < 0
    ensures FormatMoney(cents) != [] && FormatMoney(cents)[0] == '-'
  {
    var abs := Wrap64(-cents);
    var tail := SignedDigits(TruncDiv(abs, 100)) + "." + SignedTwoDigits(TruncMod(abs, 100));
    assert FormatMoney(cents) == "-" + tail;
  }

  /** No 64-bit step overflows while the whole part is at most 92233720368547757. */
  lemma SafeWholePart(s: string)
    requires ParseMoney(s).Ok? && WholeValue(TrimSpace(s)) <= 92233720368547757
    ensures var p := ParseMoney(s).value;
      && 0 <= p.cents == WholeValue(TrimSpace(s)) * 100 + FracValue(TrimSpace(s))
      && p.canonical == FormatMoney(p.cents) && ParseMoney(p.canonical) == Ok(p)
  {
    CanonicalTextExact(s);
  }

  lemma OverflowValue(whole: nat)
    requires whole == 92233720368547758
    ensures Wrap64(Wrap64(whole * 100) + 8) == -MAX_INT64 - 1
  {
  }

  /** From this text on, accepted amounts wrap around to a negative number of cents. */
  lemma FirstOverflow(whole: nat)
    requires whole == 92233720368547758
    ensures var text := Digits(whole) + "." + TwoDigits(8);
      ParseMoney(text) == Ok(Parsed(-MAX_INT64 - 1, text))
  {
    OverflowValue(whole);
    CanonicalParses(whole, 8);
  }

  // ----- What is read and what is printed -----

  lemma {:induction false} LeftTrimmed(s: string)
    ensures |TrimLeft(s)| <= |s| && TrimLeft(s) == s[|s| - |TrimLeft(s)|..]
    ensures forall i :: 0 <= i < |s| - |TrimLeft(s)| ==> IsSpace(s[i])
    ensures TrimLeft(s) != [] ==> !IsSpace(TrimLeft(s)[0])
  {
    if s != [] && IsSpace(s[0]) {
      LeftTrimmed(s[1..]);
      forall i | 0 <= i < |s| - |TrimLeft(s)|
        ensures IsSpace(s[i])
      {
        assert i > 0 ==> s[i] == s[1..][i - 1];
      }
    }
  }

  lemma {:induction false} RightTrimmed(s: string)
    ensures |TrimRight(s)| <= |s| && TrimRight(s) == s[..|TrimRight(s)|]
    ensures forall i :: |TrimRight(s)| <= i < |s| ==> IsSpace(s[i])
    ensures TrimRight(s) != [] ==> !IsSpace(s[|TrimRight(s)| - 1])
  {
    if s != [] && IsSpace(s[|s| - 1]) {
      RightTrimmed(s[..|s| - 1]);
    }
  }

  /** Trimming removes white space at both ends, all of it, and nothing else. */
  lemma TrimExactly(s: string) returns (i: nat, j: nat)
    ensures i <= j <= |s| && TrimSpace(s) == s[i..j]
    ensures forall k :: 0 <= k < i || j <= k < |s| ==> IsSpace(s[k])
    ensures i < j ==> !IsSpace(s[i]) && !IsSpace(s[j - 1])
  {
    LeftTrimmed(s);
    var left := TrimLeft(s);
    RightTrimmed(left);
    i := |s| - |left|;
    j := i + |TrimSpace(s)|;
    assert forall k :: 0 <= k < |left| ==> left[k] == s[i + k];
    forall k | j <= k < |s|
      ensures IsSpace(s[k])
    {
      assert s[k] == left[k - i];
    }
  }

  /** Hundredths of the digits after the dot: the first one counts ten. */
  function Hundredths(frac: string): nat
    requires AllDigits(frac) && |frac| <= 2
  {
    (if |frac| >= 1 then 10 * (frac[0] - '0') as nat else 0) + (if |frac| == 2 then (frac[1] - '0') as nat else 0)
  }

  lemma PartsAreRead(text: string, whole: string, frac: string)
    requires HasShape(text, whole, frac)
    ensures MatchesMoney(text) && WholeValue(text) == DigitsValue(whole) && FracValue(text) == Hundredths(frac)
  {
    ShapeSplits(text, whole, frac);
    if frac != [] {
      assert text[DotIndex(text) + 1..] == frac;
      TwoDigitsValue(if |frac| == 1 then frac + "0" else frac);
    }
  }

  /** Text of the right shape is accepted exactly while its whole part fits in 64 bits, as that many units and
      hundredths, and is normalised to two decimals without leading zeros. */
  lemma ShapeIsRead(s: string, whole: string, frac: string)
    requires HasShape(TrimSpace(s), whole, frac)
    ensures ParseMoney(s) == if DigitsValue(whole) > MAX_INT64 then Err(WholeOutOfRange)
      else Ok(Parsed(Wrap64(DigitsValue(whole) * 100 + Hundredths(frac)),
                     Digits(DigitsValue(whole)) + "." + TwoDigits(Hundredths(frac))))
  {
    PartsAreRead(TrimSpace(s), whole, frac);
    WrapsOnce(DigitsValue(whole) * 100, Hundredths(frac));
  }

  lemma WrapsOnce(x: int, y: int)
    ensures Wrap64(Wrap64(x) + y) == Wrap64(x + y)
  {
  }

  /** Every other text is refused. */
  lemma OtherTextRefused(s: string)
    ensures ParseMoney(s) == Err(InvalidFormat) <==> !exists whole, frac :: HasShape(TrimSpace(s), whole, frac)
  {
    PatternMeansShape(TrimSpace(s));
  }

  /** A negative amount prints as its opposite behind a minus sign. */
  lemma NegativeText(cents: int)
    requires -MAX_INT64 <= cents < 0
    ensures FormatMoney(cents) == "-" + FormatMoney(-cents)
  {
    var abs := -cents;
    var whole, frac := SignedDigits(TruncDiv(abs, 100)), SignedTwoDigits(TruncMod(abs, 100));
    assert FormatMoney(abs) == whole + "." + frac;
    assert FormatMoney(cents) == "-" + whole + "." + frac;
    assert "-" + whole + "." + frac == "-" + (whole + "." + frac);
  }

  /** An amount whose opposite wraps around to itself prints with both parts still negative. */
  lemma WrappedText(cents: int, whole: nat, frac: nat)
    requires IsInt64(cents) && cents < 0 && Wrap64(-cents) == cents
    requires -cents == whole * 100 + frac && whole > 0 && 0 < frac < 100
    ensures FormatMoney(cents) == "-" + ("-" + Digits(whole)) + "." + ("-" + Digits(frac))
  {
    assert (-cents) / 100 == whole && (-cents) % 100 == frac;
  }

  /** There is one such amount, the smallest. */
  lemma SmallestText(least: int, whole: nat, frac: nat)
    requires least == -MAX_INT64 - 1 && whole == 92233720368547758 && frac == 8
    ensures FormatMoney(least) == "--" + Digits(whole) + ".-" + Digits(frac)
  {
    WrappedText(least, whole, frac);
    JoinedMinuses(Digits(whole), Digits(frac));
  }

  lemma JoinedMinuses(whole: string, frac: string)
    ensures "-" + ("-" + whole) + "." + ("-" + frac) == "--" + whole + ".-" + frac
  {
  }

  /** No negative amount can be read back. */
  lemma NegativeTextRefused(cents: int)
    requires IsInt64(cents) && cents < 0
    ensures ParseMoney(FormatMoney(cents)) == Err(InvalidFormat)
  {
    var text := FormatMoney(cents);
    NegativeTextStartsWithMinus(cents);
    var i, j := TrimExactly(text);
    assert !IsSpace(text[0]);
    if MatchesMoney(TrimSpace(text)) {
      assert TrimSpace(text)[0] == text[0] == TrimSpace(text)[..DotIndex(TrimSpace(text))][0];
    }
  }
}
