/** The release-build time formatter of the usage timer: a number of seconds becomes
    "<minutes>:<seconds>", with the seconds zero-padded to two digits ("%d:%02d"). Swift's
    `Int(time)` truncates toward zero and Swift's integer `/` and `%` truncate as well, so
    all three are written out here rather than taken from Dafny's Euclidean operators.
    `String(format:)` converts each `Int` argument of `%d` to a 32-bit C `int`, keeping only the
    low 32 bits, so minutes of 2^31 or more print wrapped; `Int32Wrap` writes that out.
    `ParseClock` reads such a text back; it is the inverse the formatter is checked against. */
module ClockFormat {
  import opened Options

  /** Swift's `Int(x)` for a finite double: the integer part, rounded toward zero. */
  function TruncateToInt(x: real): (n: int)
    ensures x >= 0.0 ==> n as real <= x < n as real + 1.0
    ensures x < 0.0 ==> n as real - 1.0 < x <= n as real
  {
    if x >= 0.0 then x.Floor else -((-x).Floor)
  }

  /** Swift's integer `/` by a positive divisor: the quotient rounded toward zero. */
  function TruncatedQuotient(a: int, b: int): int
    requires b > 0
  {
    if a >= 0 then a / b else -((-a) / b)
  }

  /** Swift's integer `%` by a positive divisor: the remainder takes the sign of `a`. */
  function TruncatedRemainder(a: int, b: int): (r: int)
    requires b > 0
    ensures a == b * TruncatedQuotient(a, b) + r
    ensures a >= 0 ==> 0 <= r < b
    ensures a < 0 ==> -b < r <= 0
  {
    if a >= 0 then a % b else -((-a) % b)
  }

  predicate IsDigit(c: char)
  {
    '0' <= c <= '9'
  }

  predicate AllDigits(s: string)
  {
    forall i :: 0 <= i < |s| ==> IsDigit(s[i])
  }

  function DigitChar(d: int): (c: char)
    requires 0 <= d < 10
    ensures IsDigit(c) && c as int - '0' as int == d
  {
    ('0' as int + d) as char
  }

  /** The decimal digits of a natural number, most significant first, without leading zeros. */
  function NatToDecimal(n: nat): (s: string)
    ensures |s| >= 1 && AllDigits(s)
    ensures |s| > 1 ==> s[0] != '0'
    decreases n
  {
    if n < 10 then [DigitChar(n)] else NatToDecimal(n / 10) + [DigitChar(n % 10)]
  }

  /** "%d": an optional minus sign followed by the decimal digits, which read back as the
      magnitude. */
  function Decimal(n: int): (text: string)
    ensures n >= 0 ==> |text| >= 1 && AllDigits(text) && DigitsValue(text) == n
    ensures n < 0 ==> |text| >= 2 && text[0] == '-' && AllDigits(text[1..]) && DigitsValue(text[1..]) == -n
  {
    var magnitude: nat := if n < 0 then -n else n;
    DecimalDigitsRoundTrip(magnitude);
    var digits := NatToDecimal(magnitude);
    if n < 0 then
      assert ("-" + digits)[1..] == digits;
      "-" + digits
    else digits
  }

  /** "%02d": at least two characters, a single digit padded with a leading zero; the padding
      does not change the value read back. */
  function ZeroPadded2(n: int): (text: string)
    ensures n >= 0 ==> |text| >= 2 && AllDigits(text) && DigitsValue(text) == n
  {
    if 0 <= n < 10 then
      DecimalDigitsRoundTrip(n);
      LeadingZeroKeepsValue(NatToDecimal(n));
      "0" + NatToDecimal(n)
    else Decimal(n)
  }

  /** The number of values of a 32-bit C `int`, and the least positive value it cannot hold. */
  const Int32Modulus: int := 0x1_0000_0000
  const Int32Limit: int := 0x8000_0000

  /** The conversion of a Swift `Int` to the 32-bit C `int` that `%d` prints: the low 32 bits,
      read as two's complement. */
  function Int32Wrap(n: int): (w: int)
    ensures -Int32Limit <= w < Int32Limit
    ensures (n - w) % Int32Modulus == 0
    ensures -Int32Limit <= n < Int32Limit ==> w == n
  {
    (n + Int32Limit) % Int32Modulus - Int32Limit
  }

  /** "%d:%02d" of a whole number of seconds, with Swift's truncating `/` and `%` by 60 and the
      32-bit conversion of both arguments. */
  function ClockText(whole: int): string
  {
    Decimal(Int32Wrap(TruncatedQuotient(whole, 60))) + ":" +
    ZeroPadded2(Int32Wrap(TruncatedRemainder(whole, 60)))
  }

  /** `formattedTime` outside debug builds: whole minutes, a colon, the remaining seconds. For a
      non-negative time the text ends in a colon and two digits. */
  function FormattedTime(time: real): (text: string)
    ensures time >= 0.0 ==>
      |text| >= 4 && text[|text| - 3] == ':' && IsDigit(text[|text| - 2]) && IsDigit(text[|text| - 1])
  {
    var whole := TruncateToInt(time);
    ClockTextShape(whole);
    ClockText(whole)
  }

  /** The value of a string of decimal digits. */
  function DigitsValue(s: string): nat
    requires AllDigits(s)
  {
    if |s| == 0 then 0 else DigitsValue(s[..|s| - 1]) * 10 + (s[|s| - 1] as int - '0' as int)
  }

  /** The position of the first colon, or the length when there is none. */
  function ColonIndex(s: string): (i: nat)
    ensures i <= |s|
    ensures i < |s| ==> s[i] == ':'
    ensures forall j :: 0 <= j < i ==> s[j] != ':'
  {
    if |s| == 0 || s[0] == ':' then 0 else 1 + ColonIndex(s[1..])
  }

  /** Reads "<digits>:<two digits>" with the seconds below 60 back as a number of seconds. */
  function ParseClock(s: string): Option<nat>
  {
    var i := ColonIndex(s);
    if i == |s| then None
    else
      var minutes, seconds := s[..i], s[i + 1..];
      if 1 <= |minutes| && AllDigits(minutes) && |seconds| == 2 && AllDigits(seconds)
         && DigitsValue(seconds) < 60
      then Some(DigitsValue(minutes) * 60 + DigitsValue(seconds))
      else None
  }

  /** Reading the digits of `n` gives `n` back. */
  lemma {:induction false} DecimalDigitsRoundTrip(n: nat)
    ensures DigitsValue(NatToDecimal(n)) == n
    decreases n
  {
    if n >= 10 {
      var front := NatToDecimal(n / 10);
      var s := front + [DigitChar(n % 10)];
      assert s[..|s| - 1] == front;
      DecimalDigitsRoundTrip(n / 10);
    }
  }

  /** A leading zero does not change the value of a string of digits. */
  lemma {:induction false} LeadingZeroKeepsValue(s: string)
    requires AllDigits(s)
    ensures AllDigits("0" + s) && DigitsValue("0" + s) == DigitsValue(s)
  {
    var p := "0" + s;
    if |s| == 0 {
      assert p[..0] == [];
    } else {
      var front := s[..|s| - 1];
      assert p[..|p| - 1] == "0" + front;
      assert p[|p| - 1] == s[|s| - 1];
      LeadingZeroKeepsValue(front);
    }
  }

  /** Seconds below 60 are always printed as exactly two digits that read back as themselves. */
  lemma PaddedSecondsRoundTrip(sec: int)
    requires 0 <= sec < 60
    ensures |ZeroPadded2(sec)| == 2 && AllDigits(ZeroPadded2(sec))
    ensures DigitsValue(ZeroPadded2(sec)) == sec
  {
    if sec >= 10 {
      assert NatToDecimal(sec) == NatToDecimal(sec / 10) + [DigitChar(sec % 10)];
      assert |NatToDecimal(sec / 10)| == 1;
    }
  }

  /** The colon of "<digits>:<rest>" is the one just after the digits. */
  lemma ColonAfterDigits(digits: string, rest: string)
    requires AllDigits(digits)
    ensures ColonIndex(digits + ":" + rest) == |digits|
  {
    var s := digits + ":" + rest;
    assert s[|digits|] == ':';
    assert forall j :: 0 <= j < |digits| ==> s[j] == digits[j];
  }

  /** For a non-negative number of seconds the text is "<minutes>:<ss>", with exactly two digits
      after the last colon, whatever the minutes print as. */
  lemma ClockTextShape(whole: int)
    ensures whole >= 0 ==> var s := ClockText(whole);
      |s| >= 4 && s[|s| - 3] == ':' && IsDigit(s[|s| - 2]) && IsDigit(s[|s| - 1])
  {
    if whole >= 0 {
      var minutes, seconds := Decimal(Int32Wrap(whole / 60)), ZeroPadded2(whole % 60);
      var s := ClockText(whole);
      assert s == minutes + ":" + seconds;
      PaddedSecondsRoundTrip(whole % 60);
      assert |s| == |minutes| + 3 && s[|minutes|] == ':';
      assert s[|s| - 2] == seconds[0] && s[|s| - 1] == seconds[1];
    }
  }

  /** While the minutes fit a 32-bit `int`, the colon of the text is the only one and reading the
      text back gives the number of seconds. */
  lemma ClockTextRoundTrip(whole: int)
    requires 0 <= whole < Int32Limit * 60
    ensures ParseClock(ClockText(whole)) == Some(whole)
  {
    var m, sec := whole / 60, whole % 60;
    assert Int32Wrap(m) == m;
    var minutes, seconds := Decimal(m), ZeroPadded2(sec);
    var s := ClockText(whole);
    assert s == minutes + ":" + seconds;
    PaddedSecondsRoundTrip(sec);
    ColonAfterDigits(minutes, seconds);
    assert s[..|minutes|] == minutes;
    assert s[|minutes| + 1..] == seconds;
  }

  /** Reading back the text of a non-negative time whose minutes fit a 32-bit `int` (below about
      4083 years) gives the whole number of seconds `Int(time)`: the formatter loses only the
      fraction. */
  lemma FormattedTimeRoundTrip(time: real)
    requires 0.0 <= time < (Int32Limit * 60) as real
    ensures ParseClock(FormattedTime(time)) == Some(TruncateToInt(time))
  {
    ClockTextRoundTrip(TruncateToInt(time));
  }

  /** At 2^31 minutes the 32-bit conversion wraps: the minutes print as -2147483648, so the text
      no longer reads back. */
  lemma WrappedMinutesExample()
    ensures var text := FormattedTime((Int32Limit * 60) as real);
      text[0] == '-' && ParseClock(text) == None
  {
    var whole := Int32Limit * 60;
    assert TruncateToInt(whole as real) == whole;
    assert TruncatedQuotient(whole, 60) == Int32Limit && TruncatedRemainder(whole, 60) == 0;
    assert Int32Wrap(Int32Limit) == -Int32Limit;
    var minutes, seconds := Decimal(-Int32Limit), ZeroPadded2(0);
    var text := ClockText(whole);
    assert text == minutes + ":" + seconds;
    assert text[0] == '-';
    var i := ColonIndex(text);
    if i < |text| {
      assert text[..i][0] == '-';
    }
  }

  /** The examples of the timer's tests below an hour. */
  lemma FormattedTimeExamples()
    ensures FormattedTime(60.0) == "1:00"
    ensures FormattedTime(90.0) == "1:30"
  {
    assert FormattedTime(60.0) == "1:00" by {
      assert TruncateToInt(60.0) == 60;
      assert TruncatedQuotient(60, 60) == 1 && TruncatedRemainder(60, 60) == 0;
      assert Int32Wrap(1) == 1 && Int32Wrap(0) == 0;
      assert Decimal(1) == "1" && ZeroPadded2(0) == "00";
      assert ClockText(60) == "1" + ":" + "00";
    }
    assert FormattedTime(90.0) == "1:30" by {
      assert TruncateToInt(90.0) == 90;
      assert TruncatedQuotient(90, 60) == 1 && TruncatedRemainder(90, 60) == 30;
      assert Int32Wrap(1) == 1 && Int32Wrap(30) == 30;
      assert ZeroPadded2(30) == "30" by {
        assert NatToDecimal(30) == "3" + [DigitChar(0)];
      }
      assert ClockText(90) == "1" + ":" + "30";
    }
  }

  /** The test's example of more than an hour: the minutes are not folded into hours. */
  lemma FormattedTimeOverAnHour()
    ensures FormattedTime(3661.0) == "61:01"
  {
    assert FormattedTime(3661.0) == "61:01" by {
      assert TruncateToInt(3661.0) == 3661;
      assert TruncatedQuotient(3661, 60) == 61 && TruncatedRemainder(3661, 60) == 1;
      assert Int32Wrap(61) == 61 && Int32Wrap(1) == 1;
      assert Decimal(61) == "61" by {
        assert NatToDecimal(61) == "6" + [DigitChar(1)];
      }
      assert ZeroPadded2(1) == "01";
      assert ClockText(3661) == "61" + ":" + "01";
    }
  }

  /** The ends of a release-build run: no usage yet, and the full half hour. */
  lemma FormattedTimeAtStartAndTarget()
    ensures FormattedTime(0.0) == "0:00"
    ensures FormattedTime(1800.0) == "30:00"
  {
    assert FormattedTime(0.0) == "0:00" by {
      assert TruncateToInt(0.0) == 0;
      assert TruncatedQuotient(0, 60) == 0 && TruncatedRemainder(0, 60) == 0;
      assert Int32Wrap(0) == 0;
      assert Decimal(0) == "0" && ZeroPadded2(0) == "00";
      assert ClockText(0) == "0" + ":" + "00";
    }
    assert FormattedTime(1800.0) == "30:00" by {
      assert TruncateToInt(1800.0) == 1800;
      assert TruncatedQuotient(1800, 60) == 30 && TruncatedRemainder(1800, 60) == 0;
      assert Int32Wrap(30) == 30 && Int32Wrap(0) == 0;
      assert Decimal(30) == "30" by {
        assert NatToDecimal(30) == "3" + [DigitChar(0)];
      }
      assert ZeroPadded2(0) == "00";
      assert ClockText(1800) == "30" + ":" + "00";
    }
  }

  /** Negative times follow Swift's truncating arithmetic: both fields carry the sign. */
  lemma NegativeTimeExample()
    ensures FormattedTime(-90.5) == "-1:-30"
  {
    assert TruncateToInt(-90.5) == -90;
    assert TruncatedQuotient(-90, 60) == -1 && TruncatedRemainder(-90, 60) == -30;
    assert Int32Wrap(-1) == -1 && Int32Wrap(-30) == -30;
    assert Decimal(-1) == "-1";
    assert ZeroPadded2(-30) == "-30" by {
      assert NatToDecimal(30) == "3" + [DigitChar(0)];
    }
    assert ClockText(-90) == "-1" + ":" + "-30";
  }
}
