/**
 The part of the C library's formatted input and output that the programs use:
 C strings held in larger buffers, bounded printing, and the %d conversion of
 printf and scanf (sections 7.21.6.1 and 7.21.6.2 of ISO/IEC 9899:2011).
 An octet of text is modelled by the char with that code.
 */
module CText {
  import opened Common

  const NUL: char := '\0'

  predicate IsSpace(c: char) {
    c == ' ' || '\t' <= c <= '\r'
  }

  predicate IsDigit(c: char) {
    '0' <= c <= '9'
  }

  ghost predicate AllDigits(s: string) {
    forall i :: 0 <= i < |s| ==> IsDigit(s[i])
  }

  /** The C string at the start of a buffer: everything before its first NUL. */
  function CString(buffer: string): (s: string)
    ensures NUL !in s
    ensures s <= buffer
    ensures |s| < |buffer| ==> buffer[|s|] == NUL
  {
    if buffer == [] || buffer[0] == NUL then "" else [buffer[0]] + CString(buffer[1..])
  }

  /** What memcpy leaves in a long-lived buffer: new octets first, old octets behind them. */
  function Overwrite(buffer: string, text: string): (r: string)
    requires |text| <= |buffer|
    ensures |r| == |buffer|
  {
    text + buffer[|text|..]
  }

  /** A NUL-terminated text hides whatever the buffer held before. */
  lemma {:induction false} CStringOfTerminated(body: string, stale: string)
    requires NUL !in body
    ensures CString(body + [NUL] + stale) == body
  {
    var buffer := body + [NUL] + stale;
    if body == "" {
      assert buffer[0] == NUL;
    } else {
      assert buffer[0] == body[0];
      assert body[0] in body;
      assert buffer[1..] == body[1..] + [NUL] + stale;
      CStringOfTerminated(body[1..], stale);
    }
  }

  /** The octets that snprintf leaves before its NUL in an array of the given size. */
  function Snprintf(size: nat, text: string): (r: string)
    requires size > 0
    ensures r <= text && |r| < size
    ensures |text| < size ==> r == text
    ensures |text| >= size ==> |r| == size - 1
  {
    if |text| < size then text else text[..size - 1]
  }

  // ---------------------------------------------------------------- %d out

  function DigitChar(d: nat): (c: char)
    requires d < 10
    ensures IsDigit(c) && DigitValue(c) == d
  {
    '0' + d as char
  }

  function DigitValue(c: char): (d: nat)
    requires IsDigit(c)
    ensures d < 10
  {
    c as int - '0' as int
  }

  function Digits(n: nat): (s: string)
    ensures |s| > 0 && AllDigits(s)
  {
    if n < 10 then [DigitChar(n)] else Digits(n / 10) + [DigitChar(n % 10)]
  }

  function PrintInt(n: int): (s: string)
    ensures |s| > 0
  {
    if n < 0 then "-" + Digits(-n) else Digits(n)
  }

  // ----------------------------------------------------------------- %d in

  function SkipSpace(s: string): (r: string)
    ensures r == "" || !IsSpace(r[0])
    ensures |r| <= |s| && r == s[|s| - |r|..]
    ensures forall i :: 0 <= i < |s| - |r| ==> IsSpace(s[i])
  {
    if s != "" && IsSpace(s[0]) then SkipSpace(s[1..]) else s
  }

  /** The longest prefix made of digits. */
  function LeadingDigits(s: string): (r: string)
    ensures AllDigits(r) && r <= s
    ensures |r| < |s| ==> !IsDigit(s[|r|])
  {
    if s != "" && IsDigit(s[0]) then [s[0]] + LeadingDigits(s[1..]) else ""
  }

  function DecimalValue(s: string): nat
    requires AllDigits(s)
  {
    if s == "" then 0 else 10 * DecimalValue(s[..|s| - 1]) + DigitValue(s[|s| - 1])
  }

  /** The sign, if any, that a %d conversion accepts. */
  function Sign(s: string): (r: (int, string))
  {
    if s != "" && s[0] == '-' then (-1, s[1..])
    else if s != "" && s[0] == '+' then (1, s[1..])
    else (1, s)
  }

  /** One %d conversion: the value and the text behind it, or None when it fails. */
  function ScanInt(s: string): (r: Option<(int, string)>)
    ensures r.Some? ==> (r.value.1 == "" || !IsDigit(r.value.1[0]))
  {
    var (sign, t) := Sign(SkipSpace(s));
    var digits := LeadingDigits(t);
    if digits == "" then None else Some((sign * DecimalValue(digits), t[|digits|..]))
  }

  // ----------------------------------------------------------- round trip

  lemma {:induction false} ValueOfDigits(n: nat)
    ensures DecimalValue(Digits(n)) == n
  {
    var s := Digits(n);
    if n < 10 {
      assert s[..0] == "";
    } else {
      assert s[..|s| - 1] == Digits(n / 10);
      ValueOfDigits(n / 10);
    }
  }

  lemma {:induction false} LeadingDigitsStop(digits: string, rest: string)
    requires AllDigits(digits)
    requires rest == "" || !IsDigit(rest[0])
    ensures LeadingDigits(digits + rest) == digits
  {
    if digits == "" {
      assert digits + rest == rest;
    } else {
      assert (digits + rest)[1..] == digits[1..] + rest;
      LeadingDigitsStop(digits[1..], rest);
    }
  }

  /** What a %d conversion has left to read once it has passed the sign of a printed integer. */
  lemma SignOfPrinted(n: int, rest: string)
    ensures Sign(SkipSpace(PrintInt(n) + rest)) == if n < 0 then (-1, Digits(-n) + rest) else (1, Digits(n) + rest)
  {
    var s := PrintInt(n) + rest;
    assert !IsSpace(s[0]) && s[0] != '+' by {
      assert IsDigit(Digits(if n < 0 then -n else n)[0]);
    }
    assert SkipSpace(s) == s;
    if n < 0 {
      assert s[1..] == Digits(-n) + rest;
    } else {
      assert IsDigit(s[0]);
    }
  }

  lemma ScanDigits(s: string, sign: int, n: nat, rest: string)
    requires Sign(SkipSpace(s)) == (sign, Digits(n) + rest)
    requires rest == "" || !IsDigit(rest[0])
    ensures ScanInt(s) == Some((sign * n, rest))
  {
    LeadingDigitsStop(Digits(n), rest);
    ValueOfDigits(n);
    assert (Digits(n) + rest)[|Digits(n)|..] == rest;
  }

  /** Scanning a printed integer gives it back and stops exactly behind it. */
  lemma ScanPrinted(n: int, rest: string)
    requires rest == "" || !IsDigit(rest[0])
    ensures ScanInt(PrintInt(n) + rest) == Some((n, rest))
  {
    SignOfPrinted(n, rest);
    if n < 0 {
      ScanDigits(PrintInt(n) + rest, -1, -n, rest);
    } else {
      ScanDigits(PrintInt(n) + rest, 1, n, rest);
    }
  }

  /** Leading white space does not change a %d conversion. */
  lemma ScanSkipsSpace(s: string)
    ensures ScanInt(SkipSpace(s)) == ScanInt(s)
  {
    assert SkipSpace(SkipSpace(s)) == SkipSpace(s);
  }

  function Pow10(k: nat): (p: nat)
    ensures p > 0
  {
    if k == 0 then 1 else 10 * Pow10(k - 1)
  }

  lemma {:induction false} DigitsLength(n: nat, k: nat)
    requires k > 0 && n < Pow10(k)
    ensures |Digits(n)| <= k
  {
    if n >= 10 {
      assert k > 1 by { assert Pow10(1) == 10 * Pow10(0); }
      assert n / 10 < Pow10(k - 1);
      DigitsLength(n / 10, k - 1);
    }
  }

  /** A C int prints in at most eleven octets, none of them NUL. */
  lemma PrintedIntIsShort(n: int)
    requires IsInt(n)
    ensures |PrintInt(n)| <= 11
    ensures NUL !in PrintInt(n)
  {
    assert Pow10(10) == 10_000_000_000 by {
      assert Pow10(5) == 100_000 by { assert Pow10(2) == 100; }
      assert Pow10(8) == 100_000_000;
    }
    var magnitude := if n < 0 then -n else n;
    DigitsLength(magnitude, 10);
    var digits := Digits(magnitude);
    forall i | 0 <= i < |digits| ensures digits[i] != NUL {
      assert IsDigit(digits[i]);
    }
  }

  // -------------------------------------------- what the digits look like

  /** The ten digit characters, in writing. */
  lemma DigitCharacters(d: nat)
    requires d < 10
    ensures DigitChar(d) == "0123456789"[d]
    ensures IsDigit("0123456789"[d]) && DigitValue("0123456789"[d]) == d
  {
  }

  /** The six characters that isspace accepts in the C locale. */
  lemma SpaceCharacters(c: char)
    ensures IsSpace(c) <==> c == ' ' || c == '\t' || c == '\n' || c == '\U{000B}' || c == '\U{000C}' || c == '\r'
  {
  }

  /** A negative integer is a minus sign and its magnitude. */
  lemma MinusSign(n: int)
    requires n < 0
    ensures PrintInt(n)[0] == '-' && PrintInt(n)[1..] == PrintInt(-n)
  {
  }

  /** At the first place where two texts of one length differ, the first one has the smaller character. */
  ghost predicate Below(a: string, b: string) {
    |a| == |b| && exists i :: 0 <= i < |a| && a[..i] == b[..i] && a[i] < b[i]
  }

  lemma BelowLonger(a: string, b: string, x: string, y: string)
    requires Below(a, b) && |x| == |y|
    ensures Below(a + x, b + y)
  {
    var i :| 0 <= i < |a| && a[..i] == b[..i] && a[i] < b[i];
    assert (a + x)[..i] == a[..i] && (b + y)[..i] == b[..i];
    assert (a + x)[i] == a[i] && (b + y)[i] == b[i];
  }

  lemma BelowAtLast(a: string, c: char, d: char)
    requires c < d
    ensures Below(a + [c], a + [d])
  {
    assert (a + [c])[..|a|] == (a + [d])[..|a|];
    assert (a + [c])[|a|] == c && (a + [d])[|a|] == d;
  }

  /**
   Of two numbers the larger one has more digits, or as many and a larger digit at the first
   place where they differ: the most significant digit comes first.
   */
  lemma {:induction false} DigitsIncrease(n: nat, m: nat)
    requires n < m
    ensures |Digits(n)| < |Digits(m)| || Below(Digits(n), Digits(m))
  {
    if n / 10 < m / 10 {
      if n >= 10 {
        DigitsIncrease(n / 10, m / 10);
        if Below(Digits(n / 10), Digits(m / 10)) {
          BelowLonger(Digits(n / 10), Digits(m / 10), [DigitChar(n % 10)], [DigitChar(m % 10)]);
        }
      }
    } else {
      assert n % 10 < m % 10;
      var front := if n < 10 then "" else Digits(n / 10);
      assert Digits(n) == front + [DigitChar(n % 10)] && Digits(m) == front + [DigitChar(m % 10)];
      BelowAtLast(front, DigitChar(n % 10), DigitChar(m % 10));
    }
  }

  /** Zero is a single digit, and no other number starts with a zero. */
  lemma {:induction false} NoLeadingZero(n: nat)
    ensures Digits(0) == "0"
    ensures n > 0 ==> Digits(n)[0] != '0'
  {
    if n >= 10 {
      NoLeadingZero(n / 10);
    }
  }

  /** Every digit text without a superfluous zero is how its value is printed. */
  lemma {:induction false} DigitsOfValue(s: string)
    requires AllDigits(s) && s != "" && (s[0] != '0' || |s| == 1)
    ensures Digits(DecimalValue(s)) == s
    decreases |s|
  {
    var front, last := s[..|s| - 1], s[|s| - 1];
    assert s == front + [last];
    assert DigitChar(DigitValue(last)) == last;
    if front == "" {
      assert DecimalValue("") == 0;
    } else {
      assert front[0] == s[0];
      DigitsOfValue(front);
      NoLeadingZero(0);
    }
  }

  // ---------------------------------------------- what %d accepts

  ghost predicate AllSpace(s: string) {
    forall i :: 0 <= i < |s| ==> IsSpace(s[i])
  }

  lemma {:induction false} SkipsAllSpace(lead: string, s: string)
    requires AllSpace(lead)
    ensures SkipSpace(lead + s) == SkipSpace(s)
  {
    if lead == "" {
      assert lead + s == s;
    } else {
      assert (lead + s)[1..] == lead[1..] + s;
      SkipsAllSpace(lead[1..], s);
    }
  }

  lemma LastDigit(s: string, c: char)
    requires AllDigits(s) && IsDigit(c)
    ensures AllDigits(s + [c]) && DecimalValue(s + [c]) == 10 * DecimalValue(s) + DigitValue(c)
  {
    assert (s + [c])[..|s|] == s;
  }

  lemma TimesTen(a: nat, k: nat)
    ensures a * Pow10(k + 1) == 10 * (a * Pow10(k))
  {
  }

  lemma Longer(a: string, b: string, c: char)
    ensures (a + b) + [c] == a + (b + [c])
  {
  }

  /** Digits count in tens from the right, superfluous zeros included. */
  lemma {:induction false} DecimalOfConcat(a: string, b: string)
    requires AllDigits(a) && AllDigits(b)
    ensures AllDigits(a + b)
    ensures DecimalValue(a + b) == DecimalValue(a) * Pow10(|b|) + DecimalValue(b)
    decreases |b|
  {
    if b == "" {
      assert a + b == a;
    } else {
      var front, last := b[..|b| - 1], b[|b| - 1];
      hide DecimalValue, DigitValue, Pow10;
      DecimalOfConcat(a, front);
      assert b == front + [last];
      Longer(a, front, last);
      LastDigit(a + front, last);
      LastDigit(front, last);
      TimesTen(DecimalValue(a), |front|);
    }
  }

  lemma NoSpaceAhead(s: string)
    requires s == "" || !IsSpace(s[0])
    ensures SkipSpace(s) == s
  {
  }

  lemma SignAhead(sign: string, t: string)
    requires sign == "" || sign == "+" || sign == "-"
    requires sign == "" ==> t == "" || (t[0] != '+' && t[0] != '-')
    ensures Sign(sign + t) == (if sign == "-" then -1 else 1, t)
  {
    if sign == "" {
      assert sign + t == t;
    } else {
      assert (sign + t)[0] == sign[0] && (sign + t)[1..] == t;
    }
  }

  /** White space is skipped, and an optional sign is taken off, but only one. */
  lemma SignAndRest(lead: string, sign: string, t: string)
    requires AllSpace(lead) && (sign == "" || sign == "+" || sign == "-")
    requires sign == "" ==> t == "" || (!IsSpace(t[0]) && t[0] != '+' && t[0] != '-')
    ensures Sign(SkipSpace(lead + (sign + t))) == (if sign == "-" then -1 else 1, t)
  {
    hide AllSpace, SkipSpace, Sign;
    SkipsAllSpace(lead, sign + t);
    assert sign == "" ==> sign + t == t;
    assert sign != "" ==> (sign + t)[0] == sign[0];
    NoSpaceAhead(sign + t);
    SignAhead(sign, t);
  }

  lemma ScanAfterSign(s: string, sign: int, digits: string, rest: string)
    requires Sign(SkipSpace(s)) == (sign, digits + rest)
    requires AllDigits(digits) && (rest == "" || !IsDigit(rest[0]))
    ensures ScanInt(s) == if digits == "" then None else Some((sign * DecimalValue(digits), rest))
  {
    hide Sign, SkipSpace;
    LeadingDigitsStop(digits, rest);
    assert (digits + rest)[|digits|..] == rest;
  }

  /** White space, one optional sign and digits are a number; the conversion stops behind its last digit. */
  lemma ScanAccepts(lead: string, sign: string, digits: string, rest: string)
    requires AllSpace(lead) && (sign == "" || sign == "+" || sign == "-")
    requires AllDigits(digits) && digits != "" && (rest == "" || !IsDigit(rest[0]))
    ensures var value: int := DecimalValue(digits);
            ScanInt(lead + (sign + (digits + rest))) == Some((if sign == "-" then -value else value, rest))
  {
    hide Sign, SkipSpace, ScanInt, AllSpace, DecimalValue;
    assert IsDigit(digits[0]) && (digits + rest)[0] == digits[0];
    SignAndRest(lead, sign, digits + rest);
    var factor := if sign == "-" then -1 else 1;
    ScanAfterSign(lead + (sign + (digits + rest)), factor, digits, rest);
    var value: int := DecimalValue(digits);
    assert factor * value == if sign == "-" then -value else value;
  }

  /** Anything else is not: what follows the white space and the sign has to be a digit. */
  lemma ScanRejects(lead: string, sign: string, rest: string)
    requires AllSpace(lead) && (sign == "" || sign == "+" || sign == "-")
    requires rest == "" || (!IsDigit(rest[0]) && (sign == "" ==> !IsSpace(rest[0]) && rest[0] != '+' && rest[0] != '-'))
    ensures ScanInt(lead + (sign + rest)) == None
  {
    hide Sign, SkipSpace, ScanInt;
    SignAndRest(lead, sign, rest);
    assert "" + rest == rest;
    ScanAfterSign(lead + (sign + rest), if sign == "-" then -1 else 1, "", rest);
  }
}
