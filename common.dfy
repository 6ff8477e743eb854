/** Value types and text helpers shared by the storefront model. */
module Common {

  datatype Option<T> = None | Some(value: T)

  predicate IsDigit(c: char) { '0' <= c <= '9' }

  /** The decimal digit character for d. */
  function Digit(d: nat): (c: char)
    requires d < 10
    ensures IsDigit(c) && c as int - '0' as int == d
  {
    ('0' as int + d) as char
  }

  /** Python's str() of a non-negative int: its decimal digits, most significant first. */
  function NatToString(n: nat): (s: string)
    ensures |s| >= 1
    ensures |s| == 1 <==> n < 10
    ensures forall i :: 0 <= i < |s| ==> IsDigit(s[i])
    decreases n
  {
    if n < 10 then [Digit(n)] else NatToString(n / 10) + [Digit(n % 10)]
  }

  /** Distinct numbers render as distinct strings. */
  lemma {:induction false} NatToStringInjective(m: nat, n: nat)
    requires NatToString(m) == NatToString(n)
    ensures m == n
    decreases m
  {
    var s := NatToString(m);
    if m < 10 || n < 10 {
      assert m < 10 && n < 10;
      assert s[0] == Digit(m) && s[0] == Digit(n);
    } else {
      assert s == NatToString(m / 10) + [Digit(m % 10)];
      assert s == NatToString(n / 10) + [Digit(n % 10)];
      assert s[..|s| - 1] == NatToString(m / 10);
      assert s[..|s| - 1] == NatToString(n / 10);
      assert s[|s| - 1] == Digit(m % 10) == Digit(n % 10);
      NatToStringInjective(m / 10, n / 10);
    }
  }

  /** Python's s[:n]: the first n characters, or all of s when it is shorter. */
  function Truncate(s: string, n: nat): (r: string)
    ensures |r| <= n && |r| <= |s|
    ensures r == s[..|r|]
    ensures |s| <= n ==> r == s
    ensures |s| > n ==> |r| == n
  {
    if |s| <= n then s else s[..n]
  }

  /** The combined length of the parts. */
  function TotalLength(parts: seq<string>): nat {
    if parts == [] then 0 else TotalLength(parts[..|parts| - 1]) + |parts[|parts| - 1]|
  }

  /** Python's sep.join(parts): the parts in order with sep between neighbours. */
  function Join(parts: seq<string>, sep: string): (r: string)
    ensures parts == [] ==> r == ""
    ensures |parts| == 1 ==> r == parts[0]
    decreases |parts|
  {
    if parts == [] then ""
    else if |parts| == 1 then parts[0]
    else Join(parts[..|parts| - 1], sep) + sep + parts[|parts| - 1]
  }

  /** Joining one more part appends the separator and that part. */
  lemma JoinSnoc(parts: seq<string>, p: string, sep: string)
    requires parts != []
    ensures Join(parts + [p], sep) == Join(parts, sep) + sep + p
  {
    assert (parts + [p])[..|parts + [p]| - 1] == parts;
  }

  /**
   * A join of some parts is as long as the parts plus one separator between each pair of
   * neighbours, starts with the first part and ends with the last.
   */
  lemma {:induction false} JoinShape(parts: seq<string>, sep: string)
    requires parts != []
    ensures var r := Join(parts, sep);
      && |r| == TotalLength(parts) + (|parts| - 1) * |sep|
      && |parts[0]| <= |r| && r[..|parts[0]|] == parts[0]
      && |parts[|parts| - 1]| <= |r| && r[|r| - |parts[|parts| - 1]|..] == parts[|parts| - 1]
    decreases |parts|
  {
    if |parts| > 1 {
      var front := parts[..|parts| - 1];
      JoinShape(front, sep);
      var j := Join(front, sep);
      assert front[0] == parts[0];
      assert (j + sep + parts[|parts| - 1])[..|parts[0]|] == j[..|parts[0]|];
    }
  }

  /** Every character is a decimal digit. */
  predicate AllDigits(s: string) {
    forall i :: 0 <= i < |s| ==> IsDigit(s[i])
  }

  /** The number a string of decimal digits denotes, most significant first. */
  function DigitsValue(s: string): int {
    if s == [] then 0 else 10 * DigitsValue(s[..|s| - 1]) + (s[|s| - 1] as int - '0' as int)
  }

  /** Reading back the digits of str(n) gives n. */
  lemma {:induction false} NatToStringValue(n: nat)
    ensures DigitsValue(NatToString(n)) == n
    decreases n
  {
    var s := NatToString(n);
    if n < 10 {
      assert s[..0] == [];
    } else {
      NatToStringValue(n / 10);
      assert s[..|s| - 1] == NatToString(n / 10);
    }
  }

  /** Reads digits, ".", two digits back as hundredths; None for any other text. */
  function ParseUnsigned(body: string): Option<int> {
    if |body| < 4 || body[|body| - 3] != '.' || !AllDigits(body[..|body| - 3]) || !AllDigits(body[|body| - 2..]) then None
    else Some(100 * DigitsValue(body[..|body| - 3]) + DigitsValue(body[|body| - 2..]))
  }

  /**
   * Reads an amount written with two decimals ("-" optional, digits, ".", two digits) back
   * as hundredths; None for any other text.
   */
  function ParseCents(s: string): Option<int> {
    if |s| > 0 && s[0] == '-' then
      match ParseUnsigned(s[1..])
      case None => None
      case Some(v) => Some(-v)
    else ParseUnsigned(s)
  }

  /** An amount in hundredths written with two decimals, as f"{amount:.2f}" writes a Decimal. */
  function FormatCents(c: int): (s: string)
    ensures |s| >= 4 && s[|s| - 3] == '.'
    ensures IsDigit(s[|s| - 2]) && IsDigit(s[|s| - 1])
    ensures (s[0] == '-') <==> c < 0
  {
    var a: nat := if c < 0 then -c else c;
    var digits := NatToString(a / 100) + "." + [Digit(a % 100 / 10), Digit(a % 10)];
    if c < 0 then "-" + digits else digits
  }

  /** The two decimals of an amount in hundredths read back as its last two digits. */
  lemma TwoDecimalsValue(a: nat)
    ensures var cents := [Digit(a % 100 / 10), Digit(a % 10)];
      AllDigits(cents) && DigitsValue(cents) == a % 100
  {
    var cents := [Digit(a % 100 / 10), Digit(a % 10)];
    assert cents[..1] == [Digit(a % 100 / 10)] && [Digit(a % 100 / 10)][..0] == [];
    assert DigitsValue(cents[..1]) == a % 100 / 10;
  }

  /** Where the whole part, the point and the two decimals sit in their concatenation. */
  lemma DecimalParts(whole: string, cents: string)
    requires |cents| == 2
    ensures var d := whole + "." + cents;
      && |d| == |whole| + 3 && d[|d| - 3] == '.' && d[..|d| - 3] == whole && d[|d| - 2..] == cents
  {
    var d := whole + "." + cents;
    assert d[..|d| - 3] == whole;
    assert d[|d| - 2..] == cents;
  }

  /** A non-empty digit string, ".", two digits parses as the value they denote. */
  lemma ParseDecimal(whole: string, cents: string)
    requires whole != [] && AllDigits(whole) && |cents| == 2 && AllDigits(cents)
    ensures ParseUnsigned(whole + "." + cents) == Some(100 * DigitsValue(whole) + DigitsValue(cents))
  {
    DecimalParts(whole, cents);
    var d := whole + "." + cents;
    assert AllDigits(d[..|d| - 3]) && AllDigits(d[|d| - 2..]);
    assert ParseUnsigned(d) == Some(100 * DigitsValue(d[..|d| - 3]) + DigitsValue(d[|d| - 2..]));
  }

  /** An amount is its whole units and its hundredths. */
  lemma SplitHundredths(a: nat)
    ensures 100 * (a / 100) + a % 100 == a
  {
  }

  /** The unsigned text of an amount in hundredths reads back as that amount. */
  lemma UnsignedRoundTrip(a: nat)
    ensures var digits := NatToString(a / 100) + "." + [Digit(a % 100 / 10), Digit(a % 10)];
      ParseUnsigned(digits) == Some(a) && digits[0] != '-'
  {
    var whole := NatToString(a / 100);
    var cents := [Digit(a % 100 / 10), Digit(a % 10)];
    var digits := whole + "." + cents;
    NatToStringValue(a / 100);
    TwoDecimalsValue(a);
    ParseDecimal(whole, cents);
    SplitHundredths(a);
    assert digits[0] == whole[0];
  }

  /** The amount text reads back as the amount it was written from. */
  lemma FormatCentsRoundTrip(c: int)
    ensures ParseCents(FormatCents(c)) == Some(c)
  {
    var a: nat := if c < 0 then -c else c;
    var digits := NatToString(a / 100) + "." + [Digit(a % 100 / 10), Digit(a % 10)];
    UnsignedRoundTrip(a);
    if c < 0 {
      assert ("-" + digits)[1..] == digits;
    }
  }
}
