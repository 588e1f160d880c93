/** Text as the cookie formats use it: decimal and hexadecimal numbers, splitting, trimming, and
    comparison in constant time. */
module Text {
  import opened Net
  import opened Words

  // ---- Numbers ----

  function Digit(n: nat): char
    requires n < 10
  {
    ('0' as int + n) as char
  }

  predicate IsDigit(c: char) { '0' <= c <= '9' }

  function Decimal(n: nat): (s: string)
    ensures |s| > 0 && forall i | 0 <= i < |s| :: IsDigit(s[i])
  {
    if n < 10 then [Digit(n)] else Decimal(n / 10) + [Digit(n % 10)]
  }

  /** The number a run of digits stands for. */
  function Value(s: string): Option<nat> {
    if s == "" then Some(0)
    else if !IsDigit(s[|s| - 1]) then None
    else
      match Value(s[..|s| - 1])
      case None => None
      case Some(n) => Some(n * 10 + (s[|s| - 1] as int - '0' as int))
  }

  /** u64::from_str: digits, a plus sign before them allowed, and no more than 64 bits. */
  function ParseU64(s: string): Option<nat> {
    var digits := if s != "" && s[0] == '+' then s[1..] else s;
    if digits == "" then None
    else
      match Value(digits)
      case None => None
      case Some(n) => if n > U64_MAX then None else Some(n)
  }

  lemma {:induction false} ValueOfDecimal(n: nat)
    ensures Value(Decimal(n)) == Some(n)
  {
    if n < 10 {
      assert Decimal(n)[..0] == "";
    } else {
      ValueOfDecimal(n / 10);
      assert Decimal(n)[..|Decimal(n)| - 1] == Decimal(n / 10);
    }
  }

  lemma ParseDecimal(n: nat)
    requires n <= U64_MAX
    ensures ParseU64(Decimal(n)) == Some(n)
  {
    ValueOfDecimal(n);
    assert IsDigit(Decimal(n)[0]);
  }

  /** Digits without a zero in front are the print of a number. */
  lemma {:induction false} DigitsPrint(s: string) returns (n: nat)
    requires s != "" && s[0] != '0' && forall i | 0 <= i < |s| :: IsDigit(s[i])
    ensures Decimal(n) == s && n > 0
  {
    var last := s[|s| - 1] as int - '0' as int;
    if |s| == 1 {
      n := last;
    } else {
      n := DigitsPrint(s[..|s| - 1]);
      n := 10 * n + last;
      assert s == s[..|s| - 1] + [s[|s| - 1]];
    }
  }

  predicate Zeroes(s: string) {
    forall i | 0 <= i < |s| :: s[i] == '0'
  }

  lemma {:induction false} LeadingZeroesIgnored(z: string, s: string)
    requires Zeroes(z)
    ensures Value(z + s) == Value(s)
  {
    if s != "" {
      assert (z + s)[..|z + s| - 1] == z + s[..|s| - 1];
      LeadingZeroesIgnored(z, s[..|s| - 1]);
    } else if z != "" {
      assert z + s == z && z[..|z| - 1] + "" == z[..|z| - 1];
      LeadingZeroesIgnored(z[..|z| - 1], "");
    }
  }

  lemma {:induction false} ValueIsDigits(s: string)
    ensures Value(s).Some? <==> forall i | 0 <= i < |s| :: IsDigit(s[i])
  {
    if s != "" { ValueIsDigits(s[..|s| - 1]); }
  }

  /** Digits are zeroes before the print of a number. */
  lemma {:induction false} DigitsSplit(s: string) returns (z: string, n: nat)
    requires s != "" && forall i | 0 <= i < |s| :: IsDigit(s[i])
    ensures Zeroes(z) && s == z + Decimal(n)
  {
    if s[0] != '0' {
      n := DigitsPrint(s);
      z := "";
    } else if |s| == 1 {
      z, n := "", 0;
      assert s == "0";
    } else {
      z, n := DigitsSplit(s[1..]);
      z := "0" + z;
    }
  }

  /** Read as n is exactly what is n in decimal, with any number of zeroes and at most one plus sign before
      it, if it fits 64 bits. */
  lemma ParsedExactly(s: string, n: nat)
    ensures ParseU64(s) == Some(n)
       <==> n <= U64_MAX && exists z :: Zeroes(z) && (s == z + Decimal(n) || s == "+" + (z + Decimal(n)))
  {
    var digits := if s != "" && s[0] == '+' then s[1..] else s;
    if ParseU64(s) == Some(n) {
      ValueIsDigits(digits);
      var z, k := DigitsSplit(digits);
      LeadingZeroesIgnored(z, Decimal(k));
      ValueOfDecimal(k);
      assert Zeroes(z) && (s == z + Decimal(n) || s == "+" + (z + Decimal(n)));
    }
    forall z | Zeroes(z) && (s == z + Decimal(n) || s == "+" + (z + Decimal(n))) && n <= U64_MAX
      ensures ParseU64(s) == Some(n)
    {
      LeadingZeroesIgnored(z, Decimal(n));
      ValueOfDecimal(n);
      assert (z + Decimal(n))[0] == if z == "" then Decimal(n)[0] else z[0];
      assert IsDigit((z + Decimal(n))[0]);
      assert digits == z + Decimal(n);
    }
  }

  lemma DecimalInjective(m: nat, n: nat)
    requires Decimal(m) == Decimal(n)
    ensures m == n
  {
    ValueOfDecimal(m);
    ValueOfDecimal(n);
  }

  lemma DecimalHasNo(n: nat, c: char)
    requires !IsDigit(c)
    ensures c !in Decimal(n)
  {
    var s := Decimal(n);
    assert forall i | 0 <= i < |s| :: IsDigit(s[i]);
  }

  function HexDigit(n: nat): char
    requires n < 16
  {
    if n < 10 then Digit(n) else ('a' as int + (n - 10)) as char
  }

  lemma HexDigitInjective(m: nat, n: nat)
    requires m < 16 && n < 16 && HexDigit(m) == HexDigit(n)
    ensures m == n
  {
  }

  /** Two lower-case digits. */
  function Hex2(b: Octet): string {
    [HexDigit(b / 16), HexDigit(b % 16)]
  }

  /** Four lower-case digits. */
  function Hex4(s: Segment): string {
    Hex2(s / 0x100) + Hex2(s % 0x100)
  }

  lemma Hex2Injective(a: Octet, b: Octet)
    ensures Hex2(a) == Hex2(b) <==> a == b
  {
    if Hex2(a) == Hex2(b) {
      assert Hex2(a)[0] == Hex2(b)[0] && Hex2(a)[1] == Hex2(b)[1];
      HexDigitInjective(a / 16, b / 16);
      HexDigitInjective(a % 16, b % 16);
    }
  }

  lemma Hex4Injective(a: Segment, b: Segment)
    ensures Hex4(a) == Hex4(b) <==> a == b
  {
    if Hex4(a) == Hex4(b) {
      assert Hex4(a)[..2] == Hex2(a / 0x100) && Hex4(a)[2..] == Hex2(a % 0x100);
      assert Hex4(b)[..2] == Hex2(b / 0x100) && Hex4(b)[2..] == Hex2(b % 0x100);
      Hex2Injective(a / 0x100, b / 0x100);
      Hex2Injective(a % 0x100, b % 0x100);
    }
  }

  /** The lower-case hex string of a digest. */
  function Hex(bytes: seq<Octet>): (s: string)
    ensures |s| == 2 * |bytes|
  {
    if bytes == [] then "" else Hex2(bytes[0]) + Hex(bytes[1..])
  }

  lemma {:induction false} HexAt(bytes: seq<Octet>, i: nat)
    requires i < |bytes|
    ensures Hex(bytes)[2 * i] == HexDigit(bytes[i] / 16) && Hex(bytes)[2 * i + 1] == HexDigit(bytes[i] % 16)
  {
    if i > 0 { HexAt(bytes[1..], i - 1); }
  }

  /** The number a lower-case hexadecimal digit stands for. */
  function HexValue(c: char): Option<nat> {
    if '0' <= c <= '9' then Some(c as int - '0' as int)
    else if 'a' <= c <= 'f' then Some(c as int - 'a' as int + 10)
    else None
  }

  lemma HexDigitValue(n: nat)
    requires n < 16
    ensures HexValue(HexDigit(n)) == Some(n)
  {
  }

  /** The bytes a string of lower-case hexadecimal digits stands for. */
  function Unhex(s: string): Option<seq<int>>
    decreases |s|
  {
    if s == "" then Some([])
    else if |s| == 1 then None
    else
      match (HexValue(s[0]), HexValue(s[1]), Unhex(s[2..]))
      case (Some(a), Some(b), Some(rest)) => Some([16 * a + b] + rest)
      case _ => None
  }

  /** A printed digest is lower-case throughout and reads back as its bytes. */
  lemma {:induction false} HexReadsBack(bytes: seq<Octet>)
    ensures Unhex(Hex(bytes)) == Some(bytes)
  {
    if bytes != [] {
      var (s, b) := (Hex(bytes), bytes[0]);
      HexReadsBack(bytes[1..]);
      HexDigitValue(b / 16);
      HexDigitValue(b % 16);
      assert s[0] == HexDigit(b / 16) && s[1] == HexDigit(b % 16) && s[2..] == Hex(bytes[1..]);
      assert [b as int] + bytes[1..] == bytes;
    }
  }

  lemma HexValueDigit(c: char, n: nat)
    requires HexValue(c) == Some(n)
    ensures n < 16 && HexDigit(n) == c
  {
  }

  /** And it is the only string that does. */
  lemma {:induction false} HexUnique(s: string, bytes: seq<Octet>)
    requires Unhex(s) == Some(bytes)
    ensures s == Hex(bytes)
    decreases |s|
  {
    if s != "" {
      var (a, b) := (HexValue(s[0]).value, HexValue(s[1]).value);
      HexValueDigit(s[0], a);
      HexValueDigit(s[1], b);
      assert bytes[0] == 16 * a + b && Unhex(s[2..]).value == bytes[1..];
      HexUnique(s[2..], bytes[1..]);
      assert s == [s[0], s[1]] + s[2..];
    }
  }

  // ---- Splitting ----

  /** At the first c. */
  function SplitOnce(s: string, c: char): (r: Option<(string, string)>)
    ensures match r
      case Some(p) => s == p.0 + [c] + p.1 && c !in p.0
      case None => c !in s
  {
    if s == "" then None
    else if s[0] == c then Some(("", s[1..]))
    else
      match SplitOnce(s[1..], c)
      case Some(p) => Some(([s[0]] + p.0, p.1))
      case None => None
  }

  /** At every c. */
  function Split(s: string, c: char): seq<string>
    decreases |s|
  {
    match SplitOnce(s, c)
    case Some(p) => [p.0] + Split(p.1, c)
    case None => [s]
  }

  lemma {:induction false} SplitOnceAt(a: string, b: string, c: char)
    requires c !in a
    ensures SplitOnce(a + [c] + b, c) == Some((a, b))
  {
    if a == "" {
      assert ("" + [c] + b)[1..] == b;
    } else {
      SplitOnceAt(a[1..], b, c);
      assert (a + [c] + b)[1..] == a[1..] + [c] + b;
      assert [a[0]] + a[1..] == a;
    }
  }

  lemma SplitAt(a: string, b: string, c: char)
    requires c !in a
    ensures Split(a + [c] + b, c) == [a] + Split(b, c)
  {
    SplitOnceAt(a, b, c);
  }

  lemma {:induction false} SplitNone(s: string, c: char)
    requires c !in s
    ensures SplitOnce(s, c) == None && Split(s, c) == [s]
  {
    if s != "" { SplitNone(s[1..], c); }
  }

  // ---- Trimming ----

  /** Unicode White_Space */
  predicate IsSpace(c: char) {
    var n := c as int;
    || 9 <= n <= 13 || n == 32 || n == 0x85 || n == 0xA0 || n == 0x1680 || 0x2000 <= n <= 0x200A
    || n == 0x2028 || n == 0x2029 || n == 0x202F || n == 0x205F || n == 0x3000
  }

  /** Of the ASCII characters the blank, the tab and the four line and page breaks are white space. */
  lemma AsciiSpaces(c: char)
    requires c as int < 128
    ensures IsSpace(c) <==> c in {' ', '\t', '\n', '\r', '\U{000B}', '\U{000C}'}
  {
  }

  function TrimStart(s: string): string {
    if s != "" && IsSpace(s[0]) then TrimStart(s[1..]) else s
  }

  function TrimEnd(s: string): string {
    if s != "" && IsSpace(s[|s| - 1]) then TrimEnd(s[..|s| - 1]) else s
  }

  function Trim(s: string): string {
    TrimEnd(TrimStart(s))
  }

  /** No white space at either end. */
  predicate Trimmed(s: string) {
    s != "" ==> !IsSpace(s[0]) && !IsSpace(s[|s| - 1])
  }

  lemma TrimTrimmed(s: string)
    requires Trimmed(s)
    ensures Trim(s) == s
  {
  }

  // ---- Comparison ----

  lemma XorZero(a: bv8, b: bv8)
    ensures a ^ b == 0 <==> a == b
  {
  }

  lemma OrZero(a: bv8, b: bv8)
    ensures a | b == 0 <==> a == 0 && b == 0
  {
  }

  /** Equality, in a time that does not depend on where the difference is. */
  method CtEq(a: seq<bv8>, b: seq<bv8>) returns (eq: bool)
    ensures eq <==> a == b
  {
    if |a| != |b| { return false; }
    var diff: bv8 := 0;
    for i := 0 to |a|
      invariant diff == 0 <==> a[..i] == b[..i]
    {
      OrZero(diff, a[i] ^ b[i]);
      XorZero(a[i], b[i]);
      diff := diff | (a[i] ^ b[i]);
      assert a[..i + 1] == a[..i] + [a[i]] && b[..i + 1] == b[..i] + [b[i]];
    }
    assert a[..|a|] == a && b[..|a|] == b;
    eq := diff == 0;
  }
}
