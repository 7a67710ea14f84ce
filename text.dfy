/** The string operations the handlers rely on: Python's `int()` on a
    string, `str()` of an integer, and `str.split` on one separator. */
module Text {
  import opened Py

  /** The ASCII characters `int()` ignores on both sides of the number:
      space and \t \n \v \f \r. The separators 0x1c-0x1f, which
      `str.isspace` also accepts, are not among them. */
  predicate IsSpace(c: char) {
    var n := c as int;
    n == 32 || 9 <= n <= 13
  }

  /** The most digits `int()` converts from a decimal text (the default of
      `sys.get_int_max_str_digits()`); `str()` of an integer with more
      digits raises as well. */
  const MaxStrDigits := 4300

  predicate IsDigit(c: char) {
    '0' <= c <= '9'
  }

  predicate AllDigits(s: string) {
    forall i :: 0 <= i < |s| ==> IsDigit(s[i])
  }

  function DigitValue(c: char): (d: nat)
    requires IsDigit(c)
    ensures d < 10
  {
    (c as int) - ('0' as int)
  }

  function DigitChar(d: nat): (c: char)
    requires d < 10
    ensures IsDigit(c) && DigitValue(c) == d
  {
    (('0' as int) + d) as char
  }

  /** The number a string of decimal digits denotes, most significant first. */
  function DecimalValue(s: string): nat
    requires AllDigits(s)
  {
    if s == [] then 0 else DecimalValue(s[..|s| - 1]) * 10 + DigitValue(s[|s| - 1])
  }

  /** `str(n)` for a natural number: no sign, no leading zero. */
  function NatToString(n: nat): (s: string)
    ensures |s| >= 1 && AllDigits(s) && DecimalValue(s) == n
    ensures s[0] == '0' ==> n == 0
    decreases n
  {
    if n < 10 then [DigitChar(n)]
    else
      var prefix := NatToString(n / 10);
      var s := prefix + [DigitChar(n % 10)];
      assert s[..|s| - 1] == prefix;
      s
  }

  /** `str(i)` for any integer. */
  function IntToString(i: int): (s: string)
    ensures |s| >= 1
    ensures i >= 0 ==> AllDigits(s)
    ensures i < 0 ==> s[0] == '-' && AllDigits(s[1..])
  {
    if i < 0 then "-" + NatToString(-i) else NatToString(i)
  }

  function LStrip(s: string): (r: string)
    ensures r == [] || !IsSpace(r[0])
    ensures |r| <= |s| && r == s[|s| - |r|..]
  {
    if s != [] && IsSpace(s[0]) then LStrip(s[1..]) else s
  }

  function RStrip(s: string): (r: string)
    ensures r == [] || !IsSpace(r[|r| - 1])
    ensures |r| <= |s| && r == s[..|r|]
  {
    if s != [] && IsSpace(s[|s| - 1]) then RStrip(s[..|s| - 1]) else s
  }

  /** `s.strip()` as `int()` applies it. */
  function Strip(s: string): string {
    RStrip(LStrip(s))
  }

  /** A Python decimal literal body: digits, optionally grouped by single
      underscores that stand between two digits. */
  predicate IsDigitGroups(s: string) {
    && |s| > 0
    && IsDigit(s[0])
    && IsDigit(s[|s| - 1])
    && (forall i :: 0 <= i < |s| ==> IsDigit(s[i]) || s[i] == '_')
    && (forall i :: 0 <= i < |s| - 1 ==> s[i] == '_' ==> s[i + 1] != '_')
  }

  function RemoveUnderscores(s: string): (r: string)
    requires forall i :: 0 <= i < |s| ==> IsDigit(s[i]) || s[i] == '_'
    ensures AllDigits(r) && |r| <= |s|
    ensures AllDigits(s) ==> r == s
  {
    if s == [] then []
    else if s[0] == '_' then RemoveUnderscores(s[1..])
    else [s[0]] + RemoveUnderscores(s[1..])
  }

  /** The part of a stripped integer text after an optional sign. */
  function Unsigned(t: string): string {
    if t != [] && (t[0] == '-' || t[0] == '+') then t[1..] else t
  }

  /** Python's `int(s)` for a string holding ASCII characters: `None`
      stands for the `ValueError` it raises, on a malformed text or on one
      with more than `MaxStrDigits` digits. The result is negative only
      when the text carries a minus sign. */
  function ParseInt(s: string): (r: Option<int>)
    ensures r.Some? <==> IsDigitGroups(Unsigned(Strip(s)))
                         && |RemoveUnderscores(Unsigned(Strip(s)))| <= MaxStrDigits
    ensures r.Some? && r.value < 0 ==> Strip(s)[0] == '-'
  {
    var t := Strip(s);
    var body := Unsigned(t);
    if IsDigitGroups(body) && |RemoveUnderscores(body)| <= MaxStrDigits then
      var v: int := DecimalValue(RemoveUnderscores(body));
      Some(if t[0] == '-' then -v else v)
    else None
  }

  lemma StripOfFramed(s: string)
    requires |s| >= 1 && !IsSpace(s[0]) && !IsSpace(s[|s| - 1])
    ensures Strip(s) == s
  {
  }

  lemma DigitGroupsOfDigits(s: string)
    requires |s| >= 1 && AllDigits(s)
    ensures IsDigitGroups(s) && RemoveUnderscores(s) == s
  {
  }

  /** The number of digits `str(i)` writes. */
  function DigitCount(i: int): nat {
    |NatToString(if i < 0 then -i else i)|
  }

  function Pow10(k: nat): nat {
    if k == 0 then 1 else 10 * Pow10(k - 1)
  }

  /** A natural number below 10^k has at most k digits. */
  lemma {:induction false} NatToStringLength(n: nat, k: nat)
    requires 1 <= k && n < Pow10(k)
    ensures |NatToString(n)| <= k
  {
    if n >= 10 {
      NatToStringLength(n / 10, k - 1);
    }
  }

  /** `int(str(i)) == i` for every integer `str()` writes out. */
  lemma ParseIntOfIntToString(i: int)
    requires DigitCount(i) <= MaxStrDigits
    ensures ParseInt(IntToString(i)) == Some(i)
  {
    var n: nat := if i < 0 then -i else i;
    var digits := NatToString(n);
    assert |digits| <= MaxStrDigits;
    assert IsDigit(digits[0]) && IsDigit(digits[|digits| - 1]);
    if i < 0 {
      var s := "-" + digits;
      assert IntToString(i) == s;
      assert s[1..] == digits && s[|s| - 1] == digits[|digits| - 1];
      assert Unsigned(s) == digits;
      ParseIntOfFramed(s, digits);
    } else {
      assert IntToString(i) == digits;
      assert Unsigned(digits) == digits;
      ParseIntOfFramed(digits, digits);
    }
  }

  /** `int()` of a text with no surrounding whitespace whose unsigned part
      is a run of at most `MaxStrDigits` digits. */
  lemma ParseIntOfFramed(s: string, digits: string)
    requires |s| >= 1 && !IsSpace(s[0]) && !IsSpace(s[|s| - 1]) && Unsigned(s) == digits
    requires |digits| >= 1 && AllDigits(digits) && |digits| <= MaxStrDigits
    ensures ParseInt(s) == Some(if s[0] == '-' then -(DecimalValue(digits) as int) else DecimalValue(digits))
  {
    StripOfFramed(s);
    DigitGroupsOfDigits(digits);
  }

  /** Joining the parts of a split with the separator. */
  function Join(parts: seq<string>, sep: char): string {
    if parts == [] then []
    else if |parts| == 1 then parts[0]
    else parts[0] + [sep] + Join(parts[1..], sep)
  }

  function IndexOf(s: string, c: char): (i: nat)
    requires c in s
    ensures i < |s| && s[i] == c && c !in s[..i]
  {
    if s[0] == c then 0 else 1 + IndexOf(s[1..], c)
  }

  /** `s.split(sep)`: the maximal separator-free pieces, in order. Joining
      them back gives `s`. */
  function Split(s: string, sep: char): (parts: seq<string>)
    ensures |parts| >= 1
    ensures forall k :: 0 <= k < |parts| ==> sep !in parts[k]
    ensures Join(parts, sep) == s
    decreases |s|
  {
    if sep !in s then [s]
    else
      var i := IndexOf(s, sep);
      var rest := Split(s[i + 1..], sep);
      assert s == s[..i] + [sep] + s[i + 1..];
      [s[..i]] + rest
  }

  lemma {:induction false} IndexOfAfter(a: string, sep: char, b: string)
    requires sep !in a
    ensures IndexOf(a + [sep] + b, sep) == |a|
  {
    if a != [] {
      assert (a + [sep] + b)[1..] == a[1..] + [sep] + b;
      IndexOfAfter(a[1..], sep, b);
    }
  }

  /** Splitting `a + sep + b` where `a` holds no separator. */
  lemma SplitAfterFirst(a: string, sep: char, b: string)
    requires sep !in a
    ensures Split(a + [sep] + b, sep) == [a] + Split(b, sep)
  {
    var s := a + [sep] + b;
    assert s[|a|] == sep;
    IndexOfAfter(a, sep, b);
    assert s[..|a|] == a;
    assert s[|a| + 1..] == b;
  }
}
