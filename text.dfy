/** String helpers shared by the whole model, each following the JavaScript
    built-in the source calls: `trim`, `split` on one character, `parseInt`,
    `Number#toString`, `padStart(2, "0")` and `slice(-k)`. */
module Text {
  import opened Wrappers

  predicate IsDigit(c: char) {
    '0' <= c <= '9'
  }

  /** JavaScript's WhiteSpace and LineTerminator characters: what `trim()`
      strips and what the regular-expression class `\s` matches. */
  predicate IsSpace(c: char) {
    || c == ' ' || c == '\t' || c == '\n' || c == '\r'
    || c == '\U{000B}' || c == '\U{000C}' || c == '\U{00A0}' || c == '\U{1680}'
    || ('\U{2000}' <= c <= '\U{200A}')
    || c == '\U{2028}' || c == '\U{2029}' || c == '\U{202F}' || c == '\U{205F}'
    || c == '\U{3000}' || c == '\U{FEFF}'
  }

  predicate AllDigits(s: string) {
    forall i :: 0 <= i < |s| ==> IsDigit(s[i])
  }

  predicate AllSpaces(s: string) {
    forall i :: 0 <= i < |s| ==> IsSpace(s[i])
  }

  // ---------------------------------------------------------------- trimming

  /** `s.trimStart()`: drops the leading whitespace. */
  function TrimStart(s: string): (r: string)
    ensures |r| <= |s| && r == s[|s| - |r|..]
    ensures r == [] || !IsSpace(r[0])
    ensures AllSpaces(s[..|s| - |r|])
    ensures AllSpaces(s) ==> r == []
  {
    if s != [] && IsSpace(s[0]) then
      var r := TrimStart(s[1..]);
      assert s[..|s| - |r|] == [s[0]] + s[1..][..|s| - 1 - |r|];
      r
    else s
  }

  /** `s.trimEnd()`: drops the trailing whitespace. */
  function TrimEnd(s: string): (r: string)
    ensures |r| <= |s| && r == s[..|r|]
    ensures r == [] || !IsSpace(r[|r| - 1])
    ensures AllSpaces(s[|r|..])
    ensures AllSpaces(s) ==> r == []
  {
    if s != [] && IsSpace(s[|s| - 1]) then
      var r := TrimEnd(s[..|s| - 1]);
      assert s[|r|..] == s[..|s| - 1][|r|..] + [s[|s| - 1]];
      r
    else s
  }

  /** `s.trim()`. */
  function Trim(s: string): string {
    TrimEnd(TrimStart(s))
  }

  /** `!s.trim()`: the string is empty once trimmed. */
  predicate IsBlank(s: string) {
    Trim(s) == []
  }

  /** A string is blank exactly when every character in it is whitespace. */
  lemma BlankIffAllSpaces(s: string)
    ensures IsBlank(s) <==> AllSpaces(s)
  {
    var t := TrimStart(s);
    var k := |s| - |t|;
    if IsBlank(s) {
      assert AllSpaces(t[0..]);
      assert AllSpaces(s[..k]);
      assert s == s[..k] + t;
    }
  }

  // ------------------------------------------------------------- filtering

  /** `s.replace(/[^0-9]/g, "")` (and `s.replace(/\D/g, "")`): the digits of
      `s`, in order. */
  function DigitsOnly(s: string): (r: string)
    ensures |r| <= |s|
    ensures AllDigits(r)
    ensures AllDigits(s) ==> r == s
  {
    if s == [] then []
    else if IsDigit(s[0]) then [s[0]] + DigitsOnly(s[1..])
    else DigitsOnly(s[1..])
  }

  lemma {:induction false} DigitsOnlyAppend(a: string, b: string)
    ensures DigitsOnly(a + b) == DigitsOnly(a) + DigitsOnly(b)
  {
    if a != [] {
      assert (a + b)[1..] == a[1..] + b;
      DigitsOnlyAppend(a[1..], b);
    } else {
      assert a + b == b;
    }
  }

  /** `s.replace(/\s/g, "")`: the string without its whitespace. */
  function WithoutSpaces(s: string): (r: string)
    ensures |r| <= |s|
    ensures forall i :: 0 <= i < |r| ==> !IsSpace(r[i])
  {
    if s == [] then []
    else if IsSpace(s[0]) then WithoutSpaces(s[1..])
    else [s[0]] + WithoutSpaces(s[1..])
  }

  lemma {:induction false} WithoutSpacesAppend(a: string, b: string)
    ensures WithoutSpaces(a + b) == WithoutSpaces(a) + WithoutSpaces(b)
  {
    if a != [] {
      assert (a + b)[1..] == a[1..] + b;
      WithoutSpacesAppend(a[1..], b);
    } else {
      assert a + b == b;
    }
  }

  /** A string of digits has no white space to drop. */
  lemma {:induction false} WithoutSpacesOfDigits(s: string)
    requires AllDigits(s)
    ensures WithoutSpaces(s) == s
  {
    if s != [] {
      WithoutSpacesOfDigits(s[1..]);
    }
  }

  // ------------------------------------------------------ decimal numerals

  function DigitChar(d: nat): (c: char)
    requires d < 10
    ensures IsDigit(c)
  {
    ('0' as int + d) as char
  }

  function DigitValue(c: char): (d: nat)
    requires IsDigit(c)
    ensures d < 10 && DigitChar(d) == c
  {
    c as int - '0' as int
  }

  /** `n.toString()` for a non-negative integer: its decimal numeral, with no
      leading zero. */
  function NatToString(n: nat): (r: string)
    ensures |r| >= 1 && AllDigits(r)
    ensures r[0] == '0' ==> n == 0
    decreases n
  {
    if n < 10 then [DigitChar(n)] else NatToString(n / 10) + [DigitChar(n % 10)]
  }

  /** `String(n)` for an integer. */
  function IntToString(n: int): string {
    if n < 0 then "-" + NatToString(-n) else NatToString(n)
  }

  /** The value of a decimal numeral (leading zeros allowed). */
  function DecimalValue(d: string): nat
    requires AllDigits(d)
  {
    if d == [] then 0 else DecimalValue(d[..|d| - 1]) * 10 + DigitValue(d[|d| - 1])
  }

  /** Reading back the numeral `toString` writes gives the number. */
  lemma {:induction false} DecimalRoundTrip(n: nat)
    ensures DecimalValue(NatToString(n)) == n
    decreases n
  {
    if n >= 10 {
      var s := NatToString(n);
      assert s[..|s| - 1] == NatToString(n / 10);
      DecimalRoundTrip(n / 10);
    }
  }

  /** `n.toString().padStart(2, "0")` for a non-negative integer. */
  function Pad2(n: nat): (r: string)
    ensures AllDigits(r) && |r| >= 2
    ensures n < 100 ==> |r| == 2 && DecimalValue(r) == n
  {
    var s := NatToString(n);
    if |s| < 2 then
      assert DecimalValue(['0'] + s) == DecimalValue(s) by {
        assert (['0'] + s)[..1] == ['0'];
        DecimalRoundTrip(n);
      }
      DecimalRoundTrip(n);
      ['0'] + s
    else
      assert n < 100 ==> |s| == 2 by {
        if n < 100 { assert NatToString(n / 10) == [DigitChar(n / 10)]; }
      }
      DecimalRoundTrip(n);
      s
  }

  // ---------------------------------------------------------------- parseInt

  predicate IsHexDigit(c: char) {
    IsDigit(c) || 'a' <= c <= 'f' || 'A' <= c <= 'F'
  }

  function HexDigitValue(c: char): (d: nat)
    requires IsHexDigit(c)
    ensures d < 16
  {
    if IsDigit(c) then DigitValue(c)
    else if 'a' <= c <= 'f' then c as int - 'a' as int + 10
    else c as int - 'A' as int + 10
  }

  function HexValue(h: string): nat
    requires forall i :: 0 <= i < |h| ==> IsHexDigit(h[i])
  {
    if h == [] then 0 else HexValue(h[..|h| - 1]) * 16 + HexDigitValue(h[|h| - 1])
  }

  /** The longest prefix of decimal digits. */
  function DigitPrefix(s: string): (r: string)
    ensures r <= s && AllDigits(r)
    ensures |r| == |s| || !IsDigit(s[|r|])
  {
    if s != [] && IsDigit(s[0]) then [s[0]] + DigitPrefix(s[1..]) else []
  }

  /** The longest prefix of hexadecimal digits. */
  function HexPrefix(s: string): (r: string)
    ensures r <= s && forall i :: 0 <= i < |r| ==> IsHexDigit(r[i])
  {
    if s != [] && IsHexDigit(s[0]) then [s[0]] + HexPrefix(s[1..]) else []
  }

  /** `Number.parseInt(s)` with no radix: leading whitespace is skipped, one
      sign is read, a `0x`/`0X` prefix selects base 16, and the longest run of
      digits that follows is the value; with no digit the result is `NaN`
      (here `None`). */
  function ParseInt(s: string): Option<int> {
    var t := TrimStart(s);
    var negative := t != [] && t[0] == '-';
    var body := if t != [] && (t[0] == '-' || t[0] == '+') then t[1..] else t;
    match Magnitude(body)
    case None => None
    case Some(m) => Some(if negative then -(m as int) else m as int)
  }

  /** The unsigned part: hexadecimal after `0x`/`0X`, decimal otherwise. */
  function Magnitude(body: string): Option<nat> {
    if HexPrefixed(body) then
      var h := HexPrefix(body[2..]);
      if h == [] then None else Some(HexValue(h))
    else
      var d := DigitPrefix(body);
      if d == [] then None else Some(DecimalValue(d))
  }

  /** `parseInt` of a decimal numeral followed by anything that is not a digit
      reads exactly that numeral (leading zeros included, as in "09"). */
  lemma ParseIntOfNumeral(d: string, rest: string)
    requires d != [] && AllDigits(d)
    requires rest == [] || !IsDigit(rest[0])
    requires d == "0" ==> rest == [] || (rest[0] != 'x' && rest[0] != 'X')
    ensures ParseInt(d + rest) == Some(DecimalValue(d))
  {
    var s := d + rest;
    assert s[0] == d[0];
    assert !HexPrefixed(s) by {
      if |s| >= 2 && s[0] == '0' {
        if |d| >= 2 {
          assert s[1] == d[1];
        } else {
          assert d == "0";
          assert s[1] == rest[0];
        }
      }
    }
    DigitPrefixOfNumeral(d, rest);
    DecimalMagnitude(s);
    ParseIntUnsigned(s);
  }

  /** Text that starts with neither whitespace nor a sign is read as it
      stands. */
  lemma ParseIntUnsigned(s: string)
    requires s != [] && !IsSpace(s[0]) && s[0] != '-' && s[0] != '+'
    ensures Magnitude(s).Some? ==> ParseInt(s) == Some(Magnitude(s).value as int)
  {
    assert TrimStart(s) == s;
  }

  /** The body starts with `0x` or `0X`. */
  predicate HexPrefixed(body: string) {
    |body| >= 2 && body[0] == '0' && (body[1] == 'x' || body[1] == 'X')
  }

  lemma DecimalMagnitude(body: string)
    requires !HexPrefixed(body) && DigitPrefix(body) != []
    ensures Magnitude(body) == Some(DecimalValue(DigitPrefix(body)))
  {
  }

  lemma {:induction false} DigitPrefixOfNumeral(d: string, rest: string)
    requires AllDigits(d)
    requires rest == [] || !IsDigit(rest[0])
    ensures DigitPrefix(d + rest) == d
  {
    if d == [] {
      assert d + rest == rest;
    } else {
      assert (d + rest)[1..] == d[1..] + rest;
      DigitPrefixOfNumeral(d[1..], rest);
      assert [d[0]] + d[1..] == d;
    }
  }

  /** `parseInt` reads back what `toString` writes. */
  lemma ParseIntOfNatToString(n: nat)
    ensures ParseInt(NatToString(n)) == Some(n)
  {
    DecimalRoundTrip(n);
    ParseIntOfNumeral(NatToString(n), []);
    assert NatToString(n) + [] == NatToString(n);
  }

  // ------------------------------------------------------------ split / join

  /** `s.split(sep)` for a one-character separator: the pieces between the
      separators, in order (an empty string gives `[""]`). */
  function Split(s: string, sep: char): (parts: seq<string>)
    ensures |parts| >= 1
    ensures forall i :: 0 <= i < |parts| ==> sep !in parts[i]
  {
    if s == [] then [[]]
    else
      var rest := Split(s[1..], sep);
      if s[0] == sep then [[]] + rest else [[s[0]] + rest[0]] + rest[1..]
  }

  /** `parts.join(sep)`. */
  function Join(parts: seq<string>, sep: char): string {
    if |parts| == 0 then []
    else if |parts| == 1 then parts[0]
    else parts[0] + [sep] + Join(parts[1..], sep)
  }

  /** Splitting and joining again gives back the string. */
  lemma {:induction false} JoinSplit(s: string, sep: char)
    ensures Join(Split(s, sep), sep) == s
  {
    if s != [] {
      var rest := Split(s[1..], sep);
      JoinSplit(s[1..], sep);
      if s[0] != sep {
        if |rest| > 1 {
          assert Join(rest, sep) == rest[0] + [sep] + Join(rest[1..], sep);
        }
      }
    }
  }

  /** Joining pieces free of the separator and splitting again gives back the
      pieces. */
  lemma {:induction false} SplitJoin(parts: seq<string>, sep: char)
    requires |parts| >= 1
    requires forall i :: 0 <= i < |parts| ==> sep !in parts[i]
    ensures Split(Join(parts, sep), sep) == parts
    decreases |parts|, |parts[0]|
  {
    var s := Join(parts, sep);
    if parts[0] == [] {
      if |parts| > 1 {
        assert s == [sep] + Join(parts[1..], sep);
        assert s[1..] == Join(parts[1..], sep);
        SplitJoin(parts[1..], sep);
        assert [[]] + parts[1..] == parts;
      }
    } else {
      var tail := [parts[0][1..]] + parts[1..];
      assert s[0] == parts[0][0];
      if |parts| == 1 {
        assert s[1..] == Join(tail, sep);
      } else {
        assert s[1..] == parts[0][1..] + [sep] + Join(parts[1..], sep);
        assert tail[1..] == parts[1..];
        assert s[1..] == Join(tail, sep);
      }
      assert sep !in tail[0] by { assert forall c :: c in parts[0][1..] ==> c in parts[0]; }
      SplitJoin(tail, sep);
      assert s[0] != sep by { assert parts[0][0] in parts[0]; }
      assert [s[0]] + tail[0] == parts[0];
      assert [[s[0]] + tail[0]] + tail[1..] == parts;
    }
  }

  function Pow10(k: nat): (p: nat)
    ensures p >= 1
  {
    if k == 0 then 1 else 10 * Pow10(k - 1)
  }

  lemma MulAtLeast(k: int, m: int)
    requires k >= 1 && m > 0
    ensures k * m >= m
  {
  }

  lemma ModUnique(x: int, m: int, q: int, r: int)
    requires m > 0 && x == q * m + r && 0 <= r < m
    ensures x % m == r
  {
    var q', r' := x / m, x % m;
    assert (q - q') * m == r' - r;
    if q > q' {
      MulAtLeast(q - q', m);
    } else if q < q' {
      MulAtLeast(q' - q, m);
    }
  }

  lemma ModShift(a: nat, b: nat, p: nat)
    requires b < 10 && p >= 1
    ensures (a * 10 + b) % (p * 10) == (a % p) * 10 + b
  {
    var q, r := a / p, a % p;
    assert a == q * p + r;
    assert a * 10 + b == q * (p * 10) + (r * 10 + b);
    ModUnique(a * 10 + b, p * 10, q, r * 10 + b);
  }

  /** The last `k` digits of a numeral denote its value modulo 10^k. */
  lemma {:induction false} SuffixValue(d: string, k: nat)
    requires AllDigits(d) && k <= |d|
    ensures AllDigits(d[|d| - k..])
    ensures DecimalValue(d[|d| - k..]) == DecimalValue(d) % Pow10(k)
    decreases k
  {
    if k == 0 {
      assert d[|d|..] == [];
    } else {
      var x := d[|d| - k..];
      var front := d[..|d| - 1];
      SuffixValue(front, k - 1);
      assert x[..|x| - 1] == front[|front| - (k - 1)..];
      assert x[|x| - 1] == d[|d| - 1];
      ModShift(DecimalValue(front), DigitValue(d[|d| - 1]), Pow10(k - 1));
    }
  }

  lemma {:induction false} Pow10Monotone(i: nat, j: nat)
    requires i <= j
    ensures Pow10(i) <= Pow10(j)
    decreases j
  {
    if i < j {
      Pow10Monotone(i, j - 1);
    }
  }

  /** A numeral of k digits denotes a number below 10^k. */
  lemma {:induction false} NumeralBound(n: nat)
    ensures n < Pow10(|NatToString(n)|)
    decreases n
  {
    if n >= 10 {
      NumeralBound(n / 10);
    }
  }

  // -------------------------------------------------------------- slicing

  /** `s.slice(-k)` for `k > 0`: the last `k` characters, or all of `s` when
      it is shorter. */
  function SliceLast(s: string, k: nat): (r: string)
    requires k > 0
    ensures |r| == if |s| < k then |s| else k
    ensures s == s[..|s| - |r|] + r
  {
    if |s| <= k then s else s[|s| - k..]
  }

  // ---------------------------------------------------------- UTF-16 length

  /** How many UTF-16 code units a character takes: two for a character
      outside the Basic Multilingual Plane (a surrogate pair), one for any
      other. */
  function Utf16Units(c: char): (n: nat)
    ensures n == 1 || n == 2
  {
    if c as int < 0x10000 then 1 else 2
  }

  /** `s.length` in JavaScript, which counts UTF-16 code units: it equals the
      number of characters exactly when none lies outside the Basic
      Multilingual Plane. */
  function Utf16Length(s: string): (n: nat)
    ensures |s| <= n <= 2 * |s|
    ensures n == |s| <==> forall i :: 0 <= i < |s| ==> s[i] as int < 0x10000
  {
    if s == [] then 0
    else
      var rest := Utf16Length(s[1..]);
      assert forall i :: 1 <= i < |s| ==> s[i] == s[1..][i - 1];
      Utf16Units(s[0]) + rest
  }
}
