/**
 * String primitives the components share: stripping non-digits, ASCII case
 * mapping, `trim`, `includes`, `split`, decimal rendering and `parseInt`, and
 * the character order in which JavaScript compares and sorts strings.
 */
module Text {
  import opened Wrappers

  // ---------------------------------------------------------------------------
  // Digits: `s.replace(/\D/g, '')`

  predicate IsDigit(c: char) { '0' <= c <= '9' }

  predicate AllDigits(s: string) { forall i :: 0 <= i < |s| ==> IsDigit(s[i]) }

  /** The digit characters of `s`, in order (the source's `cleanPhone`). */
  function Digits(s: string): (r: string)
    ensures |r| <= |s|
    ensures AllDigits(r)
  {
    if s == [] then []
    else (if IsDigit(s[0]) then [s[0]] else []) + Digits(s[1..])
  }

  /** Stripping distributes over concatenation: it keeps every digit in place and order. */
  lemma {:induction false} DigitsAppend(a: string, b: string)
    ensures Digits(a + b) == Digits(a) + Digits(b)
  {
    if a != [] {
      assert (a + b)[1..] == a[1..] + b;
      DigitsAppend(a[1..], b);
    } else {
      assert a + b == b;
    }
  }

  /** A character survives stripping exactly when it is a digit of the input. */
  lemma {:induction false} DigitsMembership(s: string, c: char)
    ensures c in Digits(s) <==> c in s && IsDigit(c)
  {
    if s != [] {
      DigitsMembership(s[1..], c);
      assert s == [s[0]] + s[1..];
    }
  }

  /** A digit-only string is its own stripping. */
  lemma {:induction false} DigitsOfDigitString(s: string)
    requires AllDigits(s)
    ensures Digits(s) == s
  {
    if s != [] {
      DigitsOfDigitString(s[1..]);
    }
  }

  /** Stripping twice is stripping once; a string is unchanged exactly when all of it is digits. */
  lemma DigitsIdempotent(s: string)
    ensures Digits(Digits(s)) == Digits(s)
    ensures Digits(s) == s <==> AllDigits(s)
  {
    DigitsOfDigitString(Digits(s));
    if AllDigits(s) {
      DigitsOfDigitString(s);
    }
  }

  // ---------------------------------------------------------------------------
  // ASCII case mapping: `toLowerCase()` / `toUpperCase()` on ASCII letters

  predicate IsUpper(c: char) { 'A' <= c <= 'Z' }

  predicate IsLowerLetter(c: char) { 'a' <= c <= 'z' }

  function LowerChar(c: char): char {
    if IsUpper(c) then (c as int + 32) as char else c
  }

  function UpperChar(c: char): char {
    if IsLowerLetter(c) then (c as int - 32) as char else c
  }

  function Lower(s: string): (r: string)
    ensures |r| == |s|
  {
    seq(|s|, i requires 0 <= i < |s| => LowerChar(s[i]))
  }

  function Upper(s: string): (r: string)
    ensures |r| == |s|
  {
    seq(|s|, i requires 0 <= i < |s| => UpperChar(s[i]))
  }

  /** Lower-casing leaves no ASCII capital behind and is idempotent. */
  lemma LowerNormalises(s: string)
    ensures forall i :: 0 <= i < |s| ==> !IsUpper(Lower(s)[i])
    ensures Lower(Lower(s)) == Lower(s)
  {
  }

  /** `a.toLowerCase() === b.toLowerCase()` */
  predicate EqualsIgnoreCase(a: string, b: string) { Lower(a) == Lower(b) }

  // ---------------------------------------------------------------------------
  // `trim()`

  /** The WhiteSpace and LineTerminator code points `String.prototype.trim` removes. */
  predicate IsSpace(c: char) {
    || c == ' ' || c == '\t' || c == '\n' || c == '\r' || c == '\U{000B}' || c == '\U{000C}'
    || c == '\U{00A0}' || c == '\U{1680}' || ('\U{2000}' <= c <= '\U{200A}')
    || c == '\U{2028}' || c == '\U{2029}' || c == '\U{202F}' || c == '\U{205F}'
    || c == '\U{3000}' || c == '\U{FEFF}'
  }

  /** Number of white-space characters at the front of `s`. */
  function LeadingSpaces(s: string): (k: nat)
    ensures k <= |s|
    ensures forall i :: 0 <= i < k ==> IsSpace(s[i])
    ensures k == |s| || !IsSpace(s[k])
  {
    if s != [] && IsSpace(s[0]) then 1 + LeadingSpaces(s[1..]) else 0
  }

  /** Number of white-space characters at the back of `s`. */
  function TrailingSpaces(s: string): (k: nat)
    ensures k <= |s|
    ensures forall i :: |s| - k <= i < |s| ==> IsSpace(s[i])
    ensures k == |s| || !IsSpace(s[|s| - 1 - k])
  {
    if s != [] && IsSpace(s[|s| - 1]) then 1 + TrailingSpaces(s[..|s| - 1]) else 0
  }

  function TrimStart(s: string): string { s[LeadingSpaces(s)..] }

  /** `s.trim()` */
  function Trim(s: string): string {
    var t := TrimStart(s);
    t[..|t| - TrailingSpaces(t)]
  }

  /** The trimmed string is a slice of the input with only white space cut off each end. */
  lemma TrimIsSlice(s: string)
    ensures exists i, j :: 0 <= i <= j <= |s| && Trim(s) == s[i..j]
                           && (forall k :: 0 <= k < i ==> IsSpace(s[k]))
                           && (forall k :: j <= k < |s| ==> IsSpace(s[k]))
    ensures Trim(s) == [] || (!IsSpace(Trim(s)[0]) && !IsSpace(Trim(s)[|Trim(s)| - 1]))
  {
    var i := LeadingSpaces(s);
    var t := s[i..];
    var tt := TrailingSpaces(t);
    var j := i + |t| - tt;
    var r := Trim(s);
    assert r == t[..|t| - tt];
    assert r == s[i..j];
    assert forall k :: j <= k < |s| ==> s[k] == t[k - i];
    assert 0 <= i <= j <= |s| && r == s[i..j]
      && (forall k :: 0 <= k < i ==> IsSpace(s[k]))
      && (forall k :: j <= k < |s| ==> IsSpace(s[k]));
    if r != [] {
      assert r[0] == s[i];
      assert r[|r| - 1] == t[|t| - 1 - tt];
    }
  }

  // ---------------------------------------------------------------------------
  // `includes`, `indexOf`, `split`

  /** `hay.includes(needle)` */
  function Contains(hay: string, needle: string): bool
  {
    if needle <= hay then true
    else if hay == [] then false
    else Contains(hay[1..], needle)
  }

  /** `includes` holds exactly when the needle occurs at some position. */
  lemma {:induction false} ContainsMeansOccurs(hay: string, needle: string)
    ensures Contains(hay, needle) <==> Occurs(hay, needle)
  {
    if needle <= hay {
      assert OccursAt(hay, needle, 0);
    } else if hay == [] {
      assert needle != [];
    } else {
      ContainsMeansOccurs(hay[1..], needle);
      var head := [hay[0]];
      assert head + hay[1..] == hay;
      if Occurs(hay[1..], needle) {
        var i :| OccursAt(hay[1..], needle, i);
        OccursAfter(head, hay[1..], needle, i);
      }
      if Occurs(hay, needle) {
        var i :| OccursAt(hay, needle, i);
        if i > 0 {
          OccursBefore(head, hay[1..], needle, i - 1);
        }
      }
    }
  }

  /** An occurrence in `b` is an occurrence in `a + b`, shifted by `|a|`. */
  lemma OccursAfter(a: string, b: string, x: string, k: int)
    requires OccursAt(b, x, k)
    ensures OccursAt(a + b, x, |a| + k)
  {
    forall j | 0 <= j < |x| ensures (a + b)[|a| + k + j] == x[j] {
      assert b[k..k + |x|][j] == b[k + j];
    }
    assert (a + b)[|a| + k..|a| + k + |x|] == x;
  }

  /** An occurrence in `a + b` starting past `a` is an occurrence in `b`. */
  lemma OccursBefore(a: string, b: string, x: string, k: int)
    requires 0 <= k && OccursAt(a + b, x, |a| + k)
    ensures OccursAt(b, x, k)
  {
    forall j | 0 <= j < |x| ensures b[k + j] == x[j] {
      assert (a + b)[|a| + k..|a| + k + |x|][j] == (a + b)[|a| + k + j];
    }
    assert b[k..k + |x|] == x;
  }

  /** `needle` occurs in `hay` at some position. */
  ghost predicate Occurs(hay: string, needle: string) {
    exists i :: OccursAt(hay, needle, i)
  }

  ghost predicate OccursAt(hay: string, needle: string, i: int) {
    0 <= i && i + |needle| <= |hay| && hay[i..i + |needle|] == needle
  }

  /** The empty needle occurs in every string. */
  lemma ContainsEmpty(hay: string)
    ensures Contains(hay, "")
  {
  }

  /** Index of the first `c` in `s`, or `|s|` when `c` does not occur. */
  function IndexOf(s: string, c: char): (i: nat)
    ensures i <= |s|
    ensures forall k :: 0 <= k < i ==> s[k] != c
    ensures i < |s| ==> s[i] == c
  {
    if s == [] then 0 else if s[0] == c then 0 else 1 + IndexOf(s[1..], c)
  }

  /** The first `c` of `a + b` lies in `b` when `a` holds none. */
  lemma {:induction false} IndexOfConcat(a: string, b: string, c: char)
    requires c !in a
    ensures IndexOf(a + b, c) == |a| + IndexOf(b, c)
  {
    if a != [] {
      assert (a + b)[1..] == a[1..] + b;
      IndexOfConcat(a[1..], b, c);
    } else {
      assert a + b == b;
    }
  }

  /** `s.split(sep)[0]` */
  function BeforeFirst(s: string, sep: char): string { s[..IndexOf(s, sep)] }

  /** `s.split(sep)` for a one-character separator: never empty, no piece holds the separator. */
  function Split(s: string, sep: char): (pieces: seq<string>)
    ensures |pieces| >= 1
    ensures forall k :: 0 <= k < |pieces| ==> sep !in pieces[k]
    ensures pieces[0] == BeforeFirst(s, sep)
    decreases |s|
  {
    var i := IndexOf(s, sep);
    if i == |s| then [s] else [s[..i]] + Split(s[i + 1..], sep)
  }

  /** `pieces.join(sep)` */
  function Join(pieces: seq<string>, sep: char): string
  {
    if pieces == [] then ""
    else if |pieces| == 1 then pieces[0]
    else pieces[0] + [sep] + Join(pieces[1..], sep)
  }

  /** Joining the pieces of a split with the same separator gives the input back. */
  lemma {:induction false} SplitJoin(s: string, sep: char)
    ensures Join(Split(s, sep), sep) == s
    decreases |s|
  {
    var i := IndexOf(s, sep);
    if i < |s| {
      var rest := Split(s[i + 1..], sep);
      SplitJoin(s[i + 1..], sep);
      var pieces := Split(s, sep);
      assert pieces == [s[..i]] + rest;
      assert pieces[1..] == rest;
      assert Join(pieces, sep) == s[..i] + [sep] + Join(rest, sep);
      assert s == s[..i] + [sep] + s[i + 1..];
    }
  }

  /** `s.split(' ')[0]`: the text before the first space. */
  function FirstWord(s: string): string { BeforeFirst(s, ' ') }

  // ---------------------------------------------------------------------------
  // Decimal numbers: `toString()`, `padStart`, `parseInt`

  function DigitChar(d: nat): (c: char)
    requires d < 10
    ensures IsDigit(c)
  {
    ('0' as int + d) as char
  }

  function DigitValue(c: char): (d: nat)
    requires IsDigit(c)
    ensures d < 10
  {
    c as int - '0' as int
  }

  /** `n.toString()` for a non-negative integer: digits only, no leading zero. */
  function NatToDecimal(n: nat): (r: string)
    ensures 1 <= |r| && AllDigits(r)
    ensures |r| == 1 || r[0] != '0'
  {
    if n < 10 then [DigitChar(n)] else NatToDecimal(n / 10) + [DigitChar(n % 10)]
  }

  /** `i.toString()` for any integer. */
  function IntToDecimal(i: int): string {
    if i < 0 then "-" + NatToDecimal(-i) else NatToDecimal(i)
  }

  /** The number a digit string denotes. */
  function DecimalValue(s: string): nat
    requires AllDigits(s)
  {
    if s == [] then 0 else DecimalValue(s[..|s| - 1]) * 10 + DigitValue(s[|s| - 1])
  }

  /** Reading back a rendered number gives the number. */
  lemma {:induction false} DecimalRoundTrip(n: nat)
    ensures DecimalValue(NatToDecimal(n)) == n
  {
    if n >= 10 {
      DecimalRoundTrip(n / 10);
      var r := NatToDecimal(n);
      assert r[..|r| - 1] == NatToDecimal(n / 10);
    }
  }

  function Pow10(k: nat): (p: nat)
    ensures p >= 1
  {
    if k == 0 then 1 else 10 * Pow10(k - 1)
  }

  /** A number with exactly `k` decimal digits renders as `k` characters. */
  lemma {:induction false} DecimalLength(n: nat, k: nat)
    requires 1 <= k
    requires (k == 1 || Pow10(k - 1) <= n) && n < Pow10(k)
    ensures |NatToDecimal(n)| == k
  {
    if k > 1 {
      Pow10Grows(k - 1);
      assert n >= 10;
      assert Pow10(k - 1) == 10 * Pow10(k - 2) || k == 2;
      DecimalLength(n / 10, k - 1);
    }
  }

  lemma {:induction false} Pow10Grows(k: nat)
    requires k >= 1
    ensures Pow10(k) >= 10
  {
    if k > 1 {
      Pow10Grows(k - 1);
    }
  }

  function Repeat(c: char, n: nat): (r: string)
    ensures |r| == n
    ensures forall i :: 0 <= i < n ==> r[i] == c
  {
    if n == 0 then "" else [c] + Repeat(c, n - 1)
  }

  /** `s.padStart(width, c)` */
  function PadStart(s: string, width: nat, c: char): string {
    if |s| >= width then s else Repeat(c, width - |s|) + s
  }

  /** Zeros in front do not change the value of a digit string. */
  lemma {:induction false} LeadingZerosIgnored(k: nat, s: string)
    requires AllDigits(s)
    ensures AllDigits(Repeat('0', k) + s)
    ensures DecimalValue(Repeat('0', k) + s) == DecimalValue(s)
    decreases |s|, k
  {
    var z := Repeat('0', k);
    if s == [] {
      assert z + s == z;
      if k > 0 {
        assert z[..|z| - 1] == Repeat('0', k - 1) + [];
        LeadingZerosIgnored(k - 1, []);
      }
    } else {
      var init := s[..|s| - 1];
      assert (z + s)[..|z + s| - 1] == z + init;
      LeadingZerosIgnored(k, init);
    }
  }

  /** Length of the run of digits at the front of `s`. */
  function LeadingDigits(s: string): (k: nat)
    ensures k <= |s|
    ensures AllDigits(s[..k])
    ensures k == |s| || !IsDigit(s[k])
  {
    if s != [] && IsDigit(s[0]) then 1 + LeadingDigits(s[1..]) else 0
  }

  /** The number written by the run of digits at the front of `s`, if there is one. */
  function ParseUnsigned(s: string): Option<nat> {
    var k := LeadingDigits(s);
    if k == 0 then None else Some(DecimalValue(s[..k]))
  }

  /**
   * `parseInt(s)` in base ten: leading white space is skipped, one optional sign
   * is read, then the longest run of digits; `None` stands for `NaN`.
   */
  function ParseInt(s: string): Option<int> {
    ParseSigned(TrimStart(s))
  }

  function ParseSigned(t: string): Option<int> {
    if t != [] && t[0] == '-' then Negate(ParseUnsigned(t[1..]))
    else if t != [] && t[0] == '+' then AsInt(ParseUnsigned(t[1..]))
    else AsInt(ParseUnsigned(t))
  }

  function AsInt(v: Option<nat>): Option<int> {
    if v.Some? then Some(v.value as int) else None
  }

  function Negate(v: Option<nat>): Option<int> {
    if v.Some? then Some(-(v.value as int)) else None
  }

  lemma TrimStartKeeps(s: string)
    requires s != [] && !IsSpace(s[0])
    ensures TrimStart(s) == s
  {
  }

  /** A digit string followed by a non-digit reads back as its value. */
  lemma ParseUnsignedOf(d: string, rest: string)
    requires d != [] && AllDigits(d)
    requires rest == [] || !IsDigit(rest[0])
    ensures ParseUnsigned(d + rest) == Some(DecimalValue(d))
  {
    LeadingDigitsOf(d, rest);
    assert (d + rest)[..|d|] == d;
  }

  /** `parseInt` reads back what `toString` wrote, whatever non-digit text follows. */
  lemma {:induction false} ParseIntRoundTrip(i: int, rest: string)
    requires rest == [] || !IsDigit(rest[0])
    ensures ParseInt(IntToDecimal(i) + rest) == Some(i)
  {
    if i < 0 {
      var n: nat := -i;
      var d := NatToDecimal(n);
      assert IntToDecimal(i) == "-" + d;
      assert IntToDecimal(i) + rest == "-" + (d + rest);
      ParseNegative(n, rest);
    } else {
      assert IntToDecimal(i) == NatToDecimal(i);
      ParseNonNegative(i, rest);
    }
  }

  lemma {:induction false} ParseNegative(n: nat, rest: string)
    requires rest == [] || !IsDigit(rest[0])
    ensures ParseInt("-" + (NatToDecimal(n) + rest)) == Some(-(n as int))
  {
    var d := NatToDecimal(n);
    DecimalRoundTrip(n);
    ParseUnsignedOf(d, rest);
    var s := "-" + (d + rest);
    assert s[0] == '-' && s[1..] == d + rest;
    TrimStartKeeps(s);
    assert ParseSigned(s) == Negate(ParseUnsigned(d + rest));
    assert ParseInt(s) == ParseSigned(s);
  }

  lemma {:induction false} ParseNonNegative(n: nat, rest: string)
    requires rest == [] || !IsDigit(rest[0])
    ensures ParseInt(NatToDecimal(n) + rest) == Some(n)
  {
    var d := NatToDecimal(n);
    DecimalRoundTrip(n);
    ParseUnsignedOf(d, rest);
    ParseDigitsFirst(d + rest);
  }

  /** The leading digit run of `d + rest` is `d` when `rest` does not start with a digit. */
  lemma {:induction false} LeadingDigitsOf(d: string, rest: string)
    requires AllDigits(d)
    requires rest == [] || !IsDigit(rest[0])
    ensures LeadingDigits(d + rest) == |d|
  {
    if d != [] {
      assert (d + rest)[1..] == d[1..] + rest;
      LeadingDigitsOf(d[1..], rest);
    } else {
      assert d + rest == rest;
    }
  }

  /** `parseInt` ignores zeros that `padStart` put in front of a non-negative number. */
  lemma {:induction false} ParsePaddedNat(n: nat, width: nat, rest: string)
    requires rest == [] || !IsDigit(rest[0])
    ensures ParseInt(PadStart(NatToDecimal(n), width, '0') + rest) == Some(n)
  {
    var d := NatToDecimal(n);
    var z := Repeat('0', if |d| >= width then 0 else width - |d|);
    var p := z + d;
    assert PadStart(d, width, '0') == p;
    LeadingZerosIgnored(|z|, d);
    DecimalRoundTrip(n);
    assert DecimalValue(p) == n;
    ParseUnsignedOf(p, rest);
    ParseDigitsFirst(p + rest);
  }

  /** Text that starts with a digit is read without sign or white space. */
  lemma ParseDigitsFirst(s: string)
    requires s != [] && IsDigit(s[0])
    ensures ParseInt(s) == AsInt(ParseUnsigned(s))
  {
    TrimStartKeeps(s);
  }

  // ---------------------------------------------------------------------------
  // String order: JavaScript compares strings character by character

  /** `a <= b` for JavaScript strings. */
  predicate LexLe(a: string, b: string)
  {
    a == [] || (b != [] && (a[0] < b[0] || (a[0] == b[0] && LexLe(a[1..], b[1..]))))
  }

  lemma {:induction false} LexLeReflexive(a: string)
    ensures LexLe(a, a)
  {
    if a != [] {
      LexLeReflexive(a[1..]);
    }
  }

  lemma {:induction false} LexLeTotal(a: string, b: string)
    ensures LexLe(a, b) || LexLe(b, a)
  {
    if a != [] && b != [] && a[0] == b[0] {
      LexLeTotal(a[1..], b[1..]);
    }
  }

  lemma {:induction false} LexLeTransitive(a: string, b: string, c: string)
    requires LexLe(a, b) && LexLe(b, c)
    ensures LexLe(a, c)
  {
    if a != [] && b != [] && c != [] && a[0] == b[0] == c[0] {
      LexLeTransitive(a[1..], b[1..], c[1..]);
    }
  }

  lemma {:induction false} LexLeAntisymmetric(a: string, b: string)
    requires LexLe(a, b) && LexLe(b, a)
    ensures a == b
  {
    if a != [] && b != [] {
      LexLeAntisymmetric(a[1..], b[1..]);
      assert a == [a[0]] + a[1..] && b == [b[0]] + b[1..];
    }
  }
}
