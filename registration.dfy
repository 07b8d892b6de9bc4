/**
 * Identity data given to a new patient: the client code (initials plus a
 * random five-digit number), the clinical file number (derived from how many
 * patients exist) and the ten-digit phone rule every registration form
 * applies. The booking page and the patient list generate codes and file
 * numbers the same way; both use these definitions.
 */
module Registration {
  import opened Wrappers
  import opened Text

  /** `words.map(n => n[0]).join('')`: the first character of each word; an empty word adds nothing. */
  function FirstLetters(words: seq<string>): (r: string)
    ensures |r| <= |words|
  {
    if words == [] then ""
    else (if words[0] == "" then "" else [words[0][0]]) + FirstLetters(words[1..])
  }

  /** Each character of the result starts some word, and the words are taken in order. */
  lemma {:induction false} FirstLettersFromWords(words: seq<string>, k: nat)
    requires k < |FirstLetters(words)|
    ensures exists i :: 0 <= i < |words| && words[i] != "" && FirstLetters(words)[k] == words[i][0]
  {
    if words[0] == "" {
      FirstLettersFromWords(words[1..], k);
      var i :| 0 <= i < |words[1..]| && words[1..][i] != "" && FirstLetters(words[1..])[k] == words[1..][i][0];
      assert words[i + 1] == words[1..][i];
    } else if k > 0 {
      FirstLettersFromWords(words[1..], k - 1);
      var i :| 0 <= i < |words[1..]| && words[1..][i] != "" && FirstLetters(words[1..])[k - 1] == words[1..][i][0];
      assert words[i + 1] == words[1..][i];
    }
  }

  /** `name.split(' ').map(n => n[0]).join('').substring(0, 3).toUpperCase()` */
  function Initials(name: string): (r: string)
    ensures |r| <= 3
    ensures forall i :: 0 <= i < |r| ==> !IsLowerLetter(r[i])
  {
    var letters := FirstLetters(Split(name, ' '));
    Upper(if |letters| <= 3 then letters else letters[..3])
  }

  /** `Math.floor(10000 + Math.random() * 90000)` for a draw `r` in [0, 1). */
  function CodeNumber(r: real): (n: int)
    requires 0.0 <= r < 1.0
    ensures 10000 <= n <= 99999
  {
    (10000.0 + r * 90000.0).Floor
  }

  /** The client code: the name's initials followed by the five-digit number. */
  function ClientCode(name: string, r: real): (code: string)
    requires 0.0 <= r < 1.0
    ensures |Initials(name)| + 5 == |code| && code[..|Initials(name)|] == Initials(name)
    ensures AllDigits(code[|Initials(name)|..])
    ensures ParseInt(code[|Initials(name)|..]) == Some(CodeNumber(r))
  {
    var n := CodeNumber(r);
    assert Pow10(4) == 10000 && Pow10(5) == 100000;
    DecimalLength(n, 5);
    ParseIntRoundTrip(n, "");
    assert NatToDecimal(n) + "" == NatToDecimal(n);
    Initials(name) + NatToDecimal(n)
  }

  /** A name of two words, such as "ana lopez", gives the two first letters in capitals, such as "AL". */
  lemma {:induction false} InitialsOfTwoWords(first: string, last: string)
    requires first != "" && last != ""
    requires ' ' !in first && ' ' !in last
    ensures Initials(first + " " + last) == [UpperChar(first[0]), UpperChar(last[0])]
  {
    SplitTwoWords(first, last);
    var words := [first, last];
    assert words[1..][1..] == [];
    assert FirstLetters(words[1..]) == [last[0]];
    assert FirstLetters(words) == [first[0], last[0]];
  }

  lemma {:induction false} SplitTwoWords(first: string, last: string)
    requires ' ' !in first && ' ' !in last
    ensures Split(first + " " + last, ' ') == [first, last]
  {
    var name := first + " " + last;
    assert name == first + (" " + last);
    IndexOfConcat(first, " " + last, ' ');
    assert (" " + last)[0] == ' ';
    assert IndexOf(name, ' ') == |first|;
    assert name[..|first|] == first;
    assert name[|first| + 1..] == last;
    assert IndexOf(last, ' ') == |last|;
    assert Split(last, ' ') == [last];
  }

  /** `(100 + count).toString().padStart(4, '0')` */
  function FileNumber(count: nat): (r: string)
    ensures |r| >= 4 && AllDigits(r)
  {
    var d := NatToDecimal(100 + count);
    LeadingZerosIgnored(if |d| < 4 then 4 - |d| else 0, d);
    PadStart(d, 4, '0')
  }

  /** The file number reads back as 100 plus the patient count it was made from. */
  lemma FileNumberValue(count: nat)
    ensures ParseInt(FileNumber(count)) == Some(100 + count)
  {
    ParsePaddedNat(100 + count, 4, "");
    assert FileNumber(count) + "" == FileNumber(count);
  }

  /** Different patient counts give different file numbers. */
  lemma FileNumberInjective(a: nat, b: nat)
    requires a != b
    ensures FileNumber(a) != FileNumber(b)
  {
    FileNumberValue(a);
    FileNumberValue(b);
  }

  /** The first 900 file numbers are the four-digit "0100" to "0999"; then the width grows. */
  lemma FileNumberWidth(count: nat)
    ensures count < 9900 ==> |FileNumber(count)| == 4
    ensures count < 900 ==> FileNumber(count)[0] == '0'
  {
    var n := 100 + count;
    assert Pow10(2) == 100 && Pow10(3) == 1000 && Pow10(4) == 10000;
    if n < 1000 {
      DecimalLength(n, 3);
    } else if n < 10000 {
      DecimalLength(n, 4);
    }
  }

  /** `cleanPhone(p).length === 10`: exactly ten digits once everything else is stripped. */
  predicate HasTenDigits(phone: string) {
    |Digits(phone)| == 10
  }

  /** Spaces, dashes and brackets do not matter to the phone rule. */
  lemma HasTenDigitsIgnoresSeparators(a: string, b: string)
    ensures HasTenDigits(a + b) <==> |Digits(a)| + |Digits(b)| == 10
  {
    DigitsAppend(a, b);
  }
}
