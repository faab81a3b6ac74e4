/**
 * The handful of Python string operations scale_pyramid.py relies on:
 * str.strip(), str.split(sep), sep.join(parts), int(text) and str(n).
 */
module Text {
  import opened Wrappers

  /** Python has two notions of whitespace here: str.strip() removes every
      character for which str.isspace() holds, while int() skips only the
      narrower set its own number parser accepts, which leaves out the
      information separators U+001C..U+001F. Only ASCII is modelled. */
  datatype Blanks = StrBlanks | IntBlanks

  /** c is whitespace in the sense named by b. */
  predicate IsSpace(c: char, b: Blanks) {
    c == ' ' || ('\t' <= c <= '\r') || (b == StrBlanks && '\U{1C}' <= c <= '\U{1F}')
  }

  predicate IsDigit(c: char) {
    '0' <= c <= '9'
  }

  predicate AllDigits(s: string) {
    forall i :: 0 <= i < |s| ==> IsDigit(s[i])
  }

  /** s without its leading whitespace. */
  function StripLeft(s: string, b: Blanks): string
    decreases |s|
  {
    if |s| > 0 && IsSpace(s[0], b) then StripLeft(s[1..], b) else s
  }

  /** s without its trailing whitespace. */
  function StripRight(s: string, b: Blanks): string
    decreases |s|
  {
    if |s| > 0 && IsSpace(s[|s| - 1], b) then StripRight(s[..|s| - 1], b) else s
  }

  /** s without whitespace at either end. */
  function Trim(s: string, b: Blanks): string {
    StripRight(StripLeft(s, b), b)
  }

  /** str.strip(). */
  function Strip(s: string): string
  {
    Trim(s, StrBlanks)
  }

  /** StripLeft keeps a suffix, and drops only whitespace. */
  lemma {:induction false} StripLeftKeepsSuffix(s: string, b: Blanks)
    ensures var r := StripLeft(s, b);
      |r| <= |s| && r == s[|s| - |r|..] && (r == [] || !IsSpace(r[0], b)) &&
      forall i :: 0 <= i < |s| - |r| ==> IsSpace(s[i], b)
    decreases |s|
  {
    if |s| > 0 && IsSpace(s[0], b) {
      StripLeftKeepsSuffix(s[1..], b);
    }
  }

  /** StripRight keeps a prefix, and drops only whitespace. */
  lemma {:induction false} StripRightKeepsPrefix(s: string, b: Blanks)
    ensures var r := StripRight(s, b);
      |r| <= |s| && r == s[..|r|] && (r == [] || !IsSpace(r[|r| - 1], b)) &&
      forall i :: |r| <= i < |s| ==> IsSpace(s[i], b)
    decreases |s|
  {
    if |s| > 0 && IsSpace(s[|s| - 1], b) {
      StripRightKeepsPrefix(s[..|s| - 1], b);
    }
  }

  /** Trim keeps a contiguous middle part of s, removes only whitespace, and neither
      end of what it keeps is whitespace. */
  lemma TrimKeepsMiddle(s: string, b: Blanks)
    ensures |StripLeft(s, b)| <= |s| && StripLeft(s, b) == s[|s| - |StripLeft(s, b)|..]
    ensures forall i :: 0 <= i < |s| - |StripLeft(s, b)| ==> IsSpace(s[i], b)
    ensures |Trim(s, b)| <= |StripLeft(s, b)| && Trim(s, b) == StripLeft(s, b)[..|Trim(s, b)|]
    ensures forall i :: |Trim(s, b)| <= i < |StripLeft(s, b)| ==> IsSpace(StripLeft(s, b)[i], b)
    ensures Trim(s, b) == [] || (!IsSpace(Trim(s, b)[0], b) && !IsSpace(Trim(s, b)[|Trim(s, b)| - 1], b))
  {
    StripLeftKeepsSuffix(s, b);
    var left := StripLeft(s, b);
    StripRightKeepsPrefix(left, b);
    var r := StripRight(left, b);
    assert Trim(s, b) == r;
    if r != [] {
      assert r[0] == left[0];
    }
  }

  /** Text with no whitespace at either end is left alone. */
  lemma StripUnchanged(s: string, b: Blanks)
    requires s == [] || (!IsSpace(s[0], b) && !IsSpace(s[|s| - 1], b))
    ensures Trim(s, b) == s
  {
  }

  /** The value of a non-empty run of decimal digits, most significant first. */
  function DigitsValue(s: string): nat
    requires AllDigits(s)
    decreases |s|
  {
    if s == [] then 0 else 10 * DigitsValue(s[..|s| - 1]) + (s[|s| - 1] as int - '0' as int)
  }

  /** The decimal digits of n, without leading zeros. */
  function Digits(n: nat): (r: string)
    ensures |r| >= 1 && AllDigits(r)
    ensures r[0] == '0' ==> n == 0
    decreases n
  {
    (if n < 10 then [] else Digits(n / 10)) + [('0' as int + n % 10) as char]
  }

  lemma {:induction false} DigitsValueOfDigits(n: nat)
    ensures DigitsValue(Digits(n)) == n
  {
    var r := Digits(n);
    var prefix := if n < 10 then [] else Digits(n / 10);
    assert r[..|r| - 1] == prefix;
    if n >= 10 {
      DigitsValueOfDigits(n / 10);
    }
  }

  /** sys.int_max_str_digits at its default: int() refuses a decimal numeral of more
      digits, and str() an integer of more digits, with ValueError. */
  const MaxStrDigits := 4300

  /** int() on text that is already stripped: an optional sign and at least one
      digit, and no more digits than MaxStrDigits. */
  function ParseNumeral(s: string): Option<int> {
    if |s| > 0 && (s[0] == '+' || s[0] == '-') then
      if |s| > 1 && AllDigits(s[1..]) && |s| - 1 <= MaxStrDigits then
        var magnitude: int := DigitsValue(s[1..]);
        Some(if s[0] == '-' then -magnitude else magnitude)
      else None
    else if |s| > 0 && AllDigits(s) && |s| <= MaxStrDigits then Some(DigitsValue(s))
    else None
  }

  /** Python's int(text): an optional sign and digits, with int()'s whitespace around them. */
  function PyInt(s: string): Option<int> {
    ParseNumeral(Trim(s, IntBlanks))
  }

  /** The two whitespace sets differ: int("\x1c5") is refused, yet "\x1c5".strip()
      is "5", which int() reads as 5. */
  lemma SeparatorIsNotIntSpace()
    ensures PyInt("\U{1C}5").None?
    ensures Strip("\U{1C}5") == "5" && PyInt("5") == Some(5)
  {
    var text := "\U{1C}5";
    assert Trim(text, IntBlanks) == text;
    assert StripLeft(text, StrBlanks) == "5";
    assert "5"[..0] == [] && DigitsValue("5") == 5;
  }

  lemma NumeralCharacters(c: string)
    requires ParseNumeral(c).Some?
    ensures forall j :: 0 <= j < |c| ==> IsDigit(c[j]) || c[j] == '+' || c[j] == '-'
  {
    if c[0] == '+' || c[0] == '-' {
      forall j | 1 <= j < |c| ensures IsDigit(c[j]) {
        assert c[j] == c[1..][j - 1];
      }
    }
  }

  /** Text that int() accepts consists of whitespace, signs and digits only. */
  lemma AcceptedCharacters(s: string)
    requires PyInt(s).Some?
    ensures forall i :: 0 <= i < |s| ==> IsSpace(s[i], IntBlanks) || IsDigit(s[i]) || s[i] == '+' || s[i] == '-'
  {
    var left := StripLeft(s, IntBlanks);
    var core := StripRight(left, IntBlanks);
    var off := |s| - |left|;
    StripLeftKeepsSuffix(s, IntBlanks);
    StripRightKeepsPrefix(left, IntBlanks);
    NumeralCharacters(core);
    forall i | 0 <= i < |s| ensures IsSpace(s[i], IntBlanks) || IsDigit(s[i]) || s[i] == '+' || s[i] == '-' {
      if i >= off {
        assert s[i] == left[i - off];
        if i - off < |core| {
          assert left[i - off] == core[i - off];
        }
      }
    }
  }

  /** The number of decimal digits of n, without its sign. */
  function DigitCount(n: int): nat {
    |Digits(if n < 0 then -n else n)|
  }

  /** str(n) succeeds: n has no more decimal digits than MaxStrDigits. */
  predicate WithinDigitLimit(n: int) {
    DigitCount(n) <= MaxStrDigits
  }

  /** Python's str(n) for an int: the canonical decimal numeral, with a minus sign
      exactly for a negative n and no leading zeros. Python refuses it with
      ValueError when n is not WithinDigitLimit; callers check that. */
  function IntToString(n: int): (r: string)
    ensures |r| >= 1 && IsDigit(r[|r| - 1])
    ensures forall i :: 0 <= i < |r| ==> IsDigit(r[i]) || (i == 0 && r[i] == '-')
    ensures r[0] == '-' <==> n < 0
    ensures r[0] == '0' ==> r == "0"
    ensures r[0] == '-' ==> |r| >= 2 && r[1] != '0'
    ensures |r| == DigitCount(n) + (if n < 0 then 1 else 0)
  {
    if n < 0 then "-" + Digits(-n) else Digits(n)
  }

  /** int(str(n)) == n for every n that str() accepts; the numeral of any larger n
      is refused by int() just as well. */
  lemma PyIntOfIntToString(n: int)
    ensures PyInt(IntToString(n)) == if WithinDigitLimit(n) then Some(n) else None
  {
    var m: nat := if n < 0 then -n else n;
    DigitsValueOfDigits(m);
    StripOfIntToString(n);
    var r := IntToString(n);
    if n < 0 {
      assert r[0] == '-' && r[1..] == Digits(m);
    }
    ParseSignedDigits(r);
  }

  /** str(n) has no whitespace to strip, in either sense. */
  lemma StripOfIntToString(n: int)
    ensures Strip(IntToString(n)) == IntToString(n)
    ensures Trim(IntToString(n), IntBlanks) == IntToString(n)
  {
    var r := IntToString(n);
    assert !IsSpace(r[0], StrBlanks) && !IsSpace(r[|r| - 1], StrBlanks);
    StripUnchanged(r, StrBlanks);
    StripUnchanged(r, IntBlanks);
  }

  lemma ParseSignedDigits(s: string)
    requires |s| >= 1 && AllDigits(if s[0] == '-' then s[1..] else s)
    requires s[0] == '-' ==> |s| > 1
    ensures s[0] == '-' && |s| - 1 <= MaxStrDigits ==> ParseNumeral(s) == Some(-(DigitsValue(s[1..]) as int))
    ensures s[0] != '-' && |s| <= MaxStrDigits ==> ParseNumeral(s) == Some(DigitsValue(s))
    ensures (if s[0] == '-' then |s| - 1 else |s|) > MaxStrDigits ==> ParseNumeral(s) == None
  {
  }

  /** int() refuses a run of more than MaxStrDigits digits, whatever its value. */
  lemma PyIntRefusesLongNumerals(s: string)
    requires AllDigits(s) && |s| > MaxStrDigits
    ensures PyInt(s) == None
  {
    StripUnchanged(s, IntBlanks);
  }

  lemma IntToStringInjective(a: int, b: int)
    requires IntToString(a) == IntToString(b)
    ensures a == b
  {
    var r := IntToString(a);
    var ma: nat := if a < 0 then -a else a;
    var mb: nat := if b < 0 then -b else b;
    assert a < 0 <==> b < 0;
    if a < 0 {
      assert r[1..] == Digits(ma) && r[1..] == Digits(mb);
    }
    DigitsInjective(ma, mb);
  }

  lemma DigitsInjective(a: nat, b: nat)
    requires Digits(a) == Digits(b)
    ensures a == b
  {
    DigitsValueOfDigits(a);
    DigitsValueOfDigits(b);
  }

  /** str.split(sep): the maximal pieces between occurrences of sep; never empty. */
  function Split(s: string, sep: char): (parts: seq<string>)
    ensures |parts| >= 1
    ensures forall i :: 0 <= i < |parts| ==> sep !in parts[i]
    decreases |s|
  {
    if s == [] then [[]]
    else
      var rest := Split(s[1..], sep);
      if s[0] == sep then [[]] + rest else [[s[0]] + rest[0]] + rest[1..]
  }

  /** sep.join(parts). */
  function Join(parts: seq<string>, sep: char): string
    decreases |parts|
  {
    if |parts| == 0 then []
    else if |parts| == 1 then parts[0]
    else parts[0] + [sep] + Join(parts[1..], sep)
  }

  lemma {:induction false} SplitNoSeparator(s: string, sep: char)
    requires sep !in s
    ensures Split(s, sep) == [s]
    decreases |s|
  {
    if s != [] {
      assert s[0] != sep;
      SplitNoSeparator(s[1..], sep);
      assert [s[0]] + s[1..] == s;
    }
  }

  /** One separator splits exactly where it stands. */
  lemma {:induction false} SplitAround(a: string, b: string, sep: char)
    ensures Split(a + [sep] + b, sep) == Split(a, sep) + Split(b, sep)
    decreases |a|
  {
    if a == [] {
      assert a + [sep] + b == [sep] + b;
      assert ([sep] + b)[1..] == b;
    } else {
      var s := a + [sep] + b;
      assert s[0] == a[0] && s[1..] == a[1..] + [sep] + b;
      SplitAround(a[1..], b, sep);
    }
  }

  /** Joining and splitting again at the same separator is the identity. */
  lemma {:induction false} JoinSplit(s: string, sep: char)
    ensures Join(Split(s, sep), sep) == s
    decreases |s|
  {
    if s != [] {
      var rest := Split(s[1..], sep);
      JoinSplit(s[1..], sep);
      if s[0] == sep {
        assert Join([[]] + rest, sep) == [] + [sep] + Join(rest, sep);
      } else {
        var parts := [[s[0]] + rest[0]] + rest[1..];
        if |rest| == 1 {
          assert Join(parts, sep) == [s[0]] + rest[0];
        } else {
          assert Join(rest, sep) == rest[0] + [sep] + Join(rest[1..], sep);
          assert parts[1..] == rest[1..];
          assert Join(parts, sep) == [s[0]] + rest[0] + [sep] + Join(rest[1..], sep);
        }
      }
    }
  }

  /** Splitting a joined list of separator-free pieces gives the pieces back. */
  lemma {:induction false} SplitJoin(parts: seq<string>, sep: char)
    requires |parts| >= 1
    requires forall i :: 0 <= i < |parts| ==> sep !in parts[i]
    ensures Split(Join(parts, sep), sep) == parts
    decreases |parts|
  {
    SplitNoSeparator(parts[0], sep);
    if |parts| > 1 {
      SplitJoin(parts[1..], sep);
      SplitAround(parts[0], Join(parts[1..], sep), sep);
      assert parts == [parts[0]] + parts[1..];
    }
  }

  /** A character that occurs in no piece and is not the separator does not occur in the join. */
  lemma {:induction false} AbsentFromJoin(parts: seq<string>, sep: char, c: char)
    requires c != sep
    requires forall i :: 0 <= i < |parts| ==> c !in parts[i]
    ensures c !in Join(parts, sep)
    decreases |parts|
  {
    if |parts| > 1 {
      AbsentFromJoin(parts[1..], sep, c);
    }
  }
}
