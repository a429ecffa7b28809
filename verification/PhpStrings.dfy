/**
 * The PHP string built-ins the helper relies on, restricted to the inputs it
 * gives them: `empty()`, loose comparison with `null`, string interpolation of
 * a nullable value, `explode`, the two `preg_replace` digit filters and the
 * conversion of a digit string to a number.
 */
module PhpStrings {
  import opened Wrappers

  /** `empty($s)` for a nullable string: null, "" and "0" are all empty in PHP. */
  predicate Empty(s: Option<string>)
  {
    s == None || s == Some("") || s == Some("0")
  }

  /** `$s == null` (loose comparison): true for null and for "", but not for "0". */
  predicate LooselyNull(s: Option<string>)
  {
    s == None || s == Some("")
  }

  /** `"{$s}"`: a null value interpolates as the empty string. */
  function Interpolate(s: Option<string>): string
  {
    if s.Some? then s.value else ""
  }

  predicate IsDigit(c: char)
  {
    '0' <= c <= '9'
  }

  predicate IsDigits(s: string)
  {
    forall i :: 0 <= i < |s| ==> IsDigit(s[i])
  }

  predicate HasNoDigit(s: string)
  {
    forall i :: 0 <= i < |s| ==> !IsDigit(s[i])
  }

  /** The parts joined back together with the separator between them (PHP's `implode`). */
  function Join(parts: seq<string>, sep: char): string
  {
    if |parts| == 0 then ""
    else if |parts| == 1 then parts[0]
    else parts[0] + [sep] + Join(parts[1..], sep)
  }

  /** `explode($sep, $s)`: the maximal pieces of `s` between separators. */
  function Explode(s: string, sep: char): (parts: seq<string>)
    ensures |parts| >= 1
    ensures Join(parts, sep) == s
    ensures forall i :: 0 <= i < |parts| ==> sep !in parts[i]
  {
    if s == [] then [""]
    else
      var rest := Explode(s[1..], sep);
      if s[0] == sep then [""] + rest
      else [[s[0]] + rest[0]] + rest[1..]
  }

  /** A string without the separator explodes into itself. */
  lemma {:induction false} ExplodeWhole(s: string, sep: char)
    requires sep !in s
    ensures Explode(s, sep) == [s]
  {
    if s != [] {
      assert sep !in s[1..];
      ExplodeWhole(s[1..], sep);
    }
  }

  /** The first separator of `a + [sep] + b` ends the first part when `a` has none. */
  lemma {:induction false} ExplodeAt(a: string, sep: char, b: string)
    requires sep !in a
    ensures Explode(a + [sep] + b, sep) == [a] + Explode(b, sep)
  {
    if a == [] {
      assert (a + [sep] + b)[1..] == b;
    } else {
      assert (a + [sep] + b)[1..] == a[1..] + [sep] + b;
      assert sep !in a[1..];
      ExplodeAt(a[1..], sep, b);
      assert [a[0]] + a[1..] == a;
    }
  }

  /** Two pieces without the separator, joined by it, explode back into the two pieces. */
  lemma ExplodeTwo(a: string, sep: char, b: string)
    requires sep !in a && sep !in b
    ensures Explode(a + [sep] + b, sep) == [a, b]
  {
    ExplodeAt(a, sep, b);
    ExplodeWhole(b, sep);
  }

  /** Exploding undoes joining when no part holds the separator. */
  lemma {:induction false} ExplodeJoin(parts: seq<string>, sep: char)
    requires |parts| >= 1
    requires forall i :: 0 <= i < |parts| ==> sep !in parts[i]
    ensures Explode(Join(parts, sep), sep) == parts
  {
    if |parts| == 1 {
      ExplodeWhole(parts[0], sep);
    } else {
      ExplodeJoin(parts[1..], sep);
      ExplodeAt(parts[0], sep, Join(parts[1..], sep));
    }
  }

  /** `preg_replace('/[0-9]+/', '', $s)`: `s` with every digit removed. */
  function StripDigits(s: string): (r: string)
    ensures HasNoDigit(r)
    ensures |r| <= |s|
  {
    if s == [] then ""
    else if IsDigit(s[0]) then StripDigits(s[1..])
    else [s[0]] + StripDigits(s[1..])
  }

  /** `preg_replace("/[^0-9]/", "", $s)`: the digits of `s`, in order. */
  function KeepDigits(s: string): (r: string)
    ensures IsDigits(r)
    ensures |r| <= |s|
  {
    if s == [] then ""
    else if IsDigit(s[0]) then [s[0]] + KeepDigits(s[1..])
    else KeepDigits(s[1..])
  }

  /** A string without digits passes through the digit-removing filter unchanged. */
  lemma {:induction false} StripDigitsOfNonDigits(s: string)
    requires HasNoDigit(s)
    ensures StripDigits(s) == s
  {
    if s != [] {
      StripDigitsOfNonDigits(s[1..]);
      assert [s[0]] + s[1..] == s;
    }
  }

  /** A digit string passes through the digit-keeping filter unchanged. */
  lemma {:induction false} KeepDigitsOfDigits(s: string)
    requires IsDigits(s)
    ensures KeepDigits(s) == s
  {
    if s != [] {
      KeepDigitsOfDigits(s[1..]);
      assert [s[0]] + s[1..] == s;
    }
  }

  /** Removing digits works piece by piece: non-digits of a concatenation are those of each piece, in order. */
  lemma {:induction false} StripDigitsAppend(a: string, b: string)
    ensures StripDigits(a + b) == StripDigits(a) + StripDigits(b)
  {
    if a == [] {
      assert a + b == b;
    } else {
      assert (a + b)[1..] == a[1..] + b;
      StripDigitsAppend(a[1..], b);
    }
  }

  /** Keeping digits works piece by piece: digits of a concatenation are those of each piece, in order. */
  lemma {:induction false} KeepDigitsAppend(a: string, b: string)
    ensures KeepDigits(a + b) == KeepDigits(a) + KeepDigits(b)
  {
    if a == [] {
      assert a + b == b;
    } else {
      assert (a + b)[1..] == a[1..] + b;
      KeepDigitsAppend(a[1..], b);
    }
  }

  /** The two digit filters split a run of non-digits followed by a run of digits apart again. */
  lemma {:induction false} FiltersSplit(letters: string, digits: string)
    requires HasNoDigit(letters) && IsDigits(digits)
    ensures StripDigits(letters + digits) == letters
    ensures KeepDigits(letters + digits) == digits
  {
    if letters == [] {
      assert letters + digits == digits;
      DigitsOnly(digits);
    } else {
      assert (letters + digits)[1..] == letters[1..] + digits;
      FiltersSplit(letters[1..], digits);
    }
  }

  lemma {:induction false} DigitsOnly(digits: string)
    requires IsDigits(digits)
    ensures StripDigits(digits) == ""
    ensures KeepDigits(digits) == digits
  {
    if digits != [] {
      DigitsOnly(digits[1..]);
    }
  }

  function DigitValue(c: char): (d: nat)
    requires IsDigit(c)
    ensures d < 10
  {
    (c as int) - ('0' as int)
  }

  function DigitChar(d: nat): (c: char)
    requires d < 10
    ensures IsDigit(c) && DigitValue(c) == d
  {
    (('0' as int) + d) as char
  }

  /** The number a PHP numeric string of decimal digits stands for (leading zeros allowed). */
  function NumericValue(digits: string): nat
    requires IsDigits(digits)
  {
    if digits == [] then 0
    else NumericValue(digits[..|digits| - 1]) * 10 + DigitValue(digits[|digits| - 1])
  }

  /** The canonical decimal spelling of a row number, as a user writes it in "B5". */
  function Decimal(n: nat): (s: string)
    ensures IsDigits(s) && |s| >= 1
  {
    if n < 10 then [DigitChar(n)] else Decimal(n / 10) + [DigitChar(n % 10)]
  }

  /** Reading back a decimal spelling gives the number spelled. */
  lemma {:induction false} NumericValueOfDecimal(n: nat)
    ensures NumericValue(Decimal(n)) == n
  {
    if n >= 10 {
      NumericValueOfDecimal(n / 10);
      var s := Decimal(n);
      assert s[..|s| - 1] == Decimal(n / 10);
    }
  }
}
