/**
 * Column labels ("A", "AZ", "CZ") and the number the helper assigns to them.
 *
 * `ColumnIndex` is a closed form of what the helper's loop accumulates: every
 * position holding the label's last letter adds that letter's value, every
 * other position adds 26 times the value of the first letter. `Bijective` is
 * the usual spreadsheet numbering (bijective base 26), kept as an independent
 * reference so that the lemmas below can say exactly where the two agree.
 */
module ColumnLetters {

  /** The helper's alphabet table; a letter's value is its position plus one. */
  const LETTERS: string := "ABCDEFGHIJKLMNOPQRSTUVWXYZ"

  predicate IsLetter(c: char)
  {
    'A' <= c <= 'Z'
  }

  /** An upper-case column label (possibly empty). */
  predicate IsLabel(s: string)
  {
    forall i :: 0 <= i < |s| ==> IsLetter(s[i])
  }

  /** `array_search($c, LETTERS) + 1` for a letter: its 1-based place in the table. */
  function LetterValue(c: char): (v: nat)
    requires IsLetter(c)
    ensures 1 <= v <= 26
  {
    (c as int) - ('A' as int) + 1
  }

  /** A letter's value is the 1-based place of its first (and only) entry in the table. */
  lemma LetterValueIsTablePlace(c: char)
    requires IsLetter(c)
    ensures LETTERS[LetterValue(c) - 1] == c
    ensures forall j :: 0 <= j < |LETTERS| && j != LetterValue(c) - 1 ==> LETTERS[j] != c
  {
  }

  /** How many times `c` occurs in `s`. */
  function Occurrences(s: string, c: char): (k: nat)
    ensures k <= |s|
  {
    if s == [] then 0
    else Occurrences(s[..|s| - 1], c) + (if s[|s| - 1] == c then 1 else 0)
  }

  /**
   * The column number the helper computes for a label: a single letter is its
   * table value; otherwise k occurrences of the last letter contribute its
   * value each and the other positions 26 times the first letter's value.
   */
  function ColumnIndex(letters: string): (r: nat)
    requires IsLabel(letters)
    ensures |letters| == 0 ==> r == 0
    ensures |letters| == 1 ==> r == LetterValue(letters[0])
    ensures |letters| >= 1 ==> r >= 1
  {
    var n := |letters|;
    if n == 0 then 0
    else if n == 1 then LetterValue(letters[0])
    else
      var k := Occurrences(letters, letters[n - 1]);
      var last := LetterValue(letters[n - 1]);
      var others := |LETTERS| * LetterValue(letters[0]);
      assert k >= 1;
      MulMonotone(k, 1, last);
      MulMonotone(n - k, 0, others);
      k * last + (n - k) * others
  }

  function Pow26(e: nat): (p: nat)
    ensures p >= 1
  {
    if e == 0 then 1 else 26 * Pow26(e - 1)
  }

  /** Bijective base-26 numbering: "A" = 1, "Z" = 26, "AA" = 27. */
  function Bijective(s: string): nat
    requires IsLabel(s)
  {
    if s == [] then 0 else Bijective(s[..|s| - 1]) * 26 + LetterValue(s[|s| - 1])
  }

  /** The leading letter alone weighs 26^(n-1) times its value in bijective numbering. */
  lemma {:induction false} BijectiveLowerBound(s: string)
    requires IsLabel(s) && |s| >= 1
    ensures Bijective(s) >= Pow26(|s| - 1) * LetterValue(s[0])
  {
    var n := |s|;
    var a := LetterValue(s[0]);
    if n == 1 {
      assert s[..0] == [];
    } else {
      var init := s[..n - 1];
      assert init[0] == s[0];
      BijectiveLowerBound(init);
      var p := Pow26(n - 2);
      var lead := p * a;
      assert Bijective(s) >= 26 * Bijective(init);
      MulMonotone(26, lead, Bijective(init));
      assert 26 * lead == (26 * p) * a;
    }
  }

  /** A label of two different letters gets 26 times the first plus the second; a doubled letter gets twice its value. */
  lemma TwoLetterIndex(s: string)
    requires IsLabel(s) && |s| == 2
    ensures s[0] != s[1] ==> ColumnIndex(s) == 26 * LetterValue(s[0]) + LetterValue(s[1])
    ensures s[0] == s[1] ==> ColumnIndex(s) == 2 * LetterValue(s[0])
  {
    assert s[..1][..0] == [];
    assert s[..1][0] == s[0];
    assert Occurrences(s, s[1]) == if s[0] == s[1] then 2 else 1;
  }

  /** The values the helper's own test asserts: "AZ" is 52 and "CZ" is 104. */
  lemma TestedIndexes()
    ensures ColumnIndex("AZ") == 52
    ensures ColumnIndex("CZ") == 104
  {
    TwoLetterIndex("AZ");
    TwoLetterIndex("CZ");
  }

  /** "AA" gets 2, the number of column "B", where bijective numbering gives 27. */
  lemma DoubledA()
    ensures ColumnIndex("AA") == 2 == ColumnIndex("B")
    ensures Bijective("AA") == 27
  {
    TwoLetterIndex("AA");
    assert "AA"[..1] == "A";
  }

  /** Every position adds at most 26 times the first letter's value. */
  lemma {:induction false} ColumnIndexBound(s: string)
    requires IsLabel(s) && |s| >= 2
    ensures ColumnIndex(s) <= |s| * (26 * LetterValue(s[0]))
  {
    var n := |s|;
    var k := Occurrences(s, s[n - 1]);
    var a := LetterValue(s[0]);
    var c := LetterValue(s[n - 1]);
    assert c <= 26 * a;
    assert k * c <= k * (26 * a) by {
      MulMonotone(k, c, 26 * a);
    }
    assert k * (26 * a) + (n - k) * (26 * a) == n * (26 * a);
  }

  lemma MulMonotone(k: nat, x: nat, y: nat)
    requires x <= y
    ensures k * x <= k * y
  {
  }

  /** From three positions on, 26 per position stays below the weight of the leading place. */
  lemma {:induction false} PositionsBelowLeadingWeight(n: nat)
    requires n >= 3
    ensures 26 * n < Pow26(n - 1)
  {
    if n > 3 {
      PositionsBelowLeadingWeight(n - 1);
    }
  }

  /** From three letters on, the helper's number falls strictly below the bijective one. */
  lemma {:induction false} LongLabelsFallShort(s: string)
    requires IsLabel(s) && |s| >= 3
    ensures ColumnIndex(s) < Bijective(s)
  {
    var n := |s|;
    var a := LetterValue(s[0]);
    var weight := Pow26(n - 1);
    ColumnIndexBound(s);
    BijectiveLowerBound(s);
    PositionsBelowLeadingWeight(n);
    MulStrict(a, 26 * n, weight);
    calc {
      ColumnIndex(s);
    <=
      n * (26 * a);
    ==  { MulAssoc(n, a); }
      (26 * n) * a;
    <
      weight * a;
    <=
      Bijective(s);
    }
  }

  lemma MulAssoc(n: nat, a: nat)
    ensures n * (26 * a) == (26 * n) * a
  {
  }

  lemma MulStrict(a: nat, x: nat, y: nat)
    requires a >= 1 && x < y
    ensures x * a < y * a
  {
  }

  /**
   * The helper's number never exceeds the bijective one, and the two are equal
   * exactly for labels of at most one letter and for two different letters.
   */
  lemma {:induction false} AgreesWithBijective(s: string)
    requires IsLabel(s)
    ensures ColumnIndex(s) <= Bijective(s)
    ensures ColumnIndex(s) == Bijective(s) <==> |s| <= 1 || (|s| == 2 && s[0] != s[1])
  {
    var n := |s|;
    if n == 1 {
      assert s[..0] == [];
    } else if n == 2 {
      TwoLetterIndex(s);
      assert s[..1] == [s[0]];
      assert s[..1][..0] == [];
      assert Bijective(s[..1]) == LetterValue(s[0]);
      assert Bijective(s) == 26 * LetterValue(s[0]) + LetterValue(s[1]);
    } else if n >= 3 {
      LongLabelsFallShort(s);
    }
  }
}
