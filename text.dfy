/** The Python string built-ins the client relies on — `str.title`,
    `str.lower`, `str.replace` of one character, the `in` substring test and
    `str(int)` — restricted to ASCII letters. */
module Text {

  predicate IsUpper(c: char) { 'A' <= c <= 'Z' }
  predicate IsLower(c: char) { 'a' <= c <= 'z' }
  predicate IsLetter(c: char) { IsUpper(c) || IsLower(c) }

  function Upper(c: char): char
  {
    if IsLower(c) then (c as int - 32) as char else c
  }

  function Lower(c: char): char
  {
    if IsUpper(c) then (c as int + 32) as char else c
  }

  /** `s.lower()` */
  function LowerAll(s: string): string
  {
    seq(|s|, i requires 0 <= i < |s| => Lower(s[i]))
  }

  /** `s.replace(a, b)` for single characters a and b. */
  function Replace(s: string, a: char, b: char): string
  {
    seq(|s|, i requires 0 <= i < |s| => if s[i] == a then b else s[i])
  }

  /** `s.title()`, computed as CPython does: one left-to-right scan that
      remembers whether the previous character was cased. */
  function Title(s: string): string
  {
    TitleAfter(s, false)
  }

  function TitleAfter(s: string, prevCased: bool): string
    decreases |s|
  {
    if s == [] then []
    else
      var c := s[0];
      var t := if !IsLetter(c) then c else if prevCased then Lower(c) else Upper(c);
      [t] + TitleAfter(s[1..], IsLetter(c))
  }

  /** The character `s.title()` puts at position i, stated without the scan:
      a letter is upper-cased when the character before it is not a letter
      (or it starts the string) and lower-cased otherwise; anything else is
      kept. */
  function TitleCharAt(s: string, i: nat): char
    requires i < |s|
  {
    if !IsLetter(s[i]) then s[i]
    else if i > 0 && IsLetter(s[i - 1]) then Lower(s[i])
    else Upper(s[i])
  }

  lemma {:induction false} TitleAfterAt(s: string, prevCased: bool, i: nat)
    requires i < |s|
    ensures |TitleAfter(s, prevCased)| == |s|
    ensures TitleAfter(s, prevCased)[i] ==
      if i == 0 then (if !IsLetter(s[0]) then s[0] else if prevCased then Lower(s[0]) else Upper(s[0]))
      else TitleCharAt(s, i)
  {
    if i == 0 {
      if |s| > 1 {
        TitleAfterAt(s[1..], IsLetter(s[0]), 0);
      } else {
        assert s[1..] == [];
      }
    } else {
      TitleAfterAt(s[1..], IsLetter(s[0]), i - 1);
      if i - 1 > 0 {
        assert TitleCharAt(s[1..], i - 1) == TitleCharAt(s, i);
      }
    }
  }

  /** `s.title()` keeps the length of s and follows TitleCharAt at every
      position. */
  lemma TitleAt(s: string, i: nat)
    requires i < |s|
    ensures |Title(s)| == |s|
    ensures Title(s)[i] == TitleCharAt(s, i)
  {
    TitleAfterAt(s, false, i);
  }

  lemma TitleLength(s: string)
    ensures |Title(s)| == |s|
  {
    if |s| > 0 {
      TitleAt(s, 0);
    }
  }

  /** Position by position, as a quantified statement. */
  lemma TitlePointwise(s: string)
    ensures |Title(s)| == |s|
    ensures forall i :: 0 <= i < |s| ==> Title(s)[i] == TitleCharAt(s, i)
  {
    TitleLength(s);
    forall i | 0 <= i < |s|
      ensures Title(s)[i] == TitleCharAt(s, i)
    {
      TitleAt(s, i);
    }
  }

  /** Title-casing keeps a character a letter exactly when it was one. */
  lemma TitleKeepsLetters(s: string, i: nat)
    requires i < |s|
    ensures |Title(s)| == |s|
    ensures IsLetter(Title(s)[i]) <==> IsLetter(s[i])
    ensures !IsLetter(s[i]) ==> Title(s)[i] == s[i]
  {
    TitleAt(s, i);
  }

  /** Title-casing a title-cased string changes nothing. */
  lemma TitleIdempotent(s: string)
    ensures Title(Title(s)) == Title(s)
  {
    var t := Title(s);
    TitlePointwise(s);
    TitlePointwise(t);
    forall i | 0 <= i < |s|
      ensures Title(t)[i] == t[i]
    {
      assert IsLetter(t[i]) <==> IsLetter(s[i]);
      if i > 0 {
        assert IsLetter(t[i - 1]) <==> IsLetter(s[i - 1]);
      }
    }
  }

  /** `s.lower().title() == s.title()`: title-casing ignores the case it is
      given. */
  lemma TitleIgnoresCase(s: string)
    ensures Title(LowerAll(s)) == Title(s)
  {
    var l := LowerAll(s);
    TitlePointwise(s);
    TitlePointwise(l);
    forall i | 0 <= i < |s|
      ensures Title(l)[i] == Title(s)[i]
    {
      assert l[i] == Lower(s[i]);
      if i > 0 {
        assert l[i - 1] == Lower(s[i - 1]);
      }
    }
  }

  /** `needle in hay` for strings: does needle occur as a contiguous part of
      hay?  Tried at every start position from the left. */
  function Contains(hay: string, needle: string): bool
    decreases |hay|
  {
    (|needle| <= |hay| && hay[..|needle|] == needle) || (hay != [] && Contains(hay[1..], needle))
  }

  /** needle occurs in hay starting at position i. */
  predicate OccursAt(hay: string, needle: string, i: nat)
  {
    i + |needle| <= |hay| && hay[i..i + |needle|] == needle
  }

  /** Contains agrees with the existence of an occurrence position. */
  lemma {:induction false} ContainsIff(hay: string, needle: string)
    ensures Contains(hay, needle) <==> exists i: nat :: OccursAt(hay, needle, i)
  {
    if |needle| <= |hay| && hay[..|needle|] == needle {
      assert OccursAt(hay, needle, 0);
    } else if hay == [] {
    } else {
      ContainsIff(hay[1..], needle);
      if exists i: nat :: OccursAt(hay, needle, i) {
        var i: nat :| OccursAt(hay, needle, i);
        assert i != 0;
        assert hay[1..][i - 1..i - 1 + |needle|] == hay[i..i + |needle|];
        assert OccursAt(hay[1..], needle, i - 1);
      }
      if Contains(hay[1..], needle) {
        var j: nat :| OccursAt(hay[1..], needle, j);
        assert hay[1..][j..j + |needle|] == hay[j + 1..j + 1 + |needle|];
        assert OccursAt(hay, needle, j + 1);
      }
    }
  }

  /** The empty string occurs in every string. */
  lemma ContainsEmpty(hay: string)
    ensures Contains(hay, "")
  {
    assert hay[..0] == "";
  }

  function DigitChar(d: nat): char
    requires d < 10
  {
    ('0' as int + d) as char
  }

  /** `str(n)` for a natural number: its decimal digits, without leading
      zeros. */
  function NatToString(n: nat): string
  {
    if n < 10 then [DigitChar(n)] else NatToString(n / 10) + [DigitChar(n % 10)]
  }

  /** `str(i)` for an integer: a minus sign before the digits of negatives. */
  function IntToString(i: int): string
  {
    if i < 0 then "-" + NatToString(-i) else NatToString(i)
  }

  predicate IsDigit(c: char) { '0' <= c <= '9' }

  function DigitValue(c: char): nat
    requires IsDigit(c)
  {
    c as int - '0' as int
  }

  /** The value of a string of decimal digits, read most significant first. */
  function DigitsValue(s: string): nat
    requires forall i :: 0 <= i < |s| ==> IsDigit(s[i])
  {
    if s == [] then 0 else DigitsValue(s[..|s| - 1]) * 10 + DigitValue(s[|s| - 1])
  }

  /** `str(n)` consists of digits only, has no leading zero unless n is 0,
      and reads back as n. */
  lemma {:induction false} NatToStringDigits(n: nat)
    ensures |NatToString(n)| >= 1
    ensures forall i :: 0 <= i < |NatToString(n)| ==> IsDigit(NatToString(n)[i])
    ensures NatToString(n)[0] == '0' ==> n == 0
    ensures DigitsValue(NatToString(n)) == n
  {
    if n >= 10 {
      NatToStringDigits(n / 10);
      var s := NatToString(n / 10);
      assert NatToString(n) == s + [DigitChar(n % 10)];
      assert NatToString(n)[..|NatToString(n)| - 1] == s;
    }
  }
}
