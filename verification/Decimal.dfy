/** `str(n)` and `int(text)` for the integer fields that cross the Redis stream. */
module Decimal {
  import opened Common

  function Digit(d: nat): char
    requires d < 10
  {
    '0' + d as char
  }

  predicate IsDigit(c: char)
  {
    '0' <= c <= '9'
  }

  function Print(n: int): string
  {
    if n < 0 then "-" + PrintNat(-n) else PrintNat(n)
  }

  function PrintNat(n: nat): (text: string)
    ensures text != [] && forall c :: c in text ==> IsDigit(c)
  {
    if n < 10 then [Digit(n)] else PrintNat(n / 10) + [Digit(n % 10)]
  }

  predicate IsSpace(c: char)
  {
    c == ' ' || '\t' <= c <= '\r'
  }

  function Stripped(text: string): string
  {
    if text != [] && IsSpace(text[0]) then Stripped(text[1..])
    else if text != [] && IsSpace(text[|text| - 1]) then Stripped(text[..|text| - 1])
    else text
  }

  /**
   None stands for the ValueError of `int`; spaces around, a sign, and single underscores
   between digits are accepted.
  */
  function Parse(text: string): Option<int>
  {
    var t := Stripped(text);
    if t != [] && t[0] == '-' then
      match ParseNat(t[1..]) case None => None case Some(n) => Some(-n)
    else if t != [] && t[0] == '+' then ParseNat(t[1..])
    else ParseNat(t)
  }

  function ParseNat(text: string): (value: Option<int>)
    ensures value.Some? ==> value.value >= 0
    ensures value.Some? ==> text != [] && IsDigit(text[0]) && forall c :: c in text ==> IsDigit(c) || c == '_'
    ensures text != [] && (forall c :: c in text ==> IsDigit(c)) ==> value.Some?
  {
    if text == [] || !IsDigit(text[|text| - 1]) then None
    else
      var front, d := text[..|text| - 1], (text[|text| - 1] - '0') as int;
      assert text == front + [text[|text| - 1]];
      if front == [] then Some(d)
      else
        var digits := if front[|front| - 1] == '_' then front[..|front| - 1] else front;
        assert front[|front| - 1] in text && (front == digits || front == digits + ['_']);
        match ParseNat(digits) case None => None case Some(n) => Some(10 * n + d)
  }

  lemma {:induction false} NatRoundTrip(n: nat)
    ensures ParseNat(PrintNat(n)) == Some(n)
  {
    if n >= 10 {
      NatRoundTrip(n / 10);
      assert PrintNat(n)[..|PrintNat(n)| - 1] == PrintNat(n / 10);
    }
  }

  lemma NothingToStrip(n: int)
    ensures Stripped(Print(n)) == Print(n)
  {
    hide PrintNat;
    var text := Print(n);
    assert text[0] in text && text[|text| - 1] in text;
  }

  /** Printing then parsing gives every integer back, negative ones included. */
  lemma RoundTrip(n: int)
    ensures Parse(Print(n)) == Some(n)
  {
    hide ParseNat, PrintNat;
    NothingToStrip(n);
    var digits := PrintNat(if n < 0 then -n else n);
    NatRoundTrip(if n < 0 then -n else n);
    if n < 0 {
      assert ("-" + digits)[1..] == digits;
    } else {
      assert digits[0] in digits;
    }
  }

  // --- What a text means -----------------------------------------------------------

  predicate AreDigits(text: string)
  {
    text != [] && forall c <- text :: IsDigit(c)
  }

  function PowerOfTen(n: nat): nat
  {
    if n == 0 then 1 else 10 * PowerOfTen(n - 1)
  }

  lemma LastDigit(front: string, last: char)
    requires IsDigit(last) && (front == [] || AreDigits(front))
    ensures var units := last as int - 48;
            ParseNat(front + [last]) == if front == [] then Some(units) else Some(10 * ParseNat(front).value + units)
  {
    hide ParseNat;
    if front == [] {
      assert front + [last] == [last];
      OneDigit(last);
    } else {
      AllDigits(front);
      hide AreDigits;
      Appended(front, last, ParseNat(front).value, front + [last]);
    }
  }

  lemma OneDigit(last: char)
    requires IsDigit(last)
    ensures ParseNat([last]) == Some(last as int - 48)
  {
    assert [last][..0] == [] && (last - '0') as int == last as int - 48;
  }

  lemma AllDigits(text: string)
    requires AreDigits(text)
    ensures ParseNat(text).Some? && text[|text| - 1] != '_'
  {
    hide ParseNat;
    assert text[|text| - 1] in text;
  }

  lemma Appended(front: string, last: char, n: int, text: string)
    requires front != [] && front[|front| - 1] != '_' && IsDigit(last) && ParseNat(front) == Some(n)
    requires text == front + [last]
    ensures ParseNat(text) == Some(10 * n + (last as int - 48))
  {
    assert |text| == |front| + 1 && text[|text| - 1] == last;
    assert text[..|text| - 1] == front;
    assert (last - '0') as int == last as int - 48;
  }

  lemma OneMoreDigit(weight: nat, digit: int, value: int, units: int)
    ensures 10 * (digit * weight + value) + units == digit * (10 * weight) + (10 * value + units)
  {
  }

  /** The digit in front has the greatest weight. */
  lemma {:induction false} DigitsWeigh(first: char, rest: string)
    requires IsDigit(first) && AreDigits(rest)
    ensures ParseNat([first]) == Some(first as int - 48)
    ensures ParseNat([first] + rest) == Some((first as int - 48) * PowerOfTen(|rest|) + ParseNat(rest).value)
  {
    hide ParseNat;
    var front, last := rest[..|rest| - 1], rest[|rest| - 1];
    assert last in rest && rest == front + [last] && [first] + rest == ([first] + front) + [last];
    assert [] + [first] == [first];
    LastDigit([], first);
    LastDigit(front, last);
    LastDigit([first] + front, last);
    if front == [] {
      assert [first] + front == [first];
      assert PowerOfTen(1) == 10;
    } else {
      DigitsWeigh(first, front);
      OneMoreDigit(PowerOfTen(|front|), first as int - 48, ParseNat(front).value, last as int - 48);
    }
  }

  /** An underscore between digits does not count. */
  lemma UnderscoreIsSkipped(front: string, last: char)
    requires AreDigits(front) && IsDigit(last)
    ensures ParseNat(front + "_" + [last]) == ParseNat(front + [last]) != None
  {
    var text, short := front + "_" + [last], front + [last];
    assert text[..|text| - 1] == front + "_" && (front + "_")[..|front|] == front;
    assert short[..|short| - 1] == front;
    assert front[|front| - 1] in front;
  }

  /** Digits and underscores, each underscore between two digits. */
  predicate IsNumeral(text: string)
  {
    && text != [] && IsDigit(text[0]) && IsDigit(text[|text| - 1])
    && (forall i :: 0 <= i < |text| ==> IsDigit(text[i]) || text[i] == '_')
    && forall i :: 1 <= i < |text| ==> IsDigit(text[i - 1]) || IsDigit(text[i])
  }

  lemma ShorterNumeral(text: string, shorter: string)
    requires |text| >= 2 && IsDigit(text[|text| - 1])
    requires shorter == text[..|text| - if text[|text| - 2] == '_' then 2 else 1]
    ensures IsNumeral(text) <==> IsNumeral(shorter)
  {
    var n := |text|;
    if IsNumeral(shorter) {
      forall i | 1 <= i < n ensures IsDigit(text[i - 1]) || IsDigit(text[i]) {
        if i < |shorter| { assert IsDigit(shorter[i - 1]) || IsDigit(shorter[i]); }
      }
      forall i | 0 <= i < n ensures IsDigit(text[i]) || text[i] == '_' {
        if i < |shorter| { assert IsDigit(shorter[i]) || shorter[i] == '_'; }
      }
      assert text[0] == shorter[0];
    }
    if IsNumeral(text) {
      assert IsDigit(text[n - 2]) || text[n - 2] == '_';
      if text[n - 2] == '_' {
        assert n > 2 && (IsDigit(text[n - 3]) || IsDigit(text[n - 2]));
      }
      forall i | 1 <= i < |shorter| ensures IsDigit(shorter[i - 1]) || IsDigit(shorter[i]) {
        assert IsDigit(text[i - 1]) || IsDigit(text[i]);
      }
    }
  }

  /** Exactly the numerals are numbers. */
  lemma {:induction false} NumeralIff(text: string)
    ensures ParseNat(text).Some? <==> IsNumeral(text)
    decreases |text|
  {
    if |text| >= 2 && IsDigit(text[|text| - 1]) {
      var shorter := text[..|text| - if text[|text| - 2] == '_' then 2 else 1];
      hide IsNumeral;
      ShorterNumeral(text, shorter);
      NumeralIff(shorter);
      assert text[..|text| - 1][..|text| - 2] == text[..|text| - 2];
    }
  }

  predicate AreSpaces(text: string)
  {
    forall c <- text :: c in " \t\n\r" || c as int == 11 || c as int == 12
  }

  lemma {:induction false} SpacesAreStripped(before: string, core: string, after: string)
    requires AreSpaces(before) && AreSpaces(after) && core != []
    requires !IsSpace(core[0]) && !IsSpace(core[|core| - 1])
    ensures Stripped(before + core + after) == core
    decreases |before| + |after|
  {
    var text := before + core + after;
    if before != [] {
      assert before[0] in before && text[1..] == before[1..] + core + after;
      SpacesAreStripped(before[1..], core, after);
    } else if after != [] {
      var front := after[..|after| - 1];
      assert after[|after| - 1] in after && text[..|text| - 1] == before + core + front && text[0] == core[0];
      SpacesAreStripped(before, core, front);
    } else {
      assert text == core;
    }
  }

  lemma Signed(numeral: string)
    requires IsNumeral(numeral)
    ensures !IsSpace(numeral[0]) && !IsSpace(numeral[|numeral| - 1]) && numeral[0] != '-' && numeral[0] != '+'
    ensures ("+" + numeral)[1..] == numeral && ("-" + numeral)[1..] == numeral
  {
  }

  /** Spaces on either side and one sign are accepted. */
  lemma SignedAndSpaced(before: string, numeral: string, after: string)
    requires AreSpaces(before) && AreSpaces(after) && IsNumeral(numeral)
    ensures ParseNat(numeral).Some?
    ensures Parse(before + numeral + after) == ParseNat(numeral)
    ensures Parse(before + ("+" + numeral) + after) == ParseNat(numeral)
    ensures Parse(before + ("-" + numeral) + after) == Some(-ParseNat(numeral).value)
  {
    hide ParseNat, Stripped, AreSpaces;
    NumeralIff(numeral);
    Signed(numeral);
    SpacesAreStripped(before, numeral, after);
    SpacesAreStripped(before, "+" + numeral, after);
    SpacesAreStripped(before, "-" + numeral, after);
  }
}
