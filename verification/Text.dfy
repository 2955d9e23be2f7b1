/** ASCII text: trimming, lower case, splitting, joining, and numerals in a base. */
module Text {
  import opened Common

  // ---------------------------------------------------------------------------------------------
  // Characters
  // ---------------------------------------------------------------------------------------------

  predicate IsSpace(c: char) {
    c == ' ' || c == '\t' || c == '\n' || c == '\r'
  }

  predicate IsDigit(c: char) {
    '0' <= c <= '9'
  }

  predicate IsLetter(c: char) {
    'a' <= c <= 'z' || 'A' <= c <= 'Z'
  }

  /** A digit of base 10 or 16, lower case only. */
  predicate IsNumeral(c: char, base: nat) {
    IsDigit(c) || (base == 16 && 'a' <= c <= 'f')
  }

  function Trim(s: string): string {
    if |s| > 0 && IsSpace(s[0]) then Trim(s[1..])
    else if |s| > 0 && IsSpace(s[|s| - 1]) then Trim(s[..|s| - 1])
    else s
  }

  /** What is cut off is blank, and nothing that is left at either end is. */
  lemma {:induction false} TrimIs(s: string) returns (left: string, right: string)
    ensures s == left + Trim(s) + right
    ensures (forall i :: 0 <= i < |left| ==> IsSpace(left[i])) && (forall i :: 0 <= i < |right| ==> IsSpace(right[i]))
    ensures |Trim(s)| > 0 ==> !IsSpace(Trim(s)[0]) && !IsSpace(Trim(s)[|Trim(s)| - 1])
    decreases |s|
  {
    if |s| > 0 && IsSpace(s[0]) {
      left, right := TrimIs(s[1..]);
      left := [s[0]] + left;
    } else if |s| > 0 && IsSpace(s[|s| - 1]) {
      left, right := TrimIs(s[..|s| - 1]);
      right := right + [s[|s| - 1]];
    } else {
      left, right := "", "";
      assert s == left + s + right;
    }
  }

  function LowerChar(c: char): char {
    if 'A' <= c <= 'Z' then (c as int - 'A' as int + 'a' as int) as char else c
  }

  function Lower(s: string): string {
    if |s| == 0 then "" else [LowerChar(s[0])] + Lower(s[1..])
  }

  /** Lower case changes capital letters and nothing else. */
  lemma {:induction false} LowerIs(s: string)
    ensures |Lower(s)| == |s|
    ensures forall i :: 0 <= i < |s| ==>
              if 'A' <= s[i] <= 'Z' then Lower(s)[i] as int - 'a' as int == s[i] as int - 'A' as int else Lower(s)[i] == s[i]
  {
    if |s| > 0 {
      LowerIs(s[1..]);
    }
  }

  // ---------------------------------------------------------------------------------------------
  // Splitting and joining
  // ---------------------------------------------------------------------------------------------

  /** The pieces between the separators, always at least one. */
  function Split(s: string, separator: char): (pieces: seq<string>)
    ensures |pieces| > 0
    ensures forall i :: 0 <= i < |pieces| ==> separator !in pieces[i]
  {
    if |s| == 0 then [""]
    else if s[0] == separator then [""] + Split(s[1..], separator)
    else
      var rest := Split(s[1..], separator);
      [[s[0]] + rest[0]] + rest[1..]
  }

  function Join(pieces: seq<string>, separator: char): string {
    if |pieces| == 0 then ""
    else if |pieces| == 1 then pieces[0]
    else pieces[0] + [separator] + Join(pieces[1..], separator)
  }

  lemma {:induction false} SplitPrefix(piece: string, rest: string, separator: char)
    requires separator !in piece
    ensures Split(piece + [separator] + rest, separator) == [piece] + Split(rest, separator)
  {
    var s := piece + [separator] + rest;
    if |piece| == 0 {
      assert s[1..] == rest;
    } else {
      assert s[1..] == piece[1..] + [separator] + rest;
      SplitPrefix(piece[1..], rest, separator);
      assert [piece[0]] + piece[1..] == piece;
    }
  }

  lemma {:induction false} SplitWhole(piece: string, separator: char)
    requires separator !in piece
    ensures Split(piece, separator) == [piece]
  {
    if |piece| > 0 {
      SplitWhole(piece[1..], separator);
      assert [piece[0]] + piece[1..] == piece;
    }
  }

  /** Splitting a join gives the pieces back. */
  lemma {:induction false} SplitJoin(pieces: seq<string>, separator: char)
    requires |pieces| > 0
    requires forall i :: 0 <= i < |pieces| ==> separator !in pieces[i]
    ensures Split(Join(pieces, separator), separator) == pieces
  {
    if |pieces| == 1 {
      SplitWhole(pieces[0], separator);
    } else {
      SplitJoin(pieces[1..], separator);
      SplitPrefix(pieces[0], Join(pieces[1..], separator), separator);
    }
  }

  lemma {:induction false} JoinCharacters(pieces: seq<string>, separator: char, c: char)
    requires c != separator && forall i :: 0 <= i < |pieces| ==> c !in pieces[i]
    ensures c !in Join(pieces, separator)
  {
    if |pieces| > 1 {
      JoinCharacters(pieces[1..], separator, c);
    }
  }

  // ---------------------------------------------------------------------------------------------
  // Numerals
  // ---------------------------------------------------------------------------------------------

  function DigitChar(d: nat): (c: char)
    requires d < 16
    ensures IsNumeral(c, 16) && (d < 10 ==> IsDigit(c))
  {
    if d < 10 then (d + '0' as int) as char else (d - 10 + 'a' as int) as char
  }

  function DigitValue(c: char): (d: nat)
    requires IsNumeral(c, 16)
    ensures d < 16 && (IsDigit(c) ==> d < 10)
  {
    if IsDigit(c) then c as int - '0' as int else c as int - 'a' as int + 10
  }

  lemma DigitRoundTrip(d: nat)
    requires d < 16
    ensures DigitValue(DigitChar(d)) == d
  {
  }

  predicate AllNumerals(s: string, base: nat) {
    forall i :: 0 <= i < |s| ==> IsNumeral(s[i], base)
  }

  /** Positional value; the empty text is zero. */
  function ParseNumeral(s: string, base: nat): nat
    requires AllNumerals(s, base)
  {
    if |s| == 0 then 0
    else ParseNumeral(s[..|s| - 1], base) * base + DigitValue(s[|s| - 1])
  }

  /** Lower case, no leading zeros, "0" for zero. */
  function PrintNumeral(n: nat, base: nat): (s: string)
    requires 2 <= base <= 16
    ensures |s| > 0
    decreases n
  {
    if n < base then [DigitChar(n)]
    else PrintNumeral(n / base, base) + [DigitChar(n % base)]
  }

  /** Printing then parsing a decimal or hexadecimal numeral is the identity. */
  lemma {:induction false} NumeralRoundTrip(n: nat, base: nat)
    requires base == 10 || base == 16
    ensures AllNumerals(PrintNumeral(n, base), base)
    ensures ParseNumeral(PrintNumeral(n, base), base) == n
    ensures PrintNumeral(n, base)[0] == '0' ==> n == 0
    decreases n
  {
    if n < base {
      DigitRoundTrip(n);
      var s := PrintNumeral(n, base);
      assert s[..|s| - 1] == "";
    } else {
      NumeralRoundTrip(n / base, base);
      DigitRoundTrip(n % base);
      var s := PrintNumeral(n, base);
      assert s[..|s| - 1] == PrintNumeral(n / base, base);
    }
  }

  function Power(base: nat, k: nat): nat {
    if k == 0 then 1 else base * Power(base, k - 1)
  }

  lemma {:induction false} PowerMonotone(base: nat, i: nat, j: nat)
    requires base > 0 && i <= j
    ensures 0 < Power(base, i) <= Power(base, j)
  {
    if j > 0 && i < j {
      PowerMonotone(base, i, j - 1);
    } else if i > 0 {
      PowerMonotone(base, i - 1, j - 1);
    }
  }

  lemma QuotientBelow(n: nat, base: nat, m: nat)
    requires base > 0 && n < base * m
    ensures n / base < m
  {
    assert n == base * (n / base) + n % base;
    assert base * (n / base) < base * m;
  }

  /** A number below base^k has at most k numerals. */
  lemma {:induction false} NumeralLength(n: nat, base: nat, k: nat)
    requires 2 <= base <= 16 && k > 0 && n < Power(base, k)
    ensures |PrintNumeral(n, base)| <= k
    decreases k
  {
    if n >= base {
      assert Power(base, 1) == base;
      QuotientBelow(n, base, Power(base, k - 1));
      NumeralLength(n / base, base, k - 1);
    }
  }
}
