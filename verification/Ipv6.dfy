/**
 * IPv6 text: the parser, the printer of section 4 of RFC 5952, and the canonical form
 * (rate-limiting/rate-limit-discriminator.ts). An address is its eight 16-bit groups.
 */
module Ipv6 {
  import opened Common
  import opened Text

  const GROUPS: nat := 8
  const GROUP_LIMIT: nat := 0x1_0000
  const GAP := "::"

  predicate IsAddress(groups: seq<nat>) {
    |groups| == GROUPS && forall i :: 0 <= i < |groups| ==> groups[i] < GROUP_LIMIT
  }

  // ---------------------------------------------------------------------------------------------
  // Parsing
  // ---------------------------------------------------------------------------------------------

  /** The pieces between the `::`s, found left to right without overlap. */
  function SplitGap(s: string): (halves: seq<string>)
    ensures |halves| > 0
  {
    if |s| == 0 then [""]
    else if GAP <= s then [""] + SplitGap(s[2..])
    else
      var rest := SplitGap(s[1..]);
      [[s[0]] + rest[0]] + rest[1..]
  }

  predicate IsGroupText(s: string) {
    1 <= |s| <= 4 && AllNumerals(s, 16)
  }

  predicate IsOctetText(s: string) {
    1 <= |s| <= 3 && AllNumerals(s, 10) && ParseNumeral(s, 10) <= 255
  }

  /** A dotted quad fills exactly two groups. */
  function ParseOctets(octets: seq<string>): Option<seq<nat>> {
    if |octets| == 4 && forall i :: 0 <= i < 4 ==> IsOctetText(octets[i]) then
      Some([ParseNumeral(octets[0], 10) * 256 + ParseNumeral(octets[1], 10),
            ParseNumeral(octets[2], 10) * 256 + ParseNumeral(octets[3], 10)])
    else None
  }

  function ParseQuad(piece: string): Option<seq<nat>> {
    ParseOctets(Split(piece, '.'))
  }

  /** One piece between colons; a quad is only legal as the last one. */
  function ParsePiece(piece: string, isLast: bool): Option<seq<nat>> {
    if '.' in piece then (if isLast then ParseQuad(piece) else None)
    else if IsGroupText(piece) then Some([ParseNumeral(piece, 16)])
    else None
  }

  function Concat(a: Option<seq<nat>>, b: Option<seq<nat>>): Option<seq<nat>> {
    if a.Some? && b.Some? then Some(a.value + b.value) else None
  }

  lemma ConcatEmpty(a: Option<seq<nat>>)
    ensures Concat(Some([]), a) == a == Concat(a, Some([]))
  {
    if a.Some? {
      assert [] + a.value == a.value == a.value + [];
    }
  }

  lemma ConcatAssociative(a: Option<seq<nat>>, b: Option<seq<nat>>, c: Option<seq<nat>>)
    ensures Concat(Concat(a, b), c) == Concat(a, Concat(b, c))
  {
    if a.Some? && b.Some? && c.Some? {
      assert a.value + b.value + c.value == a.value + (b.value + c.value);
    }
  }

  function ParsePieces(pieces: seq<string>): Option<seq<nat>> {
    if |pieces| == 0 then Some([])
    else Concat(ParsePiece(pieces[0], |pieces| == 1), ParsePieces(pieces[1..]))
  }

  function ParseGroups(part: string): Option<seq<nat>> {
    if |part| == 0 then Some([]) else ParsePieces(Split(part, ':'))
  }

  function Zeros(n: nat): (zeros: seq<nat>)
    ensures |zeros| == n && forall i :: 0 <= i < n ==> zeros[i] == 0
  {
    seq(n, _ => 0)
  }

  /** One half is the whole address; between two halves there is a gap of one or more zero groups. */
  function ParseHalves(halves: seq<string>): Option<seq<nat>>
    requires |halves| > 0
  {
    if |halves| > 2 then None
    else
      var head := ParseGroups(halves[0]);
      var tail := if |halves| == 2 then ParseGroups(halves[1]) else Some([]);
      if head.None? || tail.None? then None
      else if |halves| == 2 then
        var gap := GROUPS - |head.value| - |tail.value|;
        if gap >= 1 then Some(head.value + Zeros(gap) + tail.value) else None
      else if |head.value| == GROUPS then head
      else None
  }

  /** The groups a text stands for. */
  function Parse(value: string): Option<seq<nat>> {
    ParseHalves(SplitGap(value))
  }

  lemma {:induction false} NumeralBelow(s: string, base: nat)
    requires base == 10 || base == 16
    requires AllNumerals(s, base)
    ensures ParseNumeral(s, base) < Power(base, |s|)
  {
    if |s| > 0 {
      var front := s[..|s| - 1];
      NumeralBelow(front, base);
      assert ParseNumeral(s, base) <= (ParseNumeral(front, base) + 1) * base - 1;
    }
  }

  lemma GroupBelow(s: string)
    requires IsGroupText(s)
    ensures ParseNumeral(s, 16) < GROUP_LIMIT
  {
    NumeralBelow(s, 16);
    PowerMonotone(16, |s|, 4);
    assert Power(16, 4) == 16 * (16 * (16 * (16 * Power(16, 0))));
  }

  lemma {:induction false} PiecesInRange(pieces: seq<string>)
    requires ParsePieces(pieces).Some?
    ensures forall i :: 0 <= i < |ParsePieces(pieces).value| ==> ParsePieces(pieces).value[i] < GROUP_LIMIT
  {
    if |pieces| > 0 {
      PiecesInRange(pieces[1..]);
      if IsGroupText(pieces[0]) {
        GroupBelow(pieces[0]);
      }
    }
  }

  /** Whatever the parser accepts is an address: eight groups of sixteen bits. */
  lemma ParsedIsAddress(value: string)
    requires Parse(value).Some?
    ensures IsAddress(Parse(value).value)
  {
    var halves := SplitGap(value);
    if |halves[0]| > 0 {
      PiecesInRange(Split(halves[0], ':'));
    }
    if |halves| == 2 && |halves[1]| > 0 {
      PiecesInRange(Split(halves[1], ':'));
    }
  }

  // ---------------------------------------------------------------------------------------------
  // The longest run of zero groups
  // ---------------------------------------------------------------------------------------------

  predicate IsZeroRun(groups: seq<nat>, start: int, length: int) {
    0 <= start && 0 <= length && start + length <= |groups| && forall i :: start <= i < start + length ==> groups[i] == 0
  }

  /** Section 4.2.3 of RFC 5952: the longest run, and the first of those that are equally long. */
  ghost predicate IsLeftmostLongest(groups: seq<nat>, start: int, length: int) {
    && IsZeroRun(groups, start, length)
    && forall s, l :: IsZeroRun(groups, s, l) ==> l <= length && (l == length && l > 0 ==> start <= s)
  }

  /** How many zero groups there are from `i` on. */
  function RunFrom(groups: seq<nat>, i: nat): (length: nat)
    requires i <= |groups|
    ensures IsZeroRun(groups, i, length)
    ensures i + length < |groups| ==> groups[i + length] != 0
    decreases |groups| - i
  {
    if i == |groups| || groups[i] != 0 then 0 else 1 + RunFrom(groups, i + 1)
  }

  function LongestFrom(groups: seq<nat>, i: nat): (best: (nat, nat))
    requires i <= |groups|
    ensures i <= best.0 && IsZeroRun(groups, best.0, best.1)
    ensures forall s, l :: IsZeroRun(groups, s, l) && s >= i ==> l <= best.1 && (l == best.1 && l > 0 ==> best.0 <= s)
    decreases |groups| - i
  {
    if i == |groups| then (i, 0)
    else
      var (own, rest) := (RunFrom(groups, i), LongestFrom(groups, i + 1));
      if own >= rest.1 && own > 0 then (i, own) else rest
  }

  /** The leftmost longest run; its length is zero when no group is. */
  function LongestRun(groups: seq<nat>): (best: (nat, nat))
    ensures IsLeftmostLongest(groups, best.0, best.1)
  {
    LongestFrom(groups, 0)
  }

  lemma LeftmostLongestUnique(groups: seq<nat>, a: int, m: int, b: int, n: int)
    requires IsLeftmostLongest(groups, a, m) && IsLeftmostLongest(groups, b, n)
    ensures m == n && (m > 0 ==> a == b)
  {
  }

  // ---------------------------------------------------------------------------------------------
  // Printing
  // ---------------------------------------------------------------------------------------------

  /** Lower-case hexadecimal without leading zeros. */
  function PrintGroups(groups: seq<nat>): (pieces: seq<string>)
    ensures |pieces| == |groups|
    ensures forall i :: 0 <= i < |groups| ==> pieces[i] == PrintNumeral(groups[i], 16)
  {
    seq(|groups|, i requires 0 <= i < |groups| => PrintNumeral(groups[i], 16))
  }

  function JoinGroups(groups: seq<nat>): string {
    Join(PrintGroups(groups), ':')
  }

  /** The text of section 4 of RFC 5952: the run is compressed when it is two groups or longer. */
  function Print(groups: seq<nat>): string {
    var (start, length) := LongestRun(groups);
    if length < 2 then JoinGroups(groups)
    else JoinGroups(groups[..start]) + GAP + JoinGroups(groups[start + length..])
  }

  // ---------------------------------------------------------------------------------------------
  // Reading a printed address back
  // ---------------------------------------------------------------------------------------------

  predicate NoGap(s: string) {
    forall i :: 0 <= i < |s| - 1 ==> !(s[i] == ':' && s[i + 1] == ':')
  }

  lemma NoGapTail(s: string)
    requires NoGap(s) && |s| > 0
    ensures NoGap(s[1..])
  {
    forall i | 0 <= i < |s| - 2
      ensures !(s[1..][i] == ':' && s[1..][i + 1] == ':')
    {
      assert !(s[i + 1] == ':' && s[i + 2] == ':');
    }
  }

  lemma {:induction false} SplitGapWhole(s: string)
    requires NoGap(s)
    ensures SplitGap(s) == [s]
  {
    if |s| > 0 {
      NoGapTail(s);
      SplitGapWhole(s[1..]);
      assert !(GAP <= s) by {
        assert |s| >= 2 ==> !(s[0] == ':' && s[1] == ':');
      }
      assert [s[0]] + s[1..] == s;
    }
  }

  lemma {:induction false} SplitGapOnce(head: string, tail: string)
    requires NoGap(head) && NoGap(tail)
    requires |head| > 0 ==> head[|head| - 1] != ':'
    requires |tail| > 0 ==> tail[0] != ':'
    ensures SplitGap(head + GAP + tail) == [head, tail]
  {
    var s := head + GAP + tail;
    if |head| == 0 {
      assert s[2..] == tail;
      SplitGapWhole(tail);
    } else {
      assert s[1..] == head[1..] + GAP + tail;
      NoGapTail(head);
      SplitGapOnce(head[1..], tail);
      assert !(GAP <= s) by {
        assert s[0] == head[0];
        assert |head| >= 2 ==> s[1] == head[1] && !(head[0] == ':' && head[1] == ':');
      }
      assert [head[0]] + head[1..] == head;
    }
  }

  lemma PrintedGroup(n: nat)
    requires n < GROUP_LIMIT
    ensures var s := PrintNumeral(n, 16);
            IsGroupText(s) && '.' !in s && ':' !in s && ParseNumeral(s, 16) == n
  {
    NumeralRoundTrip(n, 16);
    assert Power(16, 4) == 16 * (16 * (16 * (16 * Power(16, 0))));
    NumeralLength(n, 16, 4);
  }

  lemma {:induction false} PiecesRoundTrip(groups: seq<nat>)
    requires forall i :: 0 <= i < |groups| ==> groups[i] < GROUP_LIMIT
    ensures ParsePieces(PrintGroups(groups)) == Some(groups)
  {
    if |groups| > 0 {
      assert PrintGroups(groups)[1..] == PrintGroups(groups[1..]);
      PiecesRoundTrip(groups[1..]);
      PrintedGroup(groups[0]);
      assert [groups[0]] + groups[1..] == groups;
    }
  }

  /** Joining non-empty pieces without colons makes no `::`, and no colon at either end. */
  lemma {:induction false} JoinHasNoGap(pieces: seq<string>)
    requires forall i :: 0 <= i < |pieces| ==> |pieces[i]| > 0 && ':' !in pieces[i]
    ensures var s := Join(pieces, ':');
            && NoGap(s) && (|s| == 0 <==> |pieces| == 0)
            && (|s| > 0 ==> s[0] != ':' && s[|s| - 1] != ':')
  {
    if |pieces| > 1 {
      JoinHasNoGap(pieces[1..]);
      var (first, rest) := (pieces[0], Join(pieces[1..], ':'));
      var s := first + [':'] + rest;
      forall i | 0 <= i < |s| - 1
        ensures !(s[i] == ':' && s[i + 1] == ':')
      {
        if i > |first| {
          assert s[i] == rest[i - |first| - 1] && s[i + 1] == rest[i - |first|];
        } else if i == |first| {
          assert s[i + 1] == rest[0];
        } else {
          assert s[i] == first[i];
        }
      }
    }
  }

  lemma PrintedHasNoGap(groups: seq<nat>)
    requires forall i :: 0 <= i < |groups| ==> groups[i] < GROUP_LIMIT
    ensures var s := JoinGroups(groups);
            NoGap(s) && (|s| > 0 ==> s[0] != ':' && s[|s| - 1] != ':') && ParseGroups(s) == Some(groups)
  {
    forall i | 0 <= i < |groups|
      ensures |PrintGroups(groups)[i]| > 0 && ':' !in PrintGroups(groups)[i]
    {
      PrintedGroup(groups[i]);
    }
    JoinHasNoGap(PrintGroups(groups));
    if |groups| > 0 {
      SplitJoin(PrintGroups(groups), ':');
      PiecesRoundTrip(groups);
    }
  }

  lemma ParseWhole(groups: seq<nat>)
    requires IsAddress(groups)
    ensures Parse(JoinGroups(groups)) == Some(groups)
  {
    PrintedHasNoGap(groups);
    SplitGapWhole(JoinGroups(groups));
  }

  lemma GapHalves(head: string, tail: string, h: seq<nat>, t: seq<nat>)
    requires ParseGroups(head) == Some(h) && ParseGroups(tail) == Some(t) && |h| + |t| < GROUPS
    ensures ParseHalves([head, tail]) == Some(h + Zeros(GROUPS - |h| - |t|) + t)
  {
  }

  lemma ParseCompressed(head: seq<nat>, tail: seq<nat>)
    requires forall i :: 0 <= i < |head| ==> head[i] < GROUP_LIMIT
    requires forall i :: 0 <= i < |tail| ==> tail[i] < GROUP_LIMIT
    requires |head| + |tail| < GROUPS
    ensures Parse(JoinGroups(head) + GAP + JoinGroups(tail)) == Some(head + Zeros(GROUPS - |head| - |tail|) + tail)
  {
    PrintedHasNoGap(head);
    PrintedHasNoGap(tail);
    var halves := [JoinGroups(head), JoinGroups(tail)];
    SplitGapOnce(halves[0], halves[1]);
    GapHalves(halves[0], halves[1], head, tail);
  }

  /** Reading back what is printed gives the same address, whatever its groups. */
  lemma ParsePrint(groups: seq<nat>)
    requires IsAddress(groups)
    ensures Parse(Print(groups)) == Some(groups)
  {
    var (start, length) := LongestRun(groups);
    if length < 2 {
      ParseWhole(groups);
    } else {
      var (head, tail) := (groups[..start], groups[start + length..]);
      ParseCompressed(head, tail);
      assert head + Zeros(length) + tail == groups;
    }
  }

  /** So a text determines its address: no two are printed alike. */
  lemma PrintInjective(a: seq<nat>, b: seq<nat>)
    requires IsAddress(a) && IsAddress(b) && Print(a) == Print(b)
    ensures a == b
  {
    ParsePrint(a);
    ParsePrint(b);
  }

  // ---------------------------------------------------------------------------------------------
  // The canonical form
  // ---------------------------------------------------------------------------------------------

  /** Section 2.5.5.2 of RFC 4291: eighty zero bits, sixteen one bits, and an IPv4 address. */
  predicate IsMapped(groups: seq<nat>) {
    |groups| == GROUPS && groups[5] == 0xffff && forall i :: 0 <= i < 5 ==> groups[i] == 0
  }

  function Octets(high: nat, low: nat): (pieces: seq<string>)
    ensures |pieces| == 4
  {
    [PrintNumeral(high / 256, 10), PrintNumeral(high % 256, 10), PrintNumeral(low / 256, 10), PrintNumeral(low % 256, 10)]
  }

  function DottedQuad(high: nat, low: nat): string {
    Join(Octets(high, low), '.')
  }

  function CanonicalText(groups: seq<nat>): string
    requires IsAddress(groups)
  {
    if IsMapped(groups) then DottedQuad(groups[6], groups[7]) else Print(groups)
  }

  function Canonicalize(value: string): Option<string> {
    if Parse(value).None? then None
    else
      ParsedIsAddress(value);
      Some(CanonicalText(Parse(value).value))
  }

  lemma PrintedOctet(n: nat)
    requires n < 256
    ensures var s := PrintNumeral(n, 10);
            IsOctetText(s) && '.' !in s && ':' !in s && ParseNumeral(s, 10) == n
  {
    NumeralRoundTrip(n, 10);
    assert Power(10, 3) == 10 * (10 * (10 * Power(10, 0)));
    NumeralLength(n, 10, 3);
  }

  lemma OctetsOk(high: nat, low: nat)
    requires high < GROUP_LIMIT && low < GROUP_LIMIT
    ensures forall i :: 0 <= i < 4 ==> '.' !in Octets(high, low)[i] && ':' !in Octets(high, low)[i]
    ensures ParseOctets(Octets(high, low)) == Some([high, low])
  {
    PrintedOctet(high / 256);
    PrintedOctet(high % 256);
    PrintedOctet(low / 256);
    PrintedOctet(low % 256);
    assert high / 256 * 256 + high % 256 == high && low / 256 * 256 + low % 256 == low;
  }

  lemma QuadRoundTrip(high: nat, low: nat)
    requires high < GROUP_LIMIT && low < GROUP_LIMIT
    ensures Split(DottedQuad(high, low), '.') == Octets(high, low)
    ensures ParseQuad(DottedQuad(high, low)) == Some([high, low])
    ensures ':' !in DottedQuad(high, low)
  {
    OctetsOk(high, low);
    SplitJoin(Octets(high, low), '.');
    JoinCharacters(Octets(high, low), '.', ':');
  }

  lemma JoinHasSeparator(pieces: seq<string>, separator: char)
    requires |pieces| > 1
    ensures separator in Join(pieces, separator)
  {
    assert Join(pieces, separator)[|pieces[0]|] == separator;
  }

  lemma PrintHasColon(groups: seq<nat>)
    requires IsAddress(groups)
    ensures ':' in Print(groups)
  {
    var (start, length) := LongestRun(groups);
    if length < 2 {
      JoinHasSeparator(PrintGroups(groups), ':');
    } else {
      assert Print(groups)[|JoinGroups(groups[..start])|] == ':';
    }
  }

  lemma MappedInjective(g: seq<nat>, h: seq<nat>)
    requires IsAddress(g) && IsAddress(h) && IsMapped(g) && IsMapped(h)
    requires DottedQuad(g[6], g[7]) == DottedQuad(h[6], h[7])
    ensures g == h
  {
    QuadRoundTrip(g[6], g[7]);
    QuadRoundTrip(h[6], h[7]);
    assert [g[6], g[7]] == [h[6], h[7]];
    forall i | 0 <= i < GROUPS
      ensures g[i] == h[i]
    {
      assert i < 5 || i == 5 || i == 6 || i == 7;
      assert [g[6], g[7]][0] == [h[6], h[7]][0] && [g[6], g[7]][1] == [h[6], h[7]][1];
    }
  }

  /** A printed address has a colon and a dotted quad has none. */
  lemma MappedIsApart(g: seq<nat>, h: seq<nat>)
    requires IsAddress(g) && IsAddress(h) && IsMapped(g)
    ensures DottedQuad(g[6], g[7]) != Print(h)
  {
    QuadRoundTrip(g[6], g[7]);
    PrintHasColon(h);
  }

  lemma CanonicalTextInjective(g: seq<nat>, h: seq<nat>)
    requires IsAddress(g) && IsAddress(h) && CanonicalText(g) == CanonicalText(h)
    ensures g == h
  {
    if IsMapped(g) && IsMapped(h) {
      MappedInjective(g, h);
    } else if IsMapped(g) {
      MappedIsApart(g, h);
    } else if IsMapped(h) {
      MappedIsApart(h, g);
    } else {
      PrintInjective(g, h);
    }
  }

  /**
   * One string for one address and for no other: two texts the parser accepts get the same
   * canonical form exactly when they stand for the same 128 bits, IPv4-mapped addresses included.
   */
  lemma CanonicalIffSameAddress(a: string, b: string)
    requires Parse(a).Some? && Parse(b).Some?
    ensures Canonicalize(a) == Canonicalize(b) <==> Parse(a) == Parse(b)
  {
    var (g, h) := (Parse(a).value, Parse(b).value);
    ParsedIsAddress(a);
    ParsedIsAddress(b);
    if CanonicalText(g) == CanonicalText(h) {
      CanonicalTextInjective(g, h);
    }
  }

  // ---------------------------------------------------------------------------------------------
  // Spellings
  // ---------------------------------------------------------------------------------------------

  lemma NoColonNoGap(s: string)
    requires ':' !in s
    ensures NoGap(s) && Split(s, ':') == [s]
  {
    SplitWhole(s, ':');
  }

  lemma QuadPiece(high: nat, low: nat)
    requires high < GROUP_LIMIT && low < GROUP_LIMIT
    ensures ParsePieces([DottedQuad(high, low)]) == Some([high, low])
    ensures ParseGroups(DottedQuad(high, low)) == Some([high, low])
  {
    var quad := DottedQuad(high, low);
    QuadRoundTrip(high, low);
    NoColonNoGap(quad);
    JoinHasSeparator(Octets(high, low), '.');
    assert ParsePieces([quad][1..]) == Some([]);
    assert [high, low] + [] == [high, low];
  }

  lemma AllOnes()
    ensures IsGroupText("ffff") && '.' !in "ffff" && ParseNumeral("ffff", 16) == 0xffff
  {
    assert "ffff"[..3] == "fff" && "fff"[..2] == "ff" && "ff"[..1] == "f" && "f"[..0] == "";
  }

  lemma MappedTail(high: nat, low: nat)
    requires high < GROUP_LIMIT && low < GROUP_LIMIT
    ensures var tail := "ffff" + [':'] + DottedQuad(high, low);
            ParseGroups(tail) == Some([0xffff, high, low]) && NoGap(tail) && LastPiece(tail) == DottedQuad(high, low)
  {
    var quad := DottedQuad(high, low);
    var tail := "ffff" + [':'] + quad;
    QuadRoundTrip(high, low);
    QuadPiece(high, low);
    AllOnes();
    NoColonNoGap(quad);
    SplitPrefix("ffff", quad, ':');
    assert Split(tail, ':') == ["ffff", quad] && ["ffff", quad][1..] == [quad];
    assert [0xffff] + [high, low] == [0xffff, high, low];
    forall i | 0 <= i < |tail| - 1
      ensures !(tail[i] == ':' && tail[i + 1] == ':')
    {
      assert i < 4 ==> tail[i] == 'f';
      assert i >= 4 ==> tail[i + 1] == quad[i - 4];
    }
  }

  /** The usual spelling of a mapped address collapses to its IPv4 address. */
  lemma MappedSpelling(high: nat, low: nat)
    requires high < GROUP_LIMIT && low < GROUP_LIMIT
    ensures var text := GAP + "ffff:" + DottedQuad(high, low);
            IsIpv6Text(text) && Canonicalize(text) == Some(DottedQuad(high, low))
  {
    var tail := "ffff" + [':'] + DottedQuad(high, low);
    MappedTail(high, low);
    SplitGapOnce("", tail);
    assert "" + GAP + tail == GAP + "ffff:" + DottedQuad(high, low);
    GapHalves("", tail, [], [0xffff, high, low]);
    QuadTextIsStrict(high, low);
    Ipv6TextIff("" + GAP + tail);
    var groups := [] + Zeros(5) + [0xffff, high, low];
    assert groups[5] == 0xffff && groups[6] == high && groups[7] == low && IsMapped(groups);
  }

  /** A group written with `k` leading zeros. */
  function Padded(n: nat, k: nat): string {
    if k == 0 then PrintNumeral(n, 16) else "0" + Padded(n, k - 1)
  }

  lemma {:induction false} LeadingZero(s: string)
    requires AllNumerals(s, 16)
    ensures AllNumerals("0" + s, 16) && ParseNumeral("0" + s, 16) == ParseNumeral(s, 16)
  {
    var longer := "0" + s;
    if |s| == 0 {
      assert longer[..0] == "";
    } else {
      LeadingZero(s[..|s| - 1]);
      assert longer[..|longer| - 1] == "0" + s[..|s| - 1];
    }
  }

  lemma {:induction false} PaddedGroup(n: nat, k: nat)
    requires n < GROUP_LIMIT
    ensures var s := Padded(n, k);
            && |s| == k + |PrintNumeral(n, 16)| && AllNumerals(s, 16) && ParseNumeral(s, 16) == n
            && '.' !in s && ':' !in s
  {
    if k == 0 {
      PrintedGroup(n);
    } else {
      PaddedGroup(n, k - 1);
      LeadingZero(Padded(n, k - 1));
    }
  }

  /** Some way to write the groups: lower-case hexadecimal, each with as many leading zeros as fit four digits. */
  predicate Spells(pieces: seq<string>, groups: seq<nat>, zeros: seq<nat>) {
    && |pieces| == |groups| == |zeros|
    && forall i :: 0 <= i < |groups| ==> groups[i] < GROUP_LIMIT && pieces[i] == Padded(groups[i], zeros[i]) && |pieces[i]| <= 4
  }

  lemma {:induction false} SpelledPieces(pieces: seq<string>, groups: seq<nat>, zeros: seq<nat>)
    requires Spells(pieces, groups, zeros)
    ensures ParsePieces(pieces) == Some(groups)
    ensures forall i :: 0 <= i < |pieces| ==> |pieces[i]| > 0 && ':' !in pieces[i] && '.' !in pieces[i]
  {
    if |pieces| > 0 {
      SpelledPieces(pieces[1..], groups[1..], zeros[1..]);
      PaddedGroup(groups[0], zeros[0]);
      assert [groups[0]] + groups[1..] == groups;
      assert forall i :: 1 <= i < |pieces| ==> pieces[i] == pieces[1..][i - 1];
    }
  }

  /** Written out in full, with or without leading zeros, an address gets the canonical form of its groups. */
  lemma FullSpelling(pieces: seq<string>, groups: seq<nat>, zeros: seq<nat>)
    requires IsAddress(groups) && Spells(pieces, groups, zeros)
    ensures Parse(Join(pieces, ':')) == Some(groups)
    ensures Canonicalize(Join(pieces, ':')) == Some(CanonicalText(groups))
  {
    SpelledPieces(pieces, groups, zeros);
    JoinHasNoGap(pieces);
    SplitJoin(pieces, ':');
    SplitGapWhole(Join(pieces, ':'));
  }

  // ---------------------------------------------------------------------------------------------
  // The standard grammar
  // ---------------------------------------------------------------------------------------------

  /** Four decimal octets without leading zeros. */
  predicate IsIpv4Text(value: string) {
    var octets := Split(value, '.');
    |octets| == 4 && forall i :: 0 <= i < 4 ==> IsOctetText(octets[i]) && octets[i] == PrintNumeral(ParseNumeral(octets[i], 10), 10)
  }

  /** A piece of section 2.2 of RFC 4291: a group, or an IPv4 address where one may stand. */
  predicate IsStrictPiece(piece: string, quadAllowed: bool) {
    if '.' in piece then quadAllowed && IsIpv4Text(piece) else IsGroupText(piece)
  }

  predicate IsStrictPart(part: string, quadAllowed: bool) {
    |part| > 0 ==>
      var pieces := Split(part, ':');
      forall i :: 0 <= i < |pieces| ==> IsStrictPiece(pieces[i], quadAllowed && i == |pieces| - 1)
  }

  function LastPiece(part: string): string {
    var pieces := Split(part, ':');
    pieces[|pieces| - 1]
  }

  predicate EndsInQuad(part: string) {
    |part| > 0 && '.' in LastPiece(part)
  }

  function GroupCount(part: string): nat {
    if |part| == 0 then 0 else |Split(part, ':')| + if EndsInQuad(part) then 1 else 0
  }

  /**
   * What section 2.2 of RFC 4291 calls an address, in lower case: eight groups, or fewer around one
   * `::`, of which an IPv4 address may take the place of the last two.
   */
  predicate IsIpv6Text(value: string) {
    var halves := SplitGap(value);
    && |halves| <= 2
    && IsStrictPart(halves[|halves| - 1], true)
    && if |halves| == 2 then IsStrictPart(halves[0], false) && GroupCount(halves[0]) + GroupCount(halves[1]) < GROUPS
       else GroupCount(halves[0]) == GROUPS
  }

  lemma {:induction false} PiecesParseIff(pieces: seq<string>)
    requires |pieces| > 0
    ensures ParsePieces(pieces).Some? <==> forall i :: 0 <= i < |pieces| ==> ParsePiece(pieces[i], i == |pieces| - 1).Some?
    ensures ParsePieces(pieces).Some? ==>
              |ParsePieces(pieces).value| == |pieces| + if '.' in pieces[|pieces| - 1] then 1 else 0
  {
    var rest := pieces[1..];
    if |rest| == 0 {
      assert ParsePieces(rest) == Some([]);
    } else {
      PiecesParseIff(rest);
      assert forall i :: 0 <= i < |rest| ==> rest[i] == pieces[i + 1];
      assert forall i :: 1 <= i < |pieces| ==> pieces[i] == rest[i - 1];
    }
  }

  lemma StrictPieceIff(piece: string, quadAllowed: bool, isLast: bool)
    ensures IsStrictPiece(piece, quadAllowed && isLast) <==>
              ParsePiece(piece, isLast).Some? && ('.' in piece ==> quadAllowed && IsIpv4Text(piece))
  {
  }

  lemma StrictPiecesIff(pieces: seq<string>, quadAllowed: bool)
    requires |pieces| > 0
    ensures (forall i :: 0 <= i < |pieces| ==> IsStrictPiece(pieces[i], quadAllowed && i == |pieces| - 1)) <==>
              && ParsePieces(pieces).Some?
              && ('.' in pieces[|pieces| - 1] ==> quadAllowed && IsIpv4Text(pieces[|pieces| - 1]))
  {
    PiecesParseIff(pieces);
    forall i | 0 <= i < |pieces|
      ensures IsStrictPiece(pieces[i], quadAllowed && i == |pieces| - 1) <==>
                ParsePiece(pieces[i], i == |pieces| - 1).Some? && ('.' in pieces[i] ==> quadAllowed && IsIpv4Text(pieces[i]))
      ensures i < |pieces| - 1 && ParsePiece(pieces[i], i == |pieces| - 1).Some? ==> '.' !in pieces[i]
    {
      StrictPieceIff(pieces[i], quadAllowed, i == |pieces| - 1);
    }
  }

  /** The parser takes a half of the standard grammar, and besides those only quads it should not. */
  lemma StrictPartIff(part: string, quadAllowed: bool)
    ensures IsStrictPart(part, quadAllowed) <==>
              ParseGroups(part).Some? && (EndsInQuad(part) ==> quadAllowed && IsIpv4Text(LastPiece(part)))
    ensures ParseGroups(part).Some? ==> |ParseGroups(part).value| == GroupCount(part)
  {
    if |part| > 0 {
      StrictPiecesIff(Split(part, ':'), quadAllowed);
      PiecesParseIff(Split(part, ':'));
    }
  }

  /** The two liberties the parser takes with a dotted quad. */
  predicate HasLooseQuad(halves: seq<string>)
    requires |halves| > 0
  {
    || (|halves| == 2 && EndsInQuad(halves[0]))
    || (EndsInQuad(halves[|halves| - 1]) && !IsIpv4Text(LastPiece(halves[|halves| - 1])))
  }

  /**
   * The parser alone against section 2.2 of RFC 4291: it reads every address of the standard, and
   * what it reads beyond are exactly the texts with a dotted quad in front of the `::` or with a
   * leading zero in an octet. The program asks `isIP` first, so neither reaches it there.
   */
  lemma Ipv6TextIff(value: string)
    ensures IsIpv6Text(value) <==> Parse(value).Some? && !HasLooseQuad(SplitGap(value))
  {
    var halves := SplitGap(value);
    StrictPartIff(halves[0], false);
    StrictPartIff(halves[|halves| - 1], true);
  }

  lemma QuadTextIsStrict(high: nat, low: nat)
    requires high < GROUP_LIMIT && low < GROUP_LIMIT
    ensures IsIpv4Text(DottedQuad(high, low))
  {
    QuadRoundTrip(high, low);
    PrintedOctet(high / 256);
    PrintedOctet(high % 256);
    PrintedOctet(low / 256);
    PrintedOctet(low % 256);
  }

  lemma PrintedEndsInGroup(groups: seq<nat>)
    requires forall i :: 0 <= i < |groups| ==> groups[i] < GROUP_LIMIT
    ensures !EndsInQuad(JoinGroups(groups))
  {
    if |groups| > 0 {
      forall i | 0 <= i < |groups|
        ensures ':' !in PrintGroups(groups)[i] && '.' !in PrintGroups(groups)[i]
      {
        PrintedGroup(groups[i]);
      }
      SplitJoin(PrintGroups(groups), ':');
    }
  }

  /** What is printed is an address of the standard grammar, for the same groups. */
  lemma PrintIsIpv6Text(groups: seq<nat>)
    requires IsAddress(groups)
    ensures IsIpv6Text(Print(groups)) && Parse(Print(groups)) == Some(groups)
  {
    var (start, length) := LongestRun(groups);
    ParsePrint(groups);
    Ipv6TextIff(Print(groups));
    if length < 2 {
      PrintedHasNoGap(groups);
      SplitGapWhole(JoinGroups(groups));
      PrintedEndsInGroup(groups);
    } else {
      var (head, tail) := (groups[..start], groups[start + length..]);
      PrintedHasNoGap(head);
      PrintedHasNoGap(tail);
      SplitGapOnce(JoinGroups(head), JoinGroups(tail));
      PrintedEndsInGroup(head);
      PrintedEndsInGroup(tail);
    }
  }

  /** A quad in front of the `::` is one of those texts. */
  lemma QuadBeforeGapAccepted(high: nat, low: nat)
    requires high < GROUP_LIMIT && low < GROUP_LIMIT
    ensures Parse(DottedQuad(high, low) + GAP) == Some([high, low] + Zeros(6)) && !IsIpv6Text(DottedQuad(high, low) + GAP)
  {
    var quad := DottedQuad(high, low);
    QuadRoundTrip(high, low);
    QuadPiece(high, low);
    NoColonNoGap(quad);
    NoColonNoGap("");
    SplitGapOnce(quad, "");
    assert quad + GAP + "" == quad + GAP;
    GapHalves(quad, "", [high, low], []);
    assert [high, low] + Zeros(6) + [] == [high, low] + Zeros(6);
    Ipv6TextIff(quad + GAP);
    JoinHasSeparator(Octets(high, low), '.');
  }

  // ---------------------------------------------------------------------------------------------
  // The loops
  // ---------------------------------------------------------------------------------------------

  /** The octets of a quad, one after the other. */
  method ParseQuadText(piece: string) returns (groups: Option<seq<nat>>)
    ensures groups == ParseQuad(piece)
  {
    var octets := Split(piece, '.');
    if |octets| != 4 {
      return None;
    }
    var bytes: seq<nat> := [];
    for i := 0 to |octets|
      invariant |bytes| == i
      invariant forall k :: 0 <= k < i ==> IsOctetText(octets[k]) && bytes[k] == ParseNumeral(octets[k], 10)
    {
      if !(1 <= |octets[i]| <= 3 && AllNumerals(octets[i], 10)) {
        return None;
      }
      var byte := ParseNumeral(octets[i], 10);
      if byte > 255 {
        return None;
      }
      bytes := bytes + [byte];
    }
    groups := Some([bytes[0] * 256 + bytes[1], bytes[2] * 256 + bytes[3]]);
  }

  method ParsePart(part: string) returns (groups: Option<seq<nat>>)
    ensures groups == ParseGroups(part)
  {
    if |part| == 0 {
      return Some([]);
    }
    var pieces := Split(part, ':');
    var parsed: seq<nat> := [];
    assert pieces[0..] == pieces;
    ConcatEmpty(ParsePieces(pieces));
    for i := 0 to |pieces|
      invariant ParsePieces(pieces) == Concat(Some(parsed), ParsePieces(pieces[i..]))
    {
      assert pieces[i..][1..] == pieces[i + 1..];
      ConcatAssociative(Some(parsed), ParsePiece(pieces[i], i == |pieces| - 1), ParsePieces(pieces[i + 1..]));
      var piece := pieces[i];
      if '.' in piece {
        if i != |pieces| - 1 {
          return None;
        }
        var quad := ParseQuadText(piece);
        if quad.None? {
          return None;
        }
        parsed := parsed + quad.value;
      } else {
        if !IsGroupText(piece) {
          return None;
        }
        parsed := parsed + [ParseNumeral(piece, 16)];
      }
    }
    ConcatEmpty(Some(parsed));
    groups := Some(parsed);
  }

  method ParseAddress(value: string) returns (groups: Option<seq<nat>>)
    ensures groups == Parse(value)
    ensures groups.Some? ==> IsAddress(groups.value)
  {
    var halves := SplitGap(value);
    if |halves| > 2 {
      return None;
    }
    var head := ParsePart(halves[0]);
    var tail: Option<seq<nat>> := Some([]);
    if |halves| == 2 {
      tail := ParsePart(halves[1]);
    }
    if head.None? || tail.None? {
      return None;
    }
    if |halves| == 2 {
      var gap := GROUPS - |head.value| - |tail.value|;
      groups := if gap >= 1 then Some(head.value + Zeros(gap) + tail.value) else None;
    } else {
      groups := if |head.value| == GROUPS then head else None;
    }
    if groups.Some? {
      ParsedIsAddress(value);
    }
  }

  /** The best run that ends before `index`, not counting one that is still open at `runStart`. */
  ghost predicate BestSoFar(groups: seq<nat>, index: int, runStart: int, bestStart: int, bestLength: int) {
    var bound := if runStart == -1 then index else runStart;
    && bestLength >= 0
    && (if bestLength == 0 then bestStart == -1 else IsZeroRun(groups, bestStart, bestLength) && bestStart < bound)
    && forall s, l :: IsZeroRun(groups, s, l) && l > 0 && s < bound ==> l <= bestLength && (l == bestLength ==> bestStart <= s)
  }

  /** A run that starts at `runStart` cannot pass the first group that is not zero. */
  lemma RunEnds(groups: seq<nat>, runStart: int, index: int, s: int, l: int)
    requires 0 <= runStart < index <= |groups| && (index < |groups| ==> groups[index] != 0)
    requires IsZeroRun(groups, s, l) && runStart <= s < index
    ensures s + l <= index
  {
    assert index < |groups| ==> !(s <= index < s + l);
  }

  /** One pass over the groups finds the leftmost longest run, or none. */
  method FindLongestRun(groups: seq<nat>) returns (bestStart: int, bestLength: int)
    ensures bestLength == 0 ==> bestStart == -1
    ensures IsLeftmostLongest(groups, if bestLength == 0 then 0 else bestStart, bestLength)
  {
    bestStart, bestLength := -1, 0;
    var runStart := -1;
    for index := 0 to |groups| + 1
      invariant -1 <= runStart < index
      invariant runStart != -1 ==> index <= |groups| && IsZeroRun(groups, runStart, index - runStart)
      invariant BestSoFar(groups, index, runStart, bestStart, bestLength)
    {
      if index < |groups| && groups[index] == 0 {
        runStart := if runStart == -1 then index else runStart;
      } else {
        if runStart != -1 {
          forall s, l | IsZeroRun(groups, s, l) && l > 0 && runStart <= s < index
            ensures s + l <= index
          {
            RunEnds(groups, runStart, index, s, l);
          }
          if index - runStart > bestLength {
            bestStart := runStart;
            bestLength := index - runStart;
          }
        }
        runStart := -1;
      }
    }
  }

  lemma PrintAround(groups: seq<nat>, start: int, length: int)
    requires IsLeftmostLongest(groups, start, length)
    ensures Print(groups) == if length < 2 then JoinGroups(groups)
                             else JoinGroups(groups[..start]) + GAP + JoinGroups(groups[start + length..])
  {
    var best := LongestRun(groups);
    LeftmostLongestUnique(groups, start, length, best.0, best.1);
  }

  /** The printer: the single pass, then the two halves around the run. */
  method Serialize(groups: seq<nat>) returns (text: string)
    ensures text == Print(groups)
  {
    var bestStart, bestLength := FindLongestRun(groups);
    PrintAround(groups, if bestLength == 0 then 0 else bestStart, bestLength);
    if bestLength < 2 {
      text := Join(PrintGroups(groups), ':');
    } else {
      text := Join(PrintGroups(groups[..bestStart]), ':') + GAP + Join(PrintGroups(groups[bestStart + bestLength..]), ':');
    }
  }

  /**
   * Section 4.2 of RFC 5952: there is a `::` exactly when two neighbouring groups are zero. That it
   * stands for the leftmost longest run is `LongestRun`.
   */
  lemma GapIffTwoZeroGroups(groups: seq<nat>)
    requires IsAddress(groups)
    ensures (exists i :: 0 <= i < |groups| - 1 && groups[i] == groups[i + 1] == 0) <==> !NoGap(Print(groups))
  {
    var (start, length) := LongestRun(groups);
    if length >= 2 {
      assert groups[start] == groups[start + 1] == 0;
      var at := |JoinGroups(groups[..start])|;
      assert Print(groups)[at] == ':' && Print(groups)[at + 1] == ':';
    } else {
      PrintedHasNoGap(groups);
      forall i | 0 <= i < |groups| - 1
        ensures !(groups[i] == groups[i + 1] == 0)
      {
        assert !IsZeroRun(groups, i, 2);
      }
    }
  }

  /** Sections 4.1 and 4.3 of RFC 5952: lower case, at most four digits, and a leading zero only in zero itself. */
  lemma GroupNumeral(n: nat)
    requires n < GROUP_LIMIT
    ensures var numeral := PrintNumeral(n, 16);
            IsGroupText(numeral) && (numeral[0] == '0' ==> numeral == "0") && ParseNumeral(numeral, 16) == n
  {
    PrintedGroup(n);
    NumeralRoundTrip(n, 16);
  }
}
