/** Which client a request belongs to (rate-limiting/rate-limit-discriminator.ts). */
module ClientIdentity {
  import opened Common
  import opened Text
  import opened Ipv6
  import opened ForwardedChain

  // ---------------------------------------------------------------------------------------------
  // Normalization
  // ---------------------------------------------------------------------------------------------

  /** The family of an address text in the standard grammar, 0 for anything else (`isIP`). */
  function IpVersion(value: string): nat {
    if IsIpv6Text(value) then 6 else if IsIpv4Text(value) then 4 else 0
  }

  /** The part in front of the first `mark`. */
  function Before(s: string, mark: char): string {
    if |s| == 0 || s[0] == mark then "" else [s[0]] + Before(s[1..], mark)
  }

  function Unbracket(s: string): string {
    if |s| >= 2 && s[0] == '[' && s[|s| - 1] == ']' then s[1..|s| - 1] else s
  }

  /** Trimmed, lower case, without zone and brackets. */
  function Cleaned(raw: string): string {
    Unbracket(Before(Lower(Trim(raw)), '%'))
  }

  /** IPv6 in canonical form, anything else as it is; an empty text shares one budget. */
  function Normalize(raw: string): string {
    if |Lower(Trim(raw))| == 0 then ""
    else
      var value := Cleaned(raw);
      if IpVersion(value) != 6 then value
      else if Canonicalize(value).Some? then Canonicalize(value).value
      else ""
  }

  predicate IsAddressEntry(entry: string) {
    IpVersion(Normalize(entry)) != 0
  }

  /** The 128 bits an address text stands for, an IPv4 address by its mapped form. */
  function Denotes(value: string): Option<seq<nat>> {
    if IsIpv6Text(value) then Parse(value)
    else if IsIpv4Text(value) && ParseQuad(value).Some? then Some(Zeros(5) + [0xffff] + ParseQuad(value).value)
    else None
  }

  lemma {:induction false} JoinSplit(s: string, separator: char)
    ensures Join(Split(s, separator), separator) == s
  {
    if |s| > 0 {
      JoinSplit(s[1..], separator);
      var rest := Split(s[1..], separator);
      if s[0] == separator {
        assert ([""] + rest)[1..] == rest;
      } else {
        assert ([[s[0]] + rest[0]] + rest[1..])[1..] == rest[1..];
        JoinHead(rest, separator, s[0]);
      }
      assert [s[0]] + s[1..] == s;
    }
  }

  lemma JoinHead(pieces: seq<string>, separator: char, c: char)
    requires |pieces| > 0
    ensures Join([[c] + pieces[0]] + pieces[1..], separator) == [c] + Join(pieces, separator)
  {
    var longer := [[c] + pieces[0]] + pieces[1..];
    assert longer[1..] == pieces[1..];
  }

  lemma OctetBounds(high: nat, low: nat, a: nat, b: nat, c: nat, d: nat)
    requires a <= 255 && b <= 255 && c <= 255 && d <= 255 && high == a * 256 + b && low == c * 256 + d
    ensures high < GROUP_LIMIT && low < GROUP_LIMIT
    ensures high / 256 == a && high % 256 == b && low / 256 == c && low % 256 == d
  {
  }

  /** An IPv4 text is the dotted quad of the two groups it stands for. */
  lemma Ipv4TextIsQuad(value: string) returns (high: nat, low: nat)
    requires IsIpv4Text(value)
    ensures high < GROUP_LIMIT && low < GROUP_LIMIT
    ensures value == DottedQuad(high, low) && ParseQuad(value) == Some([high, low])
  {
    var octets := Split(value, '.');
    var (a, b) := (ParseNumeral(octets[0], 10), ParseNumeral(octets[1], 10));
    var (c, d) := (ParseNumeral(octets[2], 10), ParseNumeral(octets[3], 10));
    high, low := a * 256 + b, c * 256 + d;
    OctetBounds(high, low, a, b, c, d);
    assert octets == Octets(high, low);
    JoinSplit(value, '.');
  }

  lemma QuadIsIpv4Text(high: nat, low: nat)
    requires high < GROUP_LIMIT && low < GROUP_LIMIT
    ensures IsIpv4Text(DottedQuad(high, low)) && !IsIpv6Text(DottedQuad(high, low))
  {
    QuadTextIsStrict(high, low);
    QuadRoundTrip(high, low);
    QuadPiece(high, low);
    NoColonNoGap(DottedQuad(high, low));
    SplitGapWhole(DottedQuad(high, low));
    Ipv6TextIff(DottedQuad(high, low));
  }

  /** A dotted quad stands for its own mapped address. */
  lemma QuadDenotes(high: nat, low: nat)
    requires high < GROUP_LIMIT && low < GROUP_LIMIT
    ensures IpVersion(DottedQuad(high, low)) == 4
    ensures Denotes(DottedQuad(high, low)) == Some(Zeros(5) + [0xffff, high, low])
  {
    QuadRoundTrip(high, low);
    QuadIsIpv4Text(high, low);
    assert Zeros(5) + [0xffff] + [high, low] == Zeros(5) + [0xffff, high, low];
  }

  lemma MappedGroups(groups: seq<nat>)
    requires IsAddress(groups) && IsMapped(groups)
    ensures groups == Zeros(5) + [0xffff, groups[6], groups[7]]
  {
  }

  /** The canonical text of an address is an address text, and stands for the same address. */
  lemma CanonicalDenotes(groups: seq<nat>)
    requires IsAddress(groups)
    ensures IpVersion(CanonicalText(groups)) != 0 && Denotes(CanonicalText(groups)) == Some(groups)
  {
    if IsMapped(groups) {
      QuadDenotes(groups[6], groups[7]);
      MappedGroups(groups);
    } else {
      PrintIsIpv6Text(groups);
    }
  }

  /** What an address text is normalized to is the canonical text of what it stands for. */
  lemma NormalizedText(raw: string)
    requires IpVersion(Cleaned(raw)) != 0
    ensures Denotes(Cleaned(raw)).Some? && IsAddress(Denotes(Cleaned(raw)).value)
    ensures Normalize(raw) == CanonicalText(Denotes(Cleaned(raw)).value)
  {
    var value := Cleaned(raw);
    BlankIsNoAddress(raw);
    Ipv6TextIff(value);
    if IsIpv6Text(value) {
      ParsedIsAddress(value);
    } else {
      var high, low := Ipv4TextIsQuad(value);
      QuadDenotes(high, low);
      var groups := Zeros(5) + [0xffff, high, low];
      assert IsAddress(groups) && IsMapped(groups) && groups[6] == high && groups[7] == low;
    }
  }

  lemma BlankIsNoAddress(raw: string)
    requires IpVersion(Cleaned(raw)) != 0
    ensures |Lower(Trim(raw))| > 0
  {
    EmptyIsNoAddress();
    assert |Lower(Trim(raw))| == 0 ==> Cleaned(raw) == "";
  }

  /**
   * One client, one budget: two spellings of addresses get the same identity exactly when they stand
   * for the same address, be it IPv6, IPv4-mapped IPv6 or IPv4.
   */
  lemma SameIdentityIffSameAddress(a: string, b: string)
    requires IpVersion(Cleaned(a)) != 0 && IpVersion(Cleaned(b)) != 0
    ensures Normalize(a) == Normalize(b) <==> Denotes(Cleaned(a)) == Denotes(Cleaned(b))
  {
    NormalizedText(a);
    NormalizedText(b);
    if Normalize(a) == Normalize(b) {
      CanonicalTextInjective(Denotes(Cleaned(a)).value, Denotes(Cleaned(b)).value);
    }
  }

  /** An entry counts as an address exactly when its cleaned text is one. */
  lemma AddressEntryIff(entry: string)
    ensures IsAddressEntry(entry) <==> IpVersion(Cleaned(entry)) != 0
  {
    if IpVersion(Cleaned(entry)) != 0 {
      NormalizedText(entry);
      CanonicalDenotes(Denotes(Cleaned(entry)).value);
    } else {
      EmptyIsNoAddress();
    }
  }

  lemma EmptyIsNoAddress()
    ensures IpVersion("") == 0
  {
    SplitGapWhole("");
    Ipv6TextIff("");
  }

  // ---------------------------------------------------------------------------------------------
  // Resolution
  // ---------------------------------------------------------------------------------------------

  /** Entries are normalized addresses; the allowlist is an arbitrary predicate on address texts. */
  function ReaderFor(allows: string -> bool): Reader {
    Reader(IsAddressEntry, Normalize, address => IpVersion(address) != 0 && allows(address))
  }

  /**
   * Two headers whose last `hops` entries name the same client in two spellings give the client one
   * identity: the walk answers with normalized text.
   */
  lemma WalkAnswersCanonically(allows: string -> bool, a: seq<string>, b: seq<string>, i: nat, j: nat)
    requires i < |a| && j < |b| && IsUntrustedAddress(ReaderFor(allows), a[i]) && IsUntrustedAddress(ReaderFor(allows), b[j])
    requires forall k :: i < k < |a| ==> !IsUntrustedAddress(ReaderFor(allows), a[k])
    requires forall k :: j < k < |b| ==> !IsUntrustedAddress(ReaderFor(allows), b[k])
    ensures Walk(ReaderFor(allows), a) == Walk(ReaderFor(allows), b) <==> Denotes(Cleaned(a[i])) == Denotes(Cleaned(b[j]))
  {
    RightmostUntrustedIs(ReaderFor(allows), a, i);
    RightmostUntrustedIs(ReaderFor(allows), b, j);
    AddressEntryIff(a[i]);
    AddressEntryIff(b[j]);
    SameIdentityIffSameAddress(a[i], b[j]);
  }

  // ---------------------------------------------------------------------------------------------
  // Who may speak for the client
  // ---------------------------------------------------------------------------------------------

  /** Digits and dots only. */
  predicate IsPlain(s: string) {
    forall i :: 0 <= i < |s| ==> IsDigit(s[i]) || s[i] == '.'
  }

  lemma {:induction false} JoinIsPlain(pieces: seq<string>)
    requires forall i :: 0 <= i < |pieces| ==> IsPlain(pieces[i])
    ensures IsPlain(Join(pieces, '.'))
  {
    if |pieces| > 1 {
      JoinIsPlain(pieces[1..]);
    }
  }

  lemma {:induction false} PlainIsLower(s: string)
    requires IsPlain(s)
    ensures Lower(s) == s
  {
    if |s| > 0 {
      PlainIsLower(s[1..]);
      assert [s[0]] + s[1..] == s;
    }
  }

  lemma {:induction false} PlainHasNoZone(s: string)
    requires IsPlain(s)
    ensures Before(s, '%') == s
  {
    if |s| > 0 {
      PlainHasNoZone(s[1..]);
      assert [s[0]] + s[1..] == s;
    }
  }

  lemma QuadIsPlain(high: nat, low: nat)
    requires high < GROUP_LIMIT && low < GROUP_LIMIT
    ensures IsPlain(DottedQuad(high, low)) && |DottedQuad(high, low)| > 0
  {
    PrintedOctet(high / 256);
    PrintedOctet(high % 256);
    PrintedOctet(low / 256);
    PrintedOctet(low % 256);
    JoinIsPlain(Octets(high, low));
    QuadIsIpv4Text(high, low);
    EmptyIsNoAddress();
  }

  lemma PlainIsTrimmed(s: string)
    requires IsPlain(s) && |s| > 0
    ensures Trim(s) == s && Chain(Some(s)) == [s]
  {
    SplitWhole(s, ',');
    assert TrimAll([s]) == [s];
  }

  /** A dotted quad is its own identity, and as a header it is a chain of one. */
  lemma QuadEntry(high: nat, low: nat)
    requires high < GROUP_LIMIT && low < GROUP_LIMIT
    ensures var quad := DottedQuad(high, low);
            Normalize(quad) == quad && IsAddressEntry(quad) && Chain(Some(quad)) == [quad]
  {
    var quad := DottedQuad(high, low);
    QuadIsPlain(high, low);
    QuadIsIpv4Text(high, low);
    PlainIsTrimmed(quad);
    PlainIsLower(quad);
    PlainHasNoZone(quad);
  }

  /** A header of one address is answered with that address, trusted or not. */
  lemma OneEntryAnswers(allows: string -> bool, peer: string, high: nat, low: nat, hops: int)
    requires high < GROUP_LIMIT && low < GROUP_LIMIT
    requires hops > 0 && ReaderFor(allows).isTrusted(Normalize(peer))
    ensures Resolve(ReaderFor(allows), true, peer, Some(DottedQuad(high, low)), hops) == DottedQuad(high, low)
  {
    QuadEntry(high, low);
    RightmostUntrustedIs(ReaderFor(allows), [DottedQuad(high, low)], 0);
  }

  /**
   * The header has no influence exactly when the model says so: no hops, no allowlist, or a peer
   * outside the allowlist. In every other configuration two headers get two answers.
   */
  lemma HeaderIsIgnoredIff(allows: string -> bool, configured: bool, peer: string, hops: int)
    ensures (forall a, b :: Resolve(ReaderFor(allows), configured, peer, a, hops) == Resolve(ReaderFor(allows), configured, peer, b, hops))
            <==> hops <= 0 || !configured || !((IsIpv4Text(Normalize(peer)) || IsIpv6Text(Normalize(peer))) && allows(Normalize(peer)))
  {
    var r := ReaderFor(allows);
    if hops > 0 && configured && r.isTrusted(Normalize(peer)) {
      OneEntryAnswers(allows, peer, 0, 1, hops);
      OneEntryAnswers(allows, peer, 0, 2, hops);
      QuadRoundTrip(0, 1);
      QuadRoundTrip(0, 2);
      assert [0, 1][1] != [0, 2][1];
      assert Resolve(r, configured, peer, Some(DottedQuad(0, 1)), hops) != Resolve(r, configured, peer, Some(DottedQuad(0, 2)), hops);
    }
  }

  // ---------------------------------------------------------------------------------------------
  // Spellings of one client
  // ---------------------------------------------------------------------------------------------

  /** The characters of an address text: lower-case hexadecimal digits, colons and dots. */
  predicate IsAddressCharacter(c: char) {
    IsNumeral(c, 16) || c == ':' || c == '.'
  }

  predicate IsBare(s: string) {
    forall i :: 0 <= i < |s| ==> IsAddressCharacter(s[i])
  }

  lemma {:induction false} BareIsLower(s: string)
    requires IsBare(s)
    ensures Lower(s) == s
  {
    if |s| > 0 {
      BareIsLower(s[1..]);
      assert [s[0]] + s[1..] == s;
    }
  }

  lemma {:induction false} LowerConcat(a: string, b: string)
    ensures Lower(a + b) == Lower(a) + Lower(b)
  {
    if |a| == 0 {
      assert a + b == b;
    } else {
      assert (a + b)[1..] == a[1..] + b;
      LowerConcat(a[1..], b);
    }
  }

  /** Cut at the first zone mark. */
  lemma {:induction false} BeforeZone(a: string, b: string)
    requires '%' !in a
    ensures Before(a, '%') == a && Before(a + "%" + b, '%') == a
  {
    var s := a + "%" + b;
    if |a| > 0 {
      assert s[1..] == a[1..] + "%" + b;
      BeforeZone(a[1..], b);
      assert [a[0]] + a[1..] == a;
    }
  }

  lemma BareIsTrimmed(v: string)
    requires IsBare(v) && |v| > 0
    ensures Trim(v) == v && v[0] != '['
  {
  }

  lemma BareSpelling(v: string)
    requires IsBare(v) && |v| > 0
    ensures Cleaned(v) == v && Trim(v) == v
  {
    BareIsTrimmed(v);
    BareIsLower(v);
    BeforeZone(v, "");
  }

  lemma BracketsAreLower(v: string)
    requires IsBare(v)
    ensures Lower("[" + v + "]") == "[" + v + "]"
  {
    LowerConcat("[" + v, "]");
    LowerConcat("[", v);
    BareIsLower(v);
    LowerIs("[");
    LowerIs("]");
    assert Lower("[") == "[" && Lower("]") == "]";
  }

  lemma BracketedSpelling(v: string)
    requires IsBare(v)
    ensures Cleaned("[" + v + "]") == v && |Lower(Trim("[" + v + "]"))| > 0
  {
    var s := "[" + v + "]";
    assert Trim(s) == s;
    BracketsAreLower(v);
    BeforeZone(s, "");
    assert s[1..|s| - 1] == v;
  }

  lemma ZonedSpelling(v: string, zone: string)
    requires IsBare(v) && |v| > 0 && (|zone| > 0 ==> !IsSpace(zone[|zone| - 1]))
    ensures Cleaned(v + "%" + zone) == v && |Lower(Trim(v + "%" + zone))| > 0
  {
    var s := v + "%" + zone;
    assert Trim(s) == s;
    LowerConcat(v + "%", zone);
    LowerConcat(v, "%");
    LowerIs("%");
    BareIsLower(v);
    assert Lower("%") == "%";
    assert Lower(s) == v + "%" + Lower(zone);
    BeforeZone(v, Lower(zone));
  }

  /** The same character, or the capital of a hexadecimal digit. */
  predicate IsSameDigit(c: char, d: char) {
    c == d || ('a' <= d <= 'f' && c as int - 'A' as int == d as int - 'a' as int)
  }

  predicate IsCased(raw: string, v: string) {
    |raw| == |v| && forall i :: 0 <= i < |v| ==> IsSameDigit(raw[i], v[i])
  }

  lemma DigitIsLower(c: char, d: char)
    requires IsSameDigit(c, d) && IsAddressCharacter(d)
    ensures LowerChar(c) == d && !IsSpace(c) && c != '['
  {
  }

  lemma {:induction false} CasedIsLower(raw: string, v: string)
    requires IsBare(v) && IsCased(raw, v)
    ensures Lower(raw) == v
  {
    if |v| > 0 {
      DigitIsLower(raw[0], v[0]);
      CasedIsLower(raw[1..], v[1..]);
      assert [v[0]] + v[1..] == v;
    }
  }

  /** Any case, read as the text in lower case. */
  lemma CasedSpelling(raw: string, v: string)
    requires IsBare(v) && |v| > 0 && IsCased(raw, v)
    ensures Cleaned(raw) == v && |Lower(Trim(raw))| > 0
  {
    DigitIsLower(raw[0], v[0]);
    DigitIsLower(raw[|v| - 1], v[|v| - 1]);
    assert Trim(raw) == raw;
    CasedIsLower(raw, v);
    BeforeZone(v, "");
  }

  /**
   * Brackets, a zone and capital digits are no new client: each spelling of an address text gets the
   * identity of the address itself.
   */
  lemma SpellingsShareAnIdentity(v: string, zone: string, raw: string)
    requires IsBare(v) && |v| > 0 && (|zone| > 0 ==> !IsSpace(zone[|zone| - 1]))
    requires IsCased(raw, v)
    ensures Normalize("[" + v + "]") == Normalize(v)
    ensures Normalize(v + "%" + zone) == Normalize(v)
    ensures Normalize(raw) == Normalize(v)
  {
    BareSpelling(v);
    BracketedSpelling(v);
    ZonedSpelling(v, zone);
    CasedSpelling(raw, v);
    LowerIs(v);
  }

  /** A text that is no address keeps its identity as it is written, in lower case. */
  lemma OtherTextsStayApart(v: string)
    requires IsBare(v) && |v| > 0 && !IsIpv6Text(v)
    ensures Normalize(v) == v
  {
    BareSpelling(v);
    LowerIs(v);
  }
}
